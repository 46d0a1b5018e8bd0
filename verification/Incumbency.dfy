/** One best answer: at most one accepted artifact of a type, replaced only by a better one. */
module Incumbency {

  import opened Contracts
  import opened Tables
  import opened Commit

  ghost function ScoreOf(db: Db, gate: string, id: Id): Option<real> {
    var scores := GateScores(db.decisions, id);
    if gate in scores then Some(scores[gate]) else None
  }

  ghost predicate IsAccepted(db: Db, t: string, id: Id) {
    id in db.artifacts && db.artifacts[id].atype == t && db.artifacts[id].status == Accepted
  }

  /** Accepted now or at some time before. */
  ghost predicate Reigned(db: Db, t: string, id: Id) {
    id in db.artifacts && db.artifacts[id].atype == t && db.artifacts[id].status in {Accepted, Superseded}
  }

  ghost function Incumbent(db: Db, t: string): Option<Id> {
    if id :| IsAccepted(db, t, id) then Some(id) else None
  }

  /** The score to beat: the incumbent's, or 0 while there is none. */
  ghost function Base(db: Db, t: string, gate: string): real {
    match Incumbent(db, t)
    case None => 0.0
    case Some(id) => if ScoreOf(db, gate, id).Some? then ScoreOf(db, gate, id).value else 0.0
  }

  /** `b` replaced `a` and scored higher by more than the margin. */
  ghost predicate Replaced(db: Db, t: string, gate: string, margin: real, a: Id, b: Id) {
    && a in db.artifacts && db.artifacts[a].supersededBy == Some(b)
    && Reigned(db, t, b)
    && ScoreOf(db, gate, a).Some? && ScoreOf(db, gate, b).Some?
    && ScoreOf(db, gate, b).value > ScoreOf(db, gate, a).value + margin
  }

  ghost predicate OneBest(db: Db, t: string, gate: string, margin: real) {
    && (forall a, b | IsAccepted(db, t, a) && IsAccepted(db, t, b) :: a == b)
    && (forall a | Reigned(db, t, a) :: ScoreOf(db, gate, a).Some?)
    && (forall a | Reigned(db, t, a) && db.artifacts[a].status == Superseded ::
          && db.artifacts[a].supersededBy.Some?
          && Replaced(db, t, gate, margin, a, db.artifacts[a].supersededBy.value))
  }

  // ------------------------------------------------------------------ chains

  /** A supersession chain: each member was replaced by the next. */
  ghost predicate IsReign(db: Db, t: string, gate: string, margin: real, path: seq<Id>) {
    && path != []
    && (forall i | 0 <= i < |path| :: Reigned(db, t, path[i]))
    && (forall i | 0 <= i < |path| - 1 :: Replaced(db, t, gate, margin, path[i], path[i + 1]))
  }

  ghost function Better(db: Db, t: string, gate: string, id: Id): set<Id>
    requires ScoreOf(db, gate, id).Some?
  {
    set b | b in db.artifacts && Reigned(db, t, b) && ScoreOf(db, gate, b).Some?
            && ScoreOf(db, gate, b).value > ScoreOf(db, gate, id).value
  }

  /** Every chain of replacements is finite and ends at the one accepted artifact, the score rising
      by more than the margin at every link. */
  lemma {:induction false} ChainsEndAtIncumbent(db: Db, t: string, gate: string, margin: real, id: Id)
    returns (path: seq<Id>)
    requires OneBest(db, t, gate, margin) && margin >= 0.0 && Reigned(db, t, id)
    ensures IsReign(db, t, gate, margin, path) && path[0] == id
    ensures IsAccepted(db, t, path[|path| - 1]) && Incumbent(db, t) == Some(path[|path| - 1])
    decreases Better(db, t, gate, id)
  {
    if db.artifacts[id].status == Accepted {
      assert IsAccepted(db, t, id);
      path := [id];
    } else {
      var next := db.artifacts[id].supersededBy.value;
      assert Replaced(db, t, gate, margin, id, next);
      assert next in Better(db, t, gate, id) && next !in Better(db, t, gate, next);
      var rest := ChainsEndAtIncumbent(db, t, gate, margin, next);
      path := [id] + rest;
      assert forall i | 0 < i < |path| :: path[i] == rest[i - 1];
      forall i | 0 <= i < |path| - 1 ensures Replaced(db, t, gate, margin, path[i], path[i + 1]) {
        if i > 0 { assert Replaced(db, t, gate, margin, rest[i - 1], rest[i - 1 + 1]); }
      }
    }
  }

  /** Along any chain of replacements the score rises by more than the margin a link. */
  lemma {:induction false} ReignsRise(db: Db, t: string, gate: string, margin: real, path: seq<Id>, i: nat, j: nat)
    requires IsReign(db, t, gate, margin, path) && margin >= 0.0 && i < j < |path|
    ensures ScoreOf(db, gate, path[i]).Some? && ScoreOf(db, gate, path[j]).Some?
    ensures ScoreOf(db, gate, path[j]).value > ScoreOf(db, gate, path[i]).value + margin * (j - i) as real
    ensures path[i] != path[j]
    decreases j - i
  {
    assert Replaced(db, t, gate, margin, path[j - 1], path[j - 1 + 1]);
    if i + 1 < j {
      ReignsRise(db, t, gate, margin, path, i, j - 1);
      assert margin * (j - i) as real == margin * (j - 1 - i) as real + margin;
    }
  }

  // ------------------------------------------------------------------ one commit

  /** A bundle that improves: an accept names the incumbent (or none when there is none) and carries
      a score above the base by more than the margin. */
  ghost predicate Improves(db: Db, b: VerdictBundle, t: string, gate: string, margin: real, id: Id, now: Timestamp) {
    b.status == Accepted ==>
      && b.supersedes == Incumbent(db, t)
      && var scores := GateScores(RowsOf(id, b.decisions, now), id);
         gate in scores && scores[gate] > Base(db, t, gate) + margin
  }

  /** Decisions are only ever about committed artifacts. */
  ghost predicate DecisionsSettled(db: Db) {
    forall d | d in db.decisions :: d.artifactId in db.artifacts && db.artifacts[d.artifactId].status != Proposed
  }

  lemma ScoresAfter(db: Db, next: Db, a: Artifact, b: VerdictBundle, exhausted: bool, now: Timestamp)
    requires Settles(db, next, a, b, exhausted, now)
    requires DecisionsSettled(db) && db.artifacts[a.id].status == Proposed
    ensures forall id | id != a.id :: GateScores(next.decisions, id) == GateScores(db.decisions, id)
    ensures forall gate, id | id != a.id :: ScoreOf(next, gate, id) == ScoreOf(db, gate, id)
    ensures GateScores(next.decisions, a.id) == GateScores(RowsOf(a.id, b.decisions, now), a.id)
  {
    forall id | id != a.id ensures GateScores(next.decisions, id) == GateScores(db.decisions, id) {
      ScoresOfOthersKept(db.decisions, RowsOf(a.id, b.decisions, now), id);
    }
    ScoresOfNewcomer(db.decisions, RowsOf(a.id, b.decisions, now), a.id);
  }

  lemma CommitKeepsSettled(db: Db, next: Db, a: Artifact, b: VerdictBundle, exhausted: bool, now: Timestamp)
    requires Settles(db, next, a, b, exhausted, now) && DecisionsSettled(db)
    ensures DecisionsSettled(next)
  {
    forall d | d in next.decisions
      ensures d.artifactId in next.artifacts && next.artifacts[d.artifactId].status != Proposed
    {
      if d in db.decisions {
        var id := d.artifactId;
        if id != a.id && !(b.status == Accepted && b.supersedes == Some(id)) {
          assert next.artifacts[id] == db.artifacts[id];
        }
      }
    }
  }

  lemma IncumbentIs(db: Db, t: string, gate: string, margin: real, id: Id)
    requires OneBest(db, t, gate, margin) && IsAccepted(db, t, id)
    ensures Incumbent(db, t) == Some(id)
    ensures ScoreOf(db, gate, id).Some? && Base(db, t, gate) == ScoreOf(db, gate, id).value
  {
    assert Reigned(db, t, id);
  }

  /** Who is accepted and who reigned after a commit. */
  lemma ReignAfter(db: Db, next: Db, a: Artifact, b: VerdictBundle, exhausted: bool, now: Timestamp, t: string, id: Id)
    requires Settles(db, next, a, b, exhausted, now) && db.artifacts[a.id].status == Proposed
    requires b.status == Accepted ==> b.supersedes == Incumbent(db, t)
    ensures id != a.id ==> (Reigned(next, t, id) <==> Reigned(db, t, id))
    ensures id != a.id && !(b.status == Accepted && b.supersedes == Some(id)) ==>
      (IsAccepted(next, t, id) <==> IsAccepted(db, t, id))
    ensures id == a.id && Reigned(next, t, id) ==> b.status == Accepted && next.artifacts[id].status == Accepted
  {
    if id in db.artifacts && id != a.id && !(b.status == Accepted && b.supersedes == Some(id)) {
      assert next.artifacts[id] == db.artifacts[id];
    }
  }

  /** An improving commit keeps the one best answer. */
  lemma CommitKeepsOneBest(db: Db, next: Db, a: Artifact, b: VerdictBundle, exhausted: bool, now: Timestamp,
                           t: string, gate: string, margin: real)
    requires OneBest(db, t, gate, margin) && DecisionsSettled(db)
    requires Settles(db, next, a, b, exhausted, now)
    requires db.artifacts[a.id].status == Proposed && db.artifacts[a.id].atype == t
    requires Improves(db, b, t, gate, margin, a.id, now)
    ensures OneBest(next, t, gate, margin)
  {
    ScoresAfter(db, next, a, b, exhausted, now);
    forall x, y | IsAccepted(next, t, x) && IsAccepted(next, t, y) ensures x == y {
      OnlyOneAfter(db, next, a, b, exhausted, now, t, gate, margin, x);
      OnlyOneAfter(db, next, a, b, exhausted, now, t, gate, margin, y);
    }
    forall x | Reigned(next, t, x) ensures ScoreOf(next, gate, x).Some? {
      ReignAfter(db, next, a, b, exhausted, now, t, x);
    }
    forall x | Reigned(next, t, x) && next.artifacts[x].status == Superseded
      ensures next.artifacts[x].supersededBy.Some?
        && Replaced(next, t, gate, margin, x, next.artifacts[x].supersededBy.value)
    {
      LinkAfter(db, next, a, b, exhausted, now, t, gate, margin, x);
    }
  }

  lemma OnlyOneAfter(db: Db, next: Db, a: Artifact, b: VerdictBundle, exhausted: bool, now: Timestamp,
                     t: string, gate: string, margin: real, x: Id)
    requires OneBest(db, t, gate, margin)
    requires Settles(db, next, a, b, exhausted, now) && db.artifacts[a.id].status == Proposed
    requires b.status == Accepted ==> b.supersedes == Incumbent(db, t)
    requires IsAccepted(next, t, x)
    ensures if b.status == Accepted then x == a.id else Incumbent(db, t) == Some(x)
  {
    assert Reigned(next, t, x);
    ReignAfter(db, next, a, b, exhausted, now, t, x);
    if x != a.id {
      if !(b.status == Accepted && b.supersedes == Some(x)) {
        IncumbentIs(db, t, gate, margin, x);
      }
    }
  }

  lemma LinkAfter(db: Db, next: Db, a: Artifact, b: VerdictBundle, exhausted: bool, now: Timestamp,
                  t: string, gate: string, margin: real, x: Id)
    requires OneBest(db, t, gate, margin) && DecisionsSettled(db)
    requires Settles(db, next, a, b, exhausted, now)
    requires db.artifacts[a.id].status == Proposed && db.artifacts[a.id].atype == t
    requires Improves(db, b, t, gate, margin, a.id, now)
    requires Reigned(next, t, x) && next.artifacts[x].status == Superseded
    ensures next.artifacts[x].supersededBy.Some?
    ensures Replaced(next, t, gate, margin, x, next.artifacts[x].supersededBy.value)
  {
    ScoresAfter(db, next, a, b, exhausted, now);
    ReignAfter(db, next, a, b, exhausted, now, t, x);
    if b.status == Accepted && b.supersedes == Some(x) {
      assert IsAccepted(db, t, x);
      IncumbentIs(db, t, gate, margin, x);
      assert Reigned(next, t, a.id);
    } else {
      assert next.artifacts[x] == db.artifacts[x];
      var y := db.artifacts[x].supersededBy.value;
      assert Replaced(db, t, gate, margin, x, y);
      ReignAfter(db, next, a, b, exhausted, now, t, y);
    }
  }
}

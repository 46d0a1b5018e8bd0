/** What the verifier is shown of the store: the declared slice and its recorded scores. */
module Slices {

  import opened Contracts
  import opened Ordering
  import opened Tables
  import opened Store
  import opened Intake

  function Provided(db: Db, a: Artifact, kind: StoreInput): seq<Artifact> {
    match kind
    case Incumbents => Query(db.artifacts, Some(a.atype), Some(Accepted))
    case RejectedLog => Query(db.artifacts, Some(a.atype), Some(Rejected))
  }

  /** The union of the declared inputs. They come from a set, so in either order. */
  function ResolveSlice(db: Db, a: Artifact, declared: set<StoreInput>, rejectedFirst: bool): seq<Artifact> {
    var first := if rejectedFirst then RejectedLog else Incumbents;
    var second := if rejectedFirst then Incumbents else RejectedLog;
    (if first in declared then Provided(db, a, first) else [])
    + (if second in declared then Provided(db, a, second) else [])
  }

  /** The slice as it is assembled: one tagged entry a row, input by input in the order `order` in
      which the set is iterated. The leak check at the end never finds anything. */
  method ResolveDeclaredSlice(store: SqliteStore, a: Artifact, declared: set<StoreInput>, order: seq<StoreInput>)
    returns (slice: seq<Artifact>, leaked: bool)
    requires Distinct(order) && forall kind :: kind in order <==> kind in declared
    ensures slice == ResolveSlice(store.working, a, declared, order != [] && order[0] == RejectedLog)
    ensures !leaked
  {
    hide Provided;
    var tagged: seq<(StoreInput, Artifact)> := [];
    for i := 0 to |order|
      invariant Untagged(tagged) == ProvidedBy(store.working, a, order[..i])
      invariant forall entry | entry in tagged :: entry.0 in order
    {
      assert order[..i + 1][..i] == order[..i];
      var found := Provided(store.working, a, order[i]);
      UntaggedAppend(tagged, order[i], found);
      tagged := tagged + seq(|found|, j requires 0 <= j < |found| => (order[i], found[j]));
    }
    assert order[..|order|] == order;
    leaked := exists entry :: entry in tagged && entry.0 !in declared;
    slice := Untagged(tagged);
    InEitherOrder(store.working, a, declared, order);
  }

  function Untagged(tagged: seq<(StoreInput, Artifact)>): seq<Artifact> {
    seq(|tagged|, i requires 0 <= i < |tagged| => tagged[i].1)
  }

  function ProvidedBy(db: Db, a: Artifact, order: seq<StoreInput>): seq<Artifact> {
    if order == [] then []
    else ProvidedBy(db, a, order[..|order| - 1]) + Provided(db, a, order[|order| - 1])
  }

  lemma UntaggedAppend(tagged: seq<(StoreInput, Artifact)>, kind: StoreInput, found: seq<Artifact>)
    ensures Untagged(tagged + seq(|found|, j requires 0 <= j < |found| => (kind, found[j]))) == Untagged(tagged) + found
  {
  }

  lemma InEitherOrder(db: Db, a: Artifact, declared: set<StoreInput>, order: seq<StoreInput>)
    requires Distinct(order) && forall kind :: kind in order <==> kind in declared
    ensures ProvidedBy(db, a, order) == ResolveSlice(db, a, declared, order != [] && order[0] == RejectedLog)
  {
    hide Provided;
    assert |order| > 2 ==> order[0] != order[1] && order[1] != order[2] && order[0] != order[2];
    assert |order| <= 2;
    if |order| == 1 {
      assert order[..0] == [] && order == [order[0]] && order[0] in order;
      assert ProvidedBy(db, a, order) == [] + Provided(db, a, order[0]);
    } else if |order| == 2 {
      assert order[0] in order && order[1] in order && order[0] != order[1];
      assert order == [order[0], order[1]] && order[..1] == [order[0]] && order[..1][..0] == [];
      assert ProvidedBy(db, a, order[..1]) == [] + Provided(db, a, order[0]) == Provided(db, a, order[0]);
    }
  }

  /** Independence: whatever is declared, nothing outside the declared inputs reaches the gate, and
      everything inside them does; with nothing declared the slice is empty. */
  lemma SliceIsExactlyDeclared(db: Db, a: Artifact, declared: set<StoreInput>, rejectedFirst: bool, x: Artifact)
    requires Keyed(db)
    ensures x in ResolveSlice(db, a, declared, rejectedFirst) <==>
      && x.id in db.artifacts && db.artifacts[x.id] == x && x.atype == a.atype
      && ((Incumbents in declared && x.status == Accepted) || (RejectedLog in declared && x.status == Rejected))
    ensures declared == {} ==> ResolveSlice(db, a, declared, rejectedFirst) == []
  {
    InProvided(db, a, Incumbents, x);
    InProvided(db, a, RejectedLog, x);
  }

  lemma InProvided(db: Db, a: Artifact, kind: StoreInput, x: Artifact)
    requires Keyed(db)
    ensures x in Provided(db, a, kind) <==>
      && x.id in db.artifacts && db.artifacts[x.id] == x && x.atype == a.atype
      && x.status == (if kind == Incumbents then Accepted else Rejected)
  {
    var status := if kind == Incumbents then Accepted else Rejected;
    var keys := Matching(db.artifacts, Some(a.atype), Some(status));
    if x in Provided(db, a, kind) {
      var k :| k in keys && db.artifacts[k] == x;
    }
    if x.id in db.artifacts && db.artifacts[x.id] == x && x.atype == a.atype && x.status == status {
      assert x.id in keys;
    }
  }

  /** The durably recorded scores of the slice, by artifact and gate. */
  function RecordedScores(db: Db, slice: seq<Artifact>): map<Id, map<string, real>> {
    var ids := set i | 0 <= i < |slice| :: slice[i].id;
    map id | id in ids && GateScores(db.decisions, id) != map[] :: GateScores(db.decisions, id)
  }

  function RequestFor(k: Kernel, db: Db, a: Artifact, objects: map<string, Bytes>, rejectedFirst: bool): VerifierRequest {
    var declared := if a.atype in k.gated then k.gated[a.atype] else {};
    var slice := ResolveSlice(db, a, declared, rejectedFirst);
    VerifierRequest(a, slice, objects, RecordedScores(db, slice))
  }

  /** The request carries the proposal, the declared rows and the objects as they are, and of scores
      exactly what is on record at some gate for a row of the slice; the last one recorded counts. */
  lemma RequestShowsExactly(k: Kernel, db: Db, a: Artifact, objects: map<string, Bytes>, rejectedFirst: bool, id: Id, gate: string)
    ensures var req := RequestFor(k, db, a, objects, rejectedFirst);
      && req.proposal == a && req.objects == objects
      && req.storeSlice == ResolveSlice(db, a, if a.atype in k.gated then k.gated[a.atype] else {}, rejectedFirst)
      && (id in req.scores && gate in req.scores[id] <==>
            && (exists x :: x in req.storeSlice && x.id == id)
            && exists i :: 0 <= i < |db.decisions| && Scores(db.decisions[i], id, gate))
      && (forall i | id in req.scores && gate in req.scores[id] && 0 <= i < |db.decisions|
             && Scores(db.decisions[i], id, gate)
             && (forall j | i < j < |db.decisions| :: !Scores(db.decisions[j], id, gate)) ::
            req.scores[id][gate] == db.decisions[i].score.value)
  {
    hide ResolveSlice, GateScores, Scores;
    GateScoresAre(db.decisions, id, gate);
    var req := RequestFor(k, db, a, objects, rejectedFirst);
    var slice := req.storeSlice;
    if x :| x in slice && x.id == id {
      var i :| 0 <= i < |slice| && slice[i] == x;
      assert slice[i].id == id;
    }
    if i :| 0 <= i < |slice| && slice[i].id == id { assert slice[i] in slice; }
  }
}

/** What the served context actually shows: which artifacts, in what order, and what is said of them. */
module Served {

  import opened Contracts
  import opened Ordering
  import opened Tables
  import opened Ranking
  import opened ContextAssembly
  import Text
  import Wire

  // ------------------------------------------------------------------ text within text

  predicate IsAt(part: string, whole: string, i: nat) {
    i + |part| <= |whole| && whole[i..i + |part|] == part
  }

  ghost predicate Within(part: string, whole: string) {
    exists i: nat :: IsAt(part, whole, i)
  }

  lemma WithinPiece(before: string, part: string, after: string)
    ensures Within(part, before + part + after)
  {
    var whole, i := before + part + after, |before|;
    assert IsAt(part, whole, i);
  }

  lemma WithinEnd(before: string, part: string)
    ensures Within(part, before + part)
  {
    WithinPiece(before, part, "");
    assert before + part + "" == before + part;
  }

  lemma WithinStart(part: string, after: string)
    ensures Within(part, part + after)
  {
    WithinPiece("", part, after);
    assert "" + part + after == part + after;
  }

  lemma WithinOn(a: string, b: string, c: string)
    requires Within(a, b) && Within(b, c)
    ensures Within(a, c)
  {
    var i: nat :| IsAt(a, b, i);
    var j: nat :| IsAt(b, c, j);
    assert forall k | 0 <= k < |b| :: c[j + k] == b[k];
    assert forall k | 0 <= k < |a| :: b[i + k] == a[k];
    assert c[j + i..j + i + |a|] == a;
    assert IsAt(a, c, j + i);
  }

  lemma {:induction false} JoinShows(sep: string, parts: seq<string>, i: nat)
    requires i < |parts|
    ensures Within(parts[i], Join(sep, parts))
  {
    if |parts| == 1 {
      WithinStart(parts[0], "");
      assert parts[0] + "" == parts[0];
    } else if i == 0 {
      WithinStart(parts[0], sep + Join(sep, parts[1..]));
      assert parts[0] + (sep + Join(sep, parts[1..])) == Join(sep, parts);
    } else {
      JoinShows(sep, parts[1..], i - 1);
      WithinEnd(parts[0] + sep, Join(sep, parts[1..]));
      WithinOn(parts[i], Join(sep, parts[1..]), Join(sep, parts));
    }
  }

  // ------------------------------------------------------------------ which artifacts

  /** The head of a ranking: nothing that is left out should have come before what is there. */
  lemma HeadIsBest(rows: seq<Artifact>, limit: nat, a: Artifact, b: Artifact)
    requires Distinct(rows) && a in Head(Ranked(rows), limit) && b in rows && b !in Head(Ranked(rows), limit)
    ensures |Head(Ranked(rows), limit)| == limit && !RanksFirst(b, a)
  {
    hide RanksFirst;
    var ranked, head := Ranked(rows), Head(Ranked(rows), limit);
    RankedKeeps(rows);
    var i :| 0 <= i < |head| && head[i] == a;
    var j :| 0 <= j < |ranked| && ranked[j] == b;
    assert ranked[i] == a;
    assert j >= |head|;
    assert Precedes(ranked, a, b);
    OneWay(ranked, a, b);
    TwoPassesAreLexicographic(rows);
  }

  lemma OneWay(xs: seq<Artifact>, a: Artifact, b: Artifact)
    requires Distinct(xs) && Precedes(xs, a, b)
    ensures !Precedes(xs, b, a)
  {
  }

  lemma RankedKeeps(rows: seq<Artifact>)
    requires Distinct(rows)
    ensures Distinct(Ranked(rows)) && |Ranked(rows)| == |rows|
    ensures forall a :: a in Ranked(rows) <==> a in rows
  {
    var recent := StableSort(rows, Newer);
    SortKeeps(rows, Newer);
    SortKeeps(recent, Trusted);
    DistinctKept(rows, Ranked(rows));
    forall a ensures a in Ranked(rows) <==> a in rows {
      assert a in multiset(Ranked(rows)) <==> a in multiset(rows);
    }
  }

  lemma {:induction false} LiveAre(rows: seq<Artifact>, a: Artifact)
    ensures a in Live(rows) <==> a in rows && a.status in {Proposed, Tentative, Accepted}
  {
    if rows != [] {
      var last := rows[|rows| - 1];
      LiveAre(rows[..|rows| - 1], a);
      assert rows == rows[..|rows| - 1] + [last];
      NotOver(last);
      assert Live(rows) == Live(rows[..|rows| - 1]) + if last.status in {Proposed, Tentative, Accepted} then [last] else [];
    }
  }

  lemma NotOver(a: Artifact)
    ensures a.status in {Proposed, Tentative, Accepted} <==> a.status !in {Rejected, Superseded, Revised}
  {
    match a.status
    case Proposed =>
    case _ =>
  }

  lemma {:induction false} LiveDistinct(rows: seq<Artifact>)
    requires Distinct(rows)
    ensures Distinct(Live(rows))
  {
    if rows != [] {
      var n := |rows| - 1;
      LiveDistinct(rows[..n]);
      LiveAre(rows[..n], rows[n]);
      assert forall i | 0 <= i < n :: rows[..n][i] != rows[n];
    }
  }

  /** The manifest lists stored artifacts, as many as its limit allows, and none that it leaves out is
      more trusted, or as trusted and newer, than one it lists. */
  lemma ManifestListsBest(db: Db, caps: Caps, a: Artifact, b: Artifact)
    requires Keyed(db) && caps.manifestLimit >= 0
    ensures a in ManifestRows(db, caps) ==> a.id in db.artifacts && db.artifacts[a.id] == a
    ensures a in ManifestRows(db, caps) && b.id in db.artifacts && db.artifacts[b.id] == b && b !in ManifestRows(db, caps) ==>
      |ManifestRows(db, caps)| == caps.manifestLimit && !RanksFirst(b, a)
  {
    hide Ranked, RanksFirst;
    var rows := Query(db.artifacts, None, None);
    AllStored(db);
    QueryDistinct(db, None, None);
    RankedKeeps(rows);
    if a in ManifestRows(db, caps) && b in rows && b !in ManifestRows(db, caps) {
      HeadIsBest(rows, caps.manifestLimit, a, b);
    }
  }

  /** What is retrieved is stored and not over, and none that is left out and not over ranks before it. */
  lemma RetrievedAreBest(db: Db, limit: int, a: Artifact, b: Artifact)
    requires Keyed(db) && limit >= 0
    ensures a in Retrieved(db, limit) ==>
      a.id in db.artifacts && db.artifacts[a.id] == a && a.status in {Proposed, Tentative, Accepted}
    ensures (a in Retrieved(db, limit) && b.id in db.artifacts && db.artifacts[b.id] == b
             && b.status in {Proposed, Tentative, Accepted} && b !in Retrieved(db, limit)) ==>
      |Retrieved(db, limit)| == limit && !RanksFirst(b, a)
  {
    hide Ranked, RanksFirst, Query;
    var rows := Query(db.artifacts, None, None);
    AllStored(db);
    QueryDistinct(db, None, None);
    LiveDistinct(rows);
    LiveAre(rows, a);
    LiveAre(rows, b);
    RankedKeeps(Live(rows));
    if a in Retrieved(db, limit) && b in Live(rows) && b !in Retrieved(db, limit) {
      HeadIsBest(Live(rows), limit, a, b);
    }
  }

  lemma AllStored(db: Db)
    requires Keyed(db)
    ensures forall a :: a in Query(db.artifacts, None, None) <==> a.id in db.artifacts && db.artifacts[a.id] == a
  {
    forall a ensures a in Query(db.artifacts, None, None) <==> a.id in db.artifacts && db.artifacts[a.id] == a {
      if a.id in db.artifacts { assert a.id in Matching(db.artifacts, None, None); }
    }
  }

  // ------------------------------------------------------------------ what is said of them

  /** A line of the manifest or of the retrieved artifacts says which artifact, of what type and status. */
  lemma LinesSayWhich(f: Format, a: Artifact, chars: int)
    ensures Within(a.id, EntryLine(f, a, chars)) && Within(a.id, RetrievedLine(f, a, chars))
    ensures Within(a.atype, EntryLine(f, a, chars)) && Within(a.atype, RetrievedLine(f, a, chars))
    ensures Within(Wire.StatusName(a.status), RetrievedLine(f, a, chars))
    ensures Within(Wire.StatusName(a.status), EntryLine(f, a, chars))
    ensures Within(Summarize(f, a.payload, chars), EntryLine(f, a, chars))
    ensures Within(Summarize(f, a.payload, chars), RetrievedLine(f, a, chars))
  {
    hide Summarize, Wire.StatusName, PadTo, Within;
    var name, summary := Wire.StatusName(a.status), Summarize(f, a.payload, chars);
    var line, other := EntryLine(f, a, chars), RetrievedLine(f, a, chars);
    var padded := PadTo(name, 10);
    PadKeeps(name, 10);
    assert line == "  [" + padded + ("] " + a.atype + "/" + a.id + DASH + summary);
    WithinPiece("  [", padded, "] " + a.atype + "/" + a.id + DASH + summary);
    WithinOn(name, padded, line);
    assert line == "  [" + padded + "] " + a.atype + ("/" + a.id + DASH + summary);
    WithinPiece("  [" + padded + "] ", a.atype, "/" + a.id + DASH + summary);
    assert line == "  [" + padded + "] " + a.atype + "/" + a.id + (DASH + summary);
    WithinPiece("  [" + padded + "] " + a.atype + "/", a.id, DASH + summary);
    WithinEnd("  [" + padded + "] " + a.atype + "/" + a.id + DASH, summary);
    assert other == "  - " + a.atype + ("/" + a.id + " [" + name + "]: " + summary);
    WithinPiece("  - ", a.atype, "/" + a.id + " [" + name + "]: " + summary);
    assert other == "  - " + a.atype + "/" + a.id + (" [" + name + "]: " + summary);
    WithinPiece("  - " + a.atype + "/", a.id, " [" + name + "]: " + summary);
    assert other == "  - " + a.atype + "/" + a.id + " [" + name + ("]: " + summary);
    WithinPiece("  - " + a.atype + "/" + a.id + " [", name, "]: " + summary);
    WithinEnd("  - " + a.atype + "/" + a.id + " [" + name + "]: ", summary);
  }

  lemma {:induction false} PadKeeps(s: string, width: nat)
    ensures Within(s, PadTo(s, width))
    decreases width - |s|
  {
    if |s| < width {
      PadKeeps(s + " ", width);
      WithinStart(s, " ");
      WithinOn(s, s + " ", PadTo(s, width));
    } else {
      WithinStart(s, "");
      assert s + "" == s;
    }
  }

  /** Row `i` is the first that rejects the artifact. */
  ghost predicate FirstRejects(ds: seq<Decision>, id: Id, i: nat) {
    && i < |ds| && ds[i].artifactId == id && ds[i].verdict == Reject
    && forall j | 0 <= j < i :: !(ds[j].artifactId == id && ds[j].verdict == Reject)
  }

  lemma {:induction false} RejectingAppend(a: seq<Decision>, b: seq<Decision>)
    ensures (forall d | d in a :: d.verdict != Reject) ==> Rejecting(a + b) == Rejecting(b)
    ensures (exists d | d in a :: d.verdict == Reject) ==> Rejecting(a + b) == Rejecting(a)
  {
    if a == [] {
      assert a + b == b;
    } else {
      assert (a + b)[1..] == a[1..] + b;
      assert a == [a[0]] + a[1..];
      RejectingAppend(a[1..], b);
    }
  }

  /** The decision told is the first on record that rejects the artifact. */
  lemma RejectingIs(ds: seq<Decision>, id: Id, i: nat)
    requires FirstRejects(ds, id, i)
    ensures Rejecting(DecisionsFor(ds, id)) == (ds[i].gate, ds[i].rationale, ds[i].score)
  {
    var before, one, after := ds[..i], [ds[i]], ds[i + 1..];
    assert ds == before + one + after;
    DecisionsForAre(before + one, after, id);
    DecisionsForAre(before, one, id);
    DecisionsForAre(one, [], id);
    NoneRejects(before, id);
    var mine := DecisionsFor(before, id);
    RejectingAppend(mine, one);
    RejectingAppend(mine + one, DecisionsFor(after, id));
    assert ds[i] in mine + one by { assert (mine + one)[|mine|] == ds[i]; }
  }

  lemma {:induction false} NoneRejects(ds: seq<Decision>, id: Id)
    requires forall d | d in ds :: !(d.artifactId == id && d.verdict == Reject)
    ensures forall d | d in DecisionsFor(ds, id) :: d.verdict != Reject
  {
    if ds != [] {
      assert ds[|ds| - 1] in ds;
      NoneRejects(ds[..|ds| - 1], id);
    }
  }

  /** The line of a rejected artifact says which it is, which gate rejected it first, the score it got
      there, and why, up to the cut. */
  lemma RejectedLineSaysWhy(f: Format, db: Db, a: Artifact, chars: int, i: nat)
    requires FirstRejects(db.decisions, a.id, i)
    ensures var line, d := RejectedLine(f, db, a, chars), db.decisions[i];
      && Within(a.id, line) && Within(d.gate, line)
      && (d.score.Some? ==> Within(f.score(d.score.value), line))
      && (|d.rationale| <= chars ==> Within(d.rationale, line))
  {
    hide Rejecting, DecisionsFor, Within, FirstRejects;
    RejectingIs(db.decisions, a.id, i);
    assert i < |db.decisions| by { InDecisions(db.decisions, a.id, i); }
    var line, d := RejectedLine(f, db, a, chars), db.decisions[i];
    var part := if d.score.Some? then " score=" + f.score(d.score.value) else "";
    var why := Cut(d.rationale, chars);
    assert line == "  - " + a.atype + "/" + a.id + " [" + d.gate + "]" + part + DASH + why;
    assert line == "  - " + a.atype + "/" + a.id + (" [" + d.gate + "]" + part + DASH + why);
    WithinPiece("  - " + a.atype + "/", a.id, " [" + d.gate + "]" + part + DASH + why);
    assert line == "  - " + a.atype + "/" + a.id + " [" + d.gate + ("]" + part + DASH + why);
    WithinPiece("  - " + a.atype + "/" + a.id + " [", d.gate, "]" + part + DASH + why);
    if d.score.Some? {
      var s := f.score(d.score.value);
      assert line == "  - " + a.atype + "/" + a.id + " [" + d.gate + "] score=" + s + (DASH + why);
      WithinPiece("  - " + a.atype + "/" + a.id + " [" + d.gate + "] score=", s, DASH + why);
    }
    WithinEnd("  - " + a.atype + "/" + a.id + " [" + d.gate + "]" + part + DASH, why);
  }

  lemma InDecisions(ds: seq<Decision>, id: Id, i: nat)
    requires FirstRejects(ds, id, i)
    ensures i < |ds|
  {
  }

  /** The line of a failed cycle says of what kind it was and what was said. */
  lemma FailedLineSaysWhy(c: CycleFailure, chars: int)
    ensures Within(c.kind, FailedLine(c, chars))
    ensures |c.detail| <= chars ==> Within(c.detail, FailedLine(c, chars))
  {
    hide Within;
    var line, why := FailedLine(c, chars), Cut(c.detail, chars);
    assert line == "  - (no proposal) [" + c.kind + ("]" + DASH + why);
    WithinPiece("  - (no proposal) [", c.kind, "]" + DASH + why);
    WithinEnd("  - (no proposal) [" + c.kind + "]" + DASH, why);
  }

  // ------------------------------------------------------------------ texts cut and trimmed

  /** A cut keeps what fits, and else all but the last place of the limit. */
  lemma CutKeeps(text: string, limit: nat)
    requires limit >= 1
    ensures |text| <= limit ==> Cut(text, limit) == text
    ensures |text| > limit ==> Cut(text, limit) == text[..limit - 1] + ELLIPSIS
  {
  }

  predicate IsBlank(c: char) {
    c == ' ' || c == '\t' || c == '\n' || c == '\r'
  }

  ghost predicate AllBlank(s: string) {
    forall i | 0 <= i < |s| :: IsBlank(s[i])
  }

  lemma StripFront(s: string)
    requires s != "" && IsSpace(s[0])
    ensures Strip(s) == Strip(s[1..]) && s == [s[0]] + s[1..] && IsBlank(s[0])
  {
  }

  lemma StripBack(s: string)
    requires s != "" && !IsSpace(s[0]) && IsSpace(s[|s| - 1])
    ensures Strip(s) == Strip(s[..|s| - 1]) && s == s[..|s| - 1] + [s[|s| - 1]] && IsBlank(s[|s| - 1])
  {
  }

  /** Trimming takes white space from both ends and nothing else. */
  lemma {:induction false} StripIs(s: string) returns (before: string, after: string)
    ensures s == before + Strip(s) + after && AllBlank(before) && AllBlank(after)
    ensures Strip(s) != "" ==> !IsBlank(Strip(s)[0]) && !IsBlank(Strip(s)[|Strip(s)| - 1])
    decreases |s|
  {
    before, after := "", "";
    if s != "" && IsSpace(s[0]) {
      StripFront(s);
      hide Strip;
      before, after := StripIs(s[1..]);
      before := [s[0]] + before;
    } else if s != "" && IsSpace(s[|s| - 1]) {
      StripBack(s);
      hide Strip;
      before, after := StripIs(s[..|s| - 1]);
      after := after + [s[|s| - 1]];
    }
  }

  /** A payload is summarised by its reference or by its keys, never by its values; a text by itself. */
  lemma SummarySays(f: Format, p: Payload, limit: int)
    ensures p.Stored? ==> Within(p.ref.blobRef, Summarize(f, p, limit))
    ensures p.Inline? && p.value.JStr? && |p.value.text| <= limit ==> Summarize(f, p, limit) == p.value.text
    ensures p.Inline? && p.value.JObj? && |Printed(f, p.value)| <= limit ==>
      forall key | key in p.value.fields :: Within(key, Summarize(f, p, limit))
    ensures forall other: Json | p.Inline? && p.value.JObj? && other.JObj? && other.fields.Keys == p.value.fields.Keys ::
      Summarize(f, Inline(other), limit) == Summarize(f, p, limit)
  {
    hide Within, Join;
    if p.Stored? {
      WithinPiece("<object ", p.ref.blobRef, ">");
    } else if p.value.JObj? {
      var keys := KeysOf(p.value.fields);
      var text := Join(", ", keys);
      forall key | key in p.value.fields ensures Within(key, Printed(f, p.value)) {
        var i :| 0 <= i < |keys| && keys[i] == key;
        JoinShows(", ", keys, i);
        WithinPiece("{", text, "}");
        WithinOn(key, text, "{" + text + "}");
      }
      forall other: Json | other.JObj? && other.fields.Keys == p.value.fields.Keys
        ensures Printed(f, other) == Printed(f, p.value)
      {
        assert (map k | k in other.fields :: "") == (map k | k in p.value.fields :: "");
      }
    }
  }

  ghost function KeysOf(fields: map<string, Json>): (keys: seq<string>)
    ensures forall k :: k in keys <==> k in fields
  {
    Ordered(map k | k in fields :: "", fields.Keys)
  }

  // ------------------------------------------------------------------ all of it is served

  lemma SectionShown(sections: seq<string>, i: nat, before: string)
    requires i < |sections|
    ensures Within(sections[i], before + "\n\n" + Join("\n\n", sections))
  {
    JoinShows("\n\n", sections, i);
    WithinEnd(before + "\n\n", Join("\n\n", sections));
    WithinOn(sections[i], Join("\n\n", sections), before + "\n\n" + Join("\n\n", sections));
  }

  lemma LinesShown(lines: seq<string>, text: string, whole: string, line: string)
    requires line in lines && text == Join("\n", lines) && Within(text, whole)
    ensures Within(line, whole)
  {
    var i :| 0 <= i < |lines| && lines[i] == line;
    JoinShows("\n", lines, i);
    WithinOn(line, text, whole);
  }

  /** The parts of the context: its manifest, what was retrieved, and the digest. */
  lemma PartsServed(f: Format, db: Db, caps: Caps, prompt: string, goal: string, scratch: string)
    ensures var context := Assembled(f, db, caps, prompt, goal, scratch);
      && Within(prompt, context) && Within(Strip(goal), context) && Within(Strip(scratch), context)
      && Within(ManifestText(f, db, caps), context)
      && Within(RetrievedText(f, Retrieved(db, caps.tailLimit), caps.payloadChars), context)
      && Within(DigestText(f, db, caps), context)
  {
    hide ManifestText, RetrievedText, DigestText, Strip, Retrieved, Join, Within;
    var context := Assembled(f, db, caps, prompt, goal, scratch);
    var manifest, sections := ManifestText(f, db, caps), Sections(f, db, caps, goal, scratch);
    var before := prompt + "\n\n" + manifest;
    assert context == before + "\n\n" + Join("\n\n", sections);
    assert context == prompt + ("\n\n" + manifest + "\n\n" + Join("\n\n", sections));
    WithinStart(prompt, "\n\n" + manifest + "\n\n" + Join("\n\n", sections));
    assert context == prompt + "\n\n" + manifest + ("\n\n" + Join("\n\n", sections));
    WithinPiece(prompt + "\n\n", manifest, "\n\n" + Join("\n\n", sections));
    NothingWithin(context);
    SectionShown(sections, 1, before);
    SectionShown(sections, 3, before);
    if DigestText(f, db, caps) != "" {
      assert sections[5] == DigestText(f, db, caps);
      SectionShown(sections, 5, before);
    }
    if Strip(scratch) != "" {
      assert sections[|sections| - 1] == Strip(scratch);
      SectionShown(sections, |sections| - 1, before);
    }
  }

  lemma NothingWithin(whole: string)
    ensures Within("", whole)
  {
    assert IsAt("", whole, 0);
  }

  /** Everything chosen is served: the line of every artifact in the manifest and among the retrieved,
      and, unless the digest is off, the line of every attempt it shows. */
  lemma ChosenIsServed(f: Format, db: Db, caps: Caps, prompt: string, goal: string, scratch: string)
    ensures var context := Assembled(f, db, caps, prompt, goal, scratch);
      && (forall a | a in ManifestRows(db, caps) :: Within(EntryLine(f, a, caps.summaryChars), context))
      && (forall a | a in Retrieved(db, caps.tailLimit) :: Within(RetrievedLine(f, a, caps.payloadChars), context))
      && (caps.digestLimit > 0 ==> forall x | x in Shown(f, db, caps) :: Within(x.1, context))
  {
    hide ManifestRows, Retrieved, Shown, EntryLine, RetrievedLine, Assembled, Join, Within;
    var context := Assembled(f, db, caps, prompt, goal, scratch);
    PartsServed(f, db, caps, prompt, goal, scratch);
    var rows, tail, shown := ManifestRows(db, caps), Retrieved(db, caps.tailLimit), Shown(f, db, caps);
    forall a | a in rows ensures Within(EntryLine(f, a, caps.summaryChars), context) {
      var i :| 0 <= i < |rows| && rows[i] == a;
      var header := "Store manifest (showing " + Text.Decimal(|rows|) + " of " + Text.Decimal(|db.artifacts|) + " artifacts):";
      var lines := [header] + EntryLines(f, rows, caps.summaryChars);
      assert lines[i + 1] == EntryLine(f, a, caps.summaryChars);
      LinesShown(lines, ManifestText(f, db, caps), context, lines[i + 1]);
    }
    forall a | a in tail ensures Within(RetrievedLine(f, a, caps.payloadChars), context) {
      var i :| 0 <= i < |tail| && tail[i] == a;
      var lines := seq(|tail|, j requires 0 <= j < |tail| => RetrievedLine(f, tail[j], caps.payloadChars));
      assert lines[i] == RetrievedLine(f, a, caps.payloadChars);
      LinesShown(lines, RetrievedText(f, tail, caps.payloadChars), context, lines[i]);
    }
    forall x | x in shown && caps.digestLimit > 0 ensures Within(x.1, context) {
      var i :| 0 <= i < |shown| && shown[i] == x;
      assert Lines(shown)[i] == x.1;
      LinesShown(Lines(shown), DigestText(f, db, caps), context, x.1);
    }
  }
}

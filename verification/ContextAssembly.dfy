/** The context served each turn: a bounded projection of the store. */
module ContextAssembly {

  import opened Contracts
  import opened Ordering
  import opened Tables
  import opened Text
  import opened Ranking
  import Wire

  datatype Caps = Caps(
    manifestLimit: int,
    tailLimit: int,
    summaryChars: int,
    payloadChars: int,
    digestLimit: int,
    digestChars: int)

  /** How numbers are printed. */
  datatype Format = Format(score: real -> string, number: real -> string)

  // ------------------------------------------------------------------ text

  const ELLIPSIS := "\U{2026}"
  const DASH := " \U{2014} "

  function Join(sep: string, parts: seq<string>): string {
    if parts == [] then ""
    else if |parts| == 1 then parts[0]
    else parts[0] + sep + Join(sep, parts[1..])
  }

  /** Cut to `limit` characters, the last one an ellipsis. */
  function Cut(text: string, limit: int): string {
    if |text| <= limit then text else Head(text, limit - 1) + ELLIPSIS
  }

  /** The cut is a bound exactly for positive limits; a limit of 0 or less slices from the end. */
  lemma CutBoundsExactlyWhen(limit: int)
    ensures (forall text :: |Cut(text, limit)| <= limit) <==> limit >= 1
  {
    if limit < 1 {
      var text := "x";
      assert |Cut(text, limit)| >= 1;
    }
  }

  predicate IsSpace(c: char) {
    c in {' ', '\t', '\n', '\r'}
  }

  function Strip(s: string): (r: string)
    ensures |r| <= |s|
  {
    if s == "" then ""
    else if IsSpace(s[0]) then Strip(s[1..])
    else if IsSpace(s[|s| - 1]) then Strip(s[..|s| - 1])
    else s
  }

  function Printed(f: Format, j: Json): string {
    match j
    case JObj(fields) => "{" + Join(", ", Ordered(map k | k in fields :: "", fields.Keys)) + "}"
    case JList(items) => "[list of " + Decimal(|items|) + "]"
    case JStr(text) => text
    case JNull => "None"
    case JBool(b) => if b then "True" else "False"
    case JNum(n) => f.number(n)
  }

  /** A rendering of the payload, never the payload. */
  function Summarize(f: Format, p: Payload, limit: int): string {
    match p
    case Stored(ref) => "<object " + ref.blobRef + ">"
    case Inline(value) => Cut(Printed(f, value), limit)
  }

  // ------------------------------------------------------------------ the sections

  function PadTo(s: string, width: nat): (r: string)
    ensures |r| == if |s| < width then width else |s|
    decreases width - |s|
  {
    if |s| >= width then s else PadTo(s + " ", width)
  }

  function EntryLine(f: Format, a: Artifact, chars: int): string {
    "  [" + PadTo(Wire.StatusName(a.status), 10) + "] " + a.atype + "/" + a.id + DASH + Summarize(f, a.payload, chars)
  }

  function EntryLines(f: Format, rows: seq<Artifact>, chars: int): (lines: seq<string>)
    ensures |lines| == |rows|
  {
    seq(|rows|, i requires 0 <= i < |rows| => EntryLine(f, rows[i], chars))
  }

  /** The best-ranked rows of the store. */
  function ManifestRows(db: Db, caps: Caps): (rows: seq<Artifact>)
    ensures caps.manifestLimit >= 0 ==> |rows| <= caps.manifestLimit
  {
    Head(Ranked(Query(db.artifacts, None, None)), caps.manifestLimit)
  }

  function ManifestText(f: Format, db: Db, caps: Caps): string {
    var rows := ManifestRows(db, caps);
    var header := "Store manifest (showing " + Decimal(|rows|) + " of " + Decimal(|db.artifacts|) + " artifacts):";
    if rows == [] then header + "\n  (empty)"
    else Join("\n", [header] + EntryLines(f, rows, caps.summaryChars))
  }

  function Live(rows: seq<Artifact>): seq<Artifact> {
    if rows == [] then []
    else
      var last := rows[|rows| - 1];
      Live(rows[..|rows| - 1]) + if last.status in {Rejected, Superseded, Revised} then [] else [last]
  }

  /** The default retrieval: what is not over, best first. */
  function Retrieved(db: Db, limit: int): seq<Artifact> {
    Head(Ranked(Live(Query(db.artifacts, None, None))), limit)
  }

  function RetrievedLine(f: Format, a: Artifact, chars: int): string {
    "  - " + a.atype + "/" + a.id + " [" + Wire.StatusName(a.status) + "]: " + Summarize(f, a.payload, chars)
  }

  function RetrievedText(f: Format, rows: seq<Artifact>, chars: int): string {
    if rows == [] then "  (none retrieved)"
    else Join("\n", seq(|rows|, i requires 0 <= i < |rows| => RetrievedLine(f, rows[i], chars)))
  }

  // ------------------------------------------------------------------ the digest of failures

  type Attempt = (Timestamp, string)

  predicate Later(a: Attempt, b: Attempt) {
    TextLess(b.0, a.0)
  }

  /** The decision that rejected, or a generic one. */
  function Rejecting(ds: seq<Decision>): (string, string, Option<real>) {
    if ds == [] then ("gate", "rejected (no recorded rationale)", None)
    else if ds[0].verdict == Reject then (ds[0].gate, ds[0].rationale, ds[0].score)
    else Rejecting(ds[1..])
  }

  function ScoreText(f: Format, score: real): string {
    f.score(score)
  }

  function RejectedLine(f: Format, db: Db, a: Artifact, chars: int): string {
    var (gate, rationale, score) := Rejecting(DecisionsFor(db.decisions, a.id));
    "  - " + a.atype + "/" + a.id + " [" + gate + "]" + (if score.Some? then " score=" + ScoreText(f, score.value) else "")
    + DASH + Cut(rationale, chars)
  }

  function FailedLine(c: CycleFailure, chars: int): string {
    "  - (no proposal) [" + c.kind + "]" + DASH + Cut(c.detail, chars)
  }

  function RejectedAttempts(f: Format, db: Db, rows: seq<Artifact>, chars: int): seq<Attempt> {
    if rows == [] then []
    else
      var a := rows[|rows| - 1];
      RejectedAttempts(f, db, rows[..|rows| - 1], chars)
      + if a.status == Rejected then [(a.createdAt, RejectedLine(f, db, a, chars))] else []
  }

  predicate Earlier(a: CycleFailure, b: CycleFailure) {
    TextLess(a.createdAt, b.createdAt)
  }

  function CycleFailures(db: Db): seq<CycleFailure> {
    StableSort(db.failures, Earlier)
  }

  function FailedAttempts(fs: seq<CycleFailure>, chars: int): seq<Attempt> {
    if fs == [] then []
    else
      var c := fs[|fs| - 1];
      FailedAttempts(fs[..|fs| - 1], chars)
      + if c.kind == "gate-error" then [] else [(c.createdAt, FailedLine(c, chars))]
  }

  function Attempts(f: Format, db: Db, chars: int): seq<Attempt> {
    RejectedAttempts(f, db, Query(db.artifacts, None, None), chars) + FailedAttempts(CycleFailures(db), chars)
  }

  function Shown(f: Format, db: Db, caps: Caps): seq<Attempt> {
    Head(StableSort(Attempts(f, db, caps.digestChars), Later), caps.digestLimit)
  }

  function Lines(attempts: seq<Attempt>): (lines: seq<string>)
    ensures |lines| == |attempts|
  {
    seq(|attempts|, i requires 0 <= i < |attempts| => attempts[i].1)
  }

  function DigestText(f: Format, db: Db, caps: Caps): string {
    if caps.digestLimit <= 0 then "" else Join("\n", Lines(Shown(f, db, caps)))
  }

  // ------------------------------------------------------------------ the whole

  function Sections(f: Format, db: Db, caps: Caps, goal: string, scratch: string): seq<string> {
    ["# Current goal", if Strip(goal) != "" then Strip(goal) else "(none)", "# Retrieved artifacts",
     RetrievedText(f, Retrieved(db, caps.tailLimit), caps.payloadChars)]
    + (if DigestText(f, db, caps) != "" then ["# Prior attempts (rejected)", DigestText(f, db, caps)] else [])
    + (if Strip(scratch) != "" then ["# Scratch", Strip(scratch)] else [])
  }

  function Assembled(f: Format, db: Db, caps: Caps, prompt: string, goal: string, scratch: string): string {
    prompt + "\n\n" + ManifestText(f, db, caps) + "\n\n" + Join("\n\n", Sections(f, db, caps, goal, scratch))
  }

  method CollectRejected(f: Format, db: Db, chars: int) returns (attempts: seq<Attempt>)
    ensures attempts == RejectedAttempts(f, db, Query(db.artifacts, None, None), chars)
  {
    hide RejectedLine, Query;
    attempts := [];
    var rows := Query(db.artifacts, None, None);
    for i := 0 to |rows|
      invariant attempts == RejectedAttempts(f, db, rows[..i], chars)
    {
      assert rows[..i + 1][..i] == rows[..i];
      if rows[i].status == Rejected {
        attempts := attempts + [(rows[i].createdAt, RejectedLine(f, db, rows[i], chars))];
      }
    }
    assert rows[..|rows|] == rows;
  }

  method CollectFailed(db: Db, chars: int) returns (attempts: seq<Attempt>)
    ensures attempts == FailedAttempts(CycleFailures(db), chars)
  {
    hide FailedLine, CycleFailures;
    attempts := [];
    var failures := CycleFailures(db);
    for i := 0 to |failures|
      invariant attempts == FailedAttempts(failures[..i], chars)
    {
      assert failures[..i + 1][..i] == failures[..i];
      if failures[i].kind != "gate-error" {
        attempts := attempts + [(failures[i].createdAt, FailedLine(failures[i], chars))];
      }
    }
    assert failures[..|failures|] == failures;
  }

  method RejectionDigest(f: Format, db: Db, caps: Caps) returns (digest: string)
    ensures digest == DigestText(f, db, caps)
  {
    if caps.digestLimit <= 0 { return ""; }
    var rejected := CollectRejected(f, db, caps.digestChars);
    var failed := CollectFailed(db, caps.digestChars);
    var shown := Head(StableSort(rejected + failed, Later), caps.digestLimit);
    digest := Join("\n", Lines(shown));
  }

  method Assemble(f: Format, db: Db, caps: Caps, prompt: string, goal: string, scratch: string) returns (context: string)
    ensures context == Assembled(f, db, caps, prompt, goal, scratch)
  {
    hide ManifestText, RetrievedText, DigestText, Strip, Join;
    var prefix := prompt + "\n\n" + ManifestText(f, db, caps);
    var stated := Strip(goal);
    var sections := ["# Current goal", if stated != "" then stated else "(none)", "# Retrieved artifacts",
      RetrievedText(f, Retrieved(db, caps.tailLimit), caps.payloadChars)];
    var digest := RejectionDigest(f, db, caps);
    if digest != "" { sections := sections + ["# Prior attempts (rejected)", digest]; }
    if Strip(scratch) != "" { sections := sections + ["# Scratch", Strip(scratch)]; }
    assert sections == Sections(f, db, caps, goal, scratch);
    context := prefix + "\n\n" + Join("\n\n", sections);
  }

  // ------------------------------------------------------------------ bounds

  lemma {:induction false} JoinLength(sep: string, parts: seq<string>, each: nat)
    requires forall p | p in parts :: |p| <= each
    ensures |Join(sep, parts)| <= Times(|parts|, each + |sep|)
  {
    hide Times, Join;
    if parts != [] {
      assert parts[0] in parts;
      assert forall p | p in parts[1..] :: p in parts;
      JoinLength(sep, parts[1..], each);
      OneMore(|parts| - 1, each + |sep|);
      JoinStep(sep, parts);
    } else {
      JoinNothing(sep);
    }
  }

  lemma JoinStep(sep: string, parts: seq<string>)
    requires parts != []
    ensures |Join(sep, parts)| <= |parts[0]| + |sep| + |Join(sep, parts[1..])|
  {
  }

  lemma JoinNothing(sep: string)
    ensures Join(sep, []) == ""
  {
  }

  function Times(n: nat, c: nat): nat {
    n * c
  }

  lemma OneMore(n: nat, c: nat)
    ensures Times(n + 1, c) == Times(n, c) + c
  {
  }

  lemma {:induction false} JoinSum(sep: string, parts: seq<string>)
    ensures |Join(sep, parts)| <= TotalLength(parts) + |parts| * |sep|
  {
    if |parts| > 1 {
      JoinSum(sep, parts[1..]);
      assert |parts| * |sep| == (|parts| - 1) * |sep| + |sep|;
    }
  }

  function TotalLength(parts: seq<string>): nat {
    if parts == [] then 0 else |parts[0]| + TotalLength(parts[1..])
  }

  lemma {:induction false} DecimalMonotone(m: nat, n: nat)
    requires m <= n
    ensures |Decimal(m)| <= |Decimal(n)|
  {
    if m >= 10 { DecimalMonotone(m / 10, n / 10); }
  }

  /** Ids, type names, gate names, failure kinds, blob references and the recorded scores as they are
      printed are short. */
  ghost predicate Short(f: Format, db: Db, n: nat) {
    && n >= 4
    && (forall id | id in db.artifacts ::
          var a := db.artifacts[id];
          |a.id| <= n && |a.atype| <= n && (a.payload.Stored? ==> |a.payload.ref.blobRef| <= n))
    && (forall d | d in db.decisions :: ShortDecision(f, d, n))
    && (forall c | c in db.failures :: |c.kind| <= n)
  }

  ghost predicate ShortDecision(f: Format, d: Decision, n: nat) {
    |d.gate| <= n && (d.score.Some? ==> |ScoreText(f, d.score.value)| <= n)
  }

  ghost predicate Positive(caps: Caps) {
    caps.summaryChars >= 1 && caps.payloadChars >= 1 && caps.digestChars >= 1
    && caps.manifestLimit >= 0 && caps.tailLimit >= 0
  }

  function Larger(a: int, b: int): int {
    if a < b then b else a
  }

  function SummaryBound(n: nat, chars: int): int {
    Larger(chars, n + 9)
  }

  lemma SummaryLength(f: Format, p: Payload, n: nat, chars: int)
    requires chars >= 1 && (p.Stored? ==> |p.ref.blobRef| <= n)
    ensures |Summarize(f, p, chars)| <= SummaryBound(n, chars)
  {
    hide Printed;
  }

  lemma StatusLength(s: Status)
    ensures |Wire.StatusName(s)| <= 10
  {
  }

  function EntryBound(n: nat, caps: Caps): int {
    19 + 2 * n + SummaryBound(n, caps.summaryChars)
  }

  function RetrievedBound(n: nat, caps: Caps): int {
    20 + 2 * n + SummaryBound(n, caps.payloadChars)
  }

  function AttemptBound(n: nat, caps: Caps): int {
    22 + 4 * n + caps.digestChars
  }

  lemma EntryLength(f: Format, a: Artifact, n: nat, caps: Caps)
    requires Positive(caps) && |a.id| <= n && |a.atype| <= n && (a.payload.Stored? ==> |a.payload.ref.blobRef| <= n)
    ensures |EntryLine(f, a, caps.summaryChars)| <= EntryBound(n, caps)
    ensures |RetrievedLine(f, a, caps.payloadChars)| <= RetrievedBound(n, caps)
  {
    hide Summarize, Wire.StatusName, SummaryBound;
    SummaryLength(f, a.payload, n, caps.summaryChars);
    SummaryLength(f, a.payload, n, caps.payloadChars);
    StatusLength(a.status);
  }

  lemma {:induction false} RejectingShort(f: Format, ds: seq<Decision>, n: nat)
    requires n >= 4 && forall d | d in ds :: ShortDecision(f, d, n)
    ensures |Rejecting(ds).0| <= n
    ensures Rejecting(ds).2.Some? ==> |ScoreText(f, Rejecting(ds).2.value)| <= n
  {
    if ds != [] {
      assert ds[0] in ds;
      RejectingShort(f, ds[1..], n);
    }
  }

  lemma {:induction false} DecisionsAmong(ds: seq<Decision>, id: Id)
    ensures forall d | d in DecisionsFor(ds, id) :: d in ds
  {
    if ds != [] { DecisionsAmong(ds[..|ds| - 1], id); }
  }

  lemma AttemptLength(f: Format, db: Db, a: Artifact, c: CycleFailure, n: nat, caps: Caps)
    requires Positive(caps) && Short(f, db, n)
    ensures |a.id| <= n && |a.atype| <= n ==> |RejectedLine(f, db, a, caps.digestChars)| <= AttemptBound(n, caps)
    ensures |c.kind| <= n ==> |FailedLine(c, caps.digestChars)| <= AttemptBound(n, caps)
  {
    hide Cut, Rejecting, DecisionsFor;
    DecisionsAmong(db.decisions, a.id);
    RejectingShort(f, DecisionsFor(db.decisions, a.id), n);
    CutBoundsExactlyWhen(caps.digestChars);
    var (gate, rationale, score) := Rejecting(DecisionsFor(db.decisions, a.id));
    assert |gate| <= n && |Cut(rationale, caps.digestChars)| <= caps.digestChars;
    assert score.Some? ==> |ScoreText(f, score.value)| <= n;
    assert |Cut(c.detail, caps.digestChars)| <= caps.digestChars;
  }

  lemma {:induction false} RejectedLength(f: Format, db: Db, rows: seq<Artifact>, n: nat, caps: Caps)
    requires Positive(caps) && Short(f, db, n) && forall a | a in rows :: |a.id| <= n && |a.atype| <= n
    ensures forall x | x in RejectedAttempts(f, db, rows, caps.digestChars) :: |x.1| <= AttemptBound(n, caps)
  {
    hide RejectedLine, Short, AttemptBound;
    if rows != [] {
      var k := |rows| - 1;
      assert rows[k] in rows;
      RejectedLength(f, db, rows[..k], n, caps);
      AttemptLength(f, db, rows[k], CycleFailure("", "", "", None), n, caps);
    }
  }

  lemma {:induction false} FailedLength(f: Format, db: Db, fs: seq<CycleFailure>, n: nat, caps: Caps)
    requires Positive(caps) && Short(f, db, n) && forall c | c in fs :: |c.kind| <= n
    ensures forall x | x in FailedAttempts(fs, caps.digestChars) :: |x.1| <= AttemptBound(n, caps)
  {
    hide FailedLine, Short, AttemptBound;
    if fs != [] {
      var k := |fs| - 1;
      assert fs[k] in fs;
      FailedLength(f, db, fs[..k], n, caps);
      AttemptLength(f, db, Artifact("", "", Inline(JNull), Proposed, "", "", None, None, false, []), fs[k], n, caps);
    }
  }

  lemma SortedAmong<T(!new)>(xs: seq<T>, less: (T, T) -> bool, limit: int)
    ensures forall x | x in Head(StableSort(xs, less), limit) :: x in xs
  {
    SortKeeps(xs, less);
    forall x | x in Head(StableSort(xs, less), limit) ensures x in xs {
      assert x in multiset(StableSort(xs, less));
      assert x in multiset(xs);
    }
  }

  lemma RankedAmong(rows: seq<Artifact>, limit: int)
    ensures forall a | a in Head(Ranked(rows), limit) :: a in rows
  {
    SortKeeps(rows, Newer);
    var recent := StableSort(rows, Newer);
    SortedAmong(recent, Trusted, limit);
    forall a | a in Head(Ranked(rows), limit) ensures a in rows {
      assert a in multiset(recent);
      assert a in multiset(rows);
    }
  }

  lemma {:induction false} LiveAmong(rows: seq<Artifact>)
    ensures forall a | a in Live(rows) :: a in rows
  {
    if rows != [] {
      LiveAmong(rows[..|rows| - 1]);
      assert rows == rows[..|rows| - 1] + [rows[|rows| - 1]];
    }
  }

  ghost predicate ShortRow(a: Artifact, n: nat) {
    |a.id| <= n && |a.atype| <= n && (a.payload.Stored? ==> |a.payload.ref.blobRef| <= n)
  }

  lemma RowsShort(f: Format, db: Db, n: nat)
    requires Short(f, db, n)
    ensures forall a | a in Query(db.artifacts, None, None) :: ShortRow(a, n)
  {
    forall a | a in Query(db.artifacts, None, None) ensures ShortRow(a, n) {
      var k :| k in Matching(db.artifacts, None, None) && db.artifacts[k] == a;
    }
  }

  lemma DigestLength(f: Format, db: Db, n: nat, caps: Caps)
    requires Positive(caps) && Short(f, db, n)
    ensures |DigestText(f, db, caps)| <= Larger(caps.digestLimit, 0) * (AttemptBound(n, caps) + 1)
  {
    hide AttemptBound, Short, RejectedAttempts, FailedAttempts, Query, StableSort;
    if caps.digestLimit > 0 {
      var rows, failures := Query(db.artifacts, None, None), CycleFailures(db);
      RowsShort(f, db, n);
      RejectedLength(f, db, rows, n, caps);
      SortedAmong(db.failures, Earlier, |db.failures|);
      assert forall c | c in failures :: |c.kind| <= n by { FailuresShort(f, db, n); }
      FailedLength(f, db, failures, n, caps);
      SortedAmong(Attempts(f, db, caps.digestChars), Later, caps.digestLimit);
      var shown := Shown(f, db, caps);
      assert forall x | x in shown :: |x.1| <= AttemptBound(n, caps);
      AttemptBoundPositive(n, caps);
      LinesJoin(shown, AttemptBound(n, caps));
      Scale(|shown|, caps.digestLimit, AttemptBound(n, caps) + 1);
    }
  }

  lemma FailuresShort(f: Format, db: Db, n: nat)
    requires Short(f, db, n)
    ensures forall c | c in CycleFailures(db) :: |c.kind| <= n
  {
    SortKeeps(db.failures, Earlier);
    forall c | c in CycleFailures(db) ensures |c.kind| <= n {
      assert c in multiset(CycleFailures(db));
      assert c in multiset(db.failures);
    }
  }

  lemma AttemptBoundPositive(n: nat, caps: Caps)
    requires Positive(caps)
    ensures AttemptBound(n, caps) >= 0 && EntryBound(n, caps) >= 0 && RetrievedBound(n, caps) >= 0
  {
  }

  lemma LinesJoin(shown: seq<Attempt>, each: int)
    requires each >= 0 && forall x | x in shown :: |x.1| <= each
    ensures |Join("\n", Lines(shown))| <= |shown| * (each + 1)
  {
    forall p | p in Lines(shown) ensures |p| <= each {
      var i :| 0 <= i < |shown| && Lines(shown)[i] == p;
      assert shown[i] in shown;
    }
    JoinLength("\n", Lines(shown), each);
  }

  lemma Scale(a: nat, b: int, c: int)
    requires a <= b && c >= 0
    ensures a * c <= b * c
  {
  }

  function ManifestBound(n: nat, caps: Caps): int {
    44 + |Decimal(Larger(caps.manifestLimit, 0))| + caps.manifestLimit * (EntryBound(n, caps) + 1)
  }

  lemma EntryLinesLength(f: Format, db: Db, n: nat, caps: Caps)
    requires Positive(caps) && Short(f, db, n)
    ensures EntryBound(n, caps) >= 0
    ensures forall p | p in EntryLines(f, ManifestRows(db, caps), caps.summaryChars) :: |p| <= EntryBound(n, caps)
  {
    hide EntryBound, Short, Query, Ranked, EntryLine;
    var rows := ManifestRows(db, caps);
    RowsShort(f, db, n);
    RankedAmong(Query(db.artifacts, None, None), caps.manifestLimit);
    AttemptBoundPositive(n, caps);
    var lines := EntryLines(f, rows, caps.summaryChars);
    forall p | p in lines ensures |p| <= EntryBound(n, caps) {
      var i :| 0 <= i < |rows| && lines[i] == p;
      assert rows[i] in rows;
      EntryLength(f, rows[i], n, caps);
    }
  }

  lemma HeadedLength(header: string, lines: seq<string>, each: nat)
    requires lines != [] && forall p | p in lines :: |p| <= each
    ensures |Join("\n", [header] + lines)| <= |header| + 1 + |lines| * (each + 1)
  {
    assert ([header] + lines)[1..] == lines;
    JoinLength("\n", lines, each);
  }

  lemma ManifestLength(f: Format, db: Db, n: nat, caps: Caps)
    requires Positive(caps) && Short(f, db, n)
    ensures |ManifestText(f, db, caps)| <= |Decimal(|db.artifacts|)| + ManifestBound(n, caps) + 12
  {
    hide EntryBound, Short, ManifestRows, EntryLines, Decimal, Join;
    var rows := ManifestRows(db, caps);
    EntryLinesLength(f, db, n, caps);
    assert |rows| <= caps.manifestLimit;
    DecimalMonotone(|rows|, caps.manifestLimit);
    var header := "Store manifest (showing " + Decimal(|rows|) + " of " + Decimal(|db.artifacts|) + " artifacts):";
    assert |header| <= 40 + |Decimal(|db.artifacts|)| + |Decimal(caps.manifestLimit)|;
    Scale(|rows|, caps.manifestLimit, EntryBound(n, caps) + 1);
    if rows != [] {
      var lines := EntryLines(f, rows, caps.summaryChars);
      HeadedLength(header, lines, EntryBound(n, caps));
    }
  }

  lemma RetrievedLength(f: Format, db: Db, n: nat, caps: Caps)
    requires Positive(caps) && Short(f, db, n)
    ensures |RetrievedText(f, Retrieved(db, caps.tailLimit), caps.payloadChars)|
      <= 18 + caps.tailLimit * (RetrievedBound(n, caps) + 1)
  {
    hide RetrievedBound, Short, Query, Ranked, RetrievedLine;
    var rows := Retrieved(db, caps.tailLimit);
    RowsShort(f, db, n);
    LiveAmong(Query(db.artifacts, None, None));
    RankedAmong(Live(Query(db.artifacts, None, None)), caps.tailLimit);
    AttemptBoundPositive(n, caps);
    var lines := seq(|rows|, i requires 0 <= i < |rows| => RetrievedLine(f, rows[i], caps.payloadChars));
    forall p | p in lines ensures |p| <= RetrievedBound(n, caps) {
      var i :| 0 <= i < |rows| && lines[i] == p;
      assert rows[i] in rows;
      EntryLength(f, rows[i], n, caps);
    }
    JoinLength("\n", lines, RetrievedBound(n, caps));
    Scale(|rows|, caps.tailLimit, RetrievedBound(n, caps) + 1);
  }

  /** What the caps alone allow, whatever is in the store. */
  function Ceiling(n: nat, caps: Caps): int {
    200 + |Decimal(Larger(caps.manifestLimit, 0))|
    + caps.manifestLimit * (EntryBound(n, caps) + 1)
    + caps.tailLimit * (RetrievedBound(n, caps) + 1)
    + Larger(caps.digestLimit, 0) * (AttemptBound(n, caps) + 1)
  }

  /** The bounded-context guarantee: with positive caps the assembled context is no longer than the
      caps allow plus the prompt, the goal, the scratch and the digits of the number of artifacts. */
  lemma ContextIsBounded(f: Format, db: Db, n: nat, caps: Caps, prompt: string, goal: string, scratch: string)
    requires Positive(caps) && Short(f, db, n)
    ensures |Assembled(f, db, caps, prompt, goal, scratch)|
      <= |prompt| + |goal| + |scratch| + |Decimal(|db.artifacts|)| + Ceiling(n, caps)
  {
    hide ManifestText, RetrievedText, DigestText, Retrieved, EntryBound, RetrievedBound, AttemptBound, Short, Join;
    ManifestLength(f, db, n, caps);
    RetrievedLength(f, db, n, caps);
    DigestLength(f, db, n, caps);
    var sections := Sections(f, db, caps, goal, scratch);
    var a := ["# Current goal", if Strip(goal) != "" then Strip(goal) else "(none)", "# Retrieved artifacts",
      RetrievedText(f, Retrieved(db, caps.tailLimit), caps.payloadChars)];
    var digest := DigestText(f, db, caps);
    var b := if digest != "" then ["# Prior attempts (rejected)", digest] else [];
    var c := if Strip(scratch) != "" then ["# Scratch", Strip(scratch)] else [];
    assert sections == a + b + c;
    TotalOfParts(a, b, c);
    JoinSum("\n\n", sections);
    FourParts(a);
    TwoParts(b);
    TwoParts(c);
  }

  lemma {:induction false} TotalAppend(a: seq<string>, b: seq<string>)
    ensures TotalLength(a + b) == TotalLength(a) + TotalLength(b)
  {
    if a == [] {
      assert a + b == b;
    } else {
      assert (a + b)[1..] == a[1..] + b;
      TotalAppend(a[1..], b);
    }
  }

  lemma TotalOfParts(a: seq<string>, b: seq<string>, c: seq<string>)
    ensures TotalLength(a + b + c) == TotalLength(a) + TotalLength(b) + TotalLength(c)
  {
    TotalAppend(a, b);
    TotalAppend(a + b, c);
  }

  lemma TwoParts(b: seq<string>)
    requires |b| in {0, 2}
    ensures TotalLength(b) == if b == [] then 0 else |b[0]| + |b[1]|
  {
    if b != [] {
      assert b == [b[0]] + [b[1]];
      TotalAppend([b[0]], [b[1]]);
      OnePart(b[0]);
      OnePart(b[1]);
    }
  }

  lemma OnePart(part: string)
    ensures TotalLength([part]) == |part|
  {
    assert [part][1..] == [];
    assert TotalLength([]) == 0;
  }

  lemma FourParts(a: seq<string>)
    requires |a| == 4
    ensures TotalLength(a) == |a[0]| + |a[1]| + |a[2]| + |a[3]|
  {
    assert a == a[..2] + a[2..];
    TotalAppend(a[..2], a[2..]);
    TwoParts(a[..2]);
    TwoParts(a[2..]);
  }

  // ------------------------------------------------------------------ what is shown

  lemma LaterIsWeak()
    ensures WeakOrder(Later)
  {
    forall a, b: Attempt | Later(a, b) ensures !Later(b, a) { TextTotal(a.0, b.0); }
    forall a, b, c: Attempt | Later(a, c) ensures Later(a, b) || Later(b, c) {
      TextTotal(a.0, b.0);
      if TextLess(a.0, b.0) { TextTransitive(c.0, a.0, b.0); }
    }
  }

  /** The digest shows the latest failed attempts: as many as its limit allows, and none that is
      left out is more recent than one that is shown. */
  lemma DigestShowsLatest(f: Format, db: Db, caps: Caps) returns (rest: seq<Attempt>)
    requires caps.digestLimit > 0
    ensures var all, shown := Attempts(f, db, caps.digestChars), Shown(f, db, caps);
      && multiset(shown) + multiset(rest) == multiset(all)
      && |shown| == (if |all| < caps.digestLimit then |all| else caps.digestLimit)
      && (forall x, y | x in shown && y in rest :: !Later(y, x))
      && Sorted(shown, Later)
  {
    hide Attempts, StableSort, Later, WeakOrder;
    LaterIsWeak();
    var all := Attempts(f, db, caps.digestChars);
    SortKeeps(all, Later);
    SortSorts(all, Later);
    var sorted, shown := StableSort(all, Later), Shown(f, db, caps);
    rest := sorted[|shown|..];
    assert sorted == shown + rest;
    forall x, y | x in shown && y in rest ensures !Later(y, x) {
      var i :| 0 <= i < |shown| && shown[i] == x;
      var j :| 0 <= j < |rest| && rest[j] == y;
      assert sorted[i] == x && sorted[|shown| + j] == y;
    }
  }

  /** The attempts are the rejected artifacts and the failed cycles, except those where only the gate
      was unavailable. */
  lemma AttemptsAre(f: Format, db: Db, chars: int, x: Attempt)
    ensures x in Attempts(f, db, chars) <==>
      || (exists id :: id in db.artifacts && db.artifacts[id].status == Rejected
            && x == (db.artifacts[id].createdAt, RejectedLine(f, db, db.artifacts[id], chars)))
      || (exists c :: c in db.failures && c.kind != "gate-error" && x == (c.createdAt, FailedLine(c, chars)))
  {
    hide RejectedLine, FailedLine, Query;
    var rows := Query(db.artifacts, None, None);
    RejectedFrom(f, db, rows, chars, x);
    FailedFrom(CycleFailures(db), chars, x);
    SortKeeps(db.failures, Earlier);
    assert forall c :: c in CycleFailures(db) <==> c in db.failures by {
      forall c ensures c in CycleFailures(db) <==> c in db.failures {
        assert c in multiset(CycleFailures(db)) <==> c in multiset(db.failures);
      }
    }
    AllRows(db);
    assert x in Attempts(f, db, chars) <==>
      x in RejectedAttempts(f, db, rows, chars) || x in FailedAttempts(CycleFailures(db), chars);
  }

  lemma AllRows(db: Db)
    ensures forall a :: a in Query(db.artifacts, None, None) <==> exists id :: id in db.artifacts && db.artifacts[id] == a
  {
    forall id | id in db.artifacts ensures db.artifacts[id] in Query(db.artifacts, None, None) {
      assert id in Matching(db.artifacts, None, None);
    }
  }

  lemma {:induction false} RejectedFrom(f: Format, db: Db, rows: seq<Artifact>, chars: int, x: Attempt)
    ensures x in RejectedAttempts(f, db, rows, chars) <==>
      exists a :: a in rows && a.status == Rejected && x == (a.createdAt, RejectedLine(f, db, a, chars))
  {
    hide RejectedLine;
    if rows != [] {
      var k := |rows| - 1;
      RejectedFrom(f, db, rows[..k], chars, x);
      assert rows == rows[..k] + [rows[k]];
    }
  }

  lemma {:induction false} FailedFrom(fs: seq<CycleFailure>, chars: int, x: Attempt)
    ensures x in FailedAttempts(fs, chars) <==>
      exists c :: c in fs && c.kind != "gate-error" && x == (c.createdAt, FailedLine(c, chars))
  {
    hide FailedLine;
    if fs != [] {
      var k := |fs| - 1;
      FailedFrom(fs[..k], chars, x);
      assert fs == fs[..k] + [fs[k]];
    }
  }
}

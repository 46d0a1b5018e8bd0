/** Object provisioning: which durable objects are dropped into the workspace, under which names. */
module Provisioning {

  import opened Contracts
  import opened Ordering
  import opened Tables
  import opened Text
  import opened Store
  import opened Ranking

  datatype Select = SelectAll | SelectLast | SelectBest

  datatype Policy = Policy(
    statuses: Option<set<Status>>,
    select: Select,
    typeFilter: Option<string>,
    prefix: string,
    maxArtifacts: Option<nat>,
    maxBytes: Option<nat>)

  // ------------------------------------------------------------------ selection

  function BestOf(scores: seq<real>): Option<real> {
    if scores == [] then None
    else
      var before := BestOf(scores[..|scores| - 1]);
      var last := scores[|scores| - 1];
      if before.None? || last > before.value then Some(last) else before
  }

  function RecordedOn(ds: seq<Decision>, id: Id): seq<real> {
    if ds == [] then []
    else
      var d := ds[|ds| - 1];
      RecordedOn(ds[..|ds| - 1], id) + if d.artifactId == id && d.score.Some? then [d.score.value] else []
  }

  /** The best recorded score of an artifact. */
  function ArtifactScore(db: Db, a: Artifact): Option<real> {
    BestOf(RecordedOn(db.decisions, a.id))
  }

  /** An unscored artifact ranks below every scored one. */
  predicate Outscores(s: Option<real>, t: Option<real>) {
    s.Some? && (t.None? || s.value > t.value)
  }

  function Qualifying(rows: seq<Artifact>, statuses: Option<set<Status>>): seq<Artifact> {
    if rows == [] then []
    else
      var last := rows[|rows| - 1];
      Qualifying(rows[..|rows| - 1], statuses)
      + if statuses.None? || last.status in statuses.value then [last] else []
  }

  function Selected(db: Db, p: Policy): seq<Artifact> {
    if p.statuses == Some({}) then []
    else
      var recent := Recent(db, p);
      match p.select
      case SelectAll => recent
      case SelectLast => Head(recent, 1)
      case SelectBest => Head(StableSort(recent, (a, b) => Outscores(ArtifactScore(db, a), ArtifactScore(db, b))), 1)
  }

  lemma {:induction false} QualifyingAre(rows: seq<Artifact>, statuses: Option<set<Status>>, a: Artifact)
    ensures a in Qualifying(rows, statuses) <==> a in rows && (statuses.None? || a.status in statuses.value)
  {
    if rows != [] {
      QualifyingAre(rows[..|rows| - 1], statuses, a);
      assert rows == rows[..|rows| - 1] + [rows[|rows| - 1]];
    }
  }

  lemma {:induction false} QualifyingDistinct(rows: seq<Artifact>, statuses: Option<set<Status>>)
    requires Distinct(rows)
    ensures Distinct(Qualifying(rows, statuses))
  {
    if rows != [] {
      var n := |rows| - 1;
      QualifyingDistinct(rows[..n], statuses);
      QualifyingAre(rows[..n], statuses, rows[n]);
      assert forall i | 0 <= i < n :: rows[..n][i] != rows[n];
    }
  }

  ghost predicate Candidate(db: Db, p: Policy, a: Artifact) {
    && p.statuses != Some({})
    && a.id in db.artifacts && db.artifacts[a.id] == a
    && (p.typeFilter.Some? ==> a.atype == p.typeFilter.value)
    && (p.statuses.Some? ==> a.status in p.statuses.value)
  }

  lemma CandidatesAre(db: Db, p: Policy, a: Artifact)
    requires Keyed(db) && p.statuses != Some({})
    ensures a in Qualifying(Query(db.artifacts, p.typeFilter, None), p.statuses) <==> Candidate(db, p, a)
  {
    var rows := Query(db.artifacts, p.typeFilter, None);
    QualifyingAre(rows, p.statuses, a);
    if a in rows {
      var k :| k in Matching(db.artifacts, p.typeFilter, None) && db.artifacts[k] == a;
    }
    if a.id in db.artifacts && db.artifacts[a.id] == a && (p.typeFilter.Some? ==> a.atype == p.typeFilter.value) {
      assert a.id in Matching(db.artifacts, p.typeFilter, None);
    }
  }

  /** Who is the best: scored highest, then the newest; without any score, simply the newest. */
  ghost predicate AtLeastAsGood(db: Db, a: Artifact, b: Artifact) {
    var s, t := ArtifactScore(db, a), ArtifactScore(db, b);
    (t.Some? ==> s.Some? && t.value <= s.value) && (s == t ==> !TextLess(a.createdAt, b.createdAt))
  }

  lemma OutscoresIsWeak(db: Db)
    ensures WeakOrder((a, b) => Outscores(ArtifactScore(db, a), ArtifactScore(db, b)))
  {
    hide ArtifactScore;
  }

  /** `best` picks one qualifying artifact that no other beats, exactly when there is one; `last` the
      newest; `all` keeps every qualifying one, newest first. */
  lemma SelectsAsPromised(db: Db, p: Policy)
    requires Keyed(db)
    ensures var chosen := Selected(db, p);
      && (forall a | a in chosen :: Candidate(db, p, a))
      && (p.select == SelectAll ==> Sorted(chosen, Newer) && Distinct(chosen) && forall a | Candidate(db, p, a) :: a in chosen)
      && (p.select != SelectAll ==> |chosen| <= 1 && ((exists a :: Candidate(db, p, a)) <==> chosen != []))
      && (p.select == SelectLast && chosen != [] ==> forall a | Candidate(db, p, a) :: !Newer(a, chosen[0]))
      && (p.select == SelectBest && chosen != [] ==> forall a | Candidate(db, p, a) :: AtLeastAsGood(db, chosen[0], a))
  {
    hide Candidate, StableSort, AtLeastAsGood, Newer;
    if p.statuses != Some({}) {
      var recent := Recent(db, p);
      RecentAre(db, p);
      assert forall a | a in recent :: Candidate(db, p, a);
      if recent != [] { assert recent[0] in recent; }
      match p.select {
        case SelectAll =>
        case SelectLast =>
          forall a | Candidate(db, p, a) && recent != [] ensures !Newer(a, recent[0]) {
            NewestFirst(recent, a);
          }
        case SelectBest =>
          BestFirst(db, recent);
          var ranked := StableSort(recent, (a, b) => Outscores(ArtifactScore(db, a), ArtifactScore(db, b)));
          SameMembers(recent, ranked);
      }
    } else {
      NoCandidates(db, p);
    }
  }

  lemma NoCandidates(db: Db, p: Policy)
    requires p.statuses == Some({})
    ensures forall a :: !Candidate(db, p, a)
  {
  }

  lemma NewestFirst(recent: seq<Artifact>, a: Artifact)
    requires Sorted(recent, Newer) && a in recent
    ensures !Newer(a, recent[0])
  {
    NewerIsWeak();
    var j :| 0 <= j < |recent| && recent[j] == a;
  }

  function Recent(db: Db, p: Policy): seq<Artifact> {
    StableSort(Qualifying(Query(db.artifacts, p.typeFilter, None), p.statuses), Newer)
  }

  lemma RecentAre(db: Db, p: Policy)
    requires Keyed(db) && p.statuses != Some({})
    ensures forall a :: a in Recent(db, p) <==> Candidate(db, p, a)
    ensures Distinct(Recent(db, p)) && Sorted(Recent(db, p), Newer)
  {
    hide Candidate, Qualifying, Query, Keyed, StableSort, Newer;
    var candidates := Qualifying(Query(db.artifacts, p.typeFilter, None), p.statuses);
    forall a ensures a in candidates <==> Candidate(db, p, a) { CandidatesAre(db, p, a); }
    assert Distinct(candidates) by {
      QueryDistinct(db, p.typeFilter, None);
      QualifyingDistinct(Query(db.artifacts, p.typeFilter, None), p.statuses);
    }
    NewerIsWeak();
    SortKeeps(candidates, Newer);
    SortSorts(candidates, Newer);
    DistinctKept(candidates, Recent(db, p));
    SameMembers(candidates, Recent(db, p));
  }

  lemma SameMembers(xs: seq<Artifact>, ys: seq<Artifact>)
    requires multiset(xs) == multiset(ys)
    ensures forall a :: a in xs <==> a in ys
    ensures |xs| == |ys|
  {
    forall a ensures a in xs <==> a in ys {
      assert a in multiset(xs) <==> a in multiset(ys);
    }
    assert |multiset(xs)| == |xs| && |multiset(ys)| == |ys|;
  }

  lemma BestFirst(db: Db, recent: seq<Artifact>)
    requires Distinct(recent) && Sorted(recent, Newer)
    ensures var less := (a, b) => Outscores(ArtifactScore(db, a), ArtifactScore(db, b));
      var ranked := StableSort(recent, less);
      multiset(ranked) == multiset(recent)
      && (ranked != [] ==> forall a | a in recent :: AtLeastAsGood(db, ranked[0], a))
  {
    hide ArtifactScore, StableSort;
    var less := (a, b) => Outscores(ArtifactScore(db, a), ArtifactScore(db, b));
    var ranked := StableSort(recent, less);
    OutscoresIsWeak(db);
    NewerIsWeak();
    SortKeeps(recent, less);
    DistinctKept(recent, ranked);
    SameMembers(recent, ranked);
    forall a | a in recent && ranked != [] ensures AtLeastAsGood(db, ranked[0], a) {
      var best := ranked[0];
      assert best in ranked && a in ranked;
      if a != best {
        var j :| 0 <= j < |ranked| && ranked[j] == a;
        assert Precedes(ranked, best, a) by { assert 0 < j && ranked[0] == best; }
        SortOrder(recent, less, best, a);
        if !less(best, a) {
          assert Precedes(recent, best, a);
          var u, v :| 0 <= u < v < |recent| && recent[u] == best && recent[v] == a;
        }
      } else {
        TextTotal(a.createdAt, a.createdAt);
      }
    }
  }

  // ------------------------------------------------------------------ names

  /** Two digits at least. */
  function Rank2(n: nat): (s: string)
    ensures s != ""
  {
    if n < 10 then "0" + Decimal(n) else Decimal(n)
  }

  function PathOf(p: Policy, single: bool, rank: nat, id: Id, name: string): string {
    p.prefix + (if single then "" else Rank2(rank) + "-" + id + "/") + name
  }

  predicate AllDigits(s: string) {
    forall c | c in s :: '0' <= c <= '9'
  }

  lemma {:induction false} DecimalDigits(n: nat)
    ensures AllDigits(Decimal(n))
  {
    if n >= 10 { DecimalDigits(n / 10); }
  }

  lemma {:induction false} DecimalInjective(m: nat, n: nat)
    requires Decimal(m) == Decimal(n)
    ensures m == n
  {
    DecimalEnd(m);
    DecimalEnd(n);
    if m >= 10 && n >= 10 {
      var a, b := Decimal(m), Decimal(n);
      assert a[..|a| - 1] == Decimal(m / 10) && b[..|b| - 1] == Decimal(n / 10);
      DecimalInjective(m / 10, n / 10);
    }
  }

  lemma DecimalEnd(n: nat)
    ensures Decimal(n)[|Decimal(n)| - 1] == Digit(n % 10)
    ensures n < 10 <==> |Decimal(n)| == 1
  {
  }

  lemma {:induction false} LeadingDigit(n: nat)
    requires n >= 1
    ensures Decimal(n)[0] != '0'
  {
    if n >= 10 { LeadingDigit(n / 10); }
  }

  lemma Rank2Injective(m: nat, n: nat)
    requires m >= 1 && n >= 1 && Rank2(m) == Rank2(n)
    ensures m == n
  {
    LeadingDigit(m);
    LeadingDigit(n);
    if m < 10 && n < 10 {
      assert Rank2(m)[1..] == Decimal(m) && Rank2(n)[1..] == Decimal(n);
    }
    assert m < 10 ==> Rank2(m)[0] == '0';
    assert n < 10 ==> Rank2(n)[0] == '0';
    DecimalInjective(m, n);
  }

  lemma Rank2Digits(n: nat)
    ensures AllDigits(Rank2(n))
  {
    DecimalDigits(n);
  }

  lemma FirstOf(a: string, x: string)
    requires AllDigits(a)
    ensures (a + "-" + x)[0] == if a == "" then '-' else a[0]
    ensures a == "" <==> (a + "-" + x)[0] == '-'
  {
    if a != "" { assert a[0] in a; }
  }

  /** Text before the first dash determines itself. */
  lemma {:induction false} DigitsBeforeDash(a: string, b: string, x: string, y: string)
    requires AllDigits(a) && AllDigits(b) && a + "-" + x == b + "-" + y
    ensures a == b
    decreases |a|
  {
    var s, t := a + "-" + x, b + "-" + y;
    FirstOf(a, x);
    FirstOf(b, y);
    if a != "" && b != "" {
      assert s[1..] == a[1..] + "-" + x && t[1..] == b[1..] + "-" + y;
      assert forall c | c in a[1..] :: c in a;
      assert forall c | c in b[1..] :: c in b;
      DigitsBeforeDash(a[1..], b[1..], x, y);
      assert a == [a[0]] + a[1..] && b == [b[0]] + b[1..];
    }
  }

  lemma PrefixCancels(p: string, a: string, b: string)
    requires p + a == p + b
    ensures a == b
  {
    assert (p + a)[|p|..] == a && (p + b)[|p|..] == b;
  }

  const INDEX := "INDEX.md"

  /** No two files of different artifacts share a path, whatever the ids and names are, and none is
      called as the index; a lone artifact's file clashes with the index exactly when it has the
      index's name. */
  lemma PathsApart(p: Policy, m: nat, n: nat, idA: Id, idB: Id, a: string, b: string)
    requires m >= 1 && n >= 1
    ensures PathOf(p, false, m, idA, a) == PathOf(p, false, n, idB, b) ==> m == n
    ensures PathOf(p, false, m, idA, a) == PathOf(p, false, m, idA, b) ==> a == b
    ensures PathOf(p, true, m, idA, a) == PathOf(p, true, m, idA, b) ==> a == b
    ensures PathOf(p, false, m, idA, a) != p.prefix + INDEX
    ensures PathOf(p, true, m, idA, a) == p.prefix + INDEX <==> a == INDEX
  {
    hide PathOf;
    RanksApart(p, m, n, idA, idB, a, b);
    NamesApart(p, false, m, idA, a, b);
    NamesApart(p, true, m, idA, a, b);
    NotTheIndex(p, m, idA, a);
    LoneIndex(p, m, idA, a);
  }

  lemma PathSplits(p: Policy, rank: nat, id: Id, name: string)
    ensures PathOf(p, false, rank, id, name) == p.prefix + (Rank2(rank) + "-" + (id + "/" + name))
    ensures PathOf(p, true, rank, id, name) == p.prefix + name
  {
    assert p.prefix + (Rank2(rank) + "-" + id + "/") + name == p.prefix + (Rank2(rank) + "-" + (id + "/" + name));
    assert p.prefix + "" + name == p.prefix + name;
  }

  /** Where a file goes: a lone artifact's by its name, any other in a directory named by its rank, of
      two digits at least, and its id. */
  lemma PathIs(p: Policy, rank: nat, id: Id, name: string)
    ensures PathOf(p, true, rank, id, name) == p.prefix + name
    ensures exists digits ::
      (Read(digits) == rank && |digits| >= 2 && (rank >= 10 ==> digits == Decimal(rank))
       && PathOf(p, false, rank, id, name) == p.prefix + digits + "-" + id + "/" + name)
  {
    hide Rank2, Read;
    var digits := Rank2(rank);
    Rank2Reads(rank);
    assert p.prefix + (digits + "-" + id + "/") + name == p.prefix + digits + "-" + id + "/" + name;
    assert p.prefix + "" + name == p.prefix + name;
  }

  lemma Rank2Reads(rank: nat)
    ensures Read(Rank2(rank)) == rank && |Rank2(rank)| >= 2 && (rank >= 10 ==> Rank2(rank) == Decimal(rank))
  {
    var digits := Rank2(rank);
    DecimalReadsBack(rank);
    if rank < 10 {
      assert digits[..1] == "0" && "0"[..0] == "" && digits[1] == Decimal(rank)[0] && Decimal(rank)[..0] == "";
      assert Read("0") == 0;
    } else {
      assert Decimal(rank / 10) != "";
    }
  }

  lemma RanksApart(p: Policy, m: nat, n: nat, idA: Id, idB: Id, a: string, b: string)
    requires m >= 1 && n >= 1
    ensures PathOf(p, false, m, idA, a) == PathOf(p, false, n, idB, b) ==> m == n
  {
    hide PathOf, Rank2;
    if PathOf(p, false, m, idA, a) == PathOf(p, false, n, idB, b) {
      PathSplits(p, m, idA, a);
      PathSplits(p, n, idB, b);
      Rank2Digits(m);
      Rank2Digits(n);
      PrefixCancels(p.prefix, Rank2(m) + "-" + (idA + "/" + a), Rank2(n) + "-" + (idB + "/" + b));
      DigitsBeforeDash(Rank2(m), Rank2(n), idA + "/" + a, idB + "/" + b);
      Rank2Injective(m, n);
    }
  }

  lemma NamesApart(p: Policy, single: bool, m: nat, id: Id, a: string, b: string)
    ensures PathOf(p, single, m, id, a) == PathOf(p, single, m, id, b) ==> a == b
  {
    hide Rank2;
    var dir := p.prefix + (if single then "" else Rank2(m) + "-" + id + "/");
    if PathOf(p, single, m, id, a) == PathOf(p, single, m, id, b) {
      PrefixCancels(dir, a, b);
    }
  }

  lemma NotTheIndex(p: Policy, m: nat, id: Id, a: string)
    ensures PathOf(p, false, m, id, a) != p.prefix + INDEX
  {
    hide PathOf, Rank2;
    PathSplits(p, m, id, a);
    Rank2Digits(m);
    FirstOf(Rank2(m), id + "/" + a);
    assert Rank2(m)[0] in Rank2(m);
    assert INDEX[0] == 'I' && !('0' <= INDEX[0] <= '9');
    if PathOf(p, false, m, id, a) == p.prefix + INDEX {
      PrefixCancels(p.prefix, Rank2(m) + "-" + (id + "/" + a), INDEX);
    }
  }

  lemma LoneIndex(p: Policy, m: nat, id: Id, a: string)
    ensures PathOf(p, true, m, id, a) == p.prefix + INDEX <==> a == INDEX
  {
    hide PathOf, Rank2;
    PathSplits(p, m, id, a);
    if PathOf(p, true, m, id, a) == p.prefix + INDEX {
      PrefixCancels(p.prefix, a, INDEX);
    }
  }

  // ------------------------------------------------------------------ what is provided

  type Files = map<string, Bytes>

  function Fetch(blobs: map<string, Bytes>, hash: string): Result<Bytes, Failure> {
    if hash in blobs then Ok(blobs[hash]) else Err(UnknownObject)
  }

  /** All files of one artifact, or the raise of the first object that is missing. */
  function FilesOf(p: Policy, blobs: map<string, Bytes>, single: bool, rank: nat, a: Artifact): Result<Files, Failure> {
    FilesUpTo(p, blobs, single, rank, a, |a.objects|)
  }

  function FilesUpTo(p: Policy, blobs: map<string, Bytes>, single: bool, rank: nat, a: Artifact, n: nat)
    : Result<Files, Failure>
    requires n <= |a.objects|
  {
    if n == 0 then Ok(map[])
    else
      var before := FilesUpTo(p, blobs, single, rank, a, n - 1);
      var (name, ref) := a.objects[n - 1];
      if before.Err? then before
      else
        match Fetch(blobs, ref.contentHash)
        case Err(f) => Err(f)
        case Ok(data) => Ok(before.value[PathOf(p, single, rank, a.id, name) := data])
  }

  function SomePath(files: Files): (path: string)
    requires files != map[]
    ensures path in files
  {
    First(map name | name in files :: "", files.Keys)
  }

  function SizeOf(files: Files): nat {
    if files == map[] then 0
    else
      var k := SomePath(files);
      |files[k]| + SizeOf(files - {k})
  }

  /** Running totals: `admitted` are the places of the admitted artifacts, `bare` counts those
      without objects. */
  datatype Totals = Totals(role: Files, admitted: seq<nat>, bytes: nat, omitted: nat, bare: nat)

  const NOTHING := Totals(map[], [], 0, 0, 0)

  /** One artifact, at place `i`: admitted whole or not at all. */
  function Consider(p: Policy, blobs: map<string, Bytes>, chosen: seq<Artifact>, i: nat, t: Totals): Result<Totals, Failure>
    requires i < |chosen|
  {
    if p.maxArtifacts.Some? && |t.admitted| >= p.maxArtifacts.value then Ok(t.(omitted := t.omitted + 1))
    else
      match FilesOf(p, blobs, |chosen| <= 1, i + 1, chosen[i])
      case Err(f) => Err(f)
      case Ok(files) =>
        if files == map[] then Ok(t.(bare := t.bare + 1))
        else if p.maxBytes.Some? && t.bytes + SizeOf(files) > p.maxBytes.value then Ok(t.(omitted := t.omitted + 1))
        else Ok(t.(role := t.role + files, admitted := t.admitted + [i], bytes := t.bytes + SizeOf(files)))
  }

  function ProvideUpTo(p: Policy, blobs: map<string, Bytes>, chosen: seq<Artifact>, n: nat): Result<Totals, Failure>
    requires n <= |chosen|
  {
    if n == 0 then Ok(NOTHING)
    else
      match ProvideUpTo(p, blobs, chosen, n - 1)
      case Err(f) => Err(f)
      case Ok(t) => Consider(p, blobs, chosen, n - 1, t)
  }

  /** The finished role, with its index; nothing at all when nothing was provided. */
  function Finished(p: Policy, t: Totals, index: (seq<nat>, nat) -> Bytes): Files {
    if t.role == map[] then map[] else t.role[p.prefix + INDEX := index(t.admitted, t.omitted)]
  }

  /** The role for the selected artifacts, or the raise of a missing object. */
  function ProvidedRole(p: Policy, blobs: map<string, Bytes>, chosen: seq<Artifact>, index: (seq<nat>, nat) -> Bytes)
    : Result<Files, Failure>
  {
    var t := ProvideUpTo(p, blobs, chosen, |chosen|);
    if t.Err? then Err(t.error) else Ok(Finished(p, t.value, index))
  }

  /** The loop over the selected artifacts. `index` renders the manifest. */
  method Materialize(store: SqliteStore, p: Policy, index: (seq<nat>, nat) -> Bytes) returns (r: Result<Files, Failure>)
    ensures r == ProvidedRole(p, store.blobs, Selected(store.working, p), index)
  {
    var chosen := Selected(store.working, p);
    var t := NOTHING;
    var n := 0;
    while n < |chosen|
      invariant n <= |chosen|
      invariant ProvideUpTo(p, store.blobs, chosen, n) == Ok(t)
    {
      var next := ConsiderOne(store, p, chosen, n, t);
      if next.Err? {
        ErrStays(p, store.blobs, chosen, n + 1, |chosen|);
        return Err(next.error);
      }
      t := next.value;
      n := n + 1;
    }
    r := Ok(Finished(p, t, index));
  }

  method ConsiderOne(store: SqliteStore, p: Policy, chosen: seq<Artifact>, i: nat, t: Totals)
    returns (next: Result<Totals, Failure>)
    requires i < |chosen|
    ensures next == Consider(p, store.blobs, chosen, i, t)
  {
    if p.maxArtifacts.Some? && |t.admitted| >= p.maxArtifacts.value {
      return Ok(t.(omitted := t.omitted + 1));
    }
    var a := chosen[i];
    var files: Files := map[];
    for n := 0 to |a.objects|
      invariant FilesUpTo(p, store.blobs, |chosen| <= 1, i + 1, a, n) == Ok(files)
    {
      var (name, ref) := a.objects[n];
      var data := store.GetObject(ref.contentHash);
      if data.Err? {
        FilesErrStays(p, store.blobs, |chosen| <= 1, i + 1, a, n + 1, |a.objects|);
        return Err(data.error);
      }
      files := files[PathOf(p, |chosen| <= 1, i + 1, a.id, name) := data.value];
    }
    if files == map[] { return Ok(t.(bare := t.bare + 1)); }
    if p.maxBytes.Some? && t.bytes + SizeOf(files) > p.maxBytes.value {
      return Ok(t.(omitted := t.omitted + 1));
    }
    next := Ok(t.(role := t.role + files, admitted := t.admitted + [i], bytes := t.bytes + SizeOf(files)));
  }

  lemma {:induction false} FilesErrStays(p: Policy, blobs: map<string, Bytes>, single: bool, rank: nat, a: Artifact, m: nat, n: nat)
    requires m <= n <= |a.objects| && FilesUpTo(p, blobs, single, rank, a, m).Err?
    ensures FilesUpTo(p, blobs, single, rank, a, n) == FilesUpTo(p, blobs, single, rank, a, m)
    decreases n - m
  {
    if m < n { FilesErrStays(p, blobs, single, rank, a, m, n - 1); }
  }

  lemma {:induction false} ErrStays(p: Policy, blobs: map<string, Bytes>, chosen: seq<Artifact>, m: nat, n: nat)
    requires m <= n <= |chosen| && ProvideUpTo(p, blobs, chosen, m).Err?
    ensures ProvideUpTo(p, blobs, chosen, n) == ProvideUpTo(p, blobs, chosen, m)
    decreases n - m
  {
    if m < n { ErrStays(p, blobs, chosen, m, n - 1); }
  }

  // ------------------------------------------------------------------ sizes

  lemma SizeOfNothing()
    ensures SizeOf(map[]) == 0
  {
  }

  lemma SizeStep(files: Files)
    requires files != map[]
    ensures SizeOf(files) == |files[SomePath(files)]| + SizeOf(files - {SomePath(files)})
  {
  }

  lemma {:induction false} SizeWithout(files: Files, k: string)
    requires k in files
    ensures SizeOf(files) == |files[k]| + SizeOf(files - {k})
    decreases |files|
  {
    hide SizeOf, SomePath;
    var first := SomePath(files);
    SizeStep(files);
    if k != first {
      var less, other := files - {first}, files - {k};
      assert |less| < |files| && |other| < |files| by { Fewer(files, first); Fewer(files, k); }
      SizeWithout(less, k);
      SizeWithout(other, first);
      assert less - {k} == other - {first};
    }
  }

  lemma Fewer(files: Files, k: string)
    requires k in files
    ensures |files - {k}| == |files| - 1
  {
    assert (files - {k}).Keys == files.Keys - {k};
    assert |(files - {k}).Keys| == |files - {k}| && |files.Keys| == |files|;
  }

  lemma UnionWithout(a: Files, b: Files, k: string)
    requires a.Keys !! b.Keys && k in b
    ensures (a + b) - {k} == a + (b - {k})
    ensures k in a + b && (a + b)[k] == b[k]
    ensures a.Keys !! (b - {k}).Keys
  {
    var x, y := (a + b) - {k}, a + (b - {k});
    assert x.Keys == y.Keys;
    assert forall path | path in x :: x[path] == y[path];
  }

  lemma {:induction false} SizeOfUnion(a: Files, b: Files)
    requires a.Keys !! b.Keys
    ensures SizeOf(a + b) == SizeOf(a) + SizeOf(b)
    decreases |b|
  {
    hide SizeOf, SomePath;
    if b == map[] {
      SizeOfNothing();
      assert a + b == a;
    } else {
      var k := SomePath(b);
      UnionWithout(a, b, k);
      Fewer(b, k);
      SizeOfUnion(a, b - {k});
      SizeWithout(a + b, k);
      SizeWithout(b, k);
    }
  }

  // ------------------------------------------------------------------ whole or not at all

  /** The files of the artifact at place `i`; none when an object is missing. */
  ghost function FilesAt(p: Policy, blobs: map<string, Bytes>, chosen: seq<Artifact>, i: nat): Files
    requires i < |chosen|
  {
    var files := FilesOf(p, blobs, |chosen| <= 1, i + 1, chosen[i]);
    if files.Ok? then files.value else map[]
  }

  lemma {:induction false} FilesPaths(p: Policy, blobs: map<string, Bytes>, single: bool, rank: nat, a: Artifact, n: nat)
    requires n <= |a.objects| && FilesUpTo(p, blobs, single, rank, a, n).Ok?
    ensures forall path | path in FilesUpTo(p, blobs, single, rank, a, n).value ::
      exists i :: 0 <= i < n && path == PathOf(p, single, rank, a.id, a.objects[i].0)
    ensures forall i | 0 <= i < n ::
      PathOf(p, single, rank, a.id, a.objects[i].0) in FilesUpTo(p, blobs, single, rank, a, n).value
  {
    hide PathOf;
    if n > 0 { FilesPaths(p, blobs, single, rank, a, n - 1); }
  }

  /** The files of two different artifacts never share a path. */
  lemma FilesApart(p: Policy, blobs: map<string, Bytes>, chosen: seq<Artifact>, i: nat, j: nat)
    requires i < |chosen| && j < |chosen| && i != j
    ensures FilesAt(p, blobs, chosen, i).Keys !! FilesAt(p, blobs, chosen, j).Keys
  {
    hide PathOf, FilesUpTo;
    forall path | path in FilesAt(p, blobs, chosen, i) && path in FilesAt(p, blobs, chosen, j) ensures false {
      FilesPaths(p, blobs, false, i + 1, chosen[i], |chosen[i].objects|);
      FilesPaths(p, blobs, false, j + 1, chosen[j], |chosen[j].objects|);
      var u :| 0 <= u < |chosen[i].objects| && path == PathOf(p, false, i + 1, chosen[i].id, chosen[i].objects[u].0);
      var v :| 0 <= v < |chosen[j].objects| && path == PathOf(p, false, j + 1, chosen[j].id, chosen[j].objects[v].0);
      PathsApart(p, i + 1, j + 1, chosen[i].id, chosen[j].id, chosen[i].objects[u].0, chosen[j].objects[v].0);
    }
  }

  /** The admitted places, in order: each of an artifact that has files. */
  ghost predicate Places(p: Policy, blobs: map<string, Bytes>, chosen: seq<Artifact>, n: nat, admitted: seq<nat>)
    requires n <= |chosen|
  {
    && (forall k | k in admitted :: k < n && FilesAt(p, blobs, chosen, k) != map[])
    && (forall a, b | 0 <= a < b < |admitted| :: admitted[a] < admitted[b])
  }

  ghost predicate HoldsWhole(p: Policy, blobs: map<string, Bytes>, chosen: seq<Artifact>, role: Files, admitted: seq<nat>) {
    forall k, path | k in admitted && k < |chosen| && path in FilesAt(p, blobs, chosen, k) ::
      path in role && role[path] == FilesAt(p, blobs, chosen, k)[path]
  }

  ghost predicate HoldsOnly(p: Policy, blobs: map<string, Bytes>, chosen: seq<Artifact>, role: Files, admitted: seq<nat>) {
    forall path | path in role :: exists k :: k in admitted && k < |chosen| && path in FilesAt(p, blobs, chosen, k)
  }

  /** The role holds exactly the files of the admitted artifacts, whole. */
  ghost predicate Holds(p: Policy, blobs: map<string, Bytes>, chosen: seq<Artifact>, n: nat, role: Files, admitted: seq<nat>)
    requires n <= |chosen|
  {
    && Places(p, blobs, chosen, n, admitted)
    && HoldsWhole(p, blobs, chosen, role, admitted)
    && HoldsOnly(p, blobs, chosen, role, admitted)
  }

  /** What the totals say after the first `n` artifacts. */
  ghost predicate Accounts(p: Policy, blobs: map<string, Bytes>, chosen: seq<Artifact>, n: nat, t: Totals)
    requires n <= |chosen|
  {
    && Holds(p, blobs, chosen, n, t.role, t.admitted)
    && SizeOf(t.role) == t.bytes
    && (p.maxBytes.Some? ==> t.bytes <= p.maxBytes.value)
    && (p.maxArtifacts.Some? ==> |t.admitted| <= p.maxArtifacts.value)
    && |t.admitted| + t.omitted + t.bare == n
  }

  lemma NewFilesApart(p: Policy, blobs: map<string, Bytes>, chosen: seq<Artifact>, i: nat, role: Files, admitted: seq<nat>)
    requires i < |chosen| && Holds(p, blobs, chosen, i, role, admitted)
    ensures role.Keys !! FilesAt(p, blobs, chosen, i).Keys
  {
    hide FilesAt;
    forall path | path in role ensures path !in FilesAt(p, blobs, chosen, i) {
      var k :| k in admitted && k < |chosen| && path in FilesAt(p, blobs, chosen, k);
      FilesApart(p, blobs, chosen, k, i);
    }
  }

  lemma HoldsMore(p: Policy, blobs: map<string, Bytes>, chosen: seq<Artifact>, i: nat, role: Files, admitted: seq<nat>)
    requires i < |chosen| && Holds(p, blobs, chosen, i, role, admitted) && FilesAt(p, blobs, chosen, i) != map[]
    ensures role.Keys !! FilesAt(p, blobs, chosen, i).Keys
    ensures Holds(p, blobs, chosen, i + 1, role + FilesAt(p, blobs, chosen, i), admitted + [i])
  {
    NewFilesApart(p, blobs, chosen, i, role, admitted);
    hide FilesAt, Places, HoldsWhole, HoldsOnly;
    PlacesRise(p, blobs, chosen, i, admitted);
    AllFound(p, blobs, chosen, i, role, admitted);
    AllOwned(p, blobs, chosen, i, role, admitted);
  }

  lemma PlacesRise(p: Policy, blobs: map<string, Bytes>, chosen: seq<Artifact>, i: nat, admitted: seq<nat>)
    requires i < |chosen| && Places(p, blobs, chosen, i, admitted) && FilesAt(p, blobs, chosen, i) != map[]
    ensures Places(p, blobs, chosen, i + 1, admitted + [i])
  {
    hide FilesAt;
    var more := admitted + [i];
    forall a, b | 0 <= a < b < |more| ensures more[a] < more[b] {
      assert admitted[a] in admitted;
    }
  }

  lemma AllFound(p: Policy, blobs: map<string, Bytes>, chosen: seq<Artifact>, i: nat, role: Files, admitted: seq<nat>)
    requires i < |chosen| && HoldsWhole(p, blobs, chosen, role, admitted)
    requires role.Keys !! FilesAt(p, blobs, chosen, i).Keys
    ensures HoldsWhole(p, blobs, chosen, role + FilesAt(p, blobs, chosen, i), admitted + [i])
  {
    hide FilesAt;
    var files := FilesAt(p, blobs, chosen, i);
    forall k, path | k in admitted + [i] && k < |chosen| && path in FilesAt(p, blobs, chosen, k)
      ensures path in role + files && (role + files)[path] == FilesAt(p, blobs, chosen, k)[path]
    {
      if k != i { assert k in admitted && path in role && path !in files; }
    }
  }

  lemma AllOwned(p: Policy, blobs: map<string, Bytes>, chosen: seq<Artifact>, i: nat, role: Files, admitted: seq<nat>)
    requires i < |chosen| && HoldsOnly(p, blobs, chosen, role, admitted)
    ensures HoldsOnly(p, blobs, chosen, role + FilesAt(p, blobs, chosen, i), admitted + [i])
  {
    hide FilesAt;
    var files := FilesAt(p, blobs, chosen, i);
    assert i in admitted + [i] by { assert (admitted + [i])[|admitted|] == i; }
    forall path | path in role + files
      ensures exists k :: k in admitted + [i] && k < |chosen| && path in FilesAt(p, blobs, chosen, k)
    {
      if path !in files {
        var k :| k in admitted && k < |chosen| && path in FilesAt(p, blobs, chosen, k);
        assert k in admitted + [i];
      }
    }
  }

  lemma ConsiderAccounts(p: Policy, blobs: map<string, Bytes>, chosen: seq<Artifact>, i: nat, t: Totals)
    requires i < |chosen| && Accounts(p, blobs, chosen, i, t) && Consider(p, blobs, chosen, i, t).Ok?
    ensures Accounts(p, blobs, chosen, i + 1, Consider(p, blobs, chosen, i, t).value)
  {
    hide FilesOf, SizeOf, Holds;
    var next := Consider(p, blobs, chosen, i, t).value;
    if next.admitted == t.admitted {
      HoldsLonger(p, blobs, chosen, i, t.role, t.admitted);
    } else {
      var files := FilesAt(p, blobs, chosen, i);
      HoldsMore(p, blobs, chosen, i, t.role, t.admitted);
      SizeOfUnion(t.role, files);
    }
  }

  lemma HoldsLonger(p: Policy, blobs: map<string, Bytes>, chosen: seq<Artifact>, i: nat, role: Files, admitted: seq<nat>)
    requires i < |chosen| && Holds(p, blobs, chosen, i, role, admitted)
    ensures Holds(p, blobs, chosen, i + 1, role, admitted)
  {
  }

  lemma {:induction false} ProvideAccounts(p: Policy, blobs: map<string, Bytes>, chosen: seq<Artifact>, n: nat)
    requires n <= |chosen| && ProvideUpTo(p, blobs, chosen, n).Ok?
    ensures Accounts(p, blobs, chosen, n, ProvideUpTo(p, blobs, chosen, n).value)
  {
    if n > 0 {
      ProvideAccounts(p, blobs, chosen, n - 1);
      ConsiderAccounts(p, blobs, chosen, n - 1, ProvideUpTo(p, blobs, chosen, n - 1).value);
    }
  }

  /** Every artifact is provided whole or not at all, within both limits, and all are accounted for. */
  lemma WholeOrNotAtAll(p: Policy, blobs: map<string, Bytes>, chosen: seq<Artifact>, k: nat)
    requires ProvideUpTo(p, blobs, chosen, |chosen|).Ok? && k < |chosen|
    ensures var t := ProvideUpTo(p, blobs, chosen, |chosen|).value;
      && (if k in t.admitted
          then forall path | path in FilesAt(p, blobs, chosen, k) ::
                 path in t.role && t.role[path] == FilesAt(p, blobs, chosen, k)[path]
          else FilesAt(p, blobs, chosen, k).Keys !! t.role.Keys)
      && (p.maxArtifacts.Some? ==> |t.admitted| <= p.maxArtifacts.value)
      && (p.maxBytes.Some? ==> SizeOf(t.role) <= p.maxBytes.value)
      && |t.admitted| + t.omitted + t.bare == |chosen|
  {
    hide FilesAt, SizeOf, ProvideUpTo;
    ProvideAccounts(p, blobs, chosen, |chosen|);
    var t := ProvideUpTo(p, blobs, chosen, |chosen|).value;
    if k !in t.admitted {
      forall path | path in t.role ensures path !in FilesAt(p, blobs, chosen, k) {
        var j :| j in t.admitted && j < |chosen| && path in FilesAt(p, blobs, chosen, j);
        FilesApart(p, blobs, chosen, j, k);
      }
    }
  }

  /** Adding the index loses no provided file, exactly unless a lone artifact within both limits has
      an object of that very name. */
  lemma IndexClobbersExactlyWhen(p: Policy, blobs: map<string, Bytes>, chosen: seq<Artifact>)
    requires ProvideUpTo(p, blobs, chosen, |chosen|).Ok?
    ensures p.prefix + INDEX in ProvideUpTo(p, blobs, chosen, |chosen|).value.role <==>
      && |chosen| == 1
      && (exists i :: 0 <= i < |chosen[0].objects| && chosen[0].objects[i].0 == INDEX)
      && p.maxArtifacts != Some(0)
      && (p.maxBytes.Some? ==> SizeOf(FilesAt(p, blobs, chosen, 0)) <= p.maxBytes.value)
  {
    ProvideAccounts(p, blobs, chosen, |chosen|);
    var t := ProvideUpTo(p, blobs, chosen, |chosen|).value;
    if |chosen| == 1 {
      LoneAdmitted(p, blobs, chosen);
    }
    hide PathOf, ProvideUpTo, FilesUpTo;
    var path := p.prefix + INDEX;
    if path in t.role {
      var k :| k in t.admitted && k < |chosen| && path in FilesAt(p, blobs, chosen, k);
      IndexAmong(p, blobs, chosen, k);
    }
    if |chosen| == 1 && t.admitted != [] {
      assert t.admitted[0] in t.admitted;
      IndexAmong(p, blobs, chosen, 0);
    }
    if |chosen| == 1 && p.maxArtifacts != Some(0)
       && exists i :: 0 <= i < |chosen[0].objects| && chosen[0].objects[i].0 == INDEX {
      HasFiles(p, blobs, chosen);
    }
  }

  /** A lone artifact is admitted exactly when it has files and is within both limits. */
  lemma LoneAdmitted(p: Policy, blobs: map<string, Bytes>, chosen: seq<Artifact>)
    requires |chosen| == 1 && ProvideUpTo(p, blobs, chosen, 1).Ok?
    ensures ProvideUpTo(p, blobs, chosen, 1).value.admitted != [] <==>
      && p.maxArtifacts != Some(0)
      && FilesAt(p, blobs, chosen, 0) != map[]
      && (p.maxBytes.Some? ==> SizeOf(FilesAt(p, blobs, chosen, 0)) <= p.maxBytes.value)
    ensures p.maxArtifacts != Some(0) ==> FilesOf(p, blobs, true, 1, chosen[0]).Ok?
  {
    hide SizeOf, FilesOf;
    assert ProvideUpTo(p, blobs, chosen, 0) == Ok(NOTHING);
    assert ProvideUpTo(p, blobs, chosen, 1) == Consider(p, blobs, chosen, 0, NOTHING);
  }

  lemma HasFiles(p: Policy, blobs: map<string, Bytes>, chosen: seq<Artifact>)
    requires |chosen| == 1 && chosen[0].objects != [] && FilesOf(p, blobs, true, 1, chosen[0]).Ok?
    ensures FilesAt(p, blobs, chosen, 0) != map[]
  {
    hide PathOf;
    FilesPaths(p, blobs, true, 1, chosen[0], |chosen[0].objects|);
    assert PathOf(p, true, 1, chosen[0].id, chosen[0].objects[0].0) in FilesAt(p, blobs, chosen, 0);
  }

  lemma IndexAmong(p: Policy, blobs: map<string, Bytes>, chosen: seq<Artifact>, k: nat)
    requires k < |chosen| && FilesAt(p, blobs, chosen, k) != map[]
    ensures p.prefix + INDEX in FilesAt(p, blobs, chosen, k) <==>
      |chosen| == 1 && exists i :: 0 <= i < |chosen[0].objects| && chosen[0].objects[i].0 == INDEX
  {
    hide PathOf, FilesUpTo;
    var a, single, path := chosen[k], |chosen| <= 1, p.prefix + INDEX;
    FilesPaths(p, blobs, single, k + 1, a, |a.objects|);
    forall i | 0 <= i < |a.objects|
      ensures PathOf(p, single, k + 1, a.id, a.objects[i].0) == path <==> single && a.objects[i].0 == INDEX
    {
      PathsApart(p, k + 1, k + 1, a.id, a.id, a.objects[i].0, a.objects[i].0);
    }
    if path in FilesAt(p, blobs, chosen, k) {
      var i :| 0 <= i < |a.objects| && path == PathOf(p, single, k + 1, a.id, a.objects[i].0);
    }
  }

  // ------------------------------------------------------------------ the bytes

  /** Object `i` of the artifact is the last of its name. */
  ghost predicate LastOfName(a: Artifact, i: nat) {
    i < |a.objects| && forall j | i < j < |a.objects| :: a.objects[j].0 != a.objects[i].0
  }

  /** The bytes under each path are those of the last object of that name, by the hash of that object. */
  lemma {:induction false} FilesBytes(p: Policy, blobs: map<string, Bytes>, single: bool, rank: nat, a: Artifact, n: nat, i: nat)
    requires i < n <= |a.objects| && FilesUpTo(p, blobs, single, rank, a, n).Ok?
    requires forall j | i < j < n :: a.objects[j].0 != a.objects[i].0
    ensures a.objects[i].1.contentHash in blobs
    ensures var files := FilesUpTo(p, blobs, single, rank, a, n).value;
      var path := PathOf(p, single, rank, a.id, a.objects[i].0);
      path in files && files[path] == blobs[a.objects[i].1.contentHash]
  {
    hide PathOf;
    if i < n - 1 {
      FilesBytes(p, blobs, single, rank, a, n - 1, i);
      NamesApart(p, single, rank, a.id, a.objects[i].0, a.objects[n - 1].0);
    }
  }

  /** The raise of a missing object, and nothing else, stops the files of an artifact. */
  lemma {:induction false} FilesErrExactlyWhen(p: Policy, blobs: map<string, Bytes>, single: bool, rank: nat, a: Artifact, n: nat)
    requires n <= |a.objects|
    ensures FilesUpTo(p, blobs, single, rank, a, n).Err? <==>
      exists i :: 0 <= i < n && a.objects[i].1.contentHash !in blobs
    ensures FilesUpTo(p, blobs, single, rank, a, n).Err? ==>
      FilesUpTo(p, blobs, single, rank, a, n).error == UnknownObject
    ensures FilesUpTo(p, blobs, single, rank, a, n).Ok? ==>
      (FilesUpTo(p, blobs, single, rank, a, n).value == map[] <==> n == 0)
  {
    hide PathOf;
    if n > 0 {
      FilesErrExactlyWhen(p, blobs, single, rank, a, n - 1);
      var files := FilesUpTo(p, blobs, single, rank, a, n);
      assert files.Ok? ==> PathOf(p, single, rank, a.id, a.objects[n - 1].0) in files.value;
    }
  }

  /** The place is looked at: everything before it went through and the number of artifacts provided so
      far is below its limit. */
  ghost predicate Considered(p: Policy, blobs: map<string, Bytes>, chosen: seq<Artifact>, k: nat) {
    && k < |chosen| && ProvideUpTo(p, blobs, chosen, k).Ok?
    && (p.maxArtifacts.Some? ==> |ProvideUpTo(p, blobs, chosen, k).value.admitted| < p.maxArtifacts.value)
  }

  /** The place is looked at and has an object whose hash is not stored. */
  ghost predicate MissesObject(p: Policy, blobs: map<string, Bytes>, chosen: seq<Artifact>, k: nat) {
    Considered(p, blobs, chosen, k)
    && exists i :: 0 <= i < |chosen[k].objects| && chosen[k].objects[i].1.contentHash !in blobs
  }

  lemma StopsOnMissing(p: Policy, blobs: map<string, Bytes>, chosen: seq<Artifact>, n: nat)
    requires n < |chosen| && ProvideUpTo(p, blobs, chosen, n).Ok?
    ensures ProvideUpTo(p, blobs, chosen, n + 1).Err? <==> MissesObject(p, blobs, chosen, n)
    ensures ProvideUpTo(p, blobs, chosen, n + 1).Err? ==> ProvideUpTo(p, blobs, chosen, n + 1).error == UnknownObject
  {
    hide PathOf, FilesUpTo, SizeOf;
    FilesErrExactlyWhen(p, blobs, |chosen| <= 1, n + 1, chosen[n], |chosen[n].objects|);
  }

  /** Providing raises exactly when an artifact that is looked at has an object whose hash is not
      stored, and the raise is that of the missing object. */
  lemma {:induction false} ProvideErrExactlyWhen(p: Policy, blobs: map<string, Bytes>, chosen: seq<Artifact>, n: nat)
    requires n <= |chosen|
    ensures ProvideUpTo(p, blobs, chosen, n).Err? <==> exists k: nat :: k < n && MissesObject(p, blobs, chosen, k)
    ensures ProvideUpTo(p, blobs, chosen, n).Err? ==> ProvideUpTo(p, blobs, chosen, n).error == UnknownObject
  {
    hide MissesObject;
    if n > 0 {
      ProvideErrExactlyWhen(p, blobs, chosen, n - 1);
      if ProvideUpTo(p, blobs, chosen, n - 1).Ok? {
        StopsOnMissing(p, blobs, chosen, n - 1);
      } else {
        ErrStays(p, blobs, chosen, n - 1, n);
      }
    }
  }

  /** An artifact is provided exactly when it is looked at, has objects, and all its bytes fit under the
      limit together with those provided before it. */
  lemma AdmittedExactlyWhen(p: Policy, blobs: map<string, Bytes>, chosen: seq<Artifact>, k: nat)
    requires ProvideUpTo(p, blobs, chosen, |chosen|).Ok? && k < |chosen|
    ensures k in ProvideUpTo(p, blobs, chosen, |chosen|).value.admitted <==>
      && Considered(p, blobs, chosen, k)
      && chosen[k].objects != []
      && (p.maxBytes.Some? ==>
            SizeOf(ProvideUpTo(p, blobs, chosen, k).value.role) + SizeOf(FilesAt(p, blobs, chosen, k)) <= p.maxBytes.value)
  {
    hide FilesOf, SizeOf;
    OkBefore(p, blobs, chosen, k, |chosen|);
    OkBefore(p, blobs, chosen, k + 1, |chosen|);
    AdmittedOnce(p, blobs, chosen, k, |chosen|);
    ProvideAccounts(p, blobs, chosen, k);
    var t := ProvideUpTo(p, blobs, chosen, k).value;
    assert forall x | x in t.admitted :: x < k;
    assert (t.admitted + [k])[|t.admitted|] == k;
    if Considered(p, blobs, chosen, k) {
      HasFilesExactly(p, blobs, chosen, k);
    }
  }

  lemma HasFilesExactly(p: Policy, blobs: map<string, Bytes>, chosen: seq<Artifact>, k: nat)
    requires Considered(p, blobs, chosen, k) && ProvideUpTo(p, blobs, chosen, k + 1).Ok?
    ensures FilesOf(p, blobs, |chosen| <= 1, k + 1, chosen[k]) == Ok(FilesAt(p, blobs, chosen, k))
    ensures FilesAt(p, blobs, chosen, k) == map[] <==> chosen[k].objects == []
  {
    hide SizeOf, FilesUpTo;
    FilesErrExactlyWhen(p, blobs, |chosen| <= 1, k + 1, chosen[k], |chosen[k].objects|);
  }

  lemma {:induction false} OkBefore(p: Policy, blobs: map<string, Bytes>, chosen: seq<Artifact>, m: nat, n: nat)
    requires m <= n <= |chosen| && ProvideUpTo(p, blobs, chosen, n).Ok?
    ensures ProvideUpTo(p, blobs, chosen, m).Ok?
  {
    if ProvideUpTo(p, blobs, chosen, m).Err? { ErrStays(p, blobs, chosen, m, n); }
  }

  /** A place is admitted in its turn or never. */
  lemma {:induction false} AdmittedOnce(p: Policy, blobs: map<string, Bytes>, chosen: seq<Artifact>, k: nat, n: nat)
    requires k < n <= |chosen| && ProvideUpTo(p, blobs, chosen, n).Ok?
    ensures ProvideUpTo(p, blobs, chosen, k + 1).Ok?
    ensures k in ProvideUpTo(p, blobs, chosen, n).value.admitted <==>
      k in ProvideUpTo(p, blobs, chosen, k + 1).value.admitted
    decreases n
  {
    hide FilesOf, SizeOf;
    if k + 1 < n {
      OkBefore(p, blobs, chosen, n - 1, n);
      AdmittedOnce(p, blobs, chosen, k, n - 1);
      var before, after := ProvideUpTo(p, blobs, chosen, n - 1).value.admitted, ProvideUpTo(p, blobs, chosen, n).value.admitted;
      assert after == before || after == before + [n - 1];
    }
  }

  /** The finished role, byte by byte: for every provided artifact and every object that is the last of
      its name, the path holds exactly the bytes stored under that object's hash (the path of the index
      apart); there is nothing else but the index, which is there as soon as anything is. */
  lemma ProvidedExactly(p: Policy, blobs: map<string, Bytes>, chosen: seq<Artifact>, index: (seq<nat>, nat) -> Bytes)
    requires ProvideUpTo(p, blobs, chosen, |chosen|).Ok?
    ensures var t := ProvideUpTo(p, blobs, chosen, |chosen|).value;
      ProvidedRole(p, blobs, chosen, index).Ok? && RoleIs(p, blobs, chosen, t.admitted,
        index(t.admitted, t.omitted), ProvidedRole(p, blobs, chosen, index).value)
  {
    hide PathOf, FilesUpTo, ProvideUpTo, SizeOf, RoleIs;
    ProvideAccounts(p, blobs, chosen, |chosen|);
    var t := ProvideUpTo(p, blobs, chosen, |chosen|).value;
    HeldRole(p, blobs, chosen, t, index(t.admitted, t.omitted));
  }

  ghost predicate RoleIs(p: Policy, blobs: map<string, Bytes>, chosen: seq<Artifact>, admitted: seq<nat>, index: Bytes, role: Files) {
    && (forall k, i: nat | k in admitted && k < |chosen| && LastOfName(chosen[k], i) ::
          var path := PathOf(p, |chosen| <= 1, k + 1, chosen[k].id, chosen[k].objects[i].0);
          && path in role && chosen[k].objects[i].1.contentHash in blobs
          && (path != p.prefix + INDEX ==> role[path] == blobs[chosen[k].objects[i].1.contentHash]))
    && (forall path | path in role ::
          || path == p.prefix + INDEX
          || exists k, i :: k in admitted && k < |chosen| && 0 <= i < |chosen[k].objects|
               && path == PathOf(p, |chosen| <= 1, k + 1, chosen[k].id, chosen[k].objects[i].0))
    && (admitted == [] ==> role == map[])
    && (admitted != [] ==> p.prefix + INDEX in role && role[p.prefix + INDEX] == index)
  }

  lemma FilesAtBytes(p: Policy, blobs: map<string, Bytes>, chosen: seq<Artifact>, k: nat, i: nat)
    requires k < |chosen| && FilesAt(p, blobs, chosen, k) != map[] && LastOfName(chosen[k], i)
    ensures chosen[k].objects[i].1.contentHash in blobs
    ensures var path := PathOf(p, |chosen| <= 1, k + 1, chosen[k].id, chosen[k].objects[i].0);
      path in FilesAt(p, blobs, chosen, k)
      && FilesAt(p, blobs, chosen, k)[path] == blobs[chosen[k].objects[i].1.contentHash]
  {
    hide PathOf, FilesUpTo;
    FilesBytes(p, blobs, |chosen| <= 1, k + 1, chosen[k], |chosen[k].objects|, i);
  }

  lemma FilesAtNames(p: Policy, blobs: map<string, Bytes>, chosen: seq<Artifact>, k: nat, path: string)
    requires k < |chosen| && path in FilesAt(p, blobs, chosen, k)
    ensures exists i ::
      (0 <= i < |chosen[k].objects| && path == PathOf(p, |chosen| <= 1, k + 1, chosen[k].id, chosen[k].objects[i].0))
  {
    hide PathOf, FilesUpTo;
    FilesPaths(p, blobs, |chosen| <= 1, k + 1, chosen[k], |chosen[k].objects|);
  }

  lemma HeldRole(p: Policy, blobs: map<string, Bytes>, chosen: seq<Artifact>, t: Totals, index: Bytes)
    requires Holds(p, blobs, chosen, |chosen|, t.role, t.admitted)
    ensures RoleIs(p, blobs, chosen, t.admitted, index,
      if t.role == map[] then map[] else t.role[p.prefix + INDEX := index])
  {
    hide PathOf, FilesAt, LastOfName;
    var role := if t.role == map[] then map[] else t.role[p.prefix + INDEX := index];
    forall k | k in t.admitted ensures t.role != map[] {
      var path :| path in FilesAt(p, blobs, chosen, k);
      assert path in t.role;
    }
    if t.admitted != [] { assert t.admitted[0] in t.admitted; }
    forall k, i: nat | k in t.admitted && k < |chosen| && LastOfName(chosen[k], i)
      ensures i < |chosen[k].objects| && chosen[k].objects[i].1.contentHash in blobs
      ensures var path := PathOf(p, |chosen| <= 1, k + 1, chosen[k].id, chosen[k].objects[i].0);
        path in role && (path != p.prefix + INDEX ==> role[path] == blobs[chosen[k].objects[i].1.contentHash])
    {
      assert i < |chosen[k].objects| by { LastInRange(chosen[k], i); }
      FilesAtBytes(p, blobs, chosen, k, i);
    }
    forall path | path in role && path != p.prefix + INDEX
      ensures exists k, i ::
        (k in t.admitted && k < |chosen| && 0 <= i < |chosen[k].objects|
         && path == PathOf(p, |chosen| <= 1, k + 1, chosen[k].id, chosen[k].objects[i].0))
    {
      var k :| k in t.admitted && k < |chosen| && path in FilesAt(p, blobs, chosen, k);
      FilesAtNames(p, blobs, chosen, k, path);
    }
    if t.role != map[] {
      var path :| path in t.role;
      var k :| k in t.admitted && k < |chosen| && path in FilesAt(p, blobs, chosen, k);
      assert t.admitted != [];
    }
  }

  lemma LastInRange(a: Artifact, i: nat)
    requires LastOfName(a, i)
    ensures i < |a.objects|
  {
  }

  /** Of what was not provided, the places looked at without an object to provide are counted apart from
      those left out for a limit. */
  lemma {:induction false} BareExactly(p: Policy, blobs: map<string, Bytes>, chosen: seq<Artifact>, n: nat)
    requires n <= |chosen| && ProvideUpTo(p, blobs, chosen, n).Ok?
    ensures ProvideUpTo(p, blobs, chosen, n).value.bare == |BarePlaces(p, blobs, chosen, n)|
  {
    hide FilesOf, SizeOf, Considered, BarePlaces, Consider;
    if n > 0 {
      BareExactly(p, blobs, chosen, n - 1);
      BareStep(p, blobs, chosen, n - 1);
      PlacesStep(p, blobs, chosen, n - 1);
    } else {
      NoPlaces(p, blobs, chosen);
    }
  }

  lemma NoPlaces(p: Policy, blobs: map<string, Bytes>, chosen: seq<Artifact>)
    ensures BarePlaces(p, blobs, chosen, 0) == {}
  {
  }

  lemma PlacesStep(p: Policy, blobs: map<string, Bytes>, chosen: seq<Artifact>, i: nat)
    requires i < |chosen|
    ensures |BarePlaces(p, blobs, chosen, i + 1)| == |BarePlaces(p, blobs, chosen, i)|
      + if Considered(p, blobs, chosen, i) && chosen[i].objects == [] then 1 else 0
  {
    hide Considered;
    var before := BarePlaces(p, blobs, chosen, i);
    assert BarePlaces(p, blobs, chosen, i + 1) ==
      if Considered(p, blobs, chosen, i) && chosen[i].objects == [] then before + {i} else before;
  }

  ghost function BarePlaces(p: Policy, blobs: map<string, Bytes>, chosen: seq<Artifact>, n: nat): set<nat>
    requires n <= |chosen|
  {
    set k: nat | k < n && Considered(p, blobs, chosen, k) && chosen[k].objects == []
  }

  lemma BareStep(p: Policy, blobs: map<string, Bytes>, chosen: seq<Artifact>, i: nat)
    requires i < |chosen| && ProvideUpTo(p, blobs, chosen, i + 1).Ok?
    ensures ProvideUpTo(p, blobs, chosen, i).Ok?
    ensures ProvideUpTo(p, blobs, chosen, i + 1).value.bare == ProvideUpTo(p, blobs, chosen, i).value.bare
      + if Considered(p, blobs, chosen, i) && chosen[i].objects == [] then 1 else 0
  {
    hide SizeOf, FilesUpTo;
    FilesErrExactlyWhen(p, blobs, |chosen| <= 1, i + 1, chosen[i], |chosen[i].objects|);
  }

  // ------------------------------------------------------------------ the score of an artifact

  /** An artifact scores the greatest score on record for it, and none when there is none. */
  lemma ArtifactScoreIs(db: Db, a: Artifact)
    ensures ArtifactScore(db, a).None? <==> forall d | d in db.decisions && d.artifactId == a.id :: d.score.None?
    ensures forall d | d in db.decisions && d.artifactId == a.id && d.score.Some? ::
      ArtifactScore(db, a).Some? && d.score.value <= ArtifactScore(db, a).value
    ensures ArtifactScore(db, a).Some? ==>
      exists d | d in db.decisions :: d.artifactId == a.id && d.score == ArtifactScore(db, a)
  {
    BestOfIs(RecordedOn(db.decisions, a.id));
    forall v ensures v in RecordedOn(db.decisions, a.id) <==>
      exists d | d in db.decisions :: d.artifactId == a.id && d.score == Some(v)
    {
      RecordedAre(db.decisions, a.id, v);
    }
  }

  lemma {:induction false} RecordedAre(ds: seq<Decision>, id: Id, v: real)
    ensures v in RecordedOn(ds, id) <==> exists d | d in ds :: d.artifactId == id && d.score == Some(v)
  {
    if ds != [] {
      var before, last := ds[..|ds| - 1], ds[|ds| - 1];
      RecordedAre(before, id, v);
      assert forall d :: d in ds <==> d in before || d == last by { assert ds == before + [last]; }
      var hit := last.artifactId == id && last.score == Some(v);
      assert v in RecordedOn(ds, id) <==> v in RecordedOn(before, id) || hit;
      if d :| d in ds && d.artifactId == id && d.score == Some(v) { assert d in before || hit; }
    }
  }

  lemma {:induction false} BestOfIs(scores: seq<real>)
    ensures BestOf(scores).None? <==> scores == []
    ensures forall v | v in scores :: BestOf(scores).Some? && v <= BestOf(scores).value
    ensures BestOf(scores).Some? ==> BestOf(scores).value in scores
  {
    if scores != [] {
      BestOfIs(scores[..|scores| - 1]);
      assert scores == scores[..|scores| - 1] + [scores[|scores| - 1]];
    }
  }
}

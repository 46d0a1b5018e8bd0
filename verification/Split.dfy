/** The deterministic stratified split of a labelled table, and the per-class subsample. */
module Split {

  import opened Contracts

  type Row = map<string, string>

  datatype Table = Table(header: seq<string>, rows: seq<Row>)

  /** A reader gives every row a value for every column. */
  predicate Complete(t: Table) {
    forall r, c | r in t.rows && c in t.header :: c in r
  }

  datatype DatasetSplit = DatasetSplit(
    agentTrain: Table,
    reservedTest: Table,
    labels: map<string, string>)

  datatype SplitError = BadFraction | NoTarget | NoIdColumn

  // ------------------------------------------------------------------ what is reserved

  function LabelOf(r: Row, target: string): string {
    if target in r then r[target] else ""
  }

  function CountOf(rows: seq<Row>, target: string, cls: string): nat {
    if rows == [] then 0
    else CountOf(rows[..|rows| - 1], target, cls) + if LabelOf(rows[|rows| - 1], target) == cls then 1 else 0
  }

  ghost function PlacesOf(rows: seq<Row>, target: string, cls: string): set<nat> {
    set i: nat | i < |rows| && target in rows[i] && rows[i][target] == cls
  }

  /** A class has as many rows as carry its label in the target column. */
  lemma {:induction false} CountIs(rows: seq<Row>, target: string, cls: string)
    requires forall i | 0 <= i < |rows| :: target in rows[i]
    ensures CountOf(rows, target, cls) == |PlacesOf(rows, target, cls)|
  {
    if rows != [] {
      var n := |rows| - 1;
      CountIs(rows[..n], target, cls);
      PlacesStep(rows, target, cls, n);
    }
  }

  lemma PlacesStep(rows: seq<Row>, target: string, cls: string, n: nat)
    requires |rows| == n + 1 && target in rows[n]
    ensures |PlacesOf(rows, target, cls)| == |PlacesOf(rows[..n], target, cls)| + if rows[n][target] == cls then 1 else 0
  {
    var before := PlacesOf(rows[..n], target, cls);
    assert forall i | 0 <= i < n :: rows[..n][i] == rows[i];
    assert PlacesOf(rows, target, cls) == if rows[n][target] == cls then before + {n} else before;
  }

  /** The whole part of the fraction of `n` rows. */
  function Share(n: nat, f: real): int {
    (n as real * f).Floor
  }

  /** The running count of reserved rows advances with the row that comes after `seen` of its class. */
  predicate Advances(seen: nat, f: real) {
    Share(seen + 1, f) != Share(seen, f)
  }

  predicate ToReserved(rows: seq<Row>, target: string, f: real, i: nat)
    requires i < |rows|
  {
    Advances(CountOf(rows[..i], target, LabelOf(rows[i], target)), f)
  }

  function Mask(rows: seq<Row>, target: string, f: real): (mask: seq<bool>)
    ensures |mask| == |rows|
  {
    seq(|rows|, i requires 0 <= i < |rows| => ToReserved(rows, target, f, i))
  }

  /** The rows whose mark is `want`, in order. */
  function Picked(rows: seq<Row>, mask: seq<bool>, want: bool): seq<Row>
    requires |rows| == |mask|
  {
    if rows == [] then []
    else
      var n := |rows| - 1;
      Picked(rows[..n], mask[..n], want) + if mask[n] == want then [rows[n]] else []
  }

  /** Weaves two sequences together: at a mark of true the next row comes from `yes`. */
  function Woven(mask: seq<bool>, yes: seq<Row>, no: seq<Row>): seq<Row> {
    if mask == [] then []
    else if mask[|mask| - 1] then
      if yes == [] then [] else Woven(mask[..|mask| - 1], yes[..|yes| - 1], no) + [yes[|yes| - 1]]
    else
      if no == [] then [] else Woven(mask[..|mask| - 1], yes, no[..|no| - 1]) + [no[|no| - 1]]
  }

  function LabelMap(reserved: seq<Row>, idColumn: string, target: string): map<string, string> {
    if reserved == [] then map[]
    else
      var r := reserved[|reserved| - 1];
      LabelMap(reserved[..|reserved| - 1], idColumn, target)[LabelOf(r, idColumn) := LabelOf(r, target)]
  }

  function Without(header: seq<string>, column: string): (rest: seq<string>)
    ensures column !in rest
    ensures forall c | c in rest :: c in header
  {
    if header == [] then []
    else (if header[0] == column then [] else [header[0]]) + Without(header[1..], column)
  }

  /** Only the named columns are written. */
  function Written(header: seq<string>, rows: seq<Row>): Table {
    Table(header, seq(|rows|, i requires 0 <= i < |rows| => map c | c in rows[i] && c in header :: rows[i][c]))
  }

  // ------------------------------------------------------------------ telescoping

  lemma FloorAdvances(seen: nat, f: real)
    requires 0.0 < f < 1.0
    ensures Share(seen + 1, f) == Share(seen, f) + if Advances(seen, f) then 1 else 0
    ensures Share(0, f) == 0 && 0 <= Share(seen, f) <= seen
  {
    var x := seen as real * f;
    assert (seen + 1) as real * f == x + f;
    assert x.Floor as real <= x < x.Floor as real + 1.0;
    assert 0.0 <= x && seen as real - x == seen as real * (1.0 - f) >= 0.0;
  }

  lemma {:induction false} PickedLabels(rows: seq<Row>, target: string, f: real, cls: string)
    requires 0.0 < f < 1.0
    ensures CountOf(Picked(rows, Mask(rows, target, f), true), target, cls)
      == Share(CountOf(rows, target, cls), f)
    ensures CountOf(Picked(rows, Mask(rows, target, f), false), target, cls)
      == CountOf(rows, target, cls) - Share(CountOf(rows, target, cls), f)
  {
    hide Share, Advances, Mask, Picked, CountOf, LabelOf;
    FloorAdvances(0, f);
    if rows == [] {
      NothingPicked(Mask(rows, target, f));
      NothingCounted(target, cls);
    } else {
      var n := |rows| - 1;
      var mask, before := Mask(rows, target, f), rows[..n];
      MaskPrefix(rows, target, f, n);
      PickedLabels(before, target, f, cls);
      MaskAt(rows, target, f, n);
      FloorAdvances(CountOf(before, target, LabelOf(rows[n], target)), f);
      PickedStep(rows, mask, true);
      PickedStep(rows, mask, false);
      CountStep(rows, target, cls);
      CountAppend(Picked(before, mask[..n], true), rows[n], target, cls);
      CountAppend(Picked(before, mask[..n], false), rows[n], target, cls);
    }
  }

  lemma MaskPrefix(rows: seq<Row>, target: string, f: real, n: nat)
    requires n <= |rows|
    ensures Mask(rows, target, f)[..n] == Mask(rows[..n], target, f)
  {
    forall i | 0 <= i < n ensures Mask(rows, target, f)[i] == Mask(rows[..n], target, f)[i] {
      assert rows[..n][..i] == rows[..i];
    }
  }

  lemma CountAppend(rows: seq<Row>, r: Row, target: string, cls: string)
    ensures CountOf(rows + [r], target, cls) == CountOf(rows, target, cls) + if LabelOf(r, target) == cls then 1 else 0
  {
    assert (rows + [r])[..|rows|] == rows;
  }

  /** Every prefix of the table has, of each class, exactly the floor of the fraction reserved: the
      share is spread evenly through the class. */
  lemma EveryPrefixIsFair(rows: seq<Row>, target: string, f: real, n: nat, cls: string)
    requires 0.0 < f < 1.0 && n <= |rows|
    ensures var first := rows[..n];
      CountOf(Picked(first, Mask(rows, target, f)[..n], true), target, cls)
        == (CountOf(first, target, cls) as real * f).Floor
  {
    hide Mask, Picked;
    MaskPrefix(rows, target, f, n);
    PickedLabels(rows[..n], target, f, cls);
  }

  // ------------------------------------------------------------------ a partition

  lemma CountStep(rows: seq<Row>, target: string, cls: string)
    requires rows != []
    ensures var n := |rows| - 1;
      CountOf(rows, target, cls) == CountOf(rows[..n], target, cls) + if LabelOf(rows[n], target) == cls then 1 else 0
  {
  }

  lemma PickedStep(rows: seq<Row>, mask: seq<bool>, want: bool)
    requires |rows| == |mask| && rows != []
    ensures var n := |rows| - 1;
      Picked(rows, mask, want) == if mask[n] == want then Picked(rows[..n], mask[..n], want) + [rows[n]]
                                  else Picked(rows[..n], mask[..n], want)
  {
    var before := Picked(rows[..|rows| - 1], mask[..|rows| - 1], want);
    assert before + [] == before;
  }

  lemma NothingPicked(mask: seq<bool>)
    requires mask == []
    ensures Picked([], mask, true) == [] && Picked([], mask, false) == []
    ensures Woven(mask, [], []) == []
  {
  }

  lemma NothingCounted(target: string, cls: string)
    ensures CountOf([], target, cls) == 0
  {
  }

  lemma WovenStep(mask: seq<bool>, yes: seq<Row>, no: seq<Row>, r: Row)
    ensures Woven(mask + [true], yes + [r], no) == Woven(mask, yes, no) + [r]
    ensures Woven(mask + [false], yes, no + [r]) == Woven(mask, yes, no) + [r]
  {
    assert (mask + [true])[..|mask|] == mask && (mask + [false])[..|mask|] == mask;
    assert (yes + [r])[..|yes|] == yes && (no + [r])[..|no|] == no;
  }

  /** Nothing is lost, doubled or reordered: weaving the two parts back gives the table. */
  lemma {:induction false} PartsWeaveBack(rows: seq<Row>, mask: seq<bool>)
    requires |rows| == |mask|
    ensures Woven(mask, Picked(rows, mask, true), Picked(rows, mask, false)) == rows
    ensures |Picked(rows, mask, true)| + |Picked(rows, mask, false)| == |rows|
  {
    hide Picked, Woven;
    if rows == [] {
      NothingPicked(mask);
    } else {
      var n := |rows| - 1;
      PartsWeaveBack(rows[..n], mask[..n]);
      PickedStep(rows, mask, true);
      PickedStep(rows, mask, false);
      WovenStep(mask[..n], Picked(rows[..n], mask[..n], true), Picked(rows[..n], mask[..n], false), rows[n]);
      assert rows == rows[..n] + [rows[n]];
      assert mask == mask[..n] + [mask[n]];
    }
  }

  lemma {:induction false} PickedFrom(rows: seq<Row>, mask: seq<bool>, want: bool, r: Row)
    requires |rows| == |mask|
    ensures r in Picked(rows, mask, want) <==> exists i :: 0 <= i < |rows| && rows[i] == r && mask[i] == want
  {
    if rows != [] {
      var n := |rows| - 1;
      PickedFrom(rows[..n], mask[..n], want, r);
      if i :| 0 <= i < |rows| && rows[i] == r && mask[i] == want {
        if i < n { assert rows[..n][i] == r && mask[..n][i] == want; }
      }
      if i :| 0 <= i < n && rows[..n][i] == r && mask[..n][i] == want { assert rows[i] == r && mask[i] == want; }
    }
  }

  predicate UniqueIds(rows: seq<Row>, idColumn: string) {
    forall i, j | 0 <= i < j < |rows| :: LabelOf(rows[i], idColumn) != LabelOf(rows[j], idColumn)
  }

  lemma {:induction false} LabelMapKeys(reserved: seq<Row>, idColumn: string, target: string)
    ensures forall id ::
      (id in LabelMap(reserved, idColumn, target) <==> exists r :: r in reserved && LabelOf(r, idColumn) == id)
    ensures UniqueIds(reserved, idColumn) ==>
      forall r | r in reserved :: LabelOf(r, idColumn) in LabelMap(reserved, idColumn, target)
        && LabelMap(reserved, idColumn, target)[LabelOf(r, idColumn)] == LabelOf(r, target)
  {
    if reserved != [] {
      var n := |reserved| - 1;
      LabelMapKeys(reserved[..n], idColumn, target);
      assert reserved == reserved[..n] + [reserved[n]];
      if UniqueIds(reserved, idColumn) {
        assert UniqueIds(reserved[..n], idColumn);
        forall r | r in reserved[..n] ensures LabelOf(r, idColumn) != LabelOf(reserved[n], idColumn) {
          var i :| 0 <= i < n && reserved[..n][i] == r;
          assert reserved[i] == r;
        }
      }
    }
  }

  lemma {:induction false} PickedUnique(rows: seq<Row>, mask: seq<bool>, idColumn: string)
    requires |rows| == |mask| && UniqueIds(rows, idColumn)
    ensures UniqueIds(Picked(rows, mask, true), idColumn)
  {
    if rows != [] {
      var n := |rows| - 1;
      assert UniqueIds(rows[..n], idColumn);
      PickedUnique(rows[..n], mask[..n], idColumn);
      forall r | r in Picked(rows[..n], mask[..n], true) ensures LabelOf(r, idColumn) != LabelOf(rows[n], idColumn) {
        PickedFrom(rows[..n], mask[..n], true, r);
        var i :| 0 <= i < n && rows[..n][i] == r;
        assert rows[i] == r;
      }
    }
  }

  /** With unique ids the answer key covers exactly the reserved ids, each with its true label, and
      none of them is among the agent's rows. */
  lemma KeyIsExactlyReserved(rows: seq<Row>, target: string, idColumn: string, f: real, id: string)
    requires UniqueIds(rows, idColumn)
    ensures var mask := Mask(rows, target, f);
      var reserved, agent := Picked(rows, mask, true), Picked(rows, mask, false);
      var labels := LabelMap(reserved, idColumn, target);
      && (id in labels <==> exists r :: r in reserved && LabelOf(r, idColumn) == id)
      && (forall r | r in reserved :: LabelOf(r, idColumn) in labels && labels[LabelOf(r, idColumn)] == LabelOf(r, target))
      && (id in labels ==> forall r | r in agent :: LabelOf(r, idColumn) != id)
  {
    var mask := Mask(rows, target, f);
    var reserved, agent := Picked(rows, mask, true), Picked(rows, mask, false);
    PickedUnique(rows, mask, idColumn);
    LabelMapKeys(reserved, idColumn, target);
    if exists r :: r in reserved && LabelOf(r, idColumn) == id {
      var r :| r in reserved && LabelOf(r, idColumn) == id;
      PickedFrom(rows, mask, true, r);
      var i :| 0 <= i < |rows| && rows[i] == r && mask[i] == true;
      forall x | x in agent ensures LabelOf(x, idColumn) != id {
        PickedFrom(rows, mask, false, x);
        var j :| 0 <= j < |rows| && rows[j] == x && mask[j] == false;
        assert i < j || j < i;
      }
    }
  }

  // ------------------------------------------------------------------ the split as it runs

  function Seen(seen: map<string, nat>, cls: string): nat {
    if cls in seen then seen[cls] else 0
  }

  /** The answer key, row by row. */
  method CollectLabels(reserved: seq<Row>, idColumn: string, target: string) returns (labels: map<string, string>)
    ensures labels == LabelMap(reserved, idColumn, target)
  {
    labels := map[];
    for i := 0 to |reserved|
      invariant labels == LabelMap(reserved[..i], idColumn, target)
    {
      assert reserved[..i + 1][..i] == reserved[..i];
      labels := labels[LabelOf(reserved[i], idColumn) := LabelOf(reserved[i], target)];
    }
    assert reserved[..|reserved|] == reserved;
  }

  lemma MaskAt(rows: seq<Row>, target: string, f: real, i: nat)
    requires i < |rows|
    ensures Mask(rows, target, f)[i] == Advances(CountOf(rows[..i], target, LabelOf(rows[i], target)), f)
  {
  }

  /** Every row goes to one side, in order. */
  method Divide(t: Table, target: string, f: real) returns (agent: seq<Row>, reserved: seq<Row>)
    requires Complete(t) && target in t.header
    ensures reserved == Picked(t.rows, Mask(t.rows, target, f), true)
    ensures agent == Picked(t.rows, Mask(t.rows, target, f), false)
  {
    hide Mask, Share, Picked, CountOf, LabelOf;
    NothingPicked([]);
    forall cls ensures CountOf([], target, cls) == 0 { NothingCounted(target, cls); }
    var seen: map<string, nat> := map[];
    agent, reserved := [], [];
    ghost var mask := Mask(t.rows, target, f);
    for i := 0 to |t.rows|
      invariant forall cls :: CountOf(t.rows[..i], target, cls) == Seen(seen, cls)
      invariant reserved == Picked(t.rows[..i], mask[..i], true)
      invariant agent == Picked(t.rows[..i], mask[..i], false)
    {
      var row := t.rows[i];
      assert row in t.rows && target in row;
      assert t.rows[..i + 1][..i] == t.rows[..i] && mask[..i + 1][..i] == mask[..i];
      var cls := row[target];
      var k := Seen(seen, cls);
      LabelIs(row, target);
      PickedStep(t.rows[..i + 1], mask[..i + 1], true);
      PickedStep(t.rows[..i + 1], mask[..i + 1], false);
      forall other ensures CountOf(t.rows[..i + 1], target, other) == CountOf(t.rows[..i], target, other) + if cls == other then 1 else 0 {
        CountStep(t.rows[..i + 1], target, other);
      }
      assert k == CountOf(t.rows[..i], target, cls);
      MaskAt(t.rows, target, f, i);
      ghost var was := seen;
      seen := seen[cls := k + 1];
      forall other ensures CountOf(t.rows[..i + 1], target, other) == Seen(seen, other) {
        assert CountOf(t.rows[..i], target, other) == Seen(was, other);
      }
      if Share(k + 1, f) != Share(k, f) {
        reserved := reserved + [row];
      } else {
        agent := agent + [row];
      }
    }
    assert t.rows[..|t.rows|] == t.rows && mask[..|t.rows|] == mask;
  }

  method StratifiedSplit(t: Table, target: string, idColumn: string, f: real)
    returns (r: Result<DatasetSplit, SplitError>)
    requires Complete(t)
    ensures r.Err? <==> !(0.0 < f < 1.0) || target !in t.header || idColumn !in t.header
    ensures r.Err? ==> r.error == if !(0.0 < f < 1.0) then BadFraction else if target !in t.header then NoTarget else NoIdColumn
    ensures r.Ok? ==>
      var mask := Mask(t.rows, target, f);
      && r.value.agentTrain == Written(t.header, Picked(t.rows, mask, false))
      && r.value.reservedTest == Written(Without(t.header, target), Picked(t.rows, mask, true))
      && r.value.labels == LabelMap(Picked(t.rows, mask, true), idColumn, target)
  {
    if !(0.0 < f < 1.0) { return Err(BadFraction); }
    if target !in t.header { return Err(NoTarget); }
    if idColumn !in t.header { return Err(NoIdColumn); }
    hide Mask, LabelMap, Written, Without, Picked;
    var agent, reserved := Divide(t, target, f);
    var labels := CollectLabels(reserved, idColumn, target);
    r := Ok(DatasetSplit(Written(t.header, agent), Written(Without(t.header, target), reserved), labels));
  }

  /** The unlabelled set carries no labels. */
  lemma TargetIsGone(header: seq<string>, target: string, rows: seq<Row>, i: nat)
    requires i < |rows|
    ensures target !in Written(Without(header, target), rows).rows[i]
    ensures forall c | c in header && c != target && c in rows[i] ::
      c in Written(Without(header, target), rows).rows[i] && Written(Without(header, target), rows).rows[i][c] == rows[i][c]
  {
    WithoutKeeps(header, target);
  }

  lemma {:induction false} WithoutKeeps(header: seq<string>, column: string)
    ensures forall c | c in header && c != column :: c in Without(header, column)
  {
    if header != [] {
      WithoutKeeps(header[1..], column);
    }
  }

  // ------------------------------------------------------------------ subsample

  function AtMost(n: nat, cap: int): nat {
    if cap < 0 then 0 else if n < cap then n else cap
  }

  /** Keeps up to `cap` rows of each class, the first ones, in order. */
  function FirstPerClass(rows: seq<Row>, target: string, cap: int): seq<Row> {
    if rows == [] then []
    else
      var n := |rows| - 1;
      FirstPerClass(rows[..n], target, cap)
      + if CountOf(rows[..n], target, LabelOf(rows[n], target)) < cap then [rows[n]] else []
  }

  lemma FirstStep(rows: seq<Row>, target: string, cap: int)
    requires rows != []
    ensures var n := |rows| - 1;
      var kept := FirstPerClass(rows[..n], target, cap);
      FirstPerClass(rows, target, cap) ==
        if CountOf(rows[..n], target, LabelOf(rows[n], target)) < cap then kept + [rows[n]] else kept
  {
    var kept := FirstPerClass(rows[..|rows| - 1], target, cap);
    assert kept + [] == kept;
  }

  lemma {:induction false} SubsampleCounts(rows: seq<Row>, target: string, cap: int, cls: string)
    ensures CountOf(FirstPerClass(rows, target, cap), target, cls) == AtMost(CountOf(rows, target, cls), cap)
    ensures cap >= 0 ==> (CountOf(FirstPerClass(rows, target, cap), target, cls)
      == if CountOf(rows, target, cls) < cap then CountOf(rows, target, cls) else cap)
  {
    hide CountOf, FirstPerClass, LabelOf;
    if rows == [] {
      NothingKept(target, cap);
    } else {
      var n := |rows| - 1;
      SubsampleCounts(rows[..n], target, cap, cls);
      CountStep(rows, target, cls);
      FirstStep(rows, target, cap);
      CountAppend(FirstPerClass(rows[..n], target, cap), rows[n], target, cls);
    }
  }

  /** The first ones: what a table keeps begins with what each of its beginnings keeps. */
  lemma {:induction false} SubsampleIsFirst(rows: seq<Row>, more: seq<Row>, target: string, cap: int)
    ensures FirstPerClass(rows, target, cap) <= FirstPerClass(rows + more, target, cap)
  {
    if more == [] {
      assert rows + more == rows;
    } else {
      var n := |more| - 1;
      assert (rows + more)[..|rows| + n] == rows + more[..n];
      SubsampleIsFirst(rows, more[..n], target, cap);
    }
  }

  lemma NothingKept(target: string, cap: int)
    ensures FirstPerClass([], target, cap) == []
    ensures forall cls :: CountOf([], target, cls) == 0
  {
  }

  lemma LabelIs(r: Row, target: string)
    requires target in r
    ensures LabelOf(r, target) == r[target]
  {
  }

  method Subsample(t: Table, cap: Option<int>, target: string) returns (kept: seq<Row>)
    requires forall r | r in t.rows :: target in r
    ensures kept == if cap.None? then t.rows else FirstPerClass(t.rows, target, cap.value)
  {
    hide CountOf, FirstPerClass, LabelOf;
    var seen: map<string, nat> := map[];
    kept := [];
    NothingKept(target, if cap.Some? then cap.value else 0);
    for i := 0 to |t.rows|
      invariant cap.None? ==> kept == t.rows[..i]
      invariant cap.Some? ==> kept == FirstPerClass(t.rows[..i], target, cap.value)
      invariant cap.Some? ==>
        forall cls :: Seen(seen, cls) == AtMost(CountOf(t.rows[..i], target, cls), cap.value)
    {
      var row := t.rows[i];
      assert row in t.rows;
      assert t.rows[..i + 1][..i] == t.rows[..i];
      var cls := row[target];
      assert LabelOf(row, target) == cls by { LabelIs(row, target); }
      if cap.Some? { FirstStep(t.rows[..i + 1], target, cap.value); }
      forall other ensures CountOf(t.rows[..i + 1], target, other) == CountOf(t.rows[..i], target, other) + if cls == other then 1 else 0 {
        CountStep(t.rows[..i + 1], target, other);
      }
      var k := Seen(seen, cls);
      ghost var was := seen;
      if cap.None? || k < cap.value {
        seen := seen[cls := k + 1];
        kept := kept + [row];
      }
      if cap.Some? {
        forall other ensures Seen(seen, other) == AtMost(CountOf(t.rows[..i + 1], target, other), cap.value) {
          assert Seen(was, other) == AtMost(CountOf(t.rows[..i], target, other), cap.value);
        }
      }
    }
    assert t.rows[..|t.rows|] == t.rows;
  }

  /** A second subsample with the same cap changes nothing. */
  lemma {:induction false} SubsampleIdempotent(rows: seq<Row>, target: string, cap: int)
    ensures FirstPerClass(FirstPerClass(rows, target, cap), target, cap) == FirstPerClass(rows, target, cap)
  {
    if rows != [] {
      var n := |rows| - 1;
      SubsampleIdempotent(rows[..n], target, cap);
      var kept := FirstPerClass(rows[..n], target, cap);
      SubsampleCounts(rows[..n], target, cap, LabelOf(rows[n], target));
      assert (kept + [rows[n]])[..|kept|] == kept;
      assert kept + [] == kept;
    }
  }
}

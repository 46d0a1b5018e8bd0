/** The order in which the database returns rows: by timestamp, then by key, both as text. */
module Ordering {

  import opened Contracts

  /** Nothing comes twice. */
  ghost predicate Distinct<T>(xs: seq<T>) {
    forall i, j | 0 <= i < j < |xs| :: xs[i] != xs[j]
  }

  /** Text comparison by code point, shorter prefix first. */
  predicate TextLess(a: string, b: string)
    decreases |a|
  {
    if b == "" then false
    else if a == "" then true
    else a[0] < b[0] || (a[0] == b[0] && TextLess(a[1..], b[1..]))
  }

  /** Text comes before text exactly when it is a proper prefix of it, or smaller at the first place
      where they differ. */
  lemma {:induction false} TextLessExactlyWhen(a: string, b: string)
    ensures TextLess(a, b) <==> exists n: nat :: DiffersAt(a, b, n)
    decreases |a|
  {
    if a != "" && b != "" && a[0] == b[0] {
      TextLessExactlyWhen(a[1..], b[1..]);
      if n: nat :| DiffersAt(a[1..], b[1..], n) {
        assert forall i | 0 <= i < n + 1 :: i > 0 ==> a[i] == a[1..][i - 1] && b[i] == b[1..][i - 1];
        assert DiffersAt(a, b, n + 1);
      }
      if n: nat :| DiffersAt(a, b, n) {
        assert n > 0 && DiffersAt(a[1..], b[1..], n - 1);
      }
    } else if TextLess(a, b) {
      assert DiffersAt(a, b, 0);
    }
  }

  ghost predicate DiffersAt(a: string, b: string, n: nat) {
    && n <= |a| && n < |b| && (forall i | 0 <= i < n :: a[i] == b[i])
    && (n < |a| ==> a[n] < b[n])
  }

  lemma {:induction false} TextTotal(a: string, b: string)
    ensures TextLess(a, b) || a == b || TextLess(b, a)
    ensures !(TextLess(a, b) && TextLess(b, a))
    ensures a == b ==> !TextLess(a, b)
    decreases |a|
  {
    if a != "" && b != "" && a[0] == b[0] {
      TextTotal(a[1..], b[1..]);
      assert a == [a[0]] + a[1..] && b == [b[0]] + b[1..];
    }
  }

  lemma {:induction false} TextTransitive(a: string, b: string, c: string)
    requires TextLess(a, b) && TextLess(b, c)
    ensures TextLess(a, c)
    decreases |a|
  {
    if a != "" && a[0] == b[0] && b[0] == c[0] {
      TextTransitive(a[1..], b[1..], c[1..]);
    }
  }

  /** ORDER BY timestamp, key. */
  predicate Before(stamps: map<Id, Timestamp>, a: Id, b: Id)
    requires a in stamps && b in stamps
  {
    TextLess(stamps[a], stamps[b]) || (stamps[a] == stamps[b] && TextLess(a, b))
  }

  lemma BeforeTotal(stamps: map<Id, Timestamp>, a: Id, b: Id)
    requires a in stamps && b in stamps
    ensures Before(stamps, a, b) || a == b || Before(stamps, b, a)
    ensures !(Before(stamps, a, b) && Before(stamps, b, a))
    ensures a == b ==> !Before(stamps, a, b)
  {
    TextTotal(stamps[a], stamps[b]);
    TextTotal(a, b);
  }

  lemma BeforeTransitive(stamps: map<Id, Timestamp>, a: Id, b: Id, c: Id)
    requires a in stamps && b in stamps && c in stamps
    requires Before(stamps, a, b) && Before(stamps, b, c)
    ensures Before(stamps, a, c)
  {
    if TextLess(stamps[a], stamps[b]) && TextLess(stamps[b], stamps[c]) {
      TextTransitive(stamps[a], stamps[b], stamps[c]);
    } else if stamps[a] == stamps[b] == stamps[c] {
      TextTransitive(a, b, c);
    }
  }

  predicate IsFirst(stamps: map<Id, Timestamp>, keys: set<Id>, k: Id)
    requires keys <= stamps.Keys
  {
    k in keys && forall j | j in keys && j != k :: Before(stamps, k, j)
  }

  lemma {:induction false} FirstExists(stamps: map<Id, Timestamp>, keys: set<Id>)
    requires keys <= stamps.Keys && keys != {}
    ensures exists k :: IsFirst(stamps, keys, k)
    decreases |keys|
  {
    var k :| k in keys;
    var rest := keys - {k};
    if rest == {} {
      assert forall j | j in keys :: j == k || j in rest;
      assert IsFirst(stamps, keys, k);
    } else {
      FirstExists(stamps, rest);
      var m :| IsFirst(stamps, rest, m);
      BeforeTotal(stamps, k, m);
      if Before(stamps, k, m) {
        forall j | j in keys && j != k ensures Before(stamps, k, j) {
          if j != m { BeforeTransitive(stamps, k, m, j); }
        }
        assert IsFirst(stamps, keys, k);
      } else {
        assert IsFirst(stamps, keys, m);
      }
    }
  }

  lemma FirstUnique(stamps: map<Id, Timestamp>, keys: set<Id>, a: Id, b: Id)
    requires keys <= stamps.Keys
    requires IsFirst(stamps, keys, a) && IsFirst(stamps, keys, b)
    ensures a == b
  {
    BeforeTotal(stamps, a, b);
  }

  function First(stamps: map<Id, Timestamp>, keys: set<Id>): (k: Id)
    requires keys <= stamps.Keys && keys != {}
    ensures IsFirst(stamps, keys, k)
  {
    FirstExists(stamps, keys);
    assert forall a, b | IsFirst(stamps, keys, a) && IsFirst(stamps, keys, b) :: a == b by {
      forall a, b | IsFirst(stamps, keys, a) && IsFirst(stamps, keys, b) ensures a == b {
        FirstUnique(stamps, keys, a, b);
      }
    }
    var k :| IsFirst(stamps, keys, k);
    k
  }

  /** The keys in query order. */
  function Ordered(stamps: map<Id, Timestamp>, keys: set<Id>): (ks: seq<Id>)
    requires keys <= stamps.Keys
    ensures |ks| == |keys|
    ensures forall k :: k in ks <==> k in keys
    decreases |keys|
  {
    if keys == {} then []
    else
      var k := First(stamps, keys);
      [k] + Ordered(stamps, keys - {k})
  }

  /** Query order is strict: no row comes twice and every row comes before all later ones. */
  lemma {:induction false} OrderedSorted(stamps: map<Id, Timestamp>, keys: set<Id>)
    requires keys <= stamps.Keys
    ensures forall i, j | 0 <= i < j < |Ordered(stamps, keys)| ::
      Ordered(stamps, keys)[i] != Ordered(stamps, keys)[j]
      && Before(stamps, Ordered(stamps, keys)[i], Ordered(stamps, keys)[j])
    decreases |keys|
  {
    if keys != {} {
      var k := First(stamps, keys);
      OrderedSorted(stamps, keys - {k});
      var rest := Ordered(stamps, keys - {k});
      assert Ordered(stamps, keys) == [k] + rest;
      assert forall j | 0 <= j < |rest| :: rest[j] in keys - {k};
    }
  }
}

/** The order that `sort.Strings` and `<` use on node ids, and sorted id lists. */
module Order {

  type Id = string

  /** Up to place k the strings agree; there `a` ends, or has the smaller character. */
  ghost predicate DiffersAt(a: Id, b: Id, k: nat)
  {
    k <= |a| && k < |b| && a[..k] == b[..k] && (k == |a| || a[k] < b[k])
  }

  /** Alphabetical order: `a` is a proper prefix of `b`, or has the smaller character where they first differ. */
  ghost predicate Before(a: Id, b: Id)
  {
    exists k: nat :: DiffersAt(a, b, k)
  }

  /** The comparison of two strings, character by character. */
  predicate Less(a: Id, b: Id): (less: bool)
    ensures less <==> Before(a, b)
  {
    Step(a, b);
    if b == "" then false
    else if a == "" then true
    else if a[0] != b[0] then a[0] < b[0]
    else Less(a[1..], b[1..])
  }

  /** Alphabetical order is decided by the first characters, or by the rest if they agree. */
  lemma Step(a: Id, b: Id)
    ensures b == "" ==> !Before(a, b)
    ensures b != "" && a == "" ==> Before(a, b)
    ensures a != "" && b != "" && a[0] != b[0] ==> (Before(a, b) <==> a[0] < b[0])
    ensures a != "" && b != "" && a[0] == b[0] ==> (Before(a, b) <==> Before(a[1..], b[1..]))
  {
    if b != "" && (a == "" || a[0] < b[0]) {
      assert DiffersAt(a, b, 0);
    }
    if a != "" && b != "" {
      if Before(a, b) {
        var k: nat :| DiffersAt(a, b, k);
        if k > 0 {
          assert a[..k][0] == b[..k][0];
          assert a[1..][..k - 1] == a[..k][1..] == b[..k][1..] == b[1..][..k - 1];
          assert DiffersAt(a[1..], b[1..], k - 1);
        }
      }
      if a[0] == b[0] && Before(a[1..], b[1..]) {
        var k: nat :| DiffersAt(a[1..], b[1..], k);
        assert a[..k + 1] == [a[0]] + a[1..][..k] == [b[0]] + b[1..][..k] == b[..k + 1];
        assert DiffersAt(a, b, k + 1);
      }
    }
  }

  lemma {:induction false} LessIrreflexive(a: Id)
    ensures !Less(a, a)
  {
    if a != "" {
      LessIrreflexive(a[1..]);
    }
  }

  lemma {:induction false} LessTransitive(a: Id, b: Id, c: Id)
    requires Less(a, b) && Less(b, c)
    ensures Less(a, c)
  {
    if a != "" && a[0] == b[0] && b[0] == c[0] {
      LessTransitive(a[1..], b[1..], c[1..]);
    }
  }

  lemma {:induction false} LessConnected(a: Id, b: Id)
    requires a != b
    ensures Less(a, b) || Less(b, a)
  {
    if a != "" && b != "" && a[0] == b[0] {
      assert a == [a[0]] + a[1..] && b == [b[0]] + b[1..];
      LessConnected(a[1..], b[1..]);
    }
  }

  ghost predicate Ascending(s: seq<Id>)
  {
    forall i, j :: 0 <= i < j < |s| ==> Before(s[i], s[j])
  }

  ghost function Elements(s: seq<Id>): set<Id>
  {
    set x | x in s
  }

  /** `s` lists the ids of `keys`, each once, in ascending order. */
  ghost predicate Sorting(s: seq<Id>, keys: set<Id>)
  {
    Ascending(s) && Elements(s) == keys
  }

  lemma AscendingDistinct(s: seq<Id>, i: nat, j: nat)
    requires Ascending(s) && i < |s| && j < |s| && s[i] == s[j]
    ensures i == j
  {
    LessIrreflexive(s[i]);
  }

  lemma AllDistinct(s: seq<Id>)
    requires Ascending(s)
    ensures forall i, j :: 0 <= i < j < |s| ==> s[i] != s[j]
  {
    forall i, j | 0 <= i < j < |s|
      ensures s[i] != s[j]
    {
      LessIrreflexive(s[i]);
    }
  }

  lemma {:induction false} SortingLength(s: seq<Id>, keys: set<Id>)
    requires Sorting(s, keys)
    ensures |s| == |keys|
  {
    if s == [] {
      assert keys == {};
    } else {
      var init, last := s[..|s| - 1], s[|s| - 1];
      LessIrreflexive(last);
      assert forall i :: 0 <= i < |init| ==> Before(init[i], last);
      assert s == init + [last];
      assert Elements(init) == keys - {last};
      SortingLength(init, keys - {last});
    }
  }

  /** The first elements of two sortings of the same keys agree. */
  lemma SameFirst(s: seq<Id>, t: seq<Id>, keys: set<Id>)
    requires Sorting(s, keys) && Sorting(t, keys) && s != [] && t != []
    ensures s[0] == t[0]
  {
    assert s[0] in Elements(t) && t[0] in Elements(s);
    var i :| 0 <= i < |t| && t[i] == s[0];
    var j :| 0 <= j < |s| && s[j] == t[0];
    if i != 0 && j != 0 {
      LessTransitive(s[0], t[0], s[0]);
      LessIrreflexive(s[0]);
    }
  }

  /** A set of ids has one sorting only, so what `sort.Strings` returns is determined. */
  lemma {:induction false} SortingUnique(s: seq<Id>, t: seq<Id>, keys: set<Id>)
    requires Sorting(s, keys) && Sorting(t, keys)
    ensures s == t
  {
    SortingLength(s, keys);
    SortingLength(t, keys);
    if s != [] {
      SameFirst(s, t, keys);
      TailSorting(s, keys);
      TailSorting(t, keys);
      SortingUnique(s[1..], t[1..], keys - {s[0]});
      assert s == [s[0]] + s[1..] && t == [t[0]] + t[1..];
    }
  }

  lemma TailSorting(s: seq<Id>, keys: set<Id>)
    requires Sorting(s, keys) && s != []
    ensures Sorting(s[1..], keys - {s[0]})
  {
    LessIrreflexive(s[0]);
    assert s == [s[0]] + s[1..];
    forall x | x in keys - {s[0]}
      ensures x in s[1..]
    {
      assert x in s;
    }
  }

  /** Inserts `x` before the first element above it. */
  method InsertAscending(s: seq<Id>, x: Id) returns (t: seq<Id>)
    requires Ascending(s) && x !in s
    ensures Sorting(t, Elements(s) + {x})
  {
    var i := 0;
    while i < |s| && Less(s[i], x)
      invariant 0 <= i <= |s|
      invariant forall j :: 0 <= j < i ==> Less(s[j], x)
    {
      i := i + 1;
    }
    t := s[..i] + [x] + s[i..];
    forall j | i <= j < |s|
      ensures Less(x, s[j])
    {
      LessConnected(x, s[i]);
      if i < j {
        LessTransitive(x, s[i], s[j]);
      }
    }
    assert s == s[..i] + s[i..];
  }

  /** Collects map keys into a slice and sorts it. */
  method SortKeys(keys: set<Id>) returns (s: seq<Id>)
    ensures Sorting(s, keys) && forall i, j :: 0 <= i < j < |s| ==> Before(s[i], s[j])
  {
    s := [];
    var rest := keys;
    while rest != {}
      invariant rest <= keys
      invariant Sorting(s, keys - rest)
      decreases |rest|
    {
      var x :| x in rest;
      assert x !in Elements(s);
      var before := rest;
      s := InsertAscending(s, x);
      rest := rest - {x};
      assert keys - rest == (keys - before) + {x};
    }
    assert keys - rest == keys;
  }
}

/**
 * The order in which dictionary keys are sorted before serialisation:
 * lexicographic by character code, a strict total order on strings.
 */
module Order {

  predicate LexLess(a: string, b: string)
  {
    if a == [] then b != []
    else if b == [] then false
    else if a[0] != b[0] then a[0] < b[0]
    else LexLess(a[1..], b[1..])
  }

  lemma {:induction false} LexLessIrreflexive(a: string)
    ensures !LexLess(a, a)
  {
    if a != [] {
      LexLessIrreflexive(a[1..]);
    }
  }

  lemma {:induction false} LexLessAsymmetric(a: string, b: string)
    requires LexLess(a, b)
    ensures !LexLess(b, a)
  {
    if a != [] && b != [] && a[0] == b[0] {
      LexLessAsymmetric(a[1..], b[1..]);
    }
  }

  lemma {:induction false} LexLessTransitive(a: string, b: string, c: string)
    requires LexLess(a, b) && LexLess(b, c)
    ensures LexLess(a, c)
  {
    if a != [] && b != [] && c != [] && a[0] == b[0] && b[0] == c[0] {
      LexLessTransitive(a[1..], b[1..], c[1..]);
    }
  }

  lemma {:induction false} LexLessTotal(a: string, b: string)
    requires a != b
    ensures LexLess(a, b) || LexLess(b, a)
  {
    if a != [] && b != [] && a[0] == b[0] {
      assert a == [a[0]] + a[1..] && b == [b[0]] + b[1..];
      LexLessTotal(a[1..], b[1..]);
    }
  }

  ghost predicate StrictlySorted(s: seq<string>)
  {
    forall i, j :: 0 <= i < j < |s| ==> LexLess(s[i], s[j])
  }

  /** k put into its place in a strictly sorted sequence that does not hold it. */
  function Insert(s: seq<string>, k: string): (r: seq<string>)
    requires StrictlySorted(s) && k !in s
    ensures StrictlySorted(r)
    ensures forall x :: x in r <==> x in s || x == k
    ensures |r| == |s| + 1
  {
    if s == [] then [k]
    else if LexLess(k, s[0]) then
      InsertFrontSorted(s, k);
      [k] + s
    else
      LexLessTotal(k, s[0]);
      var rest := Insert(s[1..], k);
      InsertConsSorted(s[0], rest);
      [s[0]] + rest
  }

  lemma InsertFrontSorted(s: seq<string>, k: string)
    requires StrictlySorted(s) && s != [] && LexLess(k, s[0])
    ensures StrictlySorted([k] + s)
  {
    forall j | 0 < j < |s| ensures LexLess(k, s[j]) {
      LexLessTransitive(k, s[0], s[j]);
    }
  }

  lemma InsertConsSorted(h: string, rest: seq<string>)
    requires StrictlySorted(rest)
    requires forall x :: x in rest ==> LexLess(h, x)
    ensures StrictlySorted([h] + rest)
  {
    var r := [h] + rest;
    forall i, j | 0 <= i < j < |r| ensures LexLess(r[i], r[j]) {
      if i > 0 {
        assert r[i] == rest[i - 1] && r[j] == rest[j - 1];
      } else {
        assert r[j] in rest;
      }
    }
  }

  ghost predicate IsLeast(m: string, keys: set<string>)
  {
    m in keys && forall x :: x in keys && x != m ==> LexLess(m, x)
  }

  lemma {:induction false} LeastExists(keys: set<string>)
    requires keys != {}
    ensures exists m :: IsLeast(m, keys)
    decreases |keys|
  {
    var y :| y in keys;
    var rest := keys - {y};
    if rest == {} {
      LeastOfSingleton(keys, y);
    } else {
      LeastExists(rest);
      var m :| IsLeast(m, rest);
      LeastOfAdded(keys, rest, y, m);
    }
  }

  lemma LeastOfSingleton(keys: set<string>, y: string)
    requires y in keys && keys - {y} == {}
    ensures IsLeast(y, keys)
  {
    assert keys == (keys - {y}) + {y};
  }

  lemma LeastOfAdded(keys: set<string>, rest: set<string>, y: string, m: string)
    requires y in keys && rest == keys - {y} && IsLeast(m, rest)
    ensures IsLeast(y, keys) || IsLeast(m, keys)
  {
    if LexLess(y, m) {
      forall x | x in keys && x != y ensures LexLess(y, x) {
        if x != m { LexLessTransitive(y, m, x); }
      }
    } else {
      LexLessTotal(y, m);
    }
  }

  /** The keys in ascending order, each once (`keys.sorted()`). */
  ghost function SortedKeys(keys: set<string>): (r: seq<string>)
    ensures StrictlySorted(r)
    ensures forall x :: x in r <==> x in keys
    decreases |keys|
  {
    if keys == {} then []
    else
      LeastExists(keys);
      var m :| IsLeast(m, keys);
      var rest := SortedKeys(keys - {m});
      InsertConsSorted(m, rest);
      [m] + rest
  }

  /** Two strictly sorted sequences with the same elements are equal. */
  lemma {:induction false} SortedUnique(a: seq<string>, b: seq<string>)
    requires StrictlySorted(a) && StrictlySorted(b)
    requires forall x :: x in a <==> x in b
    ensures a == b
    decreases |a|
  {
    if a == [] {
      assert forall i :: 0 <= i < |b| ==> b[i] in b;
    } else {
      assert a[0] in b;
      assert b != [] && b[0] in a;
      if a[0] != b[0] {
        var i :| 0 <= i < |a| && a[i] == b[0];
        var j :| 0 <= j < |b| && b[j] == a[0];
        assert LexLess(a[0], b[0]);
        assert LexLess(b[0], a[0]);
        LexLessAsymmetric(a[0], b[0]);
      } else {
        forall x ensures x in a[1..] <==> x in b[1..] {
          if x in a[1..] {
            var i :| 1 <= i < |a| && a[i] == x;
            assert LexLess(a[0], x);
            LexLessIrreflexive(x);
            assert x in b;
          }
          if x in b[1..] {
            var j :| 1 <= j < |b| && b[j] == x;
            assert LexLess(b[0], x);
            LexLessIrreflexive(x);
            assert x in a;
          }
        }
        SortedUnique(a[1..], b[1..]);
      }
    }
  }

  /** Sorts a set of keys by inserting them one at a time. */
  method SortKeys(keys: set<string>) returns (ks: seq<string>)
    ensures ks == SortedKeys(keys)
  {
    ks := [];
    var rest := keys;
    while rest != {}
      invariant rest <= keys
      invariant StrictlySorted(ks)
      invariant forall x :: x in ks <==> x in keys && x !in rest
      decreases |rest|
    {
      var k :| k in rest;
      ks := Insert(ks, k);
      rest := rest - {k};
    }
    SortedUnique(ks, SortedKeys(keys));
  }
}

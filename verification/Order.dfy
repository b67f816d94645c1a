/** The strict order of Rust strings and of pairs of strings, and the sorted list of a finite set. */
module Order {
  import opened Base

  /** Lexicographic order by character, the order of `str` and of `BTreeMap<String, _>` keys. */
  predicate StringLess(a: string, b: string) {
    b != [] && (a == [] || a[0] < b[0] || (a[0] == b[0] && StringLess(a[1..], b[1..])))
  }

  type Key = (Id, Id)

  predicate KeyLess(p: Key, q: Key) {
    StringLess(p.0, q.0) || (p.0 == q.0 && StringLess(p.1, q.1))
  }

  lemma {:induction false} StringLessTotal(a: string, b: string)
    ensures !(StringLess(a, b) && StringLess(b, a))
    ensures StringLess(a, b) || StringLess(b, a) || a == b
    ensures !StringLess(a, a)
  {
    if a != [] {
      StringLessTotal(a[1..], if b == [] then [] else b[1..]);
      if b != [] && a[0] == b[0] && a[1..] == b[1..] {
        assert a == [a[0]] + a[1..] && b == [b[0]] + b[1..];
      }
    }
  }

  lemma {:induction false} StringLessTransitive(a: string, b: string, c: string)
    requires StringLess(a, b) && StringLess(b, c)
    ensures StringLess(a, c)
  {
    if a != [] && a[0] == b[0] == c[0] {
      StringLessTransitive(a[1..], b[1..], c[1..]);
    }
  }

  /** `KeyLess` is a strict total order. */
  lemma KeyLessTotal(p: Key, q: Key)
    ensures !KeyLess(p, p)
    ensures !(KeyLess(p, q) && KeyLess(q, p))
    ensures KeyLess(p, q) || KeyLess(q, p) || p == q
  {
    StringLessTotal(p.0, q.0);
    StringLessTotal(p.1, q.1);
  }

  lemma KeyLessTransitive(p: Key, q: Key, r: Key)
    requires KeyLess(p, q) && KeyLess(q, r)
    ensures KeyLess(p, r)
  {
    if StringLess(p.0, q.0) && StringLess(q.0, r.0) {
      StringLessTransitive(p.0, q.0, r.0);
    } else if p.0 == q.0 == r.0 {
      StringLessTransitive(p.1, q.1, r.1);
    }
  }

  predicate IsLeast(k: Key, keys: set<Key>) {
    k in keys && forall j :: j in keys && j != k ==> KeyLess(k, j)
  }

  lemma {:induction false} LeastExists(keys: set<Key>) returns (least: Key)
    requires keys != {}
    ensures IsLeast(least, keys)
  {
    var k :| k in keys;
    if keys - {k} == {} {
      assert keys == {k};
      return k;
    }
    var m := LeastExists(keys - {k});
    KeyLessTotal(k, m);
    least := if KeyLess(k, m) then k else m;
    forall j | j in keys && j != least
      ensures KeyLess(least, j)
    {
      if least == k && j != m {
        KeyLessTransitive(k, m, j);
      }
    }
  }

  /** Every element of `q` is below each later one. */
  ghost predicate StrictlySorted(q: seq<Key>) {
    forall i, j :: 0 <= i < j < |q| ==> KeyLess(q[i], q[j])
  }

  /** The keys in increasing order, as a `BTreeMap` iterates over them. */
  function SortedKeys(keys: set<Key>): (q: seq<Key>)
    ensures StrictlySorted(q)
    ensures forall k :: k in q <==> k in keys
    ensures |q| == |keys|
  {
    if keys == {} then []
    else
      assert exists k :: IsLeast(k, keys) by {
        var k := LeastExists(keys);
      }
      assert forall k, j :: IsLeast(k, keys) && IsLeast(j, keys) ==> k == j by {
        forall k, j | IsLeast(k, keys) && IsLeast(j, keys)
          ensures k == j
        {
          KeyLessTotal(k, j);
        }
      }
      var k :| IsLeast(k, keys);
      [k] + SortedKeys(keys - {k})
  }

  /** A set has one strictly sorted listing. */
  lemma {:induction false} SortedListUnique(q: seq<Key>, keys: set<Key>)
    requires StrictlySorted(q)
    requires forall k :: k in q <==> k in keys
    ensures q == SortedKeys(keys)
  {
    if q == [] {
      assert keys == {};
    } else {
      var sorted := SortedKeys(keys);
      assert q[0] in keys;
      assert sorted != [];
      assert IsLeast(q[0], keys);
      KeyLessTotal(q[0], sorted[0]);
      assert sorted[0] in keys && q[0] in sorted;
      assert q[0] == sorted[0];
      assert q == [q[0]] + q[1..];
      forall k
        ensures k in q[1..] <==> k in keys - {q[0]}
      {
        KeyLessTotal(q[0], k);
      }
      SortedListUnique(q[1..], keys - {q[0]});
      assert forall k :: IsLeast(k, keys) ==> k == q[0] by {
        forall k | IsLeast(k, keys)
          ensures k == q[0]
        {
          KeyLessTotal(k, q[0]);
        }
      }
    }
  }
}

/**
 * Grouping a list by a key, as the pipeline does twice: `get_examples_by_user`
 * keeps the examples whose id suffix is a user (src/task/dataset_helpers.py),
 * and `save_results` buckets records by their "dataset" field in order of
 * first appearance (main.py).
 */
module Grouping {

  /** `[x for x in xs if key(x) == k]`. */
  function Select<T, K(==)>(xs: seq<T>, key: T -> K, k: K): (r: seq<T>)
    ensures |r| <= |xs|
  {
    if |xs| == 0 then []
    else (if key(xs[0]) == k then [xs[0]] else []) + Select(xs[1..], key, k)
  }

  /** Exactly the elements with key `k` are selected. */
  lemma {:induction false} SelectMembers<T, K>(xs: seq<T>, key: T -> K, k: K)
    ensures forall x :: x in Select(xs, key, k) <==> x in xs && key(x) == k
  {
    if |xs| > 0 {
      SelectMembers(xs[1..], key, k);
      assert xs == [xs[0]] + xs[1..];
    }
  }

  /** Selection keeps order: selecting from a concatenation concatenates the selections. */
  lemma {:induction false} SelectAppend<T, K>(a: seq<T>, b: seq<T>, key: T -> K, k: K)
    ensures Select(a + b, key, k) == Select(a, key, k) + Select(b, key, k)
  {
    if |a| > 0 {
      assert (a + b)[0] == a[0];
      assert (a + b)[1..] == a[1..] + b;
      SelectAppend(a[1..], b, key, k);
    } else {
      assert a + b == b;
    }
  }

  /** Selecting from one more element of a prefix appends it when its key matches. */
  lemma SelectSnoc<T, K>(xs: seq<T>, i: int, key: T -> K, k: K)
    requires 0 <= i < |xs|
    ensures Select(xs[..i + 1], key, k) == Select(xs[..i], key, k) + if key(xs[i]) == k then [xs[i]] else []
  {
    assert xs[..i + 1] == xs[..i] + [xs[i]];
    SelectAppend(xs[..i], [xs[i]], key, k);
  }

  /** `ys` is `xs` with some elements deleted: what remains keeps its relative order. */
  predicate IsSubsequence<T(==)>(ys: seq<T>, xs: seq<T>)
    decreases |xs|
  {
    |ys| == 0
    || (|xs| > 0 && ((ys[0] == xs[0] && IsSubsequence(ys[1..], xs[1..])) || IsSubsequence(ys, xs[1..])))
  }

  /** Within a group the elements keep the order they had in `xs`. */
  lemma {:induction false} SelectIsSubsequence<T, K>(xs: seq<T>, key: T -> K, k: K)
    ensures IsSubsequence(Select(xs, key, k), xs)
  {
    if |xs| > 0 {
      var rest := Select(xs[1..], key, k);
      SelectIsSubsequence(xs[1..], key, k);
      if key(xs[0]) == k {
        assert Select(xs, key, k)[1..] == rest;
      } else {
        assert Select(xs, key, k) == rest;
      }
    }
  }

  /** The position of the first element of `xs` whose key is `k`, or `|xs|` when there is none. */
  function FirstIndex<T, K(==)>(xs: seq<T>, key: T -> K, k: K): (i: nat)
    ensures i <= |xs|
    ensures i < |xs| ==> key(xs[i]) == k
    ensures forall j :: 0 <= j < i ==> key(xs[j]) != k
  {
    if |xs| == 0 then 0
    else if key(xs[0]) == k then 0
    else 1 + FirstIndex(xs[1..], key, k)
  }

  /** Appending an element does not move the first occurrence of a key already present. */
  lemma FirstIndexSnocPresent<T, K>(init: seq<T>, last: T, key: T -> K, x: T)
    requires x in init
    ensures FirstIndex(init + [last], key, key(x)) == FirstIndex(init, key, key(x)) < |init|
  {
    var a := FirstIndex(init, key, key(x));
    var b := FirstIndex(init + [last], key, key(x));
    var j :| 0 <= j < |init| && init[j] == x;
    assert a <= j;
    assert (init + [last])[a] == init[a];
  }

  /** A key met for the first time in the appended element first occurs there. */
  lemma FirstIndexSnocNew<T, K>(init: seq<T>, last: T, key: T -> K)
    requires forall x :: x in init ==> key(x) != key(last)
    ensures FirstIndex(init + [last], key, key(last)) == |init|
  {
    var b := FirstIndex(init + [last], key, key(last));
    assert (init + [last])[|init|] == last;
  }

  /** The distinct keys of `xs` in order of first appearance (the insertion order of a dict filled left to right). */
  function KeysInOrder<T, K(==)>(xs: seq<T>, key: T -> K): (r: seq<K>)
    ensures forall i, j :: 0 <= i < j < |r| ==> r[i] != r[j]
    ensures forall x :: x in xs ==> key(x) in r
    ensures forall k :: k in r ==> exists x :: x in xs && key(x) == k
    ensures forall i, j :: 0 <= i < j < |r| ==> FirstIndex(xs, key, r[i]) < FirstIndex(xs, key, r[j])
  {
    if |xs| == 0 then []
    else
      var ks := KeysInOrder(xs[..|xs| - 1], key);
      KeysInOrderSnoc(xs, key, ks);
      if key(xs[|xs| - 1]) in ks then ks else ks + [key(xs[|xs| - 1])]
  }

  /**
   * The step of `KeysInOrder`: given the keys of all but the last element,
   * the last one's key is added at the end when it is new; the keys already
   * met keep their first positions and a new key comes after them all.
   */
  lemma KeysInOrderSnoc<T, K>(xs: seq<T>, key: T -> K, ks: seq<K>)
    requires |xs| > 0
    requires forall i, j :: 0 <= i < j < |ks| ==> ks[i] != ks[j]
    requires forall x :: x in xs[..|xs| - 1] ==> key(x) in ks
    requires forall k :: k in ks ==> exists x :: x in xs[..|xs| - 1] && key(x) == k
    requires forall i, j :: 0 <= i < j < |ks| ==> FirstIndex(xs[..|xs| - 1], key, ks[i]) < FirstIndex(xs[..|xs| - 1], key, ks[j])
    ensures var r := if key(xs[|xs| - 1]) in ks then ks else ks + [key(xs[|xs| - 1])];
      (forall i, j :: 0 <= i < j < |r| ==> r[i] != r[j])
      && (forall x :: x in xs ==> key(x) in r)
      && (forall k :: k in r ==> exists x :: x in xs && key(x) == k)
      && (forall i, j :: 0 <= i < j < |r| ==> FirstIndex(xs, key, r[i]) < FirstIndex(xs, key, r[j]))
  {
    var init, last := xs[..|xs| - 1], xs[|xs| - 1];
    assert xs == init + [last];
    KeysInOrderSnocMembers(init, last, key, ks);
    KeysInOrderSnocOrder(init, last, key, ks);
  }

  /** The membership half of the step: the keys stay distinct and cover exactly the keys of `init + [last]`. */
  lemma KeysInOrderSnocMembers<T, K>(init: seq<T>, last: T, key: T -> K, ks: seq<K>)
    requires forall i, j :: 0 <= i < j < |ks| ==> ks[i] != ks[j]
    requires forall x :: x in init ==> key(x) in ks
    requires forall k :: k in ks ==> exists x :: x in init && key(x) == k
    ensures var r := if key(last) in ks then ks else ks + [key(last)];
      (forall i, j :: 0 <= i < j < |r| ==> r[i] != r[j])
      && (forall x :: x in init + [last] ==> key(x) in r)
      && (forall k :: k in r ==> exists x :: x in init + [last] && key(x) == k)
  {
    var xs := init + [last];
    assert last in xs;
    forall k | k in ks ensures exists x :: x in xs && key(x) == k {
      var x :| x in init && key(x) == k;
      assert x in xs;
    }
  }

  /** The order half of the step, by the two facts about `FirstIndex` on an appended element. */
  lemma KeysInOrderSnocOrder<T, K>(init: seq<T>, last: T, key: T -> K, ks: seq<K>)
    requires forall k :: k in ks ==> exists x :: x in init && key(x) == k
    requires forall x :: x in init ==> key(x) in ks
    requires forall i, j :: 0 <= i < j < |ks| ==> FirstIndex(init, key, ks[i]) < FirstIndex(init, key, ks[j])
    ensures var r := if key(last) in ks then ks else ks + [key(last)];
      forall i, j :: 0 <= i < j < |r| ==> FirstIndex(init + [last], key, r[i]) < FirstIndex(init + [last], key, r[j])
  {
    forall i | 0 <= i < |ks|
      ensures FirstIndex(init + [last], key, ks[i]) == FirstIndex(init, key, ks[i]) < |init|
    {
      assert ks[i] in ks;
      var x :| x in init && key(x) == ks[i];
      FirstIndexSnocPresent(init, last, key, x);
    }
    if key(last) !in ks {
      FirstIndexSnocNew(init, last, key);
    }
  }

  /** The groups of `xs` for the keys `ks`, one after another. */
  function Regroup<T, K(==)>(xs: seq<T>, key: T -> K, ks: seq<K>): seq<T>
  {
    if |ks| == 0 then [] else Select(xs, key, ks[0]) + Regroup(xs, key, ks[1..])
  }

  /** Distinct keys that cover every element split `xs` into groups that together hold each element exactly once. */
  lemma {:induction false} RegroupIsPermutation<T, K>(xs: seq<T>, key: T -> K, ks: seq<K>)
    requires forall i, j :: 0 <= i < j < |ks| ==> ks[i] != ks[j]
    requires forall x :: x in xs ==> key(x) in ks
    ensures multiset(Regroup(xs, key, ks)) == multiset(xs)
    ensures |Regroup(xs, key, ks)| == |xs|
  {
    if |xs| > 0 {
      RegroupIsPermutation(xs[1..], key, ks);
      RegroupCons(xs[0], xs[1..], key, ks);
      assert xs == [xs[0]] + xs[1..];
    } else {
      RegroupEmpty(xs, key, ks);
    }
    assert |multiset(Regroup(xs, key, ks))| == |multiset(xs)|;
  }

  lemma {:induction false} RegroupEmpty<T, K>(xs: seq<T>, key: T -> K, ks: seq<K>)
    requires |xs| == 0
    ensures Regroup(xs, key, ks) == []
  {
    if |ks| > 0 {
      RegroupEmpty(xs, key, ks[1..]);
    }
  }

  lemma {:induction false} RegroupCons<T, K>(x: T, rest: seq<T>, key: T -> K, ks: seq<K>)
    requires forall i, j :: 0 <= i < j < |ks| ==> ks[i] != ks[j]
    ensures multiset(Regroup([x] + rest, key, ks))
      == (if key(x) in ks then multiset{x} else multiset{}) + multiset(Regroup(rest, key, ks))
  {
    if |ks| > 0 {
      var s, k0, ks1 := [x] + rest, ks[0], ks[1..];
      var a, b := multiset(Select(rest, key, k0)), multiset(Regroup(rest, key, ks1));
      var x0: multiset<T> := if key(x) == k0 then multiset{x} else multiset{};
      var x1: multiset<T> := if key(x) in ks1 then multiset{x} else multiset{};
      assert multiset(Select(s, key, k0)) == x0 + a by {
        SelectCons(x, rest, key, k0);
      }
      assert multiset(Regroup(s, key, ks1)) == x1 + b by {
        RegroupCons(x, rest, key, ks1);
      }
      MultisetRegroupStep(s, key, ks);
      MultisetRegroupStep(rest, key, ks);
      UnionShuffle(x0, a, x1, b);
      assert multiset(Regroup(s, key, ks)) == (x0 + x1) + multiset(Regroup(rest, key, ks));
      HeadOrTail(key(x), ks);
    }
  }

  /** With distinct keys, a key is in `ks` exactly when it is either the head or in the tail, never both. */
  lemma HeadOrTail<K>(k: K, ks: seq<K>)
    requires |ks| > 0
    requires forall i, j :: 0 <= i < j < |ks| ==> ks[i] != ks[j]
    ensures k in ks <==> k == ks[0] || k in ks[1..]
    ensures !(k == ks[0] && k in ks[1..])
  {
    assert ks == [ks[0]] + ks[1..];
    forall j | 0 <= j < |ks| - 1 ensures ks[1..][j] != ks[0] {
      assert ks[1..][j] == ks[j + 1];
    }
    assert ks[0] !in ks[1..];
  }

  lemma UnionShuffle<T>(x0: multiset<T>, a: multiset<T>, x1: multiset<T>, b: multiset<T>)
    ensures (x0 + a) + (x1 + b) == (x0 + x1) + (a + b)
  {
  }

  lemma SelectCons<T, K>(x: T, rest: seq<T>, key: T -> K, k: K)
    ensures Select([x] + rest, key, k) == (if key(x) == k then [x] else []) + Select(rest, key, k)
  {
    var s := [x] + rest;
    assert s[0] == x && s[1..] == rest;
  }

  lemma MultisetRegroupStep<T, K>(xs: seq<T>, key: T -> K, ks: seq<K>)
    requires |ks| > 0
    ensures multiset(Regroup(xs, key, ks)) == multiset(Select(xs, key, ks[0])) + multiset(Regroup(xs, key, ks[1..]))
  {
  }
}

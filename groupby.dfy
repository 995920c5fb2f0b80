/** The pandas operations the summaries are built from, over a sequence of
    rows: boolean-mask selection, column sums, `groupby` over the keys that
    occur, and `sort_values(ascending=False)`. */
module GroupBy {

  /** No value occurs twice. */
  ghost predicate Distinct<K(!new)>(ks: seq<K>) {
    forall i, j :: 0 <= i < j < |ks| ==> ks[i] != ks[j]
  }

  /** The rows whose key is `k`, in their original order: `df[df[col] == k]`. */
  function Group<T(!new), K(==,!new)>(xs: seq<T>, key: T -> K, k: K): (g: seq<T>)
    ensures |g| <= |xs|
    ensures forall x :: x in g <==> x in xs && key(x) == k
  {
    if xs == [] then []
    else
      assert xs == [xs[0]] + xs[1..];
      (if key(xs[0]) == k then [xs[0]] else []) + Group(xs[1..], key, k)
  }

  /** `col.sum()`: the column `val` summed over the rows. */
  function Sum<T(!new)>(xs: seq<T>, val: T -> nat): nat {
    if xs == [] then 0 else val(xs[0]) + Sum(xs[1..], val)
  }

  function One<T(!new)>(x: T): nat { 1 }

  lemma {:induction false} SumOfOnes<T(!new)>(xs: seq<T>)
    ensures Sum(xs, One) == |xs|
  {
    if xs != [] {
      SumOfOnes(xs[1..]);
    }
  }

  lemma {:induction false} SumConcat<T(!new)>(a: seq<T>, b: seq<T>, val: T -> nat)
    ensures Sum(a + b, val) == Sum(a, val) + Sum(b, val)
  {
    if a == [] {
      assert a + b == b;
    } else {
      assert (a + b)[1..] == a[1..] + b;
      SumConcat(a[1..], b, val);
    }
  }

  /** A selection of the rows sums to no more than all of them. */
  lemma {:induction false} GroupSumAtMost<T(!new), K(!new)>(xs: seq<T>, key: T -> K, k: K, val: T -> nat)
    ensures Sum(Group(xs, key, k), val) <= Sum(xs, val)
  {
    if xs != [] {
      GroupSumAtMost(xs[1..], key, k, val);
      GroupCons(xs[0], xs[1..], key, k);
      SumConcat(if key(xs[0]) == k then [xs[0]] else [], Group(xs[1..], key, k), val);
      assert xs == [xs[0]] + xs[1..];
    }
  }

  /** Each row's value is at most the column's sum. */
  lemma {:induction false} SumAtLeastEach<T(!new)>(xs: seq<T>, val: T -> nat)
    ensures forall x :: x in xs ==> val(x) <= Sum(xs, val)
  {
    if xs != [] {
      SumAtLeastEach(xs[1..], val);
      assert forall x :: x in xs ==> x == xs[0] || x in xs[1..];
    }
  }

  /** A sum does not depend on the order of the rows. */
  lemma {:induction false} SumPermutation<T(!new)>(a: seq<T>, b: seq<T>, val: T -> nat)
    requires multiset(a) == multiset(b)
    ensures Sum(a, val) == Sum(b, val)
  {
    if a == [] {
      assert |b| == |multiset(b)| == 0;
    } else {
      var x := a[0];
      assert x in multiset(b);
      var i :| 0 <= i < |b| && b[i] == x;
      SumRemove(b, i, val);
      TailPermutation(a, b, i);
      SumPermutation(a[1..], b[..i] + b[i + 1..], val);
    }
  }

  /** Taking out the row at `i` takes its value out of the sum. */
  lemma SumRemove<T(!new)>(b: seq<T>, i: nat, val: T -> nat)
    requires i < |b|
    ensures Sum(b, val) == val(b[i]) + Sum(b[..i] + b[i + 1..], val)
  {
    var pre, post := b[..i], b[i + 1..];
    assert b == pre + ([b[i]] + post);
    SumCons(b[i], post, val);
    SumConcat(pre, [b[i]] + post, val);
    SumConcat(pre, post, val);
  }

  lemma TailPermutation<T(!new)>(a: seq<T>, b: seq<T>, i: nat)
    requires multiset(a) == multiset(b)
    requires a != [] && i < |b| && b[i] == a[0]
    ensures multiset(a[1..]) == multiset(b[..i] + b[i + 1..])
  {
    RemoveOne(a, 0);
    RemoveOne(b, i);
    assert a[..0] + a[1..] == a[1..];
  }

  /** Taking out the row at `i` takes one occurrence out of the multiset. */
  lemma RemoveOne<T(!new)>(b: seq<T>, i: nat)
    requires i < |b|
    ensures multiset(b[..i] + b[i + 1..]) == multiset(b) - multiset{b[i]}
  {
    assert b == b[..i] + [b[i]] + b[i + 1..];
  }

  /** A group holds every row with key `k` as often as the rows do, and nothing else. */
  lemma {:induction false} GroupMultiset<T(!new), K(!new)>(xs: seq<T>, key: T -> K, k: K)
    ensures forall x :: multiset(Group(xs, key, k))[x] == if key(x) == k then multiset(xs)[x] else 0
  {
    if xs != [] {
      GroupMultiset(xs[1..], key, k);
      assert xs == [xs[0]] + xs[1..];
    }
  }

  lemma GroupPermutation<T(!new), K(!new)>(a: seq<T>, b: seq<T>, key: T -> K, k: K)
    requires multiset(a) == multiset(b)
    ensures multiset(Group(a, key, k)) == multiset(Group(b, key, k))
  {
    GroupMultiset(a, key, k);
    GroupMultiset(b, key, k);
    assert forall x :: multiset(Group(a, key, k))[x] == multiset(Group(b, key, k))[x];
  }

  /** A group's sum and size do not depend on the order of the rows. */
  lemma GroupSumPermutation<T(!new), K(!new)>(a: seq<T>, b: seq<T>, key: T -> K, k: K, val: T -> nat)
    requires multiset(a) == multiset(b)
    ensures Sum(Group(a, key, k), val) == Sum(Group(b, key, k), val)
    ensures |Group(a, key, k)| == |Group(b, key, k)|
  {
    GroupPermutation(a, b, key, k);
    SumPermutation(Group(a, key, k), Group(b, key, k), val);
    assert |multiset(Group(a, key, k))| == |multiset(Group(b, key, k))|;
  }

  /** The keys of `order` that occur in `xs`, in the order given: the group
      labels `groupby` emits (a key with no row is omitted, not zero-filled). */
  function PresentKeys<T(!new), K(==,!new)>(order: seq<K>, xs: seq<T>, key: T -> K): (ks: seq<K>)
    ensures forall k :: k in ks <==> k in order && Group(xs, key, k) != []
    ensures Distinct(order) ==> Distinct(ks)
  {
    if order == [] then []
    else
      var rest := PresentKeys(order[1..], xs, key);
      DistinctTail(order);
      if Group(xs, key, order[0]) != [] then
        assert Distinct(order) ==> Distinct([order[0]] + rest) by {
          if Distinct(order) {
            DistinctCons(order[0], rest);
          }
        }
        [order[0]] + rest
      else
        rest
  }

  /** A group is non-empty exactly when some row has its key. */
  lemma GroupNonEmpty<T(!new), K(!new)>(xs: seq<T>, key: T -> K, k: K)
    ensures Group(xs, key, k) != [] <==> exists x :: x in xs && key(x) == k
  {
    if Group(xs, key, k) != [] {
      assert Group(xs, key, k)[0] in Group(xs, key, k);
    }
  }

  lemma DistinctTail<K(!new)>(ks: seq<K>)
    requires ks != []
    ensures Distinct(ks) ==> Distinct(ks[1..]) && ks[0] !in ks[1..]
  {
  }

  lemma DistinctCons<K(!new)>(k: K, ks: seq<K>)
    requires Distinct(ks) && k !in ks
    ensures Distinct([k] + ks)
  {
    forall i, j | 0 <= i < j < |[k] + ks|
      ensures ([k] + ks)[i] != ([k] + ks)[j]
    {
      if i > 0 {
        assert ([k] + ks)[i] == ks[i - 1];
      }
      assert ([k] + ks)[j] == ks[j - 1];
    }
  }

  /** Which keys occur does not depend on the order of the rows. */
  lemma {:induction false} PresentKeysPermutation<T(!new), K(!new)>(order: seq<K>, a: seq<T>, b: seq<T>, key: T -> K)
    requires multiset(a) == multiset(b)
    ensures PresentKeys(order, a, key) == PresentKeys(order, b, key)
  {
    if order != [] {
      PresentKeysPermutation(order[1..], a, b, key);
      GroupPermutation(a, b, key, order[0]);
      assert |Group(a, key, order[0])| == |Group(b, key, order[0])| by {
        assert |multiset(Group(a, key, order[0]))| == |multiset(Group(b, key, order[0]))|;
      }
    }
  }

  /** The column `val` summed group by group over the groups `keys`. */
  function SumByKey<T(!new), K(==,!new)>(keys: seq<K>, xs: seq<T>, key: T -> K, val: T -> nat): nat {
    if keys == [] then 0
    else Sum(Group(xs, key, keys[0]), val) + SumByKey(keys[1..], xs, key, val)
  }

  /** Omitting the groups with no row changes no group sum. */
  lemma {:induction false} SumByKeyPresent<T(!new), K(!new)>(order: seq<K>, xs: seq<T>, key: T -> K, val: T -> nat)
    ensures SumByKey(PresentKeys(order, xs, key), xs, key, val) == SumByKey(order, xs, key, val)
  {
    if order != [] {
      SumByKeyPresent(order[1..], xs, key, val);
      var rest := PresentKeys(order[1..], xs, key);
      if Group(xs, key, order[0]) != [] {
        assert ([order[0]] + rest)[1..] == rest;
      }
    }
  }

  lemma {:induction false} SumByKeyEmpty<T(!new), K(!new)>(keys: seq<K>, key: T -> K, val: T -> nat)
    ensures SumByKey(keys, [], key, val) == 0
  {
    if keys != [] {
      SumByKeyEmpty(keys[1..], key, val);
    }
  }

  lemma GroupCons<T(!new), K(!new)>(x: T, xs: seq<T>, key: T -> K, k: K)
    ensures Group([x] + xs, key, k) == (if key(x) == k then [x] else []) + Group(xs, key, k)
  {
    assert ([x] + xs)[0] == x;
    assert ([x] + xs)[1..] == xs;
  }

  lemma SumCons<T(!new)>(x: T, xs: seq<T>, val: T -> nat)
    ensures Sum([x] + xs, val) == val(x) + Sum(xs, val)
  {
    assert ([x] + xs)[1..] == xs;
  }

  /** One more row adds its value to exactly the group it belongs to. */
  lemma {:induction false} SumByKeyCons<T(!new), K(!new)>(keys: seq<K>, x: T, xs: seq<T>, key: T -> K, val: T -> nat)
    requires Distinct(keys)
    ensures SumByKey(keys, [x] + xs, key, val)
         == (if key(x) in keys then val(x) else 0) + SumByKey(keys, xs, key, val)
  {
    if keys != [] {
      var k := keys[0];
      DistinctTail(keys);
      SumByKeyCons(keys[1..], x, xs, key, val);
      GroupCons(x, xs, key, k);
      var g := Group(xs, key, k);
      if key(x) == k {
        SumCons(x, g, val);
        assert key(x) !in keys[1..];
      } else {
        assert [] + g == g;
        assert key(x) in keys <==> key(x) in keys[1..];
      }
    }
  }

  /** Groups over distinct keys that cover every row partition the rows:
      their sums add up to the column total, nothing lost or counted twice. */
  lemma {:induction false} SumByKeyPartition<T(!new), K(!new)>(keys: seq<K>, xs: seq<T>, key: T -> K, val: T -> nat)
    requires Distinct(keys)
    requires forall x :: x in xs ==> key(x) in keys
    ensures SumByKey(keys, xs, key, val) == Sum(xs, val)
  {
    if xs == [] {
      SumByKeyEmpty(keys, key, val);
    } else {
      assert xs == [xs[0]] + xs[1..];
      SumByKeyPartition(keys, xs[1..], key, val);
      SumByKeyCons(keys, xs[0], xs[1..], key, val);
    }
  }

  /** `mask.sum()` for a boolean column: the number of true cells. */
  function CountTrue(mask: seq<bool>): nat {
    if mask == [] then 0 else (if mask[0] then 1 else 0) + CountTrue(mask[1..])
  }

  /** `df[mask][col].sum()`: the column summed over the rows the mask selects. */
  function MaskedSum<T(!new)>(xs: seq<T>, mask: seq<bool>, val: T -> nat): nat
    requires |mask| == |xs|
  {
    if xs == [] then 0
    else (if mask[0] then val(xs[0]) else 0) + MaskedSum(xs[1..], mask[1..], val)
  }

  /** A boolean column computed row by row from `flag` selects exactly the
      rows of `Group(xs, flag, true)`. */
  lemma {:induction false} MaskMatchesGroup<T(!new)>(xs: seq<T>, mask: seq<bool>, flag: T -> bool, val: T -> nat)
    requires |mask| == |xs|
    requires forall i :: 0 <= i < |xs| ==> mask[i] == flag(xs[i])
    ensures MaskedSum(xs, mask, val) == Sum(Group(xs, flag, true), val)
    ensures CountTrue(mask) == |Group(xs, flag, true)|
  {
    if xs != [] {
      MaskMatchesGroup(xs[1..], mask[1..], flag, val);
      var g := Group(xs[1..], flag, true);
      if flag(xs[0]) {
        assert ([xs[0]] + g)[1..] == g;
      } else {
        assert [] + g == g;
      }
    }
  }

  /** Rows ordered by the column `f`, largest first. */
  ghost predicate NonIncreasing<T(!new)>(xs: seq<T>, f: T -> nat) {
    forall i, j :: 0 <= i < j < |xs| ==> f(xs[i]) >= f(xs[j])
  }

  function InsertDescending<T(!new)>(x: T, xs: seq<T>, f: T -> nat): (r: seq<T>)
    requires NonIncreasing(xs, f)
    ensures NonIncreasing(r, f)
    ensures multiset(r) == multiset(xs) + multiset{x}
    ensures |r| == |xs| + 1
    ensures r[0] == x || (xs != [] && r[0] == xs[0])
  {
    if xs == [] || f(xs[0]) <= f(x) then
      NonIncreasingCons(x, xs, f);
      [x] + xs
    else
      assert xs == [xs[0]] + xs[1..];
      var r := InsertDescending(x, xs[1..], f);
      NonIncreasingCons(xs[0], r, f);
      assert multiset([xs[0]] + r) == multiset{xs[0]} + multiset(xs[1..]) + multiset{x};
      [xs[0]] + r
  }

  /** A row no smaller than the first of a non-increasing sequence can go
      in front of it. */
  lemma NonIncreasingCons<T(!new)>(h: T, t: seq<T>, f: T -> nat)
    requires NonIncreasing(t, f)
    requires t == [] || f(h) >= f(t[0])
    ensures NonIncreasing([h] + t, f)
  {
    forall i, j | 0 <= i < j < |[h] + t|
      ensures f(([h] + t)[i]) >= f(([h] + t)[j])
    {
      assert ([h] + t)[j] == t[j - 1];
      if i > 0 {
        assert ([h] + t)[i] == t[i - 1];
      } else if j > 1 {
        assert f(t[0]) >= f(t[j - 1]);
      }
    }
  }

  /** `sort_values(ascending=False)`: a reordering of the rows, largest `f`
      first. Rows with equal `f` may come in any order. */
  function SortDescending<T(!new)>(xs: seq<T>, f: T -> nat): (r: seq<T>)
    ensures NonIncreasing(r, f)
    ensures multiset(r) == multiset(xs)
  {
    if xs == [] then []
    else
      assert xs == [xs[0]] + xs[1..];
      InsertDescending(xs[0], SortDescending(xs[1..], f), f)
  }

  /** Reordering keeps distinct rows distinct. */
  lemma DistinctPermutation<T(!new)>(a: seq<T>, b: seq<T>)
    requires Distinct(a)
    requires multiset(a) == multiset(b)
    ensures Distinct(b)
  {
    forall i, j | 0 <= i < j < |b|
      ensures b[i] != b[j]
    {
      if b[i] == b[j] {
        assert b == b[..j] + b[j..];
        assert b[i] in b[..j];
        assert multiset(b)[b[i]] >= 2;
        DistinctAtMostOnce(a, b[i]);
      }
    }
  }

  lemma {:induction false} DistinctAtMostOnce<T(!new)>(a: seq<T>, x: T)
    requires Distinct(a)
    ensures multiset(a)[x] <= 1
  {
    if a != [] {
      assert a == [a[0]] + a[1..];
      assert Distinct(a[1..]);
      DistinctAtMostOnce(a[1..], x);
      if a[0] == x {
        assert x !in a[1..];
      }
    }
  }
}

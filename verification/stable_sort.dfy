/** A stable sort into non-increasing key order.

    `Array.prototype.sort` with the comparator `(a, b) => key(b) - key(a)` is
    required to be stable (ECMAScript 2019 and later): elements with equal
    keys keep their relative order. `Sort` is an insertion sort with that
    behaviour; `SortedStableUnique` shows that any sorted, order-keeping
    rearrangement is equal to it, so the choice of algorithm is immaterial. */
module StableSort {

  /** Keys never increase from left to right. */
  predicate SortedDesc<T>(s: seq<T>, key: T -> int)
  {
    forall i, j :: 0 <= i < j < |s| ==> key(s[i]) >= key(s[j])
  }

  /** The elements of `s` whose key is `k`, in their order in `s`. */
  function Filter<T>(s: seq<T>, key: T -> int, k: int): (r: seq<T>)
    ensures |r| <= |s|
    ensures forall i :: 0 <= i < |r| ==> key(r[i]) == k
  {
    if |s| == 0 then []
    else (if key(s[0]) == k then [s[0]] else []) + Filter(s[1..], key, k)
  }

  /** When `x` goes after the head of a sorted `s`, everything inserted
      behind the head has a key no greater than the head's. */
  lemma {:induction false} InsertBelowHead<T>(x: T, s: seq<T>, rest: seq<T>, key: T -> int)
    requires |s| > 0 && key(x) < key(s[0])
    requires multiset(rest) == multiset(s[1..]) + multiset{x}
    ensures SortedDesc(s, key) ==> forall j :: 0 <= j < |rest| ==> key(rest[j]) <= key(s[0])
  {
    if SortedDesc(s, key) {
      forall j | 0 <= j < |rest|
        ensures key(rest[j]) <= key(s[0])
      {
        assert rest[j] in multiset(rest);
        if rest[j] != x {
          var m :| 0 <= m < |s[1..]| && s[1..][m] == rest[j];
        }
      }
    }
  }

  /** Inserts `x` in front of the first element whose key does not exceed
      `key(x)`, hence in front of every element with an equal key. */
  function Insert<T>(x: T, s: seq<T>, key: T -> int): (r: seq<T>)
    ensures |r| == |s| + 1
    ensures multiset(r) == multiset(s) + multiset{x}
    ensures SortedDesc(s, key) ==> SortedDesc(r, key)
  {
    if |s| == 0 then [x]
    else if key(x) >= key(s[0]) then [x] + s
    else
      var rest := Insert(x, s[1..], key);
      assert s == [s[0]] + s[1..];
      InsertBelowHead(x, s, rest, key);
      [s[0]] + rest
  }

  /** Insertion sort: sorts the tail, then inserts the head. */
  function Sort<T>(s: seq<T>, key: T -> int): (r: seq<T>)
    ensures |r| == |s|
    ensures multiset(r) == multiset(s)
    ensures SortedDesc(r, key)
  {
    if |s| == 0 then []
    else
      assert s == [s[0]] + s[1..];
      Insert(s[0], Sort(s[1..], key), key)
  }

  /** Only `x` itself can join the `k`-class: elements `Insert` skips over
      have keys greater than `key(x)`. */
  lemma {:induction false} InsertFilter<T>(x: T, s: seq<T>, key: T -> int, k: int)
    ensures Filter(Insert(x, s, key), key, k)
         == (if key(x) == k then [x] else []) + Filter(s, key, k)
  {
    if |s| == 0 {
    } else if key(x) >= key(s[0]) {
    } else {
      var rest := Insert(x, s[1..], key);
      InsertFilter(x, s[1..], key, k);
    }
  }

  /** Stability: for every key, the elements carrying it appear in the output
      in the same order as in the input. */
  lemma {:induction false} SortIsStable<T>(s: seq<T>, key: T -> int, k: int)
    ensures Filter(Sort(s, key), key, k) == Filter(s, key, k)
  {
    if |s| > 0 {
      InsertFilter(s[0], Sort(s[1..], key), key, k);
      SortIsStable(s[1..], key, k);
    }
  }

  /** The first element of a non-empty sorted sequence has the greatest key. */
  lemma {:induction false} HeadIsMax<T>(s: seq<T>, key: T -> int, i: int)
    requires SortedDesc(s, key) && 0 <= i < |s|
    ensures key(s[0]) >= key(s[i])
  {
  }

  /** `k` is the key of some element exactly when its class is non-empty. */
  lemma {:induction false} FilterNonEmpty<T>(s: seq<T>, key: T -> int, i: int)
    requires 0 <= i < |s|
    ensures |Filter(s, key, key(s[i]))| > 0
  {
    if i > 0 {
      FilterNonEmpty(s[1..], key, i - 1);
    }
  }

  /** Every element of a class belongs to the sequence. */
  lemma {:induction false} FilterMember<T>(s: seq<T>, key: T -> int, k: int, j: int)
    requires 0 <= j < |Filter(s, key, k)|
    ensures exists i :: 0 <= i < |s| && s[i] == Filter(s, key, k)[j]
  {
    if key(s[0]) == k && j == 0 {
    } else {
      var j' := if key(s[0]) == k then j - 1 else j;
      FilterMember(s[1..], key, k, j');
      var i :| 0 <= i < |s[1..]| && s[1..][i] == Filter(s[1..], key, k)[j'];
    }
  }

  /** The head of a sorted sequence heads its own class. */
  lemma {:induction false} SortedHeadFilter<T>(s: seq<T>, key: T -> int)
    requires |s| > 0
    ensures Filter(s, key, key(s[0])) == [s[0]] + Filter(s[1..], key, key(s[0]))
  {
  }

  /** Two sorted sequences with the same classes start with the same element:
      both heads carry the maximal key and head that key's class. */
  lemma {:induction false} SortedHeadsAgree<T>(a: seq<T>, b: seq<T>, key: T -> int)
    requires |a| > 0 && |b| > 0
    requires SortedDesc(a, key) && SortedDesc(b, key)
    requires forall k :: Filter(a, key, k) == Filter(b, key, k)
    ensures a[0] == b[0]
  {
    var ka, kb := key(a[0]), key(b[0]);
    FilterNonEmpty(a, key, 0);
    FilterMember(b, key, ka, 0);
    var ib :| 0 <= ib < |b| && b[ib] == Filter(b, key, ka)[0];
    HeadIsMax(b, key, ib);
    FilterNonEmpty(b, key, 0);
    FilterMember(a, key, kb, 0);
    var ia :| 0 <= ia < |a| && a[ia] == Filter(a, key, kb)[0];
    HeadIsMax(a, key, ia);
    SortedHeadFilter(a, key);
    SortedHeadFilter(b, key);
  }

  /** Dropping the head drops it from its own class only. */
  lemma {:induction false} TailClass<T>(s: seq<T>, key: T -> int, k: int)
    requires |s| > 0
    ensures Filter(s[1..], key, k) == if key(s[0]) == k then Filter(s, key, k)[1..] else Filter(s, key, k)
  {
  }

  /** A sorted sequence whose every class equals the corresponding class of
      `b`, also sorted, is `b` itself: a stable sort has exactly one result. */
  lemma {:induction false} SortedStableUnique<T>(a: seq<T>, b: seq<T>, key: T -> int)
    requires SortedDesc(a, key) && SortedDesc(b, key)
    requires forall k :: Filter(a, key, k) == Filter(b, key, k)
    ensures a == b
  {
    if |a| == 0 {
      if |b| > 0 {
        FilterNonEmpty(b, key, 0);
      }
    } else if |b| == 0 {
      FilterNonEmpty(a, key, 0);
    } else {
      SortedHeadsAgree(a, b, key);
      forall k
        ensures Filter(a[1..], key, k) == Filter(b[1..], key, k)
      {
        TailClass(a, key, k);
        TailClass(b, key, k);
      }
      SortedStableUnique(a[1..], b[1..], key);
    }
  }

  /** An element with key `k` has a place in the `k`-class. */
  lemma {:induction false} FilterContains<T>(s: seq<T>, key: T -> int, i: int)
    requires 0 <= i < |s|
    ensures exists p :: 0 <= p < |Filter(s, key, key(s[i]))| && Filter(s, key, key(s[i]))[p] == s[i]
  {
    var k := key(s[i]);
    if i == 0 {
      assert Filter(s, key, k)[0] == s[0];
    } else {
      FilterContains(s[1..], key, i - 1);
      var p :| 0 <= p < |Filter(s[1..], key, k)| && Filter(s[1..], key, k)[p] == s[i];
      var d := if key(s[0]) == k then 1 else 0;
      assert Filter(s, key, k)[p + d] == s[i];
    }
  }

  /** Two elements with equal keys occupy places in their class in the
      same order as in the sequence. */
  lemma {:induction false} FilterRank<T>(s: seq<T>, key: T -> int, i: int, j: int)
    requires 0 <= i < j < |s| && key(s[i]) == key(s[j])
    ensures exists p, q :: 0 <= p < q < |Filter(s, key, key(s[i]))|
              && Filter(s, key, key(s[i]))[p] == s[i]
              && Filter(s, key, key(s[i]))[q] == s[j]
  {
    var k := key(s[i]);
    if i == 0 {
      FilterContains(s[1..], key, j - 1);
      var q :| 0 <= q < |Filter(s[1..], key, k)| && Filter(s[1..], key, k)[q] == s[j];
      assert Filter(s, key, k)[0] == s[0];
      assert Filter(s, key, k)[q + 1] == s[j];
    } else {
      FilterRank(s[1..], key, i - 1, j - 1);
      var p, q :| 0 <= p < q < |Filter(s[1..], key, k)|
                 && Filter(s[1..], key, k)[p] == s[i]
                 && Filter(s[1..], key, k)[q] == s[j];
      var d := if key(s[0]) == k then 1 else 0;
      assert Filter(s, key, k)[p + d] == s[i];
      assert Filter(s, key, k)[q + d] == s[j];
    }
  }

  /** The members of a class come from increasing positions of the sequence. */
  lemma {:induction false} FilterPositions<T>(s: seq<T>, key: T -> int, k: int, p: int, q: int)
    requires 0 <= p < q < |Filter(s, key, k)|
    ensures exists a, b :: 0 <= a < b < |s|
              && s[a] == Filter(s, key, k)[p] && s[b] == Filter(s, key, k)[q]
  {
    var tail := Filter(s[1..], key, k);
    if key(s[0]) == k {
      if p == 0 {
        FilterMember(s[1..], key, k, q - 1);
        var b :| 0 <= b < |s[1..]| && s[1..][b] == tail[q - 1];
      } else {
        FilterPositions(s[1..], key, k, p - 1, q - 1);
        var a, b :| 0 <= a < b < |s[1..]| && s[1..][a] == tail[p - 1] && s[1..][b] == tail[q - 1];
      }
    } else {
      FilterPositions(s[1..], key, k, p, q);
      var a, b :| 0 <= a < b < |s[1..]| && s[1..][a] == tail[p] && s[1..][b] == tail[q];
    }
  }

  /** Stability, pointwise: two output elements with equal keys come from
      input positions in the same order. */
  lemma {:induction false} SortKeepsTieOrder<T>(s: seq<T>, key: T -> int, i: int, j: int)
    requires 0 <= i < j < |Sort(s, key)|
    requires key(Sort(s, key)[i]) == key(Sort(s, key)[j])
    ensures exists a, b :: 0 <= a < b < |s| && s[a] == Sort(s, key)[i] && s[b] == Sort(s, key)[j]
  {
    var r := Sort(s, key);
    var k := key(r[i]);
    FilterRank(r, key, i, j);
    var p, q :| 0 <= p < q < |Filter(r, key, k)| && Filter(r, key, k)[p] == r[i]
               && Filter(r, key, k)[q] == r[j];
    SortIsStable(s, key, k);
    FilterPositions(s, key, k, p, q);
  }

  /** `Sort` is the stable sort: every sorted rearrangement that keeps the
      order inside each class equals it. */
  lemma {:induction false} SortIsTheStableSort<T>(s: seq<T>, r: seq<T>, key: T -> int)
    requires SortedDesc(r, key)
    requires forall k :: Filter(r, key, k) == Filter(s, key, k)
    ensures r == Sort(s, key)
  {
    forall k
      ensures Filter(r, key, k) == Filter(Sort(s, key), key, k)
    {
      SortIsStable(s, key, k);
    }
    SortedStableUnique(r, Sort(s, key), key);
  }
}

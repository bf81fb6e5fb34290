/** Options and the few facts about duplicate-free sequences that several components share. */
module Collections {

  datatype Option<+T> = None | Some(value: T)

  /** An octet. */
  type Byte = b: int | 0 <= b < 256
  type Bytes = seq<Byte>

  /** No value occurs twice. */
  ghost predicate NoDuplicates<T>(xs: seq<T>) {
    forall i, j :: 0 <= i < j < |xs| ==> xs[i] != xs[j]
  }

  /** Each element is smaller than the next, hence than all later ones. */
  ghost predicate Ascending(xs: seq<int>) {
    forall i, j :: 0 <= i < j < |xs| ==> xs[i] < xs[j]
  }

  function Filter<T>(keep: T -> bool, xs: seq<T>): seq<T> {
    if xs == [] then []
    else if keep(xs[0]) then [xs[0]] + Filter(keep, xs[1..])
    else Filter(keep, xs[1..])
  }

  lemma {:induction false} FilterMembers<T(!new)>(keep: T -> bool, xs: seq<T>)
    ensures forall x :: x in Filter(keep, xs) <==> x in xs && keep(x)
    ensures |Filter(keep, xs)| <= |xs|
  {
    if xs != [] {
      FilterMembers(keep, xs[1..]);
    }
  }

  function IndexOf<T(==)>(xs: seq<T>, x: T): (i: nat)
    requires x in xs
    ensures i < |xs| && xs[i] == x && x !in xs[..i]
  {
    if xs[0] == x then 0 else 1 + IndexOf(xs[1..], x)
  }

  /** Python's `list.remove`: drops the first occurrence. */
  function Remove<T(==)>(xs: seq<T>, x: T): (r: seq<T>)
    ensures x in xs ==> r == xs[..IndexOf(xs, x)] + xs[IndexOf(xs, x) + 1..]
    ensures x !in xs ==> r == xs
  {
    if x in xs then xs[..IndexOf(xs, x)] + xs[IndexOf(xs, x) + 1..] else xs
  }

  lemma {:induction false} FilterAppend<T(!new)>(keep: T -> bool, xs: seq<T>, ys: seq<T>)
    ensures Filter(keep, xs + ys) == Filter(keep, xs) + Filter(keep, ys)
  {
    if xs == [] {
      assert xs + ys == ys;
    } else {
      FilterAppend(keep, xs[1..], ys);
      assert (xs + ys)[0] == xs[0] && (xs + ys)[1..] == xs[1..] + ys;
      assert [xs[0]] + (Filter(keep, xs[1..]) + Filter(keep, ys))
          == [xs[0]] + Filter(keep, xs[1..]) + Filter(keep, ys);
    }
  }

  lemma {:induction false} FilterAll<T(!new)>(keep: T -> bool, xs: seq<T>)
    requires forall x :: x in xs ==> keep(x)
    ensures Filter(keep, xs) == xs
  {
    if xs != [] {
      FilterAll(keep, xs[1..]);
    }
  }

  lemma {:induction false} FilterNone<T(!new)>(keep: T -> bool, xs: seq<T>)
    requires forall x :: x in xs ==> !keep(x)
    ensures Filter(keep, xs) == []
  {
    if xs != [] {
      FilterNone(keep, xs[1..]);
    }
  }

  lemma {:induction false} FilterNoDuplicates<T(!new)>(keep: T -> bool, xs: seq<T>)
    requires NoDuplicates(xs)
    ensures NoDuplicates(Filter(keep, xs))
  {
    if xs != [] {
      FilterNoDuplicates(keep, xs[1..]);
      FilterMembers(keep, xs[1..]);
      assert xs[0] !in xs[1..];
    }
  }

  lemma {:induction false} FilterAscending(keep: int -> bool, xs: seq<int>)
    requires Ascending(xs)
    ensures Ascending(Filter(keep, xs))
  {
    if xs != [] {
      FilterAscending(keep, xs[1..]);
      FilterMembers(keep, xs[1..]);
      var rest := Filter(keep, xs[1..]);
      forall k | 0 <= k < |rest| ensures xs[0] < rest[k] {
        assert rest[k] in xs[1..];
      }
    }
  }

  /** Reordering keeps membership, and keeps a list without repetitions free of them. */
  lemma PermutationFacts<T(!new)>(xs: seq<T>, ys: seq<T>)
    requires multiset(xs) == multiset(ys)
    ensures |xs| == |ys|
    ensures forall x :: x in xs <==> x in ys
    ensures NoDuplicates(xs) ==> NoDuplicates(ys)
  {
    assert |xs| == |multiset(xs)| && |ys| == |multiset(ys)|;
    forall x ensures x in xs <==> x in ys {
      assert x in xs <==> x in multiset(xs);
      assert x in ys <==> x in multiset(ys);
    }
    if NoDuplicates(xs) {
      forall i, j | 0 <= i < j < |ys| ensures ys[i] != ys[j] {
        if ys[i] == ys[j] {
          assert ys == ys[..i] + [ys[i]] + ys[i + 1..j] + [ys[j]] + ys[j + 1..];
          assert multiset(ys)[ys[i]] >= 2;
          AtMostOnce(xs, ys[i]);
        }
      }
    }
  }

  lemma {:induction false} AtMostOnce<T>(xs: seq<T>, x: T)
    requires NoDuplicates(xs)
    ensures multiset(xs)[x] == if x in xs then 1 else 0
  {
    if xs != [] {
      AtMostOnce(xs[1..], x);
      assert xs == [xs[0]] + xs[1..];
      if xs[0] == x {
        assert x !in xs[1..];
      }
    }
  }

  /** Two repetition-free lists with the same members are permutations of one another. */
  lemma SameMembersSameMultiset<T(!new)>(xs: seq<T>, ys: seq<T>)
    requires NoDuplicates(xs) && NoDuplicates(ys)
    requires forall x :: x in xs <==> x in ys
    ensures multiset(xs) == multiset(ys)
  {
    forall x ensures multiset(xs)[x] == multiset(ys)[x] {
      AtMostOnce(xs, x);
      AtMostOnce(ys, x);
    }
  }

  lemma RemoveFacts<T(!new)>(xs: seq<T>, x: T)
    requires NoDuplicates(xs)
    ensures NoDuplicates(Remove(xs, x))
    ensures forall y :: y in Remove(xs, x) <==> y in xs && y != x
    ensures |Remove(xs, x)| == |xs| - (if x in xs then 1 else 0)
  {
    if x in xs {
      var k := IndexOf(xs, x);
      forall y ensures y in Remove(xs, x) <==> y in xs && y != x {
        if y in xs && y != x {
          var m := IndexOf(xs, y);
          assert m < k ==> Remove(xs, x)[m] == y;
          assert m > k ==> Remove(xs, x)[m - 1] == y;
        }
      }
    }
  }
}

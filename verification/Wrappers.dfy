/** Optional and fallible values shared by every module. */
module Wrappers {
  datatype Option<+T> = None | Some(value: T) {
    predicate IsFailure() { None? }

    function PropagateFailure<U>(): Option<U>
      requires None?
    {
      None
    }

    function Extract(): T
      requires Some?
    {
      value
    }

    function OrElse(other: Option<T>): Option<T> {
      if Some? then this else other
    }
  }

  datatype Result<+T, +E> = Ok(value: T) | Err(error: E)

  function Max(a: int, b: int): int { if a < b then b else a }

  function Min(a: int, b: int): int { if a < b then a else b }

  /** What the items of a sequence add, in order. */
  function Gather<A, B>(items: seq<A>, add: A -> seq<B>): seq<B> {
    if items == [] then [] else Gather(items[..|items| - 1], add) + add(items[|items| - 1])
  }

  lemma {:induction false} GatherSplit<A, B>(a: seq<A>, b: seq<A>, add: A -> seq<B>)
    ensures Gather(a + b, add) == Gather(a, add) + Gather(b, add)
  {
    if b == [] {
      assert a + b == a;
    } else {
      var n := |b| - 1;
      GatherSplit(a, b[..n], add);
      assert (a + b)[..|a + b| - 1] == a + b[..n];
      assert (Gather(a, add) + Gather(b[..n], add)) + add(b[n]) == Gather(a, add) + (Gather(b[..n], add) + add(b[n]));
    }
  }

  /** The same over a stretch of the sequence, without cutting it out. */
  function GatherRange<A, B>(items: seq<A>, lo: nat, hi: nat, add: A -> seq<B>): seq<B>
    requires hi <= |items|
  {
    if hi <= lo then [] else GatherRange(items, lo, hi - 1, add) + add(items[hi - 1])
  }

  lemma {:induction false} RangeIsSlice<A, B>(items: seq<A>, lo: nat, hi: nat, add: A -> seq<B>)
    requires lo <= hi <= |items|
    ensures GatherRange(items, lo, hi, add) == Gather(items[lo..hi], add)
  {
    if lo < hi {
      var part := items[lo..hi];
      RangeIsSlice(items, lo, hi - 1, add);
      assert part[..|part| - 1] == items[lo..hi - 1] && part[|part| - 1] == items[hi - 1];
    }
  }
}

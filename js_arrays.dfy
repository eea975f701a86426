/** The three JavaScript array expressions the post handlers use to find an
    entry, stated over sequences:
    - `xs.filter(y => y === x).length`  is  Count(xs, x)
    - `xs.indexOf(x)`                    is  IndexOf(xs, x)
    - `xs.splice(start, 1)`              is  SpliceOne(xs, start) (the array left behind)
    `push` and `unshift` of one entry are `xs + [x]` and `[x] + xs`. */
module JsArrays {

  /** The number of entries of `s` equal to `x`: the length of the array that
      `filter` keeps when its test is equality with `x`. */
  function Count<T(==)>(s: seq<T>, x: T): (n: nat)
    ensures n <= |s|
    ensures n == 0 <==> x !in s
  {
    if s == [] then 0
    else (if s[0] == x then 1 else 0) + Count(s[1..], x)
  }

  /** `indexOf`: the first position holding `x`, or -1 when there is none. */
  function IndexOf<T(==)>(s: seq<T>, x: T): (i: int)
    ensures -1 <= i < |s|
    ensures i == -1 <==> x !in s
    ensures 0 <= i ==> s[i] == x && x !in s[..i]
  {
    if s == [] then -1
    else if s[0] == x then 0
    else
      var j := IndexOf(s[1..], x);
      if j == -1 then -1
      else
        assert s[..j + 1] == [s[0]] + s[1..][..j];
        j + 1
  }

  /** Where `splice` starts for an array of length `len`: a negative start
      counts back from the end (and stops at 0), a start past the end is
      clamped to the length. */
  function ActualStart(len: nat, start: int): (k: nat)
    ensures k <= len
    ensures 0 <= start <= len ==> k == start
    ensures start < 0 && -start <= len ==> k == len + start
    ensures start >= len ==> k == len
    ensures start + len < 0 ==> k == 0
  {
    if start < 0 then (if len + start < 0 then 0 else len + start)
    else if start < len then start
    else len
  }

  /** The array left behind by `s.splice(start, 1)`: the one entry at the
      actual start is removed when there is one, otherwise nothing changes. */
  function SpliceOne<T>(s: seq<T>, start: int): (r: seq<T>)
    ensures ActualStart(|s|, start) == |s| ==> r == s
    ensures ActualStart(|s|, start) < |s| ==>
              |r| == |s| - 1 &&
              multiset(r) + multiset{s[ActualStart(|s|, start)]} == multiset(s)
    ensures 0 <= start < |s| ==>
              (forall j :: 0 <= j < start ==> r[j] == s[j]) &&
              (forall j :: start <= j < |r| ==> r[j] == s[j + 1])
  {
    var k := ActualStart(|s|, start);
    if k < |s| then
      assert s == s[..k] + [s[k]] + s[k + 1..];
      s[..k] + s[k + 1..]
    else s
  }

  /** Counting with `filter` agrees with the multiplicity of `x` in `s`. */
  lemma {:induction false} CountIsMultiplicity<T>(s: seq<T>, x: T)
    ensures Count(s, x) == multiset(s)[x]
  {
    if s != [] {
      assert s == [s[0]] + s[1..];
      CountIsMultiplicity(s[1..], x);
    }
  }

  /** The guard `filter(..).length > 0` holds exactly when `indexOf` finds a
      position, so the `splice` that follows it never gets -1. */
  lemma FilterGuardMeansFound<T>(s: seq<T>, x: T)
    ensures Count(s, x) > 0 <==> 0 <= IndexOf(s, x) < |s|
  {
  }

  /** Without that guard, `splice(-1, 1)` would drop the last entry. */
  lemma SpliceMinusOneDropsLast<T>(s: seq<T>)
    requires s != []
    ensures SpliceOne(s, -1) == s[..|s| - 1]
  {
  }

  /** After `push(x)` on an array without `x`, `indexOf(x)` is the new last position. */
  lemma IndexOfPushed<T>(s: seq<T>, x: T)
    requires x !in s
    ensures IndexOf(s + [x], x) == |s|
  {
    assert (s + [x])[|s|] == x;
  }

  /** After `unshift(x)`, `indexOf(x)` is 0. */
  lemma IndexOfUnshifted<T>(x: T, s: seq<T>)
    ensures IndexOf([x] + s, x) == 0
  {
    assert ([x] + s)[0] == x;
  }

  /** Removing position `i` takes away exactly one occurrence of the entry
      that was there and leaves every other count alone. */
  lemma CountAfterSplice<T>(s: seq<T>, i: nat, y: T)
    requires i < |s|
    ensures Count(SpliceOne(s, i), y) == Count(s, y) - (if s[i] == y then 1 else 0)
  {
    CountIsMultiplicity(s, y);
    CountIsMultiplicity(SpliceOne(s, i), y);
  }

  /** Pushing `x` adds one occurrence of `x` and no other. */
  lemma CountAfterPush<T>(s: seq<T>, x: T, y: T)
    ensures Count(s + [x], y) == Count(s, y) + (if x == y then 1 else 0)
  {
    CountIsMultiplicity(s, y);
    CountIsMultiplicity(s + [x], y);
  }
}

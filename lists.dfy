/** Sequence helpers shared by the pagination and track modules. */
module Lists {

  /** `[j for i in xss for j in i]`: the lists joined end to end, in order. */
  function Flatten<T>(xss: seq<seq<T>>): (r: seq<T>)
  {
    if xss == [] then [] else xss[0] + Flatten(xss[1..])
  }

  lemma {:induction false} FlattenAppend<T>(xss: seq<seq<T>>, ys: seq<seq<T>>)
    ensures Flatten(xss + ys) == Flatten(xss) + Flatten(ys)
  {
    if xss == [] {
      assert xss + ys == ys;
    } else {
      assert (xss + ys)[1..] == xss[1..] + ys;
      FlattenAppend(xss[1..], ys);
    }
  }

  /** Appending one more list to the accumulator extends the flattened result by that list. */
  lemma FlattenSnoc<T>(xss: seq<seq<T>>, ys: seq<T>)
    ensures Flatten(xss + [ys]) == Flatten(xss) + ys
  {
    FlattenAppend(xss, [ys]);
    assert Flatten([ys]) == ys + Flatten([]);
  }

  /** A prefix of `s` followed by the next slice of `s` is the longer prefix. */
  lemma PrefixExtend<T>(a: seq<T>, s: seq<T>, o: nat, n: nat)
    requires o + n <= |s|
    ensures a + s[..o] + s[o..o + n] == a + s[..o + n]
  {
    assert s[..o] + s[o..o + n] == s[..o + n];
  }

  /** `n` copies of `x`. */
  function Repeat<T>(x: T, n: nat): (r: seq<T>)
    ensures |r| == n
    ensures forall k :: 0 <= k < n ==> r[k] == x
  {
    if n == 0 then [] else [x] + Repeat(x, n - 1)
  }

  function Min(a: int, b: int): int
  {
    if a <= b then a else b
  }
}

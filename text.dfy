/** The string operations the source uses on identifiers: `sep.join(parts)`,
    `s.split(c)` for a one-character separator, and the substring test `x in s`. */
module Text {

  /** `sep.join(parts)`. */
  function Join(parts: seq<string>, sep: string): (r: string)
    ensures |parts| == 1 ==> r == parts[0]
  {
    if |parts| == 0 then ""
    else if |parts| == 1 then parts[0]
    else parts[0] + sep + Join(parts[1..], sep)
  }

  /** `s.split(c)`: the pieces between occurrences of `c`; an empty string gives `[""]`. */
  function Split(s: string, c: char): (r: seq<string>)
    ensures |r| >= 1
  {
    if |s| == 0 then [""]
    else
      var rest := Split(s[1..], c);
      if s[0] == c then [""] + rest else [[s[0]] + rest[0]] + rest[1..]
  }

  /** Python's `needle in hay` for strings: `needle` occurs in `hay` at some position. */
  predicate Contains(hay: string, needle: string)
  {
    needle <= hay || (|hay| > 0 && Contains(hay[1..], needle))
  }

  /** A piece without the separator splits to itself. */
  lemma {:induction false} SplitPlain(p: string, c: char)
    requires c !in p
    ensures Split(p, c) == [p]
  {
    if |p| > 0 {
      SplitPlain(p[1..], c);
      assert [p[0]] + p[1..] == p;
    }
  }

  /** Splitting `p + c + rest` yields `p` followed by the pieces of `rest`. */
  lemma {:induction false} SplitCons(p: string, c: char, rest: string)
    requires c !in p
    ensures Split(p + [c] + rest, c) == [p] + Split(rest, c)
  {
    if |p| == 0 {
      assert p + [c] + rest == [c] + rest;
      assert ([c] + rest)[1..] == rest;
    } else {
      var s := p + [c] + rest;
      assert s[0] == p[0];
      assert s[1..] == p[1..] + [c] + rest;
      SplitCons(p[1..], c, rest);
      assert [p[0]] + p[1..] == p;
    }
  }

  /** Round trip: joining identifiers that do not contain the separator and splitting
      the result gives the identifiers back. */
  lemma {:induction false} SplitJoin(parts: seq<string>, c: char)
    requires |parts| >= 1
    requires forall i :: 0 <= i < |parts| ==> c !in parts[i]
    ensures Split(Join(parts, [c]), c) == parts
  {
    if |parts| == 1 {
      SplitPlain(parts[0], c);
    } else {
      SplitCons(parts[0], c, Join(parts[1..], [c]));
      SplitJoin(parts[1..], c);
      assert [parts[0]] + parts[1..] == parts;
    }
  }

  /** An occurrence at a known position is an occurrence. */
  lemma {:induction false} ContainsAt(hay: string, needle: string, k: nat)
    requires k + |needle| <= |hay| && hay[k..k + |needle|] == needle
    ensures Contains(hay, needle)
  {
    if k == 0 {
      assert needle == hay[..|needle|];
    } else {
      assert hay[1..][k - 1..k - 1 + |needle|] == hay[k..k + |needle|];
      ContainsAt(hay[1..], needle, k - 1);
    }
  }

  /** An occurrence has a position. */
  lemma {:induction false} ContainsWitness(hay: string, needle: string) returns (k: nat)
    requires Contains(hay, needle)
    ensures k + |needle| <= |hay| && hay[k..k + |needle|] == needle
  {
    if needle <= hay {
      k := 0;
    } else {
      var j := ContainsWitness(hay[1..], needle);
      assert hay[1..][j..j + |needle|] == hay[j + 1..j + 1 + |needle|];
      k := j + 1;
    }
  }

  /** Every joined part occurs in the joined string. */
  lemma {:induction false} JoinContainsPart(parts: seq<string>, sep: string, i: nat)
    requires i < |parts|
    ensures Contains(Join(parts, sep), parts[i])
  {
    var s := Join(parts, sep);
    if i == 0 {
      if |parts| > 1 {
        assert s == parts[0] + (sep + Join(parts[1..], sep));
        assert s[0..|parts[0]|] == parts[0];
      }
      ContainsAt(s, parts[0], 0);
    } else {
      var p := parts[0] + sep;
      var rest := Join(parts[1..], sep);
      assert s == p + rest;
      JoinContainsPart(parts[1..], sep, i - 1);
      var k := ContainsWitness(rest, parts[i]);
      assert s[|p| + k..|p| + k + |parts[i]|] == rest[k..k + |parts[i]|];
      ContainsAt(s, parts[i], |p| + k);
    }
  }

  /** When all identifiers have the same length and none contains the separator, an
      identifier of that length occurring in their comma-join is one of them: the
      substring test then decides membership. */
  lemma {:induction false} FixedWidthOccurrence(parts: seq<string>, c: char, x: string, k: nat)
    requires |parts| >= 1
    requires forall i :: 0 <= i < |parts| ==> |parts[i]| == |x| && c !in parts[i]
    requires c !in x
    requires k + |x| <= |Join(parts, [c])| && Join(parts, [c])[k..k + |x|] == x
    ensures x in parts
  {
    var w := |x|;
    if w == 0 {
      assert x == parts[0];
    } else if |parts| == 1 {
      OnlyPart(parts[0], [c], x, k);
    } else {
      var rest := Join(parts[1..], [c]);
      JoinCons(parts, [c]);
      WindowInCons(parts[0], c, rest, x, k);
      if x != parts[0] {
        FixedWidthOccurrence(parts[1..], c, x, k - w - 1);
      }
    }
  }

  /** A window as wide as a lone part is that part. */
  lemma OnlyPart(p: string, sep: string, x: string, k: nat)
    requires |x| == |p| && k + |x| <= |Join([p], sep)| && Join([p], sep)[k..k + |x|] == x
    ensures x == p
  {
    assert Join([p], sep) == p && k == 0;
    assert p[..|x|] == p;
  }

  /** A separator-free window as wide as the first part of `p + c + rest` is either
      that part or lies wholly in `rest`. */
  lemma WindowInCons(p: string, c: char, rest: string, x: string, k: nat)
    requires |x| == |p| > 0 && c !in x
    requires k + |x| <= |p + [c] + rest| && (p + [c] + rest)[k..k + |x|] == x
    ensures x == p || (k > |p| && k - 1 <= |rest| && rest[k - |p| - 1..k - 1] == x)
  {
    if k == 0 {
      HeadWindow(p, c, rest, x);
    } else if k <= |p| {
      // the window would cover the separator at position |p|
      WindowCoversSeparator(p, c, rest, k, x);
      assert false;
    } else {
      SliceAfterSeparator(p, c, rest, k, |p|);
    }
  }

  /** Joining two or more parts puts the first, then the separator, then the join of
      the rest. */
  lemma JoinCons(parts: seq<string>, sep: string)
    requires |parts| >= 2
    ensures Join(parts, sep) == parts[0] + sep + Join(parts[1..], sep)
  {
  }

  /** A window at position 0 as wide as the first part is the first part. */
  lemma HeadWindow(p: string, c: char, rest: string, x: string)
    requires |x| == |p| && (p + [c] + rest)[0..|x|] == x
    ensures x == p
  {
    assert (p + [c] + rest)[0..|p|] == p;
  }

  /** A slice of `p + c + rest` that starts after the separator is a slice of `rest`. */
  lemma SliceAfterSeparator(p: string, c: char, rest: string, k: nat, w: nat)
    requires w == |p| && w < k && k + w <= |p + [c] + rest|
    ensures (p + [c] + rest)[k..k + w] == rest[k - w - 1..k - 1]
  {
    var s := p + [c] + rest;
    var window, tail := s[k..k + w], rest[k - w - 1..k - 1];
    forall i | 0 <= i < w ensures window[i] == tail[i] {
    }
  }

  /** A window of width |p| starting inside `p + c + rest`, after position 0,
      covers the separator. */
  lemma WindowCoversSeparator(p: string, c: char, rest: string, k: nat, x: string)
    requires |x| == |p| && 0 < k <= |p|
    requires k + |x| <= |p + [c] + rest| && (p + [c] + rest)[k..k + |x|] == x
    ensures c in x
  {
    var s := p + [c] + rest;
    assert s[|p|] == c;
    assert x[|p| - k] == s[|p|];
  }

  /** Substring test and membership agree for same-width separator-free identifiers. */
  lemma FixedWidthContainsIff(parts: seq<string>, c: char, x: string)
    requires |parts| >= 1
    requires forall i :: 0 <= i < |parts| ==> |parts[i]| == |x| && c !in parts[i]
    requires c !in x
    ensures Contains(Join(parts, [c]), x) <==> x in parts
  {
    if Contains(Join(parts, [c]), x) {
      var k := ContainsWitness(Join(parts, [c]), x);
      FixedWidthOccurrence(parts, c, x, k);
    }
    if x in parts {
      var i :| 0 <= i < |parts| && parts[i] == x;
      JoinContainsPart(parts, [c], i);
    }
  }
}

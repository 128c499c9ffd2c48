/** Fixed-size batching: the `while i <= n - 1: sub = xs[i:j]; ...; i = j; j += k`
    loops of the track and popularity lookups, described by the windows they visit. */
module Chunking {
  import opened Outcomes
  import opened Lists

  /** The windows `s[0:k], s[k:2k], ...` visited while the window start is inside `s`. */
  function Windows<T>(s: seq<T>, size: nat): (ws: seq<seq<T>>)
    requires size > 0
    decreases |s|
  {
    if |s| == 0 then []
    else if |s| <= size then [s]
    else [s[..size]] + Windows(s[size..], size)
  }

  /** The windows put back together are the input. */
  lemma {:induction false} FlattenWindows<T>(s: seq<T>, size: nat)
    requires size > 0
    ensures Flatten(Windows(s, size)) == s
    decreases |s|
  {
    if 0 < |s| <= size {
      assert Flatten([s]) == s + Flatten([]);
    } else if |s| > size {
      var ws := Windows(s, size);
      assert ws[0] == s[..size] && ws[1..] == Windows(s[size..], size);
      FlattenWindows(s[size..], size);
      assert s[..size] + s[size..] == s;
    }
  }

  /** There are ceil(|s| / size) windows: none for an empty input, and otherwise
      the smallest count whose total capacity covers `s`. */
  lemma {:induction false} WindowCount<T>(s: seq<T>, size: nat)
    requires size > 0
    ensures |s| == 0 <==> |Windows(s, size)| == 0
    ensures |s| > 0 ==> (|Windows(s, size)| - 1) * size < |s| <= |Windows(s, size)| * size
    decreases |s|
  {
    if |s| > size {
      var n := |Windows(s[size..], size)|;
      WindowCount(s[size..], size);
      assert |Windows(s, size)| == n + 1;
      assert (n + 1) * size == n * size + size;
    }
  }

  /** Window `k` is the slice `s[k*size : (k+1)*size]`, clipped at the end of `s`. */
  lemma {:induction false} WindowAt<T>(s: seq<T>, size: nat, k: nat)
    requires size > 0 && k < |Windows(s, size)|
    ensures k * size < |s|
    ensures Windows(s, size)[k] == s[k * size..Min((k + 1) * size, |s|)]
    decreases |s|
  {
    if k > 0 {
      var rest := s[size..];
      WindowAt(rest, size, k - 1);
      assert Windows(s, size)[k] == Windows(rest, size)[k - 1];
      assert (k - 1) * size + size == k * size;
      assert k * size + size == (k + 1) * size;
    }
  }

  /** Every window but the last holds exactly `size` elements; the last holds between
      1 and `size`. */
  lemma {:induction false} WindowSizes<T>(s: seq<T>, size: nat, k: nat)
    requires size > 0 && k < |Windows(s, size)|
    ensures k < |Windows(s, size)| - 1 ==> |Windows(s, size)[k]| == size
    ensures 1 <= |Windows(s, size)[k]| <= size
    decreases |s|
  {
    if k > 0 {
      WindowSizes(s[size..], size, k - 1);
    }
  }

  /** The per-window results joined in window order; the first failing window's error
      is the result, as the loop stops at the first exception. */
  function Gather<T, U>(f: seq<T> -> Result<seq<U>>, ws: seq<seq<T>>): (r: Result<seq<U>>)
  {
    if ws == [] then Ok([])
    else
      match f(ws[0])
      case Err(e) => Err(e)
      case Ok(xs) => Prepend(xs, Gather(f, ws[1..]))
  }

  /** The accumulated results `acc` in front of whatever the remaining windows give. */
  function Prepend<U>(acc: seq<U>, r: Result<seq<U>>): Result<seq<U>>
  {
    match r
    case Ok(ys) => Ok(acc + ys)
    case Err(e) => Err(e)
  }

  lemma PrependNothing<U>(r: Result<seq<U>>)
    ensures Prepend([], r) == r
  {
    if r.Ok? {
      assert [] + r.value == r.value;
    }
  }

  lemma PrependPrepend<U>(a: seq<U>, b: seq<U>, r: Result<seq<U>>)
    ensures Prepend(a, Prepend(b, r)) == Prepend(a + b, r)
  {
    if r.Ok? {
      assert a + (b + r.value) == (a + b) + r.value;
    }
  }

  /** One iteration of a batching loop that has handled windows `0..k` into `acc`:
      the slice it takes is window `k`, and window `k`'s result either ends the
      gathering with its error or is appended to `acc`. */
  lemma GatherStep<T, U>(f: seq<T> -> Result<seq<U>>, s: seq<T>, size: nat, k: nat, acc: seq<U>)
    requires size > 0 && k < |Windows(s, size)|
    requires Gather(f, Windows(s, size)) == Prepend(acc, Gather(f, Windows(s, size)[k..]))
    ensures var ws := Windows(s, size);
            && k * size < |s|
            && s[k * size..Min(k * size + size, |s|)] == ws[k]
            && (f(ws[k]).Err? ==> Gather(f, ws) == Err(f(ws[k]).error))
            && (f(ws[k]).Ok? ==> Gather(f, ws) == Prepend(acc + f(ws[k]).value, Gather(f, ws[k + 1..])))
            && (k + 1 < |ws| <==> (k + 1) * size < |s|)
  {
    var ws := Windows(s, size);
    WindowAt(s, size, k);
    NextWindowStart(s, size, k);
    assert ws[k..][0] == ws[k] && ws[k..][1..] == ws[k + 1..];
    if f(ws[k]).Ok? {
      PrependPrepend(acc, f(ws[k]).value, Gather(f, ws[k + 1..]));
    }
  }

  /** The start of window `k + 1` is inside `s` exactly when there is such a window. */
  lemma NextWindowStart<T>(s: seq<T>, size: nat, k: nat)
    requires size > 0 && k < |Windows(s, size)|
    ensures (k + 1) * size == k * size + size
    ensures k + 1 < |Windows(s, size)| <==> (k + 1) * size < |s|
  {
    var n := |Windows(s, size)|;
    WindowCount(s, size);
    if k + 1 < n {
      MulMono(k + 1, n - 1, size);
    } else {
      MulMono(n, k + 1, size);
    }
  }

  lemma MulMono(a: nat, b: nat, c: nat)
    requires a <= b
    ensures a * c <= b * c
  {
  }

  /** Before the first iteration nothing is handled; after the last, everything is. */
  lemma GatherBounds<T, U>(f: seq<T> -> Result<seq<U>>, s: seq<T>, size: nat, acc: seq<U>)
    requires size > 0
    ensures Gather(f, Windows(s, size)) == Prepend([], Gather(f, Windows(s, size)[0..]))
    ensures Prepend(acc, Gather(f, Windows(s, size)[|Windows(s, size)|..])) == Ok(acc)
    ensures 0 < |s| <==> 0 < |Windows(s, size)|
  {
    var ws := Windows(s, size);
    assert ws[0..] == ws && ws[|ws|..] == [] && acc + [] == acc;
    PrependNothing(Gather(f, ws));
    WindowCount(s, size);
  }

  /** Gathering succeeds exactly when every window's request succeeds. */
  lemma {:induction false} GatherOkIff<T, U>(f: seq<T> -> Result<seq<U>>, ws: seq<seq<T>>)
    ensures Gather(f, ws).Ok? <==> forall k :: 0 <= k < |ws| ==> f(ws[k]).Ok?
  {
    if ws != [] {
      GatherOkIff(f, ws[1..]);
      assert forall k :: 1 <= k < |ws| ==> ws[k] == ws[1..][k - 1];
    }
  }

  /** When every window returns `g` of itself, the gathered result is `g` applied
      window by window and joined in window order. */
  lemma {:induction false} GatherMap<T, U>(f: seq<T> -> Result<seq<U>>, g: seq<T> -> seq<U>, ws: seq<seq<T>>)
    requires forall k :: 0 <= k < |ws| ==> f(ws[k]) == Ok(g(ws[k]))
    ensures Gather(f, ws) == Ok(Flatten(seq(|ws|, k requires 0 <= k < |ws| => g(ws[k]))))
  {
    if ws != [] {
      GatherMap(f, g, ws[1..]);
      var gs := seq(|ws|, k requires 0 <= k < |ws| => g(ws[k]));
      assert gs[1..] == seq(|ws[1..]|, k requires 0 <= k < |ws[1..]| => g(ws[1..][k]));
    }
  }
}

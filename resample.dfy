/** Sample-rate normalisation of AudioController (audio/controller.js):
    downsample2x averages neighbouring pairs in place, and fixAudioBufferRate
    repeats it once per octave between the decoder's rate and the target rate,
    each time replacing the array by a slice of it. */
module Resample {
  import opened JsValues
  import opened Arith

  /** The number of passes of downsample2x's loop, `i < a.length / 2`:
      ceil(L / 2). */
  function Passes(length: nat): (n: nat)
    ensures 2 * n >= length && 2 * n <= length + 1
  {
    (length + 1) / 2
  }

  /** Slot i of the array after downsample2x: for i < ceil(L/2) the mean of
      the original slots 2i and 2i+1 (NaN when 2i+1 is past the end),
      otherwise the original value. */
  function DownsampledAt(s: seq<Num>, i: nat): Num
    requires i < |s|
  {
    if i < Passes(|s|) then Mean(s[2 * i], At(s, 2 * i + 1)) else s[i]
  }

  /** The whole array after downsample2x. */
  function Downsampled(s: seq<Num>): (r: seq<Num>)
    ensures |r| == |s|
  {
    seq(|s|, i requires 0 <= i < |s| => DownsampledAt(s, i))
  }

  /** For an even length every slot of the first half is the mean of its
      pair, and the second half is untouched. */
  lemma DownsampledEven(s: seq<Num>, i: nat)
    requires |s| % 2 == 0 && i < |s|
    ensures i < |s| / 2 ==> Downsampled(s)[i] == Mean(s[2 * i], s[2 * i + 1])
    ensures i >= |s| / 2 ==> Downsampled(s)[i] == s[i]
  {
  }

  /** For an odd length the last averaged slot reads past the end and becomes NaN. */
  lemma DownsampledOddLast(s: seq<Num>)
    requires |s| % 2 == 1
    ensures Downsampled(s)[|s| / 2].NaN?
  {
  }

  /** downsample2x: overwrites slot i with the mean of slots 2i and 2i+1. The
      write to slot i never precedes a read of it: every later pass reads
      slots at or after 2(i+1) > i. */
  method Downsample2x(a: array<Num>)
    modifies a
    ensures a[..] == Downsampled(old(a[..]))
  {
    ghost var s := a[..];
    var i := 0;
    // `i < a.length / 2` compares with a possibly fractional half: 2i < L
    while 2 * i < a.Length
      invariant 0 <= i <= Passes(a.Length)
      invariant forall k :: 0 <= k < i ==> a[k] == DownsampledAt(s, k)
      invariant forall k :: i <= k < a.Length ==> a[k] == s[k]
    {
      var j := 2 * i;
      // reading past the end of a typed array yields undefined, and 0.5 * undefined is NaN
      var next := if j + 1 < a.Length then a[j + 1] else NaN;
      assert Mean(a[j], next) == DownsampledAt(s, i);
      a[i] := Mean(a[j], next);
      i := i + 1;
    }
    assert forall k :: 0 <= k < a.Length ==> a[k] == Downsampled(s)[k];
  }

  /** The number of iterations of `for (i = 0; i < n; i++)` for a real n. */
  function Iterations(n: real): (k: nat)
    ensures n <= k as real
    ensures k == 0 || (k - 1) as real < n
  {
    if n <= 0.0 then 0 else -((-n).Floor)
  }

  /** One pass of fixAudioBufferRate as written: downsample, then keep the
      slice from `floor(L/2)` onwards. */
  function HalveAsWritten(s: seq<Num>): (r: seq<Num>)
    ensures |r| == |s| - |s| / 2
  {
    Downsampled(s)[|s| / 2..]
  }

  /** The body of fixAudioBufferRate's loop as written: downsample in place,
      then `a.slice(a.length / 2 | 0)`. */
  method PassAsWritten(b: array<Num>) returns (c: array<Num>)
    modifies b
    ensures fresh(c) && b[..] == Downsampled(old(b[..]))
    ensures c[..] == HalveAsWritten(old(b[..]))
  {
    Downsample2x(b);
    c := SliceFrom(b, b.Length / 2);
  }

  /** `k` passes of fixAudioBufferRate as written. */
  function RateFixedAsWritten(s: seq<Num>, k: nat): seq<Num>
    decreases k
  {
    if k == 0 then s else RateFixedAsWritten(HalveAsWritten(s), k - 1)
  }

  /** `a.slice(from)`: a fresh copy of the suffix. */
  method SliceFrom(b: array<Num>, from: nat) returns (c: array<Num>)
    requires from <= b.Length
    ensures fresh(c) && c[..] == b[from..]
  {
    c := new Num[b.Length - from](i requires 0 <= i < b.Length - from reads b => b[from + i]);
  }

  /** fixAudioBufferRate as written, for `octaves = log2(source rate / target
      rate)`: below one octave the input array is returned untouched;
      otherwise the input is downsampled in place once and every pass
      replaces the array by its upper slice. */
  method FixAudioBufferRate(a: array<Num>, octaves: real) returns (r: array<Num>)
    modifies a
    ensures octaves < 1.0 ==> r == a && a[..] == old(a[..])
    ensures octaves >= 1.0 ==> fresh(r) && a[..] == Downsampled(old(a[..]))
    ensures octaves >= 1.0 ==> r[..] == RateFixedAsWritten(old(a[..]), Iterations(octaves))
  {
    if octaves < 1.0 {
      return a;
    }
    ghost var s := a[..];
    ghost var n := Iterations(octaves);
    r := a;
    var i := 0;
    while (i as real) < octaves
      invariant 0 <= i <= n
      invariant i == 0 ==> r == a && a[..] == s
      invariant i > 0 ==> fresh(r) && a[..] == Downsampled(s)
      invariant r[..] == RateFixedAsWritten(s, i)
      decreases n - i
    {
      RateFixedAsWrittenStep(s, i, r[..]);
      r := PassAsWritten(r);
      i := i + 1;
    }
  }

  /** One more pass appends HalveAsWritten at the end of the chain. */
  lemma {:induction false} RateFixedAsWrittenStep(s: seq<Num>, k: nat, t: seq<Num>)
    requires t == RateFixedAsWritten(s, k)
    ensures RateFixedAsWritten(s, k + 1) == HalveAsWritten(t)
    decreases k
  {
    if k > 0 {
      RateFixedAsWrittenStep(HalveAsWritten(s), k - 1, t);
    }
  }

  /** As written, one pass over an even-length buffer returns its untouched
      second half: none of the averages computed by downsample2x survive. */
  lemma HalveAsWrittenKeepsUpperHalf(s: seq<Num>)
    requires |s| % 2 == 0
    ensures HalveAsWritten(s) == s[|s| / 2..]
  {
    assert forall i :: 0 <= i < |s| / 2 ==> HalveAsWritten(s)[i] == Downsampled(s)[|s| / 2 + i];
  }

  /** As written, one pass over an odd-length buffer starts with NaN. */
  lemma HalveAsWrittenOddStartsNaN(s: seq<Num>)
    requires |s| % 2 == 1
    ensures HalveAsWritten(s)[0].NaN?
  {
    DownsampledOddLast(s);
  }

  /** A buffer [x, x, y, y] at twice the target rate: as written the result
      is [y, y], the second half of the input, where the pairwise means are
      [x, y] (take x = 1, y = 3). */
  lemma {:induction false} HalveAsWrittenCounterexample(x: real, y: real)
    ensures RateFixedAsWritten([Finite(x), Finite(x), Finite(y), Finite(y)], 1)
            == [Finite(y), Finite(y)]
    ensures RateFixed([Finite(x), Finite(x), Finite(y), Finite(y)], 1)
            == [Finite(x), Finite(y)]
  {
    var s := [Finite(x), Finite(x), Finite(y), Finite(y)];
    assert RateFixedAsWritten(s, 1) == HalveAsWritten(s);
    HalveAsWrittenKeepsUpperHalf(s);
    assert s[2..] == [Finite(y), Finite(y)];
    assert RateFixed(s, 1) == Halve(s);
    var h := Halve(s);
    HalveMeans(s, 0);
    HalveMeans(s, 1);
    assert h == [Finite(x), Finite(y)];
  }

  /** One pass of the evidently intended resampling: downsample, then keep the
      averaged first half `slice(0, floor(L/2))`. */
  function Halve(s: seq<Num>): (r: seq<Num>)
    ensures |r| == |s| / 2
  {
    Downsampled(s)[..|s| / 2]
  }

  /** Every slot of an intended pass is the mean of a pair of the input. */
  lemma HalveMeans(s: seq<Num>, i: nat)
    requires i < |s| / 2
    ensures Halve(s)[i] == Mean(s[2 * i], s[2 * i + 1])
  {
  }

  /** `k` passes of the intended resampling. */
  function RateFixed(s: seq<Num>, k: nat): seq<Num>
    decreases k
  {
    if k == 0 then s else RateFixed(Halve(s), k - 1)
  }

  /** `k` intended passes leave floor(L / 2^k) samples. */
  lemma {:induction false} RateFixedLength(s: seq<Num>, k: nat)
    ensures |RateFixed(s, k)| == |s| / Pow2(k)
    decreases k
  {
    if k > 0 {
      RateFixedLength(Halve(s), k - 1);
      HalveDivision(|s|, Pow2(k - 1));
    }
  }

  /** floor(floor(L / 2) / p) == floor(L / (2p)). */
  lemma HalveDivision(n: nat, p: nat)
    requires p >= 1
    ensures (n / 2) / p == n / (2 * p)
  {
    var q, r := n / (2 * p), n % (2 * p);
    assert n == (2 * p) * q + r && 0 <= r < 2 * p;
    assert n == 2 * (p * q + r / 2) + r % 2;
    DivUnique(n, 2, p * q + r / 2, r % 2);
    assert 0 <= r / 2 < p;
    DivUnique(p * q + r / 2, p, q, r / 2);
  }

  /** One more intended pass halves the result of the previous ones. */
  lemma {:induction false} RateFixedStep(s: seq<Num>, k: nat, t: seq<Num>)
    requires t == RateFixed(s, k)
    ensures RateFixed(s, k + 1) == Halve(t)
    decreases k
  {
    if k > 0 {
      RateFixedStep(Halve(s), k - 1, t);
    }
  }

  /** fixAudioBufferRate with the averaged half kept, as evidently intended. */
  method FixAudioBufferRateIntended(a: array<Num>, octaves: real) returns (r: array<Num>)
    modifies a
    ensures octaves < 1.0 ==> r == a && a[..] == old(a[..])
    ensures octaves >= 1.0 ==> fresh(r) && a[..] == Downsampled(old(a[..]))
    ensures octaves >= 1.0 ==> r[..] == RateFixed(old(a[..]), Iterations(octaves))
  {
    if octaves < 1.0 {
      return a;
    }
    ghost var s := a[..];
    ghost var n := Iterations(octaves);
    r := a;
    var i := 0;
    while (i as real) < octaves
      invariant 0 <= i <= n
      invariant i == 0 ==> r == a && a[..] == s
      invariant i > 0 ==> fresh(r) && a[..] == Downsampled(s)
      invariant r[..] == RateFixed(s, i)
      decreases n - i
    {
      RateFixedStep(s, i, r[..]);
      r := Pass(r);
      i := i + 1;
    }
  }

  /** The evidently intended loop body: downsample in place, then keep the
      averaged prefix `a.slice(0, a.length / 2 | 0)`. */
  method Pass(b: array<Num>) returns (c: array<Num>)
    modifies b
    ensures fresh(c) && b[..] == Downsampled(old(b[..]))
    ensures c[..] == Halve(old(b[..]))
  {
    Downsample2x(b);
    c := SlicePrefix(b, b.Length / 2);
  }

  /** `a.slice(0, to)`: a fresh copy of the prefix. */
  method SlicePrefix(b: array<Num>, to: nat) returns (c: array<Num>)
    requires to <= b.Length
    ensures fresh(c) && c[..] == b[..to]
  {
    c := new Num[to](i requires 0 <= i < to reads b => b[i]);
  }
}

/** Complex samples in exact arithmetic. */
module ComplexNumbers {
  datatype Complex = Complex(re: real, im: real)

  const ZERO := Complex(0.0, 0.0)

  function Add(a: Complex, b: Complex): Complex {
    Complex(a.re + b.re, a.im + b.im)
  }

  function Sub(a: Complex, b: Complex): Complex {
    Complex(a.re - b.re, a.im - b.im)
  }

  function Mul(a: Complex, b: Complex): Complex {
    Complex(a.re * b.re - a.im * b.im, a.re * b.im + a.im * b.re)
  }
}

/**
 dspmath/filter_overlap_save.h as a streaming filter.  Transform, product with the transformed kernel, inverse
 transform and scaling are taken together as circular convolution with the kernel.
 */
module OverlapSave {
  import opened ComplexNumbers
  import opened Remainders

  /** Taps at the right hand end of the kernel, zeroes before them. */
  function Kernel(h: seq<Complex>): (k: seq<Complex>)
    requires 2 <= |h|
    ensures |k| == 2 * (|h| - 1)
  {
    seq(|h| - 2, _ => ZERO) + h
  }

  /** The first j terms of the circular convolution at n. */
  function Circular(kernel: seq<Complex>, z: seq<Complex>, n: nat, j: nat): Complex
    requires n < |z| && j <= |kernel| == |z|
  {
    if j == 0 then ZERO
    else Add(Circular(kernel, z, n, j - 1), Mul(kernel[j - 1], z[(n - (j - 1)) % |z|]))
  }

  /** The first m taps of the filter on the samples that end at `at`, with `newest` for the first of them. */
  function Filtered(h: seq<Complex>, x: seq<Complex>, at: nat, newest: Complex, m: nat): Complex
    requires m <= |h| && at < |x| && |h| <= at + 1
  {
    if m == 0 then ZERO
    else Add(Filtered(h, x, at, newest, m - 1), Mul(h[m - 1], if m == 1 then newest else x[at - (m - 1)]))
  }

  /** Linear convolution: what the filter should put out at sample `at`. */
  function Convolved(h: seq<Complex>, x: seq<Complex>, at: nat): Complex
    requires at < |x| && |h| <= at + 1
  {
    Filtered(h, x, at, if h == [] then ZERO else x[at], |h|)
  }

  // ---- circular convolution with this kernel is the filter, up to the wrapped tap ----

  /** Where tap k of output n finds its sample. */
  function TapIndex(length: nat, n: nat, k: nat): int
    requires 0 < length && n < length && k <= length
  {
    if n == length - 1 && k == 0 then 0 else n + length + 1 - k
  }

  lemma TapWraps(length: nat, n: nat, k: nat)
    requires 2 <= length && n < length && k <= length
    ensures (n - (length - 1 + k)) % (2 * length) == TapIndex(length, n, k)
  {
    if n != length - 1 || k != 0 {
      WrapOnce(n - (length - 1 + k), 2 * length);
    }
  }

  lemma WrapOnce(i: int, size: int)
    requires 0 < size && -size <= i < 0
    ensures i % size == i + size
  {
  }

  lemma AddZero(a: Complex, b: Complex)
    ensures Add(a, Mul(ZERO, b)) == a
  {
  }

  lemma {:induction false} ZeroesAddNothing(h: seq<Complex>, z: seq<Complex>, n: nat, j: nat)
    requires 3 <= |h| && |z| == 2 * (|h| - 1) && n < |z| && j <= |h| - 2
    ensures Circular(Kernel(h), z, n, j) == ZERO
  {
    if j > 0 {
      ZeroesAddNothing(h, z, n, j - 1);
      AddZero(ZERO, z[(n - (j - 1)) % |z|]);
    }
  }

  /** The sample that the first tap of output n meets: the oldest in the buffer if it wraps. */
  function Newest(x: seq<Complex>, length: nat, at: nat, n: nat): Complex
    requires at < |x| && (n == length - 1 ==> 2 * length <= at)
  {
    if n == length - 1 then x[at - 2 * length] else x[at]
  }

  /** Tap k meets the sample k before the one the filter is at, unless it wraps. */
  lemma TapMeets(h: seq<Complex>, x: seq<Complex>, first: nat, n: nat, k: nat)
    requires var length := |h| - 1;
      2 <= length && n < length && k <= length && first + 2 * length <= |x| && first + n + length + 1 < |x|
    ensures var z, j := x[first..first + 2 * (|h| - 1)], |h| - 2 + k;
      && Kernel(h)[j] == h[k]
      && z[(n - j) % |z|] == if k == 0 then x[first + TapIndex(|h| - 1, n, 0)] else x[first + n + |h| - k]
  {
    TapWraps(|h| - 1, n, k);
  }

  /** The buffer of two blocks, filtered; `first` is where it begins in the stream. */
  lemma {:induction false} CircularIsFiltered(h: seq<Complex>, x: seq<Complex>, first: nat, n: nat, newest: Complex,
                                              m: nat)
    requires var length := |h| - 1;
      && 2 <= length && n < length && m <= |h|
      && first + 2 * length <= |x| && first + n + length + 1 < |x|
      && newest == x[first + TapIndex(length, n, 0)]
    ensures var z := x[first..first + 2 * (|h| - 1)];
      Circular(Kernel(h), z, n, |h| - 2 + m) == Filtered(h, x, first + n + |h|, newest, m)
  {
    var length, z := |h| - 1, x[first..first + 2 * (|h| - 1)];
    if m == 0 {
      ZeroesAddNothing(h, z, n, |h| - 2);
    } else {
      CircularIsFiltered(h, x, first, n, newest, m - 1);
      TapMeets(h, x, first, n, m - 1);
    }
  }

  /** The sample that the filter is at when F samples have been fed, L-2 behind the newest. */
  function At(length: nat, fed: nat): nat
    requires length <= fed + 1
  {
    fed + 1 - length
  }

  /** What comes out with the F-th sample, once two blocks have been fed. */
  function Due(h: seq<Complex>, fed: seq<Complex>): Complex
    requires 3 <= |h| && 2 * (|h| - 1) <= |fed|
  {
    var length := |h| - 1;
    var at := At(length, |fed|);
    LastOfBlock(length, |fed|);
    Filtered(h, fed, at, Newest(fed, length, at, |fed| % length), |h|)
  }

  lemma LastOfBlock(length: nat, fed: nat)
    requires 2 <= length && 2 * length <= fed
    ensures fed % length == length - 1 ==> 3 * length - 1 <= fed
  {
    if fed < 3 * length - 1 {
      assert fed == 2 * length + (fed - 2 * length);
      ModOf(2, fed - 2 * length, length);
    }
  }

  class Filter {
    const h: seq<Complex>
    const length: nat
    const zinput: array<Complex>
    const zoutput: array<Complex>
    var inputIndex: nat
    var outputIndex: nat
    // all the samples so far, and how many of them are in whole blocks
    ghost var fed: seq<Complex>
    ghost var start: nat

    ghost predicate Buffered()
      reads this, zinput, zoutput
    {
      && 2 <= length && |h| == length + 1
      && zinput.Length == zoutput.Length == 2 * length && zinput != zoutput
      && Buffers(h, zinput[..], zoutput[..], inputIndex, fed, start)
    }

    ghost predicate Valid()
      reads this, zinput, zoutput
    {
      Buffered() && inputIndex < 2 * length && outputIndex == inputIndex - length + if start == 0 then 0 else 1
    }

    constructor (h: seq<Complex>)
      requires 3 <= |h|
      ensures Valid() && this.h == h && fed == []
    {
      this.h := h;
      length := |h| - 1;
      zinput := new Complex[2 * (|h| - 1)](_ => ZERO);
      zoutput := new Complex[2 * (|h| - 1)](_ => ZERO);
      inputIndex, outputIndex := |h| - 1, 0;
      fed, start := [], 0;
      new;
      ModOf(0, 0, length);
    }

    /** One sample in, one out: from two whole blocks on, the filter with the wrapped tap. */
    method Process(x: Complex) returns (y: Complex)
      requires Valid()
      modifies this, zinput, zoutput
      ensures Valid() && fed == old(fed) + [x]
      ensures 2 * length <= |fed| ==> y == Due(h, fed)
    {
      Store(x);
      if inputIndex == 2 * length {
        EndBlock();
      }
      y := Emit();
    }

    method Emit() returns (y: Complex)
      requires Buffered() && inputIndex < 2 * length
      requires outputIndex + 1 == inputIndex - length + if start == 0 then 0 else 1
      modifies `outputIndex
      ensures Valid()
      ensures 2 * length <= |fed| ==> y == Due(h, fed)
    {
      y := zoutput[outputIndex];
      if start > length {
        DueAtOutput(h, fed, start, outputIndex, zoutput[..]);
      }
      outputIndex := outputIndex + 1;
    }

    method Store(x: Complex)
      requires Valid()
      modifies `inputIndex, `fed, zinput
      ensures Buffered() && inputIndex == old(inputIndex) + 1 && fed == old(fed) + [x]
    {
      StoreKeeps(h, zinput[..], zoutput[..], inputIndex, fed, start, x);
      zinput[inputIndex] := x;
      inputIndex := inputIndex + 1;
      fed := fed + [x];
    }

    /** Convolve the two blocks, and keep the newer one as the older of the next two. */
    method EndBlock()
      requires Buffered() && inputIndex == 2 * length
      modifies `inputIndex, `outputIndex, `start, zinput, zoutput
      ensures Buffered() && start == old(start) + length && inputIndex == length && outputIndex == 0
    {
      ghost var z, out := zinput[..], zoutput[..];
      Transform();
      ghost var out' := zoutput[..];
      Shift();
      inputIndex, outputIndex := length, 0;
      start := start + length;
      assert zoutput[..] == out';
      BlockKeeps(h, z, out, fed, old(start), zinput[..], out');
    }

    method Shift()
      requires zinput.Length == 2 * length
      modifies zinput
      ensures zinput[..length] == old(zinput[..])[length..]
    {
      ghost var newer := zinput[length..];
      for i := 0 to length
        invariant zinput[length..] == newer && zinput[..i] == newer[..i]
      {
        zinput[i] := zinput[length + i];
        assert zinput[..i + 1] == zinput[..i] + [newer[i]];
      }
    }

    method Transform()
      requires 2 <= length && |h| == length + 1 && zinput.Length == zoutput.Length == 2 * length && zinput != zoutput
      modifies zoutput
      ensures IsConvolved(h, zoutput[..], zinput[..])
    {
      var kernel := Kernel(h);
      for n := 0 to 2 * length
        invariant forall k :: 0 <= k < n ==> zoutput[k] == Circular(kernel, zinput[..], k, 2 * length)
      {
        zoutput[n] := Circular(kernel, zinput[..], n, 2 * length);
      }
    }
  }

  /** The block coming in, the block before it, and the last two whole blocks convolved. */
  ghost predicate Buffers(h: seq<Complex>, z: seq<Complex>, out: seq<Complex>, inputIndex: nat, fed: seq<Complex>,
                          start: nat) {
    && 3 <= |h| && |z| == |out| == 2 * (|h| - 1) && WholeBlocks(start, |h| - 1)
    && |h| - 1 <= inputIndex <= |z| && |fed| == start + inputIndex - (|h| - 1)
    && z[|h| - 1..inputIndex] == fed[start..]
    && (start > 0 ==> z[..|h| - 1] == fed[start - (|h| - 1)..start])
    && (start > |h| - 1 ==> IsConvolved(h, out, fed[start - 2 * (|h| - 1)..start]))
  }

  lemma StoreKeeps(h: seq<Complex>, z: seq<Complex>, out: seq<Complex>, inputIndex: nat, fed: seq<Complex>,
                   start: nat, x: Complex)
    requires Buffers(h, z, out, inputIndex, fed, start) && inputIndex < |z|
    ensures Buffers(h, z[inputIndex := x], out, inputIndex + 1, fed + [x], start)
  {
    var z', fed', length := z[inputIndex := x], fed + [x], |h| - 1;
    assert z'[length..inputIndex + 1] == z[length..inputIndex] + [x];
    assert fed'[start..] == fed[start..] + [x];
    assert z'[..length] == z[..length];
    assert start > 0 ==> fed'[start - length..start] == fed[start - length..start];
    assert start > length ==> fed'[start - 2 * length..start] == fed[start - 2 * length..start];
  }

  lemma BlockKeeps(h: seq<Complex>, z: seq<Complex>, out: seq<Complex>, fed: seq<Complex>, start: nat,
                   z': seq<Complex>, out': seq<Complex>)
    requires Buffers(h, z, out, |z|, fed, start) && IsConvolved(h, out', z)
    requires |z'| == |z| && z'[..|h| - 1] == z[|h| - 1..]
    ensures Buffers(h, z', out', |h| - 1, fed, start + |h| - 1)
  {
    var length := |h| - 1;
    NextBlock(start, length);
    assert z[length..|z|] == z[length..];
    assert fed[start..] == fed[start..start + length];
    if start > 0 {
      assert z == z[..length] + z[length..];
      assert fed[start - length..start + length] == fed[start - length..start] + fed[start..];
    }
  }

  ghost predicate IsConvolved(h: seq<Complex>, out: seq<Complex>, z: seq<Complex>)
    requires 3 <= |h|
  {
    |out| == |z| == 2 * (|h| - 1) && forall n :: 0 <= n < |z| ==> out[n] == Circular(Kernel(h), z, n, |z|)
  }

  /** So many samples make whole blocks. */
  ghost predicate WholeBlocks(start: nat, length: nat) {
    0 < length && start % length == 0 && (start > 0 ==> length <= start) && (start > length ==> 2 * length <= start)
  }

  lemma NextBlock(start: nat, length: nat)
    requires WholeBlocks(start, length)
    ensures WholeBlocks(start + length, length)
  {
    var q := start / length;
    assert start + length == (q + 1) * length + 0;
    ModOf(q + 1, 0, length);
  }

  lemma RestOfBlocks(start: nat, length: nat, n: nat)
    requires WholeBlocks(start, length) && n < length
    ensures (start + n) % length == n
  {
    var q := start / length;
    assert start + n == q * length + n;
    ModOf(q, n, length);
  }

  /** Output n after the whole blocks is what is due. */
  lemma DueAtOutput(h: seq<Complex>, fed: seq<Complex>, start: nat, n: nat, out: seq<Complex>)
    requires 3 <= |h| && WholeBlocks(start, |h| - 1) && start > |h| - 1
    requires n < |h| - 1 && |fed| == start + n
    requires IsConvolved(h, out, fed[start - 2 * (|h| - 1)..start])
    ensures out[n] == Due(h, fed)
  {
    var length := |h| - 1;
    RestOfBlocks(start, length, n);
    LastOfBlock(length, |fed|);
    CircularIsFiltered(h, fed, start - 2 * length, n, fed[start - 2 * length + TapIndex(length, n, 0)], |h|);
  }

  // ---- how far that is from linear convolution ----

  /** Only the last output of each block differs, by its first tap. */
  lemma {:induction false} OffByOneTap(h: seq<Complex>, x: seq<Complex>, at: nat, a: Complex, b: Complex, m: nat)
    requires 0 < m <= |h| && at < |x| && |h| <= at + 1
    ensures Sub(Filtered(h, x, at, a, m), Filtered(h, x, at, b, m)) == Sub(Mul(h[0], a), Mul(h[0], b))
  {
    if m == 1 {
      assert Filtered(h, x, at, a, 0) == Filtered(h, x, at, b, 0) == ZERO;
    } else {
      OffByOneTap(h, x, at, a, b, m - 1);
      SubAdd(Filtered(h, x, at, a, m - 1), Filtered(h, x, at, b, m - 1), Mul(h[m - 1], x[at - (m - 1)]));
    }
  }

  lemma SubAdd(a: Complex, b: Complex, c: Complex)
    ensures Sub(Add(a, c), Add(b, c)) == Sub(a, b)
  {
  }

  /**
   The stream that comes out is the linear convolution of the stream that went in, except that the last output
   of each block has a sample two blocks older under its first tap.
   */
  lemma StreamIsConvolution(h: seq<Complex>, fed: seq<Complex>)
    requires 3 <= |h| && 2 * (|h| - 1) <= |fed|
    ensures var length := |h| - 1;
      var at := At(length, |fed|);
      && (|fed| % length != length - 1 ==> Due(h, fed) == Convolved(h, fed, at))
      && (|fed| % length == length - 1 ==> 2 * length <= at)
      && (|fed| % length == length - 1 ==>
            Sub(Due(h, fed), Convolved(h, fed, at)) == Sub(Mul(h[0], fed[at - 2 * length]), Mul(h[0], fed[at])))
  {
    var length := |h| - 1;
    var at := At(length, |fed|);
    LastOfBlock(length, |fed|);
    OffByOneTap(h, fed, at, Newest(fed, length, at, |fed| % length), fed[at], |h|);
  }

  /** So the last output of a block is right exactly when its first tap is zero or the two samples are equal. */
  lemma LastOutputRightIff(h: seq<Complex>, fed: seq<Complex>)
    requires 3 <= |h| && 2 * (|h| - 1) <= |fed| && |fed| % (|h| - 1) == |h| - 2
    ensures var length := |h| - 1;
      var at := At(length, |fed|);
      && 2 * length <= at
      && (Due(h, fed) == Convolved(h, fed, at) <==> h[0] == ZERO || fed[at - 2 * length] == fed[at])
  {
    var length := |h| - 1;
    var at := At(length, |fed|);
    StreamIsConvolution(h, fed);
    ProductDiffers(h[0], fed[at - 2 * length], fed[at]);
    SubZero(Due(h, fed), Convolved(h, fed, at));
  }

  lemma SubZero(a: Complex, b: Complex)
    ensures Sub(a, b) == ZERO <==> a == b
  {
  }

  lemma ProductDiffers(h: Complex, a: Complex, b: Complex)
    ensures Sub(Mul(h, a), Mul(h, b)) == ZERO <==> h == ZERO || a == b
  {
    var d := Sub(a, b);
    assert Sub(Mul(h, a), Mul(h, b)) == Mul(h, d);
    ProductZero(h, d);
    SubZero(a, b);
  }

  lemma ProductZero(h: Complex, d: Complex)
    ensures Mul(h, d) == ZERO <==> h == ZERO || d == ZERO
  {
    if Mul(h, d) == ZERO {
      if h.re != 0.0 {
        OtherFactor(h.re, h.im, d.re, d.im);
      } else if h.im != 0.0 {
        OtherFactor(h.im, -h.re, d.re, d.im);
      }
    }
  }

  lemma OtherFactor(a: real, b: real, x: real, y: real)
    requires a * x - b * y == 0.0 && a * y + b * x == 0.0 && a != 0.0
    ensures x == 0.0 && y == 0.0
  {
    var r := Ratio(a, b, x, y);
    assert a * y == b * (-x);
    var r' := Ratio(a, b, y, -x);
    assert x == r * y && y == r * (-x) == -(r * x);
    SameSign(r, x);
    assert x == -(r * (r * x));
  }

  lemma Ratio(a: real, b: real, x: real, y: real) returns (r: real)
    requires a != 0.0 && a * x == b * y
    ensures r == b / a && x == r * y
  {
    r := b / a;
    assert b == a * r;
    assert b * y == a * (r * y);
    assert a * (x - r * y) == 0.0;
  }

  lemma SameSign(r: real, x: real)
    ensures 0.0 <= x ==> 0.0 <= r * (r * x)
    ensures x <= 0.0 ==> r * (r * x) <= 0.0
  {
    var w := r * x;
    if 0.0 <= x {
      assert if 0.0 <= r then 0.0 <= w else w <= 0.0;
      assert 0.0 <= r * w;
    } else {
      assert if 0.0 <= r then w <= 0.0 else 0.0 <= w;
      assert r * w <= 0.0;
    }
  }
}

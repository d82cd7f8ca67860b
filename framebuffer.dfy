/** GpuFrameBuffer (webgl/framebuffer.js): a float texture of width x height
    texels with 1 to 4 channels, optionally bound to a CPU array that is
    re-uploaded whenever the buffer is attached to a texture unit. The GPU
    side is abstract: the texture is the sequence of its stored components
    (`channels` per texel, texel by texel), and every GL call the buffer makes
    that changes or reads it is appended to a log. */
module FrameBuffer {
  import opened JsValues
  import opened Arith

  /** The limits checkBufferSize compares against: FBO_MAX_SIZE (the log2 of
      the largest element count) and the context's MAX_TEXTURE_SIZE. */
  datatype Limits = Limits(fboMaxSize: nat, maxTextureSize: int)

  /** The `source` option: absent or another falsy value, a Float32Array, or
      any other truthy value. */
  datatype SourceArg = NoSource | Float32Source(data: array<Num>) | OtherSource

  /** The constructor's options. A size, width or height of 0 stands for an
      absent one (both are falsy). */
  datatype FbOptions = FbOptions(size: nat, width: nat, height: nat, channels: nat, source: SourceArg)

  datatype Dims = Dims(width: nat, height: nat)

  /** The errors the buffer throws. */
  datatype FbError =
    | NotFloat32Source
    | SizeAndDimensions
    | TooLarge
    | InvalidOutputLength(length: nat)

  /** The GL calls that move texture data, as the buffer issues them. */
  datatype GlCall =
    | BindTexture(unit: int)        // activeTexture(TEXTURE0 + unit) + bindTexture
    | TexImage(data: seq<Num>)      // texImage2D of a full staging array
    | ReadPixels(x: int, y: int, width: nat, height: nat)
    | DeleteTexture

  /** The constructor's checks in order: the source type, then size against
      width/height, then checkBufferSize on the settled dimensions. A size
      sets both sides; a limit reached exactly is accepted. */
  function CheckOptions(o: FbOptions, limits: Limits): (r: Result<Dims, FbError>)
    ensures o.source.OtherSource? ==> r == Err(NotFloat32Source)
    ensures !o.source.OtherSource? && o.size != 0 && (o.width != 0 || o.height != 0)
            ==> r == Err(SizeAndDimensions)
    ensures r.Ok? ==> r.value == (if o.size != 0 then Dims(o.size, o.size) else Dims(o.width, o.height))
    ensures r.Ok? || r.error != TooLarge ==>
              !(r.Ok? && r.value.width * r.value.height * o.channels > Pow2(limits.fboMaxSize))
    ensures !o.source.OtherSource? && !(o.size != 0 && (o.width != 0 || o.height != 0)) ==>
              var d := if o.size != 0 then Dims(o.size, o.size) else Dims(o.width, o.height);
              (r == Err(TooLarge) <==>
                 d.width * d.height * o.channels > Pow2(limits.fboMaxSize)
                 || Max(d.width, d.height) > limits.maxTextureSize)
  {
    if o.source.OtherSource? then Err(NotFloat32Source)
    else if o.size != 0 && (o.width != 0 || o.height != 0) then Err(SizeAndDimensions)
    else
      var d := if o.size != 0 then Dims(o.size, o.size) else Dims(o.width, o.height);
      if d.width * d.height * o.channels > Pow2(limits.fboMaxSize)
         || Max(d.width, d.height) > limits.maxTextureSize
      then Err(TooLarge)
      else Ok(d)
  }

  /** A square buffer that meets both limits exactly is accepted. */
  lemma CheckAtLimits(size: nat, channels: nat, limits: Limits)
    requires size >= 1
    requires size * size * channels == Pow2(limits.fboMaxSize)
    requires size == limits.maxTextureSize
    ensures CheckOptions(FbOptions(size, 0, 0, channels, NoSource), limits) == Ok(Dims(size, size))
  {
  }

  /** The staging array of upload: exactly `cap` elements, the first ones
      copied from the source and the rest zero. */
  function Staged(s: seq<Num>, cap: nat): (r: seq<Num>)
    ensures |r| == cap
  {
    seq(cap, k requires 0 <= k < cap => if k < |s| then s[k] else Finite(0.0))
  }

  /** An exact-length source is uploaded as it is. */
  lemma StagedExact(s: seq<Num>)
    ensures Staged(s, |s|) == s
  {
  }

  /** Staging keeps the common prefix and zero-fills the rest. */
  lemma StagedContents(s: seq<Num>, cap: nat, k: nat)
    requires k < cap
    ensures k < |s| ==> Staged(s, cap)[k] == s[k]
    ensures k >= |s| ==> Staged(s, cap)[k] == Finite(0.0)
  {
  }

  /** Staging is idempotent: re-staging a staged array changes nothing. */
  lemma {:induction false} StagedIdempotent(s: seq<Num>, cap: nat)
    ensures Staged(Staged(s, cap), cap) == Staged(s, cap)
  {
    StagedExact(Staged(s, cap));
  }

  /** Texel data as readPixels returns it in RGBA: the stored components in
      the first `ch` slots, and the defaults 0, 0, 1 for missing G, B, A. */
  function Rgba(t: seq<Num>, ch: nat, texels: nat): (r: seq<Num>)
    ensures |r| == texels * 4
  {
    seq(texels * 4, k requires 0 <= k < texels * 4 =>
      var c := k % 4;
      if c < ch then At(t, (k / 4) * ch + c)
      else if c == 3 then Finite(1.0)
      else Finite(0.0))
  }

  /** readPixels(x, y, w, h, RGBA, FLOAT, buf) of a W x H texture: pixel p of
      the rectangle (row p / w, column p % w, counted from (x, y)) lands at
      buf[4p .. 4p + 4]. Pixels outside the texture leave buf untouched, and
      a buffer too small for the rectangle is not written at all. */
  function ReadPixelsInto(buf: seq<Num>, rgba: seq<Num>, W: nat, H: nat,
                          x: int, y: int, w: nat, h: nat): (r: seq<Num>)
    ensures |r| == |buf|
  {
    if w == 0 || w * h * 4 > |buf| then buf
    else
      seq(|buf|, k requires 0 <= k < |buf| =>
        if k < w * h * 4 then
          var p, c := k / 4, k % 4;
          var row, col := y + p / w, x + p % w;
          if 0 <= row < H && 0 <= col < W then At(rgba, (row * W + col) * 4 + c) else buf[k]
        else buf[k])
  }

  /** Output slot k of download's de-interleave loop: component k % ch of
      pixel k / ch of the RGBA staging buffer (NaN past its end). */
  function Component(tb: seq<Num>, ch: nat, k: nat): Num
    requires ch >= 1
  {
    At(tb, (k / ch) * 4 + k % ch)
  }

  /** The output of download for `texels` pixels. */
  function Deinterleave(tb: seq<Num>, ch: nat, texels: nat): (r: seq<Num>)
    requires ch >= 1
    ensures |r| == texels * ch
  {
    seq(texels * ch, k requires 0 <= k < texels * ch => Component(tb, ch, k))
  }

  /** The loop writes `output[i * ch + j] = tempbuf[i * 4 + j]`. */
  lemma ComponentAt(tb: seq<Num>, ch: nat, i: nat, j: nat)
    requires 1 <= ch && j < ch
    ensures Component(tb, ch, i * ch + j) == At(tb, i * 4 + j)
  {
    DivModOf(i, ch, j);
  }

  /** Reading the whole texture with a buffer of the right size returns every
      pixel in order. */
  lemma {:induction false} ReadAll(buf: seq<Num>, rgba: seq<Num>, W: nat, H: nat)
    requires |buf| == W * H * 4 && |rgba| == W * H * 4
    ensures ReadPixelsInto(buf, rgba, W, H, 0, 0, W, H) == rgba
  {
    if W == 0 {
      return;
    }
    var r := ReadPixelsInto(buf, rgba, W, H, 0, 0, W, H);
    forall k | 0 <= k < |buf|
      ensures r[k] == rgba[k]
    {
      PixelOf(k, W, H);
    }
  }

  /** Slot k of a W x H RGBA image read from (0, 0) is pixel (row, column)
      = ((k / 4) / W, (k / 4) % W), component k % 4, and that pixel lies
      inside the image. */
  lemma PixelOf(k: nat, W: nat, H: nat)
    requires W >= 1 && k < W * H * 4
    ensures 0 <= (k / 4) / W < H && 0 <= (k / 4) % W < W
    ensures (((k / 4) / W) * W + (k / 4) % W) * 4 + k % 4 == k
  {
    var p := k / 4;
    QuotientBelow(k, W * H, 4);
    QuotientBelow(p, H, W);
    assert (p / W) * W + p % W == p;
    assert p * 4 + k % 4 == k;
  }

  /** De-interleaving the RGBA image of stored data gives the data back. */
  lemma {:induction false} DeinterleaveRgba(t: seq<Num>, ch: nat, n: nat)
    requires 1 <= ch <= 4 && |t| == n * ch
    ensures Deinterleave(Rgba(t, ch, n), ch, n) == t
  {
    var rgba := Rgba(t, ch, n);
    var d := Deinterleave(rgba, ch, n);
    forall k | 0 <= k < |t|
      ensures d[k] == t[k]
    {
      var q, c := k / ch, k % ch;
      QuotientBelow(k, n, ch);
      SlotBelow(q, n, 4, c);
      DivModOf(q, 4, c);
      assert q * ch + c == k;
    }
  }

  /** Round trip: an upload of exactly `cap` values followed by a download of
      the whole texture returns those values, whatever the staging buffer
      held before. */
  lemma {:induction false} UploadDownload(s: seq<Num>, buf: seq<Num>, W: nat, H: nat, ch: nat)
    requires 1 <= ch <= 4 && |s| == W * H * ch && |buf| == W * H * 4
    ensures Deinterleave(ReadPixelsInto(buf, Rgba(Staged(s, |s|), ch, W * H), W, H, 0, 0, W, H), ch, W * H) == s
  {
    StagedExact(s);
    ReadAll(buf, Rgba(s, ch, W * H), W, H);
    DeinterleaveRgba(s, ch, W * H);
  }

  class GpuFrameBuffer {
    const width: nat
    const height: nat
    const channels: nat
    /** The Float32Array the buffer is bound to, if any. */
    const source: Option<array<Num>>
    /** Whether createTexture returned a texture. */
    const hasTexture: bool

    /** The texture contents: `channels` components per texel. */
    var texels: seq<Num>
    /** The RGBA staging array download allocates once and reuses. */
    var tempbuf: array?<Num>
    var glLog: seq<GlCall>

    predicate Valid()
      reads this
    {
      1 <= channels <= 4 && |texels| == Capacity()
      && (tempbuf != null ==> tempbuf.Length == width * height * 4)
    }

    /** The number of floats the texture stores. */
    function Capacity(): nat
    {
      width * height * channels
    }

    /** The RGBA image readPixels sees. */
    function Image(): seq<Num>
      reads this
    {
      Rgba(texels, channels, width * height)
    }

    /** The buffer after prepareFBO and clear: a zero texture. */
    constructor(d: Dims, channels: nat, source: Option<array<Num>>, hasTexture: bool)
      requires 1 <= channels <= 4
      ensures Valid()
      ensures width == d.width && height == d.height && this.channels == channels
      ensures this.source == source && this.hasTexture == hasTexture
      ensures texels == Staged([], Capacity()) && tempbuf == null && glLog == []
    {
      width, height := d.width, d.height;
      this.channels := channels;
      this.source := source;
      this.hasTexture := hasTexture;
      texels := Staged([], d.width * d.height * channels);
      tempbuf := null;
      glLog := [];
    }

    /** new GpuFrameBuffer(webgl, options): throws what CheckOptions reports,
        and otherwise yields a cleared buffer of the settled dimensions. The
        channel count must be one the context has a texture format for. */
    static method Create(o: FbOptions, limits: Limits, textureCreated: bool)
      returns (r: Result<GpuFrameBuffer, FbError>)
      requires 1 <= o.channels <= 4
      ensures CheckOptions(o, limits).Err? ==> r == Err(CheckOptions(o, limits).error)
      ensures CheckOptions(o, limits).Ok? ==>
                r.Ok? && fresh(r.value) && r.value.Valid()
                && Dims(r.value.width, r.value.height) == CheckOptions(o, limits).value
                && r.value.channels == o.channels
                && r.value.source == (if o.source.Float32Source? then Some(o.source.data) else None)
                && r.value.hasTexture == textureCreated
                && r.value.texels == Staged([], r.value.Capacity()) && r.value.glLog == []
    {
      if o.source.OtherSource? {
        return Err(NotFloat32Source);
      }
      if o.size != 0 && (o.width != 0 || o.height != 0) {
        return Err(SizeAndDimensions);
      }
      var width, height := o.width, o.height;
      if o.size != 0 {
        width, height := o.size, o.size;
      }
      var count := width * height * o.channels;
      if count > Pow2(limits.fboMaxSize) || Max(width, height) > limits.maxTextureSize {
        return Err(TooLarge);
      }
      var source := if o.source.Float32Source? then Some(o.source.data) else None;
      var fb := new GpuFrameBuffer(Dims(width, height), o.channels, source, textureCreated);
      return Ok(fb);
    }

    /** destroy(): deletes the texture if there is one. */
    method Destroy()
      modifies this
      ensures glLog == old(glLog) + (if hasTexture then [DeleteTexture] else [])
      ensures texels == old(texels) && tempbuf == old(tempbuf)
    {
      if hasTexture {
        glLog := glLog + [DeleteTexture];
      }
    }

    /** upload(source): pads with zeros or truncates to exactly Capacity()
        values in a new staging array (an exact-length source is used as it
        is) and makes them the texture contents. The caller's array is only
        read. */
    /** A draw into this buffer (GpuProgram.blit): the fragment shader's
        output, one value per stored component, becomes the texture. */
    method Render(image: seq<Num>)
      requires Valid() && |image| == Capacity()
      modifies this
      ensures Valid()
      ensures texels == image
      ensures glLog == old(glLog) && tempbuf == old(tempbuf)
    {
      texels := image;
    }

    method Upload(src: array<Num>)
      requires Valid()
      modifies this
      ensures Valid()
      ensures texels == Staged(old(src[..]), Capacity())
      ensures glLog == old(glLog) + [TexImage(texels)]
      ensures tempbuf == old(tempbuf) && src[..] == old(src[..])
    {
      var cap := width * height * channels;
      var data := src;
      if src.Length != cap {
        var temp := new Num[cap](_ => Finite(0.0));
        var n := Min(src.Length, cap);
        var k := 0;
        while k < n
          modifies temp
          invariant 0 <= k <= n
          invariant forall m :: 0 <= m < k ==> temp[m] == src[m]
          invariant forall m :: k <= m < cap ==> temp[m] == Finite(0.0)
        {
          temp[k] := src[k];
          k := k + 1;
        }
        data := temp;
      } else {
        StagedExact(src[..]);
      }
      texels := data[..];
      glLog := glLog + [TexImage(texels)];
    }

    /** attach(id): binds the texture to unit `id`, re-uploads the bound
        source array if there is one, and returns `id`. */
    method Attach(id: int) returns (unit: int)
      requires Valid()
      modifies this
      ensures Valid()
      ensures unit == id
      ensures source.None? ==> texels == old(texels) && glLog == old(glLog) + [BindTexture(id)]
      ensures source.Some? ==>
                texels == Staged(old(source.value[..]), Capacity())
                && glLog == old(glLog) + [BindTexture(id), TexImage(texels)]
      ensures tempbuf == old(tempbuf)
    {
      glLog := glLog + [BindTexture(id)];
      if source.Some? {
        Upload(source.value);
      }
      return id;
    }

    /** download(output, x, y, w, h): an output (a fresh zero array of
        Capacity() when none is given) whose length is not w * h * channels
        is refused; otherwise the rectangle is read in RGBA into the staging
        array, allocated on first use, and its first `channels` components
        per pixel are copied into the output, which is returned. */
    method Download(output: array?<Num>, x: int, y: int, w: nat, h: nat)
      returns (r: Result<array<Num>, FbError>)
      requires Valid()
      requires output != null ==> output != tempbuf
      modifies this, output, tempbuf
      ensures Valid()
      ensures texels == old(texels)
      ensures output != null && output.Length != w * h * channels ==>
                r == Err(InvalidOutputLength(output.Length)) && glLog == old(glLog)
      ensures output == null && Capacity() != w * h * channels ==>
                r == Err(InvalidOutputLength(Capacity())) && glLog == old(glLog)
      ensures r.Ok? ==>
                (output != null ==> r.value == output) && (output == null ==> fresh(r.value))
                && tempbuf != null
                && tempbuf[..] == ReadPixelsInto(if old(tempbuf) == null then Staged([], width * height * 4)
                                                 else old(tempbuf[..]),
                                                 Image(), width, height, x, y, w, h)
                && r.value[..] == Deinterleave(tempbuf[..], channels, w * h)
                && glLog == old(glLog) + [ReadPixels(x, y, w, h)]
      ensures r.Ok? <==> (if output == null then Capacity() else output.Length) == w * h * channels
      // the staging array is allocated on the first successful call and reused afterwards
      ensures old(tempbuf) != null ==> tempbuf == old(tempbuf)
      ensures old(tempbuf) == null && r.Ok? ==> fresh(tempbuf)
      // a refused call touches neither the staging array nor the output
      ensures r.Err? ==>
                tempbuf == old(tempbuf)
                && (old(tempbuf) != null ==> tempbuf[..] == old(tempbuf[..]))
                && (output != null ==> output[..] == old(output[..]))
    {
      var out: array<Num>;
      if output == null {
        out := new Num[width * height * channels](_ => Finite(0.0));
      } else {
        out := output;
      }
      if out.Length != w * h * channels {
        return Err(InvalidOutputLength(out.Length));
      }
      if tempbuf == null {
        tempbuf := new Num[width * height * 4](_ => Finite(0.0));
        assert tempbuf[..] == Staged([], width * height * 4);
      }
      glLog := glLog + [ReadPixels(x, y, w, h)];
      var tb := ReadPixelsInto(tempbuf[..], Image(), width, height, x, y, w, h);
      forall k | 0 <= k < tempbuf.Length {
        tempbuf[k] := tb[k];
      }
      assert tempbuf[..] == tb;
      CopyChannels(tempbuf, out, channels, w * h);
      return Ok(out);
    }
  }

  /** The de-interleave loop of download: for every pixel i < n and channel
      j < ch, `output[i * ch + j] = tempbuf[i * 4 + j]`, which covers every
      slot of the output. */
  method CopyChannels(tempbuf: array<Num>, out: array<Num>, ch: nat, n: nat)
    requires 1 <= ch && out.Length == n * ch && out != tempbuf
    modifies out
    ensures out[..] == Deinterleave(tempbuf[..], ch, n)
  {
    ghost var tb := tempbuf[..];
    var i := 0;
    while i < n
      invariant 0 <= i <= n && i * ch <= out.Length
      invariant forall k :: 0 <= k < i * ch ==> out[k] == Component(tb, ch, k)
    {
      var j := 0;
      while j < ch
        invariant 0 <= j <= ch && i * ch + j <= out.Length
        invariant forall k :: 0 <= k < i * ch + j ==> out[k] == Component(tb, ch, k)
      {
        SlotBelow(i, n, ch, j);
        ComponentAt(tb, ch, i, j);
        // past the end of the staging array the read yields undefined, stored as NaN
        out[i * ch + j] := if i * 4 + j < tempbuf.Length then tempbuf[i * 4 + j] else NaN;
        j := j + 1;
      }
      assert i * ch + ch == (i + 1) * ch;
      i := i + 1;
    }
    assert forall k :: 0 <= k < out.Length ==> out[k] == Deinterleave(tb, ch, n)[k];
  }

  /** The round trip on the object: attaching a buffer whose bound source
      holds exactly Capacity() values and then downloading the whole texture
      yields those values. */
  method AttachThenDownload(fb: GpuFrameBuffer, unit: int) returns (r: Result<array<Num>, FbError>)
    requires fb.Valid() && fb.source.Some? && fb.source.value.Length == fb.Capacity()
    requires fb.source.value != fb.tempbuf
    modifies fb, fb.tempbuf
    ensures r.Ok? && fresh(r.value) && r.value[..] == old(fb.source.value[..])
  {
    var _ := fb.Attach(unit);
    r := fb.Download(null, 0, 0, fb.width, fb.height);
    UploadDownload(old(fb.source.value[..]), old(if fb.tempbuf == null then Staged([], fb.width * fb.height * 4) else fb.tempbuf[..]),
                   fb.width, fb.height, fb.channels);
  }
}

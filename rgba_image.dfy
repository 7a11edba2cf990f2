/**
 * The CPU-side image (RGBAImage.h): a flat buffer of floats, four per pixel
 * (red, green, blue, alpha), row by row, and the GPU-side texture wrapper
 * RGBAImageGPU, of which only the resource-state bookkeeping is modelled.
 *
 * The 32-bit index arithmetic of the source (width * height * 4, (i * width +
 * j) * 4) is modelled on unbounded naturals; floats are reals.
 */
module Images {
  import opened Wrappers

  newtype byte = x: int | 0 <= x < 256

  /** Offset of the first float of pixel (i, j) in a buffer of the given width. */
  function PixelIndex(width: nat, i: nat, j: nat): nat {
    (i * width + j) * 4
  }

  /** Every pixel of a width x height image lies inside a buffer of width * height * 4 floats. */
  lemma PixelInBounds(width: nat, height: nat, i: nat, j: nat)
    requires i < height && j < width
    ensures PixelIndex(width, i, j) + 3 < width * height * 4
  {
    assert i * width <= (height - 1) * width;
    assert (height - 1) * width + width == width * height;
  }

  /** The first n floats of a buffer; a null buffer holds none. */
  function Prefix(a: array?<real>, n: nat): seq<real>
    requires n <= (if a == null then 0 else a.Length)
    reads a
  {
    if a == null then [] else a[..n]
  }

  /** std::uninitialized_copy_n into a freshly allocated buffer of n floats. */
  method CopyN(src: array?<real>, n: nat) returns (dst: array<real>)
    requires n <= (if src == null then 0 else src.Length)
    ensures fresh(dst) && dst[..] == Prefix(src, n)
  {
    dst := new real[n];
    var k := 0;
    while k < n
      invariant 0 <= k <= n
      invariant forall m :: 0 <= m < k ==> dst[m] == src[m]
    {
      dst[k] := src[k];
      k := k + 1;
    }
  }

  /**
   * The pixel conversion of the file constructor: every three bytes (r, g, b)
   * become four floats (r/255, g/255, b/255, 1).
   */
  function Converted(src: seq<byte>): (out: seq<real>)
    ensures |out| == |src| / 3 * 4
  {
    seq(|src| / 3 * 4, k requires 0 <= k < |src| / 3 * 4 =>
      if k % 4 == 3 then 1.0 else src[k / 4 * 3 + k % 4] as real / 255.0)
  }

  /** The byte a stored channel value stands for. */
  function ToByte(x: real): byte {
    var v := (x * 255.0).Floor;
    if v < 0 then 0 else if 255 < v then 255 else v as byte
  }

  /** Reading the colour bytes back out of a converted buffer. */
  function Restored(out: seq<real>): seq<byte> {
    seq(|out| / 4 * 3, k requires 0 <= k < |out| / 4 * 3 => ToByte(out[k / 3 * 4 + k % 3]))
  }

  /** Float c of pixel p sits at 4 p + c. */
  lemma PixelSlot(p: nat, c: nat)
    requires c < 4
    ensures (p * 4 + c) / 4 == p && (p * 4 + c) % 4 == c
  {
  }

  /** The four floats of pixel p are its three bytes over 255, then 1. */
  lemma ConvertedPixel(src: seq<byte>, p: nat)
    requires p < |src| / 3
    ensures p * 4 + 3 < |Converted(src)|
    ensures Converted(src)[p * 4] == src[p * 3] as real / 255.0
    ensures Converted(src)[p * 4 + 1] == src[p * 3 + 1] as real / 255.0
    ensures Converted(src)[p * 4 + 2] == src[p * 3 + 2] as real / 255.0
    ensures Converted(src)[p * 4 + 3] == 1.0
  {
    PixelSlot(p, 0);
    PixelSlot(p, 1);
    PixelSlot(p, 2);
    PixelSlot(p, 3);
  }

  /**
   * Every converted value lies in [0, 1], every alpha is exactly 1, and the
   * colour bytes can be read back unchanged.
   */
  lemma {:induction false} ConvertedRoundTrip(src: seq<byte>)
    requires |src| % 3 == 0
    ensures forall k :: 0 <= k < |Converted(src)| ==> 0.0 <= Converted(src)[k] <= 1.0
    ensures forall p :: 0 <= p < |src| / 3 ==> Converted(src)[4 * p + 3] == 1.0
    ensures Restored(Converted(src)) == src
  {
    var out := Converted(src);
    forall p | 0 <= p < |src| / 3
      ensures out[4 * p + 3] == 1.0
    {
      PixelSlot(p, 3);
    }
    assert |out| / 4 * 3 == |src|;
    forall k | 0 <= k < |src|
      ensures Restored(out)[k] == src[k]
    {
      var p, c := k / 3, k % 3;
      PixelSlot(p, c);
      assert k / 3 * 4 + k % 3 == p * 4 + c;
      assert out[p * 4 + c] == src[p * 3 + c] as real / 255.0;
      assert p * 3 + c == k;
    }
  }

  /** The colour (red, green, blue) stored at offset p of a buffer. */
  function Colour(s: seq<real>, p: nat): (real, real, real)
    requires p + 2 < |s|
  {
    (s[p], s[p + 1], s[p + 2])
  }

  /** The buffer with the colour at offset p replaced and every other float, alpha included, kept. */
  function WithColour(s: seq<real>, p: nat, rgb: (real, real, real)): (t: seq<real>)
    requires p + 2 < |s|
    ensures |t| == |s| && Colour(t, p) == rgb
    ensures forall k :: 0 <= k < |s| && !(p <= k < p + 3) ==> t[k] == s[k]
  {
    s[p := rgb.0][p + 1 := rgb.1][p + 2 := rgb.2]
  }

  /** Two different pixels of a row width never share a float. */
  lemma {:induction false} PixelsDisjoint(width: nat, i: nat, j: nat, i2: nat, j2: nat)
    requires j < width && j2 < width && (i, j) != (i2, j2)
    ensures PixelIndex(width, i, j) + 4 <= PixelIndex(width, i2, j2)
         || PixelIndex(width, i2, j2) + 4 <= PixelIndex(width, i, j)
  {
    if i < i2 {
      RowsApart(width, i, i2);
    } else if i2 < i {
      RowsApart(width, i2, i);
    }
  }

  /** A later row starts after the whole of an earlier one. */
  lemma {:induction false} RowsApart(width: nat, i: nat, i2: nat)
    requires i < i2
    ensures i * width + width <= i2 * width
    decreases i2
  {
    assert i2 * width == (i2 - 1) * width + width;
    if i < i2 - 1 {
      RowsApart(width, i, i2 - 1);
    }
  }

  /**
   * Setting a pixel and reading it back gives the colour set; any other
   * pixel reads as before, and the pixel's alpha is untouched.
   */
  lemma {:induction false} SetThenAt(s: seq<real>, width: nat, i: nat, j: nat, i2: nat, j2: nat, rgb: (real, real, real))
    requires j < width && j2 < width
    requires PixelIndex(width, i, j) + 3 < |s| && PixelIndex(width, i2, j2) + 2 < |s|
    ensures var t := WithColour(s, PixelIndex(width, i, j), rgb);
      && ((i, j) == (i2, j2) ==> Colour(t, PixelIndex(width, i2, j2)) == rgb)
      && ((i, j) != (i2, j2) ==> Colour(t, PixelIndex(width, i2, j2)) == Colour(s, PixelIndex(width, i2, j2)))
      && t[PixelIndex(width, i, j) + 3] == s[PixelIndex(width, i, j) + 3]
  {
    if (i, j) != (i2, j2) {
      PixelsDisjoint(width, i, j, i2, j2);
    }
  }

  class RGBAImage {
    var data: array?<real>
    var width: nat
    var height: nat

    /** The buffer holds exactly width * height pixels; no buffer means no size. */
    ghost predicate Valid()
      reads this
    {
      && (data == null ==> width == 0 && height == 0)
      && (data != null ==> data.Length == width * height * 4)
    }

    /** operator bool: for a consistent image, true exactly when it owns a non-empty buffer. */
    predicate IsValid()
      reads this
      ensures Valid() ==> (IsValid() <==> 0 < Capacity())
    {
      assert Valid() && data != null ==> (width * height * 4 == 0 <==> width == 0 || height == 0);
      width != 0 && height != 0 && data != null
    }

    function Capacity(): nat
      reads this
    {
      if data == null then 0 else data.Length
    }

    /** The default constructor: an empty image. */
    constructor ()
      ensures data == null && width == 0 && height == 0
      ensures Valid() && !IsValid()
    {
      data := null;
      width := 0;
      height := 0;
    }

    /**
     * The file constructor once the decoder has delivered the size and the
     * 24-bit RGB bytes: the buffer receives the converted pixels.
     */
    constructor FromBitmap(w: nat, h: nat, bitmap: seq<byte>)
      requires |bitmap| == w * h * 3
      ensures width == w && height == h && data != null && fresh(data)
      ensures data[..] == Converted(bitmap)
      ensures Valid()
    {
      width := w;
      height := h;
      var buffer := new real[w * h * 4];
      var i := 0;
      while i < w * h
        invariant 0 <= i <= w * h
        invariant forall k :: 0 <= k < i * 4 ==> buffer[k] == Converted(bitmap)[k]
      {
        buffer[i * 4] := bitmap[i * 3] as real / 255.0;
        buffer[i * 4 + 1] := bitmap[i * 3 + 1] as real / 255.0;
        buffer[i * 4 + 2] := bitmap[i * 3 + 2] as real / 255.0;
        buffer[i * 4 + 3] := 1.0;
        ConvertedPixel(bitmap, i);
        i := i + 1;
      }
      assert buffer[..] == Converted(bitmap);
      data := buffer;
    }

    /** The copy constructor: a fresh buffer with the other image's first width * height * 4 floats. */
    constructor Copy(other: RGBAImage)
      requires other.width * other.height * 4 <= other.Capacity()
      ensures width == other.width && height == other.height
      ensures data != null && fresh(data) && data[..] == Prefix(other.data, other.width * other.height * 4)
      ensures other.Valid() ==> Valid()
    {
      var buffer := CopyN(other.data, other.width * other.height * 4);
      width := other.width;
      height := other.height;
      data := buffer;
    }

    /** The move constructor: take the other image's buffer and size, leaving it empty. */
    constructor Move(other: RGBAImage)
      modifies other
      ensures data == old(other.data) && width == old(other.width) && height == old(other.height)
      ensures other.data == null && other.width == 0 && other.height == 0
      ensures old(other.Valid()) ==> Valid() && other.Valid()
    {
      data := other.data;
      width := other.width;
      height := other.height;
      new;
      other.data := null;
      other.width := 0;
      other.height := 0;
    }

    /** Drop the buffer and the size; a second call finds nothing left to drop. */
    method Release()
      modifies this
      ensures data == null && width == 0 && height == 0
      ensures Valid() && !IsValid()
    {
      if data != null {
        data := null;
      }
      width := 0;
      height := 0;
    }

    /**
     * Allocate a w x h buffer whose first float is 255 and the rest 0 (the
     * braced initializer of the source). With w * h == 0 the initializer is
     * longer than the array and the allocation throws: nothing changes.
     */
    method Setup(w: nat, h: nat) returns (ok: bool)
      modifies this
      ensures ok <==> 0 < w * h
      ensures !ok ==> unchanged(this)
      ensures ok ==> && width == w && height == h && data != null && fresh(data)
                     && data.Length == w * h * 4 && data[0] == 255.0
                     && (forall k :: 1 <= k < data.Length ==> data[k] == 0.0)
                     && Valid() && IsValid()
    {
      if h * w * 4 == 0 {
        return false;
      }
      var newData := new real[h * w * 4](k => if k == 0 then 255.0 else 0.0);
      Release();
      width := w;
      height := h;
      data := newData;
      ok := true;
    }

    /** A consistent image can reach every one of its pixels. */
    lemma PixelAccessible(i: nat, j: nat)
      requires Valid() && i < height && j < width
      ensures data != null && PixelIndex(width, i, j) + 3 < data.Length
    {
      PixelInBounds(width, height, i, j);
    }

    /** The colour (without alpha) of pixel (i, j): the three floats at its offset, row by row. */
    function At(i: nat, j: nat): (c: (real, real, real))
      requires data != null && PixelIndex(width, i, j) + 2 < data.Length
      reads this, data
      ensures c == Colour(data[..], (i * width + j) * 4)
    {
      var p := PixelIndex(width, i, j);
      (data[p], data[p + 1], data[p + 2])
    }

    /** Overwrite the colour of pixel (i, j); its alpha and every other float stay. */
    method Set(i: nat, j: nat, r: real, g: real, b: real)
      requires data != null && PixelIndex(width, i, j) + 2 < data.Length
      modifies data
      ensures data[..] == WithColour(old(data[..]), PixelIndex(width, i, j), (r, g, b))
      ensures At(i, j) == (r, g, b)
      ensures forall k :: 0 <= k < data.Length && !(PixelIndex(width, i, j) <= k < PixelIndex(width, i, j) + 3) ==> data[k] == old(data[k])
    {
      var p := PixelIndex(width, i, j);
      data[p] := r;
      data[p + 1] := g;
      data[p + 2] := b;
    }

    /**
     * Copy assignment as written: the buffer is copied, but the width is taken
     * from the other image's height.
     */
    method CopyAssign(other: RGBAImage)
      requires other.width * other.height * 4 <= other.Capacity()
      modifies this
      ensures other == this ==> unchanged(this)
      ensures other != this ==>
        && data != null && fresh(data) && data[..] == Prefix(other.data, other.width * other.height * 4)
        && (width, height) == CopyAssignShape(other.width, other.height)
    {
      if other != this {
        var newData := CopyN(other.data, other.height * other.width * 4);
        Release();
        data := newData;
        width := other.height;
        height := other.height;
      }
    }

    /** Copy assignment with the width taken from the other image's width. */
    method CopyAssignIntended(other: RGBAImage)
      requires other.width * other.height * 4 <= other.Capacity()
      modifies this
      ensures other == this ==> unchanged(this)
      ensures other != this ==>
        && data != null && fresh(data) && data[..] == Prefix(other.data, other.width * other.height * 4)
        && width == other.width && height == other.height
      ensures old(other.Valid()) ==> Valid()
    {
      if other != this {
        var newData := CopyN(other.data, other.height * other.width * 4);
        Release();
        data := newData;
        width := other.width;
        height := other.height;
      }
    }

    /** Move assignment: take the other image's buffer and size, leaving it empty; a self-move does nothing. */
    method MoveAssign(other: RGBAImage)
      modifies this, other
      ensures other == this ==> unchanged(this)
      ensures other != this ==>
        && data == old(other.data) && width == old(other.width) && height == old(other.height)
        && other.data == null && other.width == 0 && other.height == 0
      ensures old(other.Valid()) ==> Valid() && other.Valid()
    {
      if other != this {
        Release();
        data := other.data;
        width := other.width;
        height := other.height;
        other.data := null;
        other.width := 0;
        other.height := 0;
      }
    }
  }

  /** The (width, height) that copy assignment as written gives the target. */
  function CopyAssignShape(otherWidth: nat, otherHeight: nat): (nat, nat) {
    (otherHeight, otherHeight)
  }

  /**
   * Copy assignment as written keeps the buffer consistent with the size only
   * for square or empty sources.
   */
  lemma {:induction false} CopyAssignShapeConsistency(w: nat, h: nat)
    ensures var s := CopyAssignShape(w, h); s.0 * s.1 * 4 == w * h * 4 <==> (w == h || h == 0)
  {
    assert h * h * 4 - w * h * 4 == (h - w) * h * 4;
    if h != 0 && w != h {
      assert (h - w) * h != 0;
    }
  }

  /**
   * A 1-wide, 2-high source (8 floats) becomes a 2 x 2 target still holding
   * 8 floats, so reading pixel (1, 1) would start at float 12.
   */
  lemma CopyAssignOverrunExample()
    ensures var s := CopyAssignShape(1, 2); s == (2, 2) && PixelIndex(s.0, 1, 1) == 12 && 1 * 2 * 4 == 8
  {
  }

  /** D3D12 resource states the texture passes through. */
  datatype ResourceState = Common | UnorderedAccess | PixelShaderResource | NonPixelShaderResource | CopyDest

  /** A GPU resource, known only by its identity. */
  class Resource {
    constructor ()
    {
    }
  }

  /** A transition barrier recorded on a command list. */
  datatype Barrier = Transition(resource: Resource?, before: ResourceState, after: ResourceState)

  /** The barriers a command list has recorded, in order. */
  class CommandList {
    var barriers: seq<Barrier>

    constructor ()
      ensures barriers == []
    {
      barriers := [];
    }

    method ResourceBarrier(b: Barrier)
      modifies this
      ensures barriers == old(barriers) + [b]
    {
      barriers := barriers + [b];
    }
  }

  /**
   * The state a resource reaches when the recorded barriers are executed from
   * `start`, or None when some barrier on it names a before-state other than
   * the one it is in (which D3D12 rejects). Barriers on other resources are
   * skipped.
   */
  function Replay(res: Resource?, start: ResourceState, bs: seq<Barrier>): Option<ResourceState>
    decreases |bs|
  {
    if bs == [] then Some(start)
    else if bs[0].resource != res then Replay(res, start, bs[1..])
    else if bs[0].before != start then None
    else Replay(res, bs[0].after, bs[1..])
  }

  /** Recording one more barrier on a resource that names its current state keeps the replay in step. */
  lemma {:induction false} ReplayAppend(res: Resource?, start: ResourceState, bs: seq<Barrier>, b: Barrier, s: ResourceState)
    requires Replay(res, start, bs) == Some(s)
    requires b.resource == res && b.before == s
    ensures Replay(res, start, bs + [b]) == Some(b.after)
    decreases |bs|
  {
    if bs == [] {
      assert [b][1..] == [];
    } else {
      assert (bs + [b])[1..] == bs[1..] + [b];
      if bs[0].resource != res {
        ReplayAppend(res, start, bs[1..], b, s);
      } else {
        ReplayAppend(res, bs[0].after, bs[1..], b, s);
      }
    }
  }

  /** A replay that has already failed stays failed. */
  lemma {:induction false} ReplayFailureSticks(res: Resource?, start: ResourceState, bs: seq<Barrier>, more: seq<Barrier>)
    requires Replay(res, start, bs) == None
    ensures Replay(res, start, bs + more) == None
    decreases |bs|
  {
    assert bs != [];
    assert (bs + more)[1..] == bs[1..] + more;
    if bs[0].resource != res {
      ReplayFailureSticks(res, start, bs[1..], more);
    } else if bs[0].before == start {
      ReplayFailureSticks(res, bs[0].after, bs[1..], more);
    }
  }

  class RGBAImageGPU {
    var width: nat
    var height: nat
    var state: ResourceState
    var texture: Resource?
    /** The upload buffer of the last Upload. */
    var upload: Resource?

    /** The recorded barriers bring the texture from Common to the state this wrapper believes it is in. */
    ghost predicate InStep(list: CommandList)
      reads this, list
    {
      Replay(texture, Common, list.barriers) == Some(state)
    }

    /** The default constructor: no texture, in the Common state. */
    constructor Empty()
      ensures width == 0 && height == 0 && state == Common && texture == null && upload == null
    {
      width := 0;
      height := 0;
      state := Common;
      texture := null;
      upload := null;
    }

    /** The texture constructors: a fresh w x h texture created in the Common state. */
    constructor (w: nat, h: nat)
      ensures width == w && height == h && state == Common
      ensures texture != null && fresh(texture) && upload == null
    {
      width := w;
      height := h;
      state := Common;
      texture := new Resource();
      upload := null;
    }

    /** Record a transition from the current state to `target` and believe it. */
    method TransitionTo(list: CommandList, target: ResourceState)
      modifies this, list
      ensures list.barriers == old(list.barriers) + [Transition(old(texture), old(state), target)]
      ensures state == target
      ensures width == old(width) && height == old(height) && texture == old(texture) && upload == old(upload)
      ensures old(InStep(list)) ==> InStep(list)
    {
      list.ResourceBarrier(Transition(texture, state, target));
      if old(InStep(list)) {
        ReplayAppend(texture, Common, old(list.barriers), Transition(texture, state, target), state);
      }
      state := target;
    }

    method AsUAV(list: CommandList)
      modifies this, list
      ensures list.barriers == old(list.barriers) + [Transition(old(texture), old(state), UnorderedAccess)]
      ensures state == UnorderedAccess
      ensures width == old(width) && height == old(height) && texture == old(texture) && upload == old(upload)
      ensures old(InStep(list)) ==> InStep(list)
    {
      TransitionTo(list, UnorderedAccess);
    }

    method AsGraphicsSRV(list: CommandList)
      modifies this, list
      ensures list.barriers == old(list.barriers) + [Transition(old(texture), old(state), PixelShaderResource)]
      ensures state == PixelShaderResource
      ensures width == old(width) && height == old(height) && texture == old(texture) && upload == old(upload)
      ensures old(InStep(list)) ==> InStep(list)
    {
      TransitionTo(list, PixelShaderResource);
    }

    method AsComputeSRV(list: CommandList)
      modifies this, list
      ensures list.barriers == old(list.barriers) + [Transition(old(texture), old(state), NonPixelShaderResource)]
      ensures state == NonPixelShaderResource
      ensures width == old(width) && height == old(height) && texture == old(texture) && upload == old(upload)
      ensures old(InStep(list)) ==> InStep(list)
    {
      TransitionTo(list, NonPixelShaderResource);
    }

    /**
     * Upload an image: refused (the source throws) unless its size matches the
     * texture's; otherwise a fresh upload buffer, a transition to CopyDest, the
     * copy, and a transition to PixelShaderResource.
     */
    method Upload(list: CommandList, img: RGBAImage) returns (ok: bool)
      modifies this, list
      ensures ok <==> img.height == old(height) && img.width == old(width)
      ensures !ok ==> unchanged(this) && unchanged(list)
      ensures ok ==>
        && list.barriers == old(list.barriers) + [Transition(old(texture), old(state), CopyDest), Transition(old(texture), CopyDest, PixelShaderResource)]
        && state == PixelShaderResource && upload != null && fresh(upload)
        && width == old(width) && height == old(height) && texture == old(texture)
      ensures old(InStep(list)) ==> InStep(list)
    {
      if img.height != height || img.width != width {
        return false;
      }
      upload := new Resource();
      TransitionTo(list, CopyDest);
      TransitionTo(list, PixelShaderResource);
      ok := true;
    }

    /** Move assignment: take every field of the other wrapper, leaving it empty and Common; a self-move does nothing. */
    method MoveAssign(other: RGBAImageGPU)
      modifies this, other
      ensures other == this ==> unchanged(this)
      ensures other != this ==>
        && width == old(other.width) && height == old(other.height) && state == old(other.state)
        && texture == old(other.texture) && upload == old(other.upload)
        && other.width == 0 && other.height == 0 && other.state == Common
        && other.texture == null && other.upload == null
    {
      if other != this {
        width, height, state := other.width, other.height, other.state;
        texture, upload := other.texture, other.upload;
        other.width, other.height, other.state := 0, 0, Common;
        other.texture, other.upload := null, null;
      }
    }
  }
}

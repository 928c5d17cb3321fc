/** One Vulkan texture image (`texture_object`): creating it with its memory,
    filling host-visible memory with the 2x2 checkerboard row by row at the
    device's row pitch, recording its first layout transition, and destroying
    it again. */
module TextureImage {
  import opened Vulkan
  import opened SetupCommands

  /** `tex_width` and `tex_height` of `demo_prepare_texture_image`. */
  const TexWidth: nat := 2
  const TexHeight: nat := 2

  /** The colour index `(x & 1) ^ (y & 1)` of pixel (x, y), for the
      non-negative 32-bit signed loop counters of the fill: the second colour
      is taken exactly where the parities of x and y differ. */
  function ColorIndex(x: nat, y: nat): (r: nat)
    requires x < 0x8000_0000 && y < 0x8000_0000
    ensures r < 2
    ensures r == 1 <==> x % 2 != y % 2
  {
    (((x as bv32) & 1) ^ ((y as bv32) & 1)) as nat
  }

  /** The 32-bit word stored by four bytes, least significant byte first (the
      host byte order of the little-endian targets the code runs on). */
  function WordOf(b: seq<bv8>): bv32
    requires |b| == 4
  {
    (b[0] as bv32) | ((b[1] as bv32) << 8) | ((b[2] as bv32) << 16) | ((b[3] as bv32) << 24)
  }

  /** The four bytes a `uint32_t` store writes, in memory order. */
  function WordBytes(w: bv32): (b: seq<bv8>)
    ensures |b| == 4 && WordOf(b) == w
  {
    [(w & 0xff) as bv8, ((w >> 8) & 0xff) as bv8, ((w >> 16) & 0xff) as bv8, (w >> 24) as bv8]
  }

  /** What the fill needs of the mapped memory: the pitch holds a row of
      texels (as Vulkan guarantees for a linear image) and the memory reaches
      the end of the last row. */
  predicate PitchFits(rowPitch: nat, width: nat, height: nat, size: nat)
  {
    && PitchHoldsRow(rowPitch, width, height)
    && (height > 0 ==> rowPitch * (height - 1) + TexelBytes * width <= size)
  }

  /** The pitch holds a row of texels of an image with 32-bit dimensions. */
  predicate PitchHoldsRow(rowPitch: nat, width: nat, height: nat)
  {
    0 < width < 0x8000_0000 && height < 0x8000_0000 && TexelBytes * width <= rowPitch
  }

  /** Byte offset of pixel (x, y): row y starts `rowPitch * y` bytes in. */
  function PixelOffset(rowPitch: nat, x: nat, y: nat): nat
  {
    rowPitch * y + TexelBytes * x
  }

  /** Byte i lies inside a pixel of a width x height image laid out at the
      given pitch: its row is a pixel row and its place in the row is inside
      the row's texels. */
  predicate IsPixelByte(i: nat, rowPitch: nat, width: nat, height: nat)
    requires rowPitch > 0
  {
    i / rowPitch < height && i % rowPitch < TexelBytes * width
  }

  /** The value the fill gives pixel byte i: the matching byte of the
      checkerboard colour of its pixel. */
  function PixelByte(i: nat, rowPitch: nat, width: nat, height: nat, colors: seq<bv32>): bv8
    requires PitchHoldsRow(rowPitch, width, height)
    requires IsPixelByte(i, rowPitch, width, height) && |colors| >= 2
  {
    var col := i % rowPitch;
    assert col / TexelBytes < width by { DivBelow(col, TexelBytes, width); }
    WordBytes(colors[ColorIndex(col / TexelBytes, i / rowPitch)])[col % TexelBytes]
  }

  /** The memory after the fill: every pixel byte holds its checkerboard
      colour, every other byte is as it was. */
  function Checkerboard(s: seq<bv8>, rowPitch: nat, width: nat, height: nat, colors: seq<bv32>): (r: seq<bv8>)
    requires PitchFits(rowPitch, width, height, |s|) && |colors| >= 2
    ensures |r| == |s|
  {
    seq(|s|, i requires 0 <= i < |s| =>
      if IsPixelByte(i, rowPitch, width, height) then PixelByte(i, rowPitch, width, height, colors) else s[i])
  }

  lemma DivBelow(n: nat, d: nat, k: nat)
    requires d > 0 && n < d * k
    ensures n / d < k
  {
  }

  lemma MulAtLeast(d: int, k: int)
    requires d > 0 && k >= 1
    ensures d * k >= d
  {
  }

  lemma MulDistrib(d: int, a: int, b: int)
    ensures d * (a + b) == d * a + d * b
  {
  }

  lemma DivModUnique(n: int, d: int, q: int, r: int)
    requires d > 0 && 0 <= r < d && n == d * q + r
    ensures n / d == q && n % d == r
  {
    var q', r' := n / d, n % d;
    assert n == d * q' + r';
    if q' > q {
      MulDistrib(d, q, q' - q);
      MulAtLeast(d, q' - q);
    } else if q' < q {
      MulDistrib(d, q', q - q');
      MulAtLeast(d, q - q');
    }
  }

  lemma DivModSplit(n: nat, d: nat)
    requires d > 0
    ensures n == d * (n / d) + n % d
    ensures 0 <= n / d && 0 <= n % d < d
  {
  }

  /** Quotient and remainder of an offset inside row y. */
  lemma DivModInRow(rowPitch: nat, y: nat, c: nat)
    requires c < rowPitch
    ensures (rowPitch * y + c) / rowPitch == y && (rowPitch * y + c) % rowPitch == c
  {
    DivModUnique(rowPitch * y + c, rowPitch, y, c);
  }

  /** Every pixel lies inside the memory. */
  lemma PixelInMemory(rowPitch: nat, width: nat, height: nat, size: nat, x: nat, y: nat)
    requires PitchFits(rowPitch, width, height, size) && x < width && y < height
    ensures PixelOffset(rowPitch, x, y) + TexelBytes <= size
  {
    var rest: nat := height - 1 - y;
    MulDistrib(rowPitch, y, rest);
    assert rowPitch * rest >= 0;
  }

  /** The pixel bytes are exactly the four bytes at the offset of some pixel. */
  lemma {:induction false} PixelByteIff(i: nat, rowPitch: nat, width: nat, height: nat)
    requires rowPitch > 0 && TexelBytes * width <= rowPitch
    ensures IsPixelByte(i, rowPitch, width, height) <==>
      exists x: nat, y: nat :: x < width && y < height &&
        PixelOffset(rowPitch, x, y) <= i < PixelOffset(rowPitch, x, y) + TexelBytes
  {
    var y, col := i / rowPitch, i % rowPitch;
    assert i == PixelOffset(rowPitch, col / TexelBytes, y) + col % TexelBytes;
    if IsPixelByte(i, rowPitch, width, height) {
      var x := col / TexelBytes;
      assert x < width && PixelOffset(rowPitch, x, y) <= i < PixelOffset(rowPitch, x, y) + TexelBytes;
    }
    forall x: nat, y': nat | x < width && y' < height &&
        PixelOffset(rowPitch, x, y') <= i < PixelOffset(rowPitch, x, y') + TexelBytes
      ensures IsPixelByte(i, rowPitch, width, height)
    {
      DivModInRow(rowPitch, y', i - rowPitch * y');
    }
  }

  /** Byte k of pixel (x, y) is a pixel byte and the fill gives it byte k of
      the pixel's colour. */
  lemma PixelByteAt(rowPitch: nat, width: nat, height: nat, colors: seq<bv32>, x: nat, y: nat, k: nat)
    requires PitchHoldsRow(rowPitch, width, height)
    requires |colors| >= 2 && x < width && y < height && k < TexelBytes
    ensures (PixelOffset(rowPitch, x, y) + k) / rowPitch == y
    ensures (PixelOffset(rowPitch, x, y) + k) % rowPitch == TexelBytes * x + k
    ensures IsPixelByte(PixelOffset(rowPitch, x, y) + k, rowPitch, width, height)
    ensures PixelByte(PixelOffset(rowPitch, x, y) + k, rowPitch, width, height, colors)
            == WordBytes(colors[ColorIndex(x, y)])[k]
  {
    var i, c := PixelOffset(rowPitch, x, y) + k, TexelBytes * x + k;
    assert i / rowPitch == y && i % rowPitch == c by {
      DivModInRow(rowPitch, y, c);
    }
    assert c / TexelBytes == x && c % TexelBytes == k;
  }

  /** Byte k of pixel (x, y) holds byte k of the pixel's colour after the fill. */
  lemma CheckerboardPixelByte(s: seq<bv8>, rowPitch: nat, width: nat, height: nat, colors: seq<bv32>,
                              x: nat, y: nat, k: nat)
    requires PitchFits(rowPitch, width, height, |s|) && |colors| >= 2
    requires x < width && y < height && k < TexelBytes
    ensures PixelOffset(rowPitch, x, y) + TexelBytes <= |s|
    ensures Checkerboard(s, rowPitch, width, height, colors)[PixelOffset(rowPitch, x, y) + k]
         == WordBytes(colors[ColorIndex(x, y)])[k]
  {
    PixelInMemory(rowPitch, width, height, |s|, x, y);
    PixelByteAt(rowPitch, width, height, colors, x, y, k);
  }

  /** Reading the word back at pixel (x, y), through the pitch, gives the
      checkerboard colour of that pixel. */
  lemma CheckerboardPixel(s: seq<bv8>, rowPitch: nat, width: nat, height: nat, colors: seq<bv32>, x: nat, y: nat)
    requires PitchFits(rowPitch, width, height, |s|) && |colors| >= 2
    requires x < width && y < height
    ensures PixelOffset(rowPitch, x, y) + TexelBytes <= |s|
    ensures var off := PixelOffset(rowPitch, x, y);
      Checkerboard(s, rowPitch, width, height, colors)[off..off + TexelBytes] == WordBytes(colors[ColorIndex(x, y)])
    ensures var off := PixelOffset(rowPitch, x, y);
      WordOf(Checkerboard(s, rowPitch, width, height, colors)[off..off + TexelBytes]) == colors[ColorIndex(x, y)]
  {
    PixelInMemory(rowPitch, width, height, |s|, x, y);
    var off := PixelOffset(rowPitch, x, y);
    var r := Checkerboard(s, rowPitch, width, height, colors);
    var w := WordBytes(colors[ColorIndex(x, y)]);
    forall k | 0 <= k < TexelBytes
      ensures r[off..off + TexelBytes][k] == w[k]
    {
      CheckerboardPixelByte(s, rowPitch, width, height, colors, x, y, k);
    }
    assert r[off..off + TexelBytes] == w;
  }

  /** Bytes outside every pixel keep their value. */
  lemma CheckerboardElsewhere(s: seq<bv8>, rowPitch: nat, width: nat, height: nat, colors: seq<bv32>, i: nat)
    requires PitchFits(rowPitch, width, height, |s|) && |colors| >= 2
    requires i < |s|
    requires forall x: nat, y: nat :: x < width && y < height ==>
      !(PixelOffset(rowPitch, x, y) <= i < PixelOffset(rowPitch, x, y) + TexelBytes)
    ensures Checkerboard(s, rowPitch, width, height, colors)[i] == s[i]
  {
    PixelByteIff(i, rowPitch, width, height);
  }

  /** The fill after rows below y and the first x pixels of row y are written. */
  ghost function FilledSoFar(s: seq<bv8>, i: nat, rowPitch: nat, width: nat, height: nat, colors: seq<bv32>, x: nat, y: nat): bv8
    requires PitchFits(rowPitch, width, height, |s|) && |colors| >= 2 && i < |s|
  {
    var row, col := i / rowPitch, i % rowPitch;
    if IsPixelByte(i, rowPitch, width, height) && (row < y || (row == y && col < TexelBytes * x))
    then PixelByte(i, rowPitch, width, height, colors)
    else s[i]
  }

  /** The memory after rows below y and the first x pixels of row y are written. */
  ghost function Partial(s: seq<bv8>, rowPitch: nat, width: nat, height: nat, colors: seq<bv32>, x: nat, y: nat): (r: seq<bv8>)
    requires PitchFits(rowPitch, width, height, |s|) && |colors| >= 2
    ensures |r| == |s|
  {
    seq(|s|, i requires 0 <= i < |s| => FilledSoFar(s, i, rowPitch, width, height, colors, x, y))
  }

  /** Moving the fill past pixel (x, y) leaves the other bytes as they were. */
  lemma StepElsewhere(orig: seq<bv8>, rowPitch: nat, width: nat, height: nat, colors: seq<bv32>, x: nat, y: nat, i: nat)
    requires PitchFits(rowPitch, width, height, |orig|) && |colors| >= 2 && i < |orig|
    requires !(PixelOffset(rowPitch, x, y) <= i < PixelOffset(rowPitch, x, y) + TexelBytes)
    ensures FilledSoFar(orig, i, rowPitch, width, height, colors, x + 1, y)
         == FilledSoFar(orig, i, rowPitch, width, height, colors, x, y)
  {
    var row, col := i / rowPitch, i % rowPitch;
    assert !(row == y && TexelBytes * x <= col < TexelBytes * x + TexelBytes) by {
      DivModSplit(i, rowPitch);
    }
  }

  /** Moving the fill past pixel (x, y) gives its bytes their colour. */
  lemma StepAt(orig: seq<bv8>, rowPitch: nat, width: nat, height: nat, colors: seq<bv32>, x: nat, y: nat, k: nat)
    requires PitchFits(rowPitch, width, height, |orig|) && |colors| >= 2
    requires x < width && y < height && k < TexelBytes
    requires PixelOffset(rowPitch, x, y) + k < |orig|
    ensures FilledSoFar(orig, PixelOffset(rowPitch, x, y) + k, rowPitch, width, height, colors, x + 1, y)
         == WordBytes(colors[ColorIndex(x, y)])[k]
  {
    PixelByteAt(rowPitch, width, height, colors, x, y, k);
  }

  /** Storing pixel (x, y) moves the fill one pixel on. */
  lemma FillStep(orig: seq<bv8>, rowPitch: nat, width: nat, height: nat, colors: seq<bv32>, x: nat, y: nat)
    requires PitchFits(rowPitch, width, height, |orig|) && |colors| >= 2
    requires x < width && y < height
    ensures PixelOffset(rowPitch, x, y) + TexelBytes <= |orig|
    ensures var before, off := Partial(orig, rowPitch, width, height, colors, x, y), PixelOffset(rowPitch, x, y);
      before[..off] + WordBytes(colors[ColorIndex(x, y)]) + before[off + TexelBytes..]
      == Partial(orig, rowPitch, width, height, colors, x + 1, y)
  {
    PixelInMemory(rowPitch, width, height, |orig|, x, y);
    var before, off := Partial(orig, rowPitch, width, height, colors, x, y), PixelOffset(rowPitch, x, y);
    var after := before[..off] + WordBytes(colors[ColorIndex(x, y)]) + before[off + TexelBytes..];
    var next := Partial(orig, rowPitch, width, height, colors, x + 1, y);
    forall i | 0 <= i < |orig|
      ensures after[i] == next[i]
    {
      if off <= i < off + TexelBytes {
        assert after[i] == WordBytes(colors[ColorIndex(x, y)])[i - off];
        StepAt(orig, rowPitch, width, height, colors, x, y, i - off);
      } else {
        assert after[i] == before[i];
        StepElsewhere(orig, rowPitch, width, height, colors, x, y, i);
      }
    }
  }

  /** Finishing row y is starting row y + 1. */
  lemma RowDone(orig: seq<bv8>, rowPitch: nat, width: nat, height: nat, colors: seq<bv32>, y: nat)
    requires PitchFits(rowPitch, width, height, |orig|) && |colors| >= 2
    ensures Partial(orig, rowPitch, width, height, colors, width, y)
         == Partial(orig, rowPitch, width, height, colors, 0, y + 1)
  {
  }

  /** Once every row is written the memory is the checkerboard. */
  lemma FillDone(orig: seq<bv8>, rowPitch: nat, width: nat, height: nat, colors: seq<bv32>)
    requires PitchFits(rowPitch, width, height, |orig|) && |colors| >= 2
    ensures Partial(orig, rowPitch, width, height, colors, 0, height) == Checkerboard(orig, rowPitch, width, height, colors)
  {
  }

  /** Nothing is written before the loop starts. */
  lemma FillStart(orig: seq<bv8>, rowPitch: nat, width: nat, height: nat, colors: seq<bv32>)
    requires PitchFits(rowPitch, width, height, |orig|) && |colors| >= 2
    ensures Partial(orig, rowPitch, width, height, colors, 0, 0) == orig
  {
    var p := Partial(orig, rowPitch, width, height, colors, 0, 0);
    forall i | 0 <= i < |orig|
      ensures p[i] == orig[i]
    {
      assert p[i] == FilledSoFar(orig, i, rowPitch, width, height, colors, 0, 0);
      DivModSplit(i, rowPitch);
    }
  }

  /** The `uint32_t` store `row[x] = w`. */
  method StoreWord(data: array<bv8>, off: nat, w: bv32)
    requires off + TexelBytes <= data.Length
    modifies data
    ensures data[..] == old(data[..])[..off] + WordBytes(w) + old(data[..])[off + TexelBytes..]
  {
    var b := WordBytes(w);
    data[off] := b[0];
    data[off + 1] := b[1];
    data[off + 2] := b[2];
    data[off + 3] := b[3];
    assert data[..] == old(data[..])[..off] + b + old(data[..])[off + TexelBytes..];
  }

  /** The nested fill loop of `demo_prepare_texture_image`: each row starts at
      `rowPitch * y` in the mapped memory and pixel x of it gets
      `colors[(x & 1) ^ (y & 1)]`. */
  method FillCheckerboard(data: array<bv8>, rowPitch: nat, width: nat, height: nat, colors: seq<bv32>)
    requires PitchFits(rowPitch, width, height, data.Length) && |colors| >= 2
    modifies data
    ensures data[..] == Checkerboard(old(data[..]), rowPitch, width, height, colors)
  {
    ghost var orig := data[..];
    FillStart(orig, rowPitch, width, height, colors);
    var y := 0;
    while y < height
      invariant 0 <= y <= height
      invariant data[..] == Partial(orig, rowPitch, width, height, colors, 0, y)
    {
      var x := 0;
      while x < width
        invariant 0 <= x <= width
        invariant data[..] == Partial(orig, rowPitch, width, height, colors, x, y)
      {
        FillStep(orig, rowPitch, width, height, colors, x, y);
        StoreWord(data, PixelOffset(rowPitch, x, y), colors[ColorIndex(x, y)]);
        x := x + 1;
      }
      RowDone(orig, rowPitch, width, height, colors, y);
      y := y + 1;
    }
    FillDone(orig, rowPitch, width, height, colors);
  }

  /** `texture_object`, without the `sampler` and `view` handles, whose
      creation is not modelled. */
  class TextureObject {
    var image: Handle
    var mem: Handle
    var texWidth: int
    var texHeight: int
    var imageLayout: ImageLayout

    /** A zeroed `texture_object`, as `memset` leaves it. */
    constructor()
      ensures image == NullHandle && mem == NullHandle
      ensures texWidth == 0 && texHeight == 0 && imageLayout == Undefined
    {
      image, mem := NullHandle, NullHandle;
      texWidth, texHeight := 0, 0;
      imageLayout := Undefined;
    }
  }

  /** The create info of the 2x2 B8G8R8A8 image. */
  function TextureImageInfo(tiling: ImageTiling, usage: bv32): (r: ImageCreateInfo)
    ensures r.format == B8G8R8A8Unorm && r.extent == Extent3D(2, 2, 1)
    ensures r.tiling == tiling && r.usage == usage
  {
    ImageCreateInfo(B8G8R8A8Unorm, Extent3D(TexWidth, TexHeight, 1), tiling, usage)
  }

  /** The test of the fill: the host-visible bit is among the required properties. */
  predicate HostVisible(requiredProps: bv32)
    ensures HostVisible(requiredProps) <==> requiredProps & MemoryPropertyHostVisible == MemoryPropertyHostVisible
  {
    requiredProps & MemoryPropertyHostVisible != 0
  }

  /** The driver calls that create, back and (when host visible) fill an image. */
  function PrepareCalls(image: Handle, mem: Handle, info: ImageCreateInfo, requiredProps: bv32): seq<Call>
  {
    [Call.CreateImage(image, info), Call.AllocateMemory(mem, requiredProps), BindImageMemory(image, mem)]
    + (if HostVisible(requiredProps) then [MapMemory(mem), UnmapMemory(mem)] else [])
  }

  /** Creating, backing, filling an image and opening the setup command
      buffer submit nothing. */
  lemma PrepareSubmitsNothing(image: Handle, mem: Handle, info: ImageCreateInfo, requiredProps: bv32,
                              setupCmd: Option<Handle>, cmd: Handle)
    ensures Submissions(PrepareCalls(image, mem, info, requiredProps) + OpenCalls(setupCmd, cmd)) == []
  {
    var calls := PrepareCalls(image, mem, info, requiredProps) + OpenCalls(setupCmd, cmd);
    forall i | 0 <= i < |calls| ensures !calls[i].QueueSubmit? {
    }
    NoSubmitCalls(calls);
  }

  /** The first part of `demo_prepare_texture_image`: the image, its memory,
      and the binding of the two. */
  method CreateBoundImage(dev: Device, info: ImageCreateInfo, requiredProps: bv32)
      returns (image: Handle, mem: Handle)
    requires dev.Valid()
    modifies dev
    ensures dev.Valid()
    ensures image == old(dev.nextHandle) && mem == image + 1 && dev.nextHandle == mem + 1
    ensures dev.liveImages == old(dev.liveImages) + {image}
    ensures dev.liveMemory == old(dev.liveMemory) + {mem}
    ensures dev.trace == old(dev.trace)
      + [Call.CreateImage(image, info), Call.AllocateMemory(mem, requiredProps), BindImageMemory(image, mem)]
    ensures dev.setupCmd == old(dev.setupCmd) && dev.recorded == old(dev.recorded)
  {
    image := dev.CreateImage(info);
    mem := dev.AllocateMemory(requiredProps);
    dev.Log(BindImageMemory(image, mem));
  }

  /** The host-visible part of `demo_prepare_texture_image`: map the memory,
      write the checkerboard, unmap. */
  method FillMapped(dev: Device, mem: Handle, colors: seq<bv32>, mapped: array<bv8>, rowPitch: nat)
    requires dev.Valid() && |colors| >= 2
    requires PitchFits(rowPitch, TexWidth, TexHeight, mapped.Length)
    modifies dev, mapped
    ensures dev.Valid()
    ensures dev.trace == old(dev.trace) + [MapMemory(mem), UnmapMemory(mem)]
    ensures dev.setupCmd == old(dev.setupCmd) && dev.recorded == old(dev.recorded)
    ensures dev.nextHandle == old(dev.nextHandle)
    ensures dev.liveImages == old(dev.liveImages) && dev.liveMemory == old(dev.liveMemory)
    ensures mapped[..] == Checkerboard(old(mapped[..]), rowPitch, TexWidth, TexHeight, colors)
  {
    dev.Log(MapMemory(mem));
    FillCheckerboard(mapped, rowPitch, TexWidth, TexHeight, colors);
    dev.Log(UnmapMemory(mem));
  }

  /** `demo_prepare_texture_image`. `mapped` and `rowPitch` stand for the
      memory `vkMapMemory` maps and the pitch `vkGetImageSubresourceLayout`
      reports; they are only used when the memory is host visible. */
  method PrepareTextureImage(dev: Device, colors: seq<bv32>, texObj: TextureObject,
                             tiling: ImageTiling, usage: bv32, requiredProps: bv32,
                             mapped: array<bv8>, rowPitch: nat)
    requires dev.Valid() && |colors| >= 2
    requires HostVisible(requiredProps) ==> PitchFits(rowPitch, TexWidth, TexHeight, mapped.Length)
    modifies dev, texObj, mapped
    ensures dev.Valid()
    ensures texObj.image == old(dev.nextHandle) && texObj.mem == texObj.image + 1
    ensures texObj.texWidth == TexWidth && texObj.texHeight == TexHeight
    ensures texObj.imageLayout == ShaderReadOnlyOptimal
    ensures dev.liveImages == old(dev.liveImages) + {texObj.image}
    ensures dev.liveMemory == old(dev.liveMemory) + {texObj.mem}
    ensures dev.trace == old(dev.trace)
      + PrepareCalls(texObj.image, texObj.mem, TextureImageInfo(tiling, usage), requiredProps)
      + OpenCalls(old(dev.setupCmd), texObj.mem + 1)
    ensures dev.setupCmd == (if old(dev.setupCmd).None? then Some(texObj.mem + 1) else old(dev.setupCmd))
    ensures dev.nextHandle == texObj.mem + 1 + (if old(dev.setupCmd).None? then 1 else 0)
    ensures dev.recorded == old(dev.recorded)
      + [LayoutBarrier(texObj.image, ImageAspectColor, Undefined, ShaderReadOnlyOptimal)]
    ensures HostVisible(requiredProps) ==>
      mapped[..] == Checkerboard(old(mapped[..]), rowPitch, TexWidth, TexHeight, colors)
    ensures !HostVisible(requiredProps) ==> mapped[..] == old(mapped[..])
  {
    texObj.texWidth := TexWidth;
    texObj.texHeight := TexHeight;

    var image, mem := CreateBoundImage(dev, TextureImageInfo(tiling, usage), requiredProps);
    texObj.image, texObj.mem := image, mem;
    ghost var created := [Call.CreateImage(image, TextureImageInfo(tiling, usage)),
                          Call.AllocateMemory(mem, requiredProps), BindImageMemory(image, mem)];

    if HostVisible(requiredProps) {
      FillMapped(dev, mem, colors, mapped, rowPitch);
      assert dev.trace == old(dev.trace) + (created + [MapMemory(mem), UnmapMemory(mem)]);
    }
    ghost var prepare := PrepareCalls(image, mem, TextureImageInfo(tiling, usage), requiredProps);
    assert dev.trace == old(dev.trace) + prepare;

    texObj.imageLayout := ShaderReadOnlyOptimal;
    dev.SetImageLayout(texObj.image, ImageAspectColor, Undefined, texObj.imageLayout);
  }

  /** `demo_destroy_texture_image`: the image goes first, then its memory. No
      recorded command may still refer to the image. */
  method DestroyTextureImage(dev: Device, texObj: TextureObject)
    requires dev.Valid()
    requires texObj.image !in ImagesOf(dev.recorded)
    modifies dev
    ensures dev.Valid()
    ensures dev.trace == old(dev.trace) + [Call.DestroyImage(texObj.image), Call.FreeMemory(texObj.mem)]
    ensures dev.liveImages == old(dev.liveImages) - {texObj.image}
    ensures dev.liveMemory == old(dev.liveMemory) - {texObj.mem}
    ensures dev.setupCmd == old(dev.setupCmd) && dev.recorded == old(dev.recorded)
    ensures dev.nextHandle == old(dev.nextHandle)
  {
    dev.DestroyImage(texObj.image);
    dev.FreeMemory(texObj.mem);
  }
}

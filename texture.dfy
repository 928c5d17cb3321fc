/** `Texture::Texture(const char*, bool)` of the Vulkan backend: choosing how
    to get the 2x2 checkerboard into a sampled image (a linear image written
    directly, or a linear staging image copied into an optimal one), the fixed
    sequence of preparations, transitions, the copy, the flush and the
    destruction of the staging image; and `Texture::stride`. */
module Texture {
  import opened Vulkan
  import opened SetupCommands
  import opened TextureImage

  /** VkFormatProperties of B8G8R8A8_UNORM on the device. */
  datatype FormatProperties = FormatProperties(
    linearTilingFeatures: bv32, optimalTilingFeatures: bv32, bufferFeatures: bv32)

  datatype Strategy = DirectLinear | StagedOptimal | Unsupported

  /** The two colours of the checkerboard, `tex_colors[0]`. */
  const TexColors: seq<bv32> := [0xffff0000, 0xff00ff00]

  /** The strategy test of the constructor: a linear image when linear tiling
      can be sampled and staging is not forced, else a staged copy when
      optimal tiling can be sampled, else no way to texture from the format. */
  function ChooseStrategy(props: FormatProperties, useStagingBuffer: bool): (r: Strategy)
    ensures r.DirectLinear? ==> props.linearTilingFeatures & FormatFeatureSampledImage != 0
    ensures r.StagedOptimal? ==> props.optimalTilingFeatures & FormatFeatureSampledImage != 0
  {
    if props.linearTilingFeatures & FormatFeatureSampledImage != 0 && !useStagingBuffer then DirectLinear
    else if props.optimalTilingFeatures & FormatFeatureSampledImage != 0 then StagedOptimal
    else Unsupported
  }

  /** The format is refused exactly when neither tiling can be sampled in
      the way the configuration allows. */
  lemma UnsupportedIff(props: FormatProperties, useStagingBuffer: bool)
    ensures ChooseStrategy(props, useStagingBuffer).Unsupported? <==>
      && props.optimalTilingFeatures & FormatFeatureSampledImage == 0
      && (useStagingBuffer || props.linearTilingFeatures & FormatFeatureSampledImage == 0)
  {
  }

  /** Forcing the staging buffer never yields the direct path, and it is
      only the linear tiling and the flag that decide for the direct path. */
  lemma StagingFlag(props: FormatProperties)
    ensures !ChooseStrategy(props, true).DirectLinear?
    ensures ChooseStrategy(props, false).DirectLinear? <==> props.linearTilingFeatures & FormatFeatureSampledImage != 0
    ensures props.optimalTilingFeatures & FormatFeatureSampledImage != 0 ==> ChooseStrategy(props, true).StagedOptimal?
  {
  }

  /** The region `copy_region`: the whole first mip level of the colour
      aspect, from offset 0 to offset 0. */
  function CopyRegion(width: nat, height: nat): (r: ImageCopy)
    ensures r.srcOffset == r.dstOffset == Offset3D(0, 0, 0)
    ensures r.srcSubresource == r.dstSubresource == SubresourceLayers(ImageAspectColor, 0, 0, 1)
    ensures r.extent == Extent3D(width, height, 1)
  {
    ImageCopy(SubresourceLayers(ImageAspectColor, 0, 0, 1), Offset3D(0, 0, 0),
              SubresourceLayers(ImageAspectColor, 0, 0, 1), Offset3D(0, 0, 0),
              Extent3D(width, height, 1))
  }

  /** What the staged path records, in order: the first transition of each
      prepared image, the staging image to transfer source and the
      destination to transfer destination (both starting from the layout the
      texture objects hold), the copy, and the destination back to
      shader-read-only. */
  function StagedCommands(staging: Handle, dest: Handle): (r: seq<Command>)
    ensures |r| == 6
    ensures forall i | 0 <= i < |r| :: CommandImages(r[i]) <= {staging, dest}
  {
    [ LayoutBarrier(staging, ImageAspectColor, Undefined, ShaderReadOnlyOptimal),
      LayoutBarrier(dest, ImageAspectColor, Undefined, ShaderReadOnlyOptimal),
      LayoutBarrier(staging, ImageAspectColor, ShaderReadOnlyOptimal, TransferSrcOptimal),
      LayoutBarrier(dest, ImageAspectColor, ShaderReadOnlyOptimal, TransferDstOptimal),
      CopyImage(staging, TransferSrcOptimal, dest, TransferDstOptimal, CopyRegion(TexWidth, TexHeight)),
      LayoutBarrier(dest, ImageAspectColor, TransferDstOptimal, ShaderReadOnlyOptimal) ]
  }

  /** The number of copies among some commands. */
  function CopyCount(cmds: seq<Command>): (n: nat)
    ensures n == 0 <==> forall i | 0 <= i < |cmds| :: !cmds[i].CopyImage?
  {
    if cmds == [] then 0 else (if cmds[0].CopyImage? then 1 else 0) + CopyCount(cmds[1..])
  }

  /** The staged batch holds one copy, the fifth command, of the whole 2x2
      image from the staging image into the destination, and refers to no
      other image. */
  lemma StagedCopy(staging: Handle, dest: Handle)
    ensures CopyCount(StagedCommands(staging, dest)) == 1
    ensures StagedCommands(staging, dest)[4].CopyImage?
    ensures StagedCommands(staging, dest)[4].src == staging && StagedCommands(staging, dest)[4].dst == dest
    ensures StagedCommands(staging, dest)[4].region.extent == Extent3D(2, 2, 1)
    ensures ImagesOf(StagedCommands(staging, dest)) == {staging, dest}
  {
    var cmds := StagedCommands(staging, dest);
    assert CopyCount(cmds[6..]) == 0 && ImagesOf(cmds[6..]) == {};
    assert CopyCount(cmds[5..]) == 0 && ImagesOf(cmds[5..]) == {dest};
    assert CopyCount(cmds[4..]) == 1 && ImagesOf(cmds[4..]) == {staging, dest};
    assert cmds[3..][1..] == cmds[4..];
    assert CopyCount(cmds[3..]) == 1 && ImagesOf(cmds[3..]) == {staging, dest};
    assert cmds[2..][1..] == cmds[3..];
    assert CopyCount(cmds[2..]) == 1 && ImagesOf(cmds[2..]) == {staging, dest};
    assert cmds[1..][1..] == cmds[2..];
    assert CopyCount(cmds[1..]) == 1 && ImagesOf(cmds[1..]) == {staging, dest};
  }

  /** Every transition of the staged batch starts from the layout its image
      is in, the copy finds the staging image in transfer-source and the
      destination in transfer-destination layout, and at the end the
      destination is shader-read-only; this holds for two images no earlier
      barrier has touched. */
  lemma StagedReplay(staging: Handle, dest: Handle, state: map<Handle, ImageLayout>)
    requires staging != dest && staging !in state && dest !in state
    ensures Replay(StagedCommands(staging, dest)[..4], state)
         == Some(state[staging := TransferSrcOptimal][dest := TransferDstOptimal])
    ensures Replay(StagedCommands(staging, dest), state)
         == Some(state[staging := TransferSrcOptimal][dest := ShaderReadOnlyOptimal])
  {
    var cmds := StagedCommands(staging, dest);
    var s1 := state[staging := ShaderReadOnlyOptimal];
    var s2 := s1[dest := ShaderReadOnlyOptimal];
    var s3 := s2[staging := TransferSrcOptimal];
    var s4 := s3[dest := TransferDstOptimal];
    var s5 := s4[dest := ShaderReadOnlyOptimal];
    assert cmds[5..][1..] == [];
    assert Replay(cmds[5..], s4) == Some(s5);
    assert cmds[4..][1..] == cmds[5..];
    assert Replay(cmds[4..], s4) == Some(s5);
    assert cmds[3..][1..] == cmds[4..];
    assert Replay(cmds[3..], s3) == Some(s5);
    assert cmds[2..][1..] == cmds[3..];
    assert Replay(cmds[2..], s2) == Some(s5);
    assert cmds[1..][1..] == cmds[2..];
    assert Replay(cmds[1..], s1) == Some(s5);
    assert s5 == state[staging := TransferSrcOptimal][dest := ShaderReadOnlyOptimal];
    var pre := cmds[..4];
    assert pre[3..][1..] == [];
    assert Replay(pre[3..], s3) == Some(s4);
    assert pre[2..][1..] == pre[3..];
    assert Replay(pre[2..], s2) == Some(s4);
    assert pre[1..][1..] == pre[2..];
    assert Replay(pre[1..], s1) == Some(s4);
    assert s4 == state[staging := TransferSrcOptimal][dest := TransferDstOptimal];
  }

  /** The staged batch also replays when appended to commands already
      recorded for other images (a batch left open by an earlier direct
      upload). */
  lemma StagedAfter(prefix: seq<Command>, staging: Handle, dest: Handle, state: map<Handle, ImageLayout>)
    requires staging != dest && staging !in state && dest !in state
    requires staging !in ImagesOf(prefix) && dest !in ImagesOf(prefix)
    requires Replay(prefix, state).Some?
    ensures Replay(prefix + StagedCommands(staging, dest), state).Some?
    ensures LayoutIn(Replay(prefix + StagedCommands(staging, dest), state).value, dest) == ShaderReadOnlyOptimal
  {
    var m := Replay(prefix, state).value;
    ReplayTouches(prefix, state, staging);
    ReplayTouches(prefix, state, dest);
    var m' := m - {staging, dest};
    assert m == m';
    StagedReplay(staging, dest, m');
    ReplayAppend(prefix, StagedCommands(staging, dest), state);
  }

  /** The direct path's only command, the first transition of the image,
      replays from an untouched image to shader-read-only. */
  lemma DirectReplay(image: Handle, state: map<Handle, ImageLayout>)
    requires image !in state
    ensures Replay([LayoutBarrier(image, ImageAspectColor, Undefined, ShaderReadOnlyOptimal)], state)
         == Some(state[image := ShaderReadOnlyOptimal])
  {
    LayoutBarrierReplay(image, ImageAspectColor, Undefined, ShaderReadOnlyOptimal, state);
  }

  /** The calls of the staged path submit exactly one batch: the commands
      of the setup command buffer at the flush. */
  lemma {:induction false} StagedSubmissions(before: seq<Call>, staging: Handle, stagingMem: Handle, image: Handle, mem: Handle,
                                             setupCmd: Option<Handle>, cmd: Handle, batch: seq<Command>)
    ensures Submissions(before +
        PrepareCalls(staging, stagingMem, TextureImageInfo(TilingLinear, ImageUsageTransferSrc), MemoryPropertyHostVisible)
      + OpenCalls(setupCmd, stagingMem + 1)
      + PrepareCalls(image, mem, TextureImageInfo(TilingOptimal, ImageUsageTransferDst | ImageUsageSampled), MemoryPropertyDeviceLocal)
      + FlushCalls(cmd, batch)
      + [Call.DestroyImage(staging), Call.FreeMemory(stagingMem)]) == Submissions(before) + [batch]
  {
    var p := PrepareCalls(staging, stagingMem, TextureImageInfo(TilingLinear, ImageUsageTransferSrc), MemoryPropertyHostVisible);
    var o := OpenCalls(setupCmd, stagingMem + 1);
    var a := p + o;
    var b := PrepareCalls(image, mem, TextureImageInfo(TilingOptimal, ImageUsageTransferDst | ImageUsageSampled), MemoryPropertyDeviceLocal);
    var f := FlushCalls(cmd, batch);
    var d := [Call.DestroyImage(staging), Call.FreeMemory(stagingMem)];
    PrepareSubmitsNothing(staging, stagingMem, TextureImageInfo(TilingLinear, ImageUsageTransferSrc), MemoryPropertyHostVisible,
                          setupCmd, stagingMem + 1);
    PrepareSubmitsNothing(image, mem, TextureImageInfo(TilingOptimal, ImageUsageTransferDst | ImageUsageSampled), MemoryPropertyDeviceLocal,
                          Some(cmd), cmd);
    assert b + OpenCalls(Some(cmd), cmd) == b;
    FlushSubmitsOnce(cmd, batch);
    assert d[1..][1..] == [];
    SubmissionsAppend(a, b);
    SubmissionsAppend(a + b, f);
    SubmissionsAppend(a + b + f, d);
    SubmissionsAppend(before, a + b + f + d);
    assert before + p + o + b + f + d == before + (a + b + f + d);
  }

  /** The direct path: one linear, sampled, host-visible image, filled in
      place; its transition stays in the open setup command buffer. */
  method PrepareDirect(dev: Device, texObj: TextureObject, mapped: array<bv8>, rowPitch: nat)
    requires dev.Valid()
    requires PitchFits(rowPitch, TexWidth, TexHeight, mapped.Length)
    modifies dev, texObj, mapped
    ensures dev.Valid()
    ensures texObj.image == old(dev.nextHandle) && texObj.mem == texObj.image + 1
    ensures texObj.texWidth == TexWidth && texObj.texHeight == TexHeight
    ensures texObj.imageLayout == ShaderReadOnlyOptimal
    ensures dev.liveImages == old(dev.liveImages) + {texObj.image}
    ensures dev.liveMemory == old(dev.liveMemory) + {texObj.mem}
    ensures dev.trace == old(dev.trace)
      + PrepareCalls(texObj.image, texObj.mem, TextureImageInfo(TilingLinear, ImageUsageSampled), MemoryPropertyHostVisible)
      + OpenCalls(old(dev.setupCmd), texObj.mem + 1)
    ensures dev.setupCmd == (if old(dev.setupCmd).None? then Some(texObj.mem + 1) else old(dev.setupCmd))
    ensures dev.nextHandle == texObj.mem + 1 + (if old(dev.setupCmd).None? then 1 else 0)
    ensures dev.recorded == old(dev.recorded)
      + [LayoutBarrier(texObj.image, ImageAspectColor, Undefined, ShaderReadOnlyOptimal)]
    ensures dev.Submitted() == old(dev.Submitted())
    ensures mapped[..] == Checkerboard(old(mapped[..]), rowPitch, TexWidth, TexHeight, TexColors)
  {
    PrepareTextureImage(dev, TexColors, texObj, TilingLinear, ImageUsageSampled, MemoryPropertyHostVisible, mapped, rowPitch);
    var calls := PrepareCalls(texObj.image, texObj.mem, TextureImageInfo(TilingLinear, ImageUsageSampled), MemoryPropertyHostVisible)
               + OpenCalls(old(dev.setupCmd), texObj.mem + 1);
    PrepareSubmitsNothing(texObj.image, texObj.mem, TextureImageInfo(TilingLinear, ImageUsageSampled), MemoryPropertyHostVisible,
                          old(dev.setupCmd), texObj.mem + 1);
    assert dev.trace == old(dev.trace) + calls;
    SubmissionsAppend(old(dev.trace), calls);
  }

  /** The commands between the preparations and the flush: the two
      transitions into transfer layouts, the copy, and the destination's
      transition back. The old layouts are the ones the texture objects hold. */
  method RecordCopy(dev: Device, stagingTexture: TextureObject, texObj: TextureObject)
    requires dev.Valid() && dev.setupCmd.Some?
    requires stagingTexture.image in dev.liveImages && texObj.image in dev.liveImages
    requires stagingTexture.imageLayout == ShaderReadOnlyOptimal && texObj.imageLayout == ShaderReadOnlyOptimal
    requires stagingTexture.texWidth == TexWidth && stagingTexture.texHeight == TexHeight
    modifies dev
    ensures dev.Valid()
    ensures dev.recorded == old(dev.recorded) + StagedCommands(stagingTexture.image, texObj.image)[2..]
    ensures dev.setupCmd == old(dev.setupCmd) && dev.trace == old(dev.trace) && dev.nextHandle == old(dev.nextHandle)
    ensures dev.liveImages == old(dev.liveImages) && dev.liveMemory == old(dev.liveMemory)
  {
    dev.SetImageLayout(stagingTexture.image, ImageAspectColor, stagingTexture.imageLayout, TransferSrcOptimal);
    dev.SetImageLayout(texObj.image, ImageAspectColor, texObj.imageLayout, TransferDstOptimal);
    dev.CmdCopyImage(stagingTexture.image, TransferSrcOptimal, texObj.image, TransferDstOptimal,
                     CopyRegion(stagingTexture.texWidth, stagingTexture.texHeight));
    dev.SetImageLayout(texObj.image, ImageAspectColor, TransferDstOptimal, texObj.imageLayout);
  }

  /** The staged path up to the flush: the staging image and the destination
      are prepared, and the transitions and the copy are recorded. */
  method RecordStaged(dev: Device, texObj: TextureObject, mapped: array<bv8>, rowPitch: nat)
      returns (stagingTexture: TextureObject)
    requires dev.Valid()
    requires PitchFits(rowPitch, TexWidth, TexHeight, mapped.Length)
    modifies dev, texObj, mapped
    ensures dev.Valid() && fresh(stagingTexture)
    ensures stagingTexture.image == old(dev.nextHandle) && stagingTexture.mem == stagingTexture.image + 1
    ensures texObj.image == stagingTexture.mem + 1 + (if old(dev.setupCmd).None? then 1 else 0)
    ensures texObj.mem == texObj.image + 1
    ensures texObj.texWidth == TexWidth && texObj.texHeight == TexHeight
    ensures texObj.imageLayout == ShaderReadOnlyOptimal
    ensures dev.setupCmd == Some(if old(dev.setupCmd).None? then stagingTexture.mem + 1 else old(dev.setupCmd).value)
    ensures dev.nextHandle == texObj.mem + 1
    ensures dev.recorded == old(dev.recorded) + StagedCommands(stagingTexture.image, texObj.image)
    ensures dev.liveImages == old(dev.liveImages) + {stagingTexture.image, texObj.image}
    ensures dev.liveMemory == old(dev.liveMemory) + {stagingTexture.mem, texObj.mem}
    ensures dev.trace == old(dev.trace)
      + PrepareCalls(stagingTexture.image, stagingTexture.mem, TextureImageInfo(TilingLinear, ImageUsageTransferSrc), MemoryPropertyHostVisible)
      + OpenCalls(old(dev.setupCmd), stagingTexture.mem + 1)
      + PrepareCalls(texObj.image, texObj.mem, TextureImageInfo(TilingOptimal, ImageUsageTransferDst | ImageUsageSampled), MemoryPropertyDeviceLocal)
    ensures mapped[..] == Checkerboard(old(mapped[..]), rowPitch, TexWidth, TexHeight, TexColors)
  {
    stagingTexture := new TextureObject();
    PrepareTextureImage(dev, TexColors, stagingTexture, TilingLinear, ImageUsageTransferSrc, MemoryPropertyHostVisible, mapped, rowPitch);
    PrepareTextureImage(dev, TexColors, texObj, TilingOptimal, ImageUsageTransferDst | ImageUsageSampled, MemoryPropertyDeviceLocal, mapped, rowPitch);
    ghost var prepared := dev.recorded;
    RecordCopy(dev, stagingTexture, texObj);
    assert dev.recorded == prepared + StagedCommands(stagingTexture.image, texObj.image)[2..];
  }

  /** The staged path: a linear host-visible staging image filled in place, an
      optimal device-local destination, the transitions and the copy, one
      flush, and then the staging image (image first, then memory) is
      destroyed. The destination stays alive and nothing is left open. */
  method PrepareStaged(dev: Device, texObj: TextureObject, mapped: array<bv8>, rowPitch: nat)
      returns (ghost staging: Handle, ghost stagingMem: Handle)
    requires dev.Valid()
    requires PitchFits(rowPitch, TexWidth, TexHeight, mapped.Length)
    modifies dev, texObj, mapped
    ensures dev.Valid()
    ensures staging == old(dev.nextHandle) && stagingMem == staging + 1
    ensures texObj.image == stagingMem + 1 + (if old(dev.setupCmd).None? then 1 else 0)
    ensures texObj.mem == texObj.image + 1
    ensures texObj.texWidth == TexWidth && texObj.texHeight == TexHeight
    ensures texObj.imageLayout == ShaderReadOnlyOptimal
    ensures dev.setupCmd == None && dev.recorded == []
    ensures dev.nextHandle == texObj.mem + 1
    ensures dev.liveImages == old(dev.liveImages) + {texObj.image}
    ensures dev.liveMemory == old(dev.liveMemory) + {texObj.mem}
    ensures dev.trace == old(dev.trace)
      + PrepareCalls(staging, stagingMem, TextureImageInfo(TilingLinear, ImageUsageTransferSrc), MemoryPropertyHostVisible)
      + OpenCalls(old(dev.setupCmd), stagingMem + 1)
      + PrepareCalls(texObj.image, texObj.mem, TextureImageInfo(TilingOptimal, ImageUsageTransferDst | ImageUsageSampled), MemoryPropertyDeviceLocal)
      + FlushCalls(if old(dev.setupCmd).None? then stagingMem + 1 else old(dev.setupCmd).value,
                   old(dev.recorded) + StagedCommands(staging, texObj.image))
      + [Call.DestroyImage(staging), Call.FreeMemory(stagingMem)]
    ensures dev.Submitted() == old(dev.Submitted()) + [old(dev.recorded) + StagedCommands(staging, texObj.image)]
    ensures mapped[..] == Checkerboard(old(mapped[..]), rowPitch, TexWidth, TexHeight, TexColors)
  {
    var stagingTexture := RecordStaged(dev, texObj, mapped, rowPitch);
    staging, stagingMem := stagingTexture.image, stagingTexture.mem;
    ghost var cmd := dev.setupCmd.value;
    ghost var batch := dev.recorded;
    dev.FlushInitCmd();
    DestroyTextureImage(dev, stagingTexture);
    StagedSubmissions(old(dev.trace), staging, stagingMem, texObj.image, texObj.mem, old(dev.setupCmd), cmd, batch);
  }

  /** The Vulkan `Texture` (its `Image` base reduced to the width it reports). */
  class Texture {
    /** `Image::width` of the loaded file. */
    var width: int
    var texture: TextureObject
    /** The upload strategy the constructor took. */
    ghost var strategy: Strategy
    /** The staging image and memory of the staged path. */
    ghost var stagingImage: Handle
    ghost var stagingMem: Handle

    /** `Texture::Texture(const char*, bool)` up to the sampler and view.
        `mapped` and `rowPitch` stand for the host-visible mapping of the image
        that gets the pixels (the texture itself or its staging image). */
    constructor(dev: Device, width: int, props: FormatProperties, useStagingBuffer: bool,
                mapped: array<bv8>, rowPitch: nat)
      requires dev.Valid()
      requires PitchFits(rowPitch, TexWidth, TexHeight, mapped.Length)
      modifies dev, mapped
      ensures dev.Valid()
      ensures this.width == width
      ensures strategy == ChooseStrategy(props, useStagingBuffer)
      ensures fresh(texture)
      ensures strategy.Unsupported? ==>
        && unchanged(dev) && unchanged(mapped)
        && texture.image == NullHandle && texture.mem == NullHandle && texture.imageLayout == Undefined
      ensures !strategy.Unsupported? ==>
        && texture.texWidth == TexWidth && texture.texHeight == TexHeight
        && texture.imageLayout == ShaderReadOnlyOptimal
        && dev.liveImages == old(dev.liveImages) + {texture.image}
        && dev.liveMemory == old(dev.liveMemory) + {texture.mem}
        && mapped[..] == Checkerboard(old(mapped[..]), rowPitch, TexWidth, TexHeight, TexColors)
      ensures strategy.DirectLinear? ==>
        && texture.image == old(dev.nextHandle) && texture.mem == texture.image + 1
        && dev.trace == old(dev.trace)
          + PrepareCalls(texture.image, texture.mem, TextureImageInfo(TilingLinear, ImageUsageSampled), MemoryPropertyHostVisible)
          + OpenCalls(old(dev.setupCmd), texture.mem + 1)
        && dev.setupCmd == (if old(dev.setupCmd).None? then Some(texture.mem + 1) else old(dev.setupCmd))
        && dev.nextHandle == texture.mem + 1 + (if old(dev.setupCmd).None? then 1 else 0)
        && dev.recorded == old(dev.recorded) + [LayoutBarrier(texture.image, ImageAspectColor, Undefined, ShaderReadOnlyOptimal)]
        && dev.Submitted() == old(dev.Submitted())
      ensures strategy.StagedOptimal? ==>
        && stagingImage == old(dev.nextHandle) && stagingMem == stagingImage + 1
        && texture.image == stagingMem + 1 + (if old(dev.setupCmd).None? then 1 else 0)
        && texture.mem == texture.image + 1
        && dev.trace == old(dev.trace)
          + PrepareCalls(stagingImage, stagingMem, TextureImageInfo(TilingLinear, ImageUsageTransferSrc), MemoryPropertyHostVisible)
          + OpenCalls(old(dev.setupCmd), stagingMem + 1)
          + PrepareCalls(texture.image, texture.mem, TextureImageInfo(TilingOptimal, ImageUsageTransferDst | ImageUsageSampled), MemoryPropertyDeviceLocal)
          + FlushCalls(if old(dev.setupCmd).None? then stagingMem + 1 else old(dev.setupCmd).value,
                       old(dev.recorded) + StagedCommands(stagingImage, texture.image))
          + [Call.DestroyImage(stagingImage), Call.FreeMemory(stagingMem)]
        && dev.setupCmd == None && dev.recorded == [] && dev.nextHandle == texture.mem + 1
        && dev.Submitted() == old(dev.Submitted()) + [old(dev.recorded) + StagedCommands(stagingImage, texture.image)]
    {
      var t := new TextureObject();
      var s := ChooseStrategy(props, useStagingBuffer);
      ghost var si: Handle, sm: Handle := NullHandle, NullHandle;
      if s.DirectLinear? {
        PrepareDirect(dev, t, mapped, rowPitch);
      } else if s.StagedOptimal? {
        si, sm := PrepareStaged(dev, t, mapped, rowPitch);
      }
      this.width := width;
      texture := t;
      strategy := s;
      stagingImage, stagingMem := si, sm;
    }

    /** `Texture::stride`: the bytes of one tightly packed row of the loaded image. */
    function Stride(): (r: int)
      reads this
      ensures r == TexelBytes * width
    {
      width * 4
    }
  }

  /** As the row pitch of a tightly packed buffer of the loaded image's
      width, Stride() fits the buffer and puts pixel (x, y) at its row-major
      texel index. */
  lemma StrideIsTightPitch(t: Texture, height: nat, x: nat, y: nat)
    requires 0 < t.width < 0x8000_0000 && height < 0x8000_0000
    requires x < t.width && y < height
    ensures t.Stride() == TexelBytes * t.width
    ensures PitchFits(t.Stride(), t.width, height, t.Stride() * height)
    ensures PixelOffset(t.Stride(), x, y) == TexelBytes * (y * t.width + x)
  {
    var w: nat := t.width;
    var pitch := TexelBytes * w;
    assert t.Stride() == pitch;
    if height > 0 {
      MulDistrib(pitch, height - 1, 1);
    }
    assert pitch * y == TexelBytes * (y * w) by {
      assert pitch * y == (TexelBytes * w) * y;
    }
  }
}

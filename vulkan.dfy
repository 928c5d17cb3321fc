/** The slice of the Vulkan API that the texture setup code uses, as values.
    Handles are opaque numbers handed out by the device model (0 is
    VK_NULL_HANDLE); flag words are 32-bit bit-vectors carrying the bit values
    of the Vulkan 1.0 headers. */
module Vulkan {

  datatype Option<+T> = None | Some(value: T)

  type Handle = nat

  const NullHandle: Handle := 0

  /** VkImageLayout (the Vulkan 1.0 core values). */
  datatype ImageLayout =
    | Undefined                       // VK_IMAGE_LAYOUT_UNDEFINED
    | General                         // VK_IMAGE_LAYOUT_GENERAL
    | ColorAttachmentOptimal          // VK_IMAGE_LAYOUT_COLOR_ATTACHMENT_OPTIMAL
    | DepthStencilAttachmentOptimal   // VK_IMAGE_LAYOUT_DEPTH_STENCIL_ATTACHMENT_OPTIMAL
    | DepthStencilReadOnlyOptimal     // VK_IMAGE_LAYOUT_DEPTH_STENCIL_READ_ONLY_OPTIMAL
    | ShaderReadOnlyOptimal           // VK_IMAGE_LAYOUT_SHADER_READ_ONLY_OPTIMAL
    | TransferSrcOptimal              // VK_IMAGE_LAYOUT_TRANSFER_SRC_OPTIMAL
    | TransferDstOptimal              // VK_IMAGE_LAYOUT_TRANSFER_DST_OPTIMAL
    | Preinitialized                  // VK_IMAGE_LAYOUT_PREINITIALIZED

  /** VkImageTiling. */
  datatype ImageTiling = TilingOptimal | TilingLinear

  /** VkFormat: the pipeline only ever uses VK_FORMAT_B8G8R8A8_UNORM. */
  datatype Format = B8G8R8A8Unorm

  /** Bytes per texel of B8G8R8A8_UNORM. */
  const TexelBytes: nat := 4

  // VkAccessFlagBits
  const AccessInputAttachmentRead: bv32 := 0x10
  const AccessShaderRead: bv32 := 0x20
  const AccessColorAttachmentWrite: bv32 := 0x100
  const AccessDepthStencilAttachmentWrite: bv32 := 0x400
  const AccessTransferRead: bv32 := 0x800
  const AccessTransferWrite: bv32 := 0x1000

  // VkPipelineStageFlagBits
  const PipelineStageTopOfPipe: bv32 := 0x1

  // VkImageAspectFlagBits
  const ImageAspectColor: bv32 := 0x1

  // VkImageUsageFlagBits
  const ImageUsageTransferSrc: bv32 := 0x1
  const ImageUsageTransferDst: bv32 := 0x2
  const ImageUsageSampled: bv32 := 0x4

  // VkMemoryPropertyFlagBits
  const MemoryPropertyDeviceLocal: bv32 := 0x1
  const MemoryPropertyHostVisible: bv32 := 0x2

  // VkFormatFeatureFlagBits
  const FormatFeatureSampledImage: bv32 := 0x1

  /** VkImageSubresourceRange {aspectMask, baseMipLevel, levelCount, baseArrayLayer, layerCount}. */
  datatype SubresourceRange = SubresourceRange(
    aspectMask: bv32, baseMipLevel: nat, levelCount: nat, baseArrayLayer: nat, layerCount: nat)

  /** VkImageSubresourceLayers {aspectMask, mipLevel, baseArrayLayer, layerCount}. */
  datatype SubresourceLayers = SubresourceLayers(
    aspectMask: bv32, mipLevel: nat, baseArrayLayer: nat, layerCount: nat)

  datatype Offset3D = Offset3D(x: int, y: int, z: int)
  datatype Extent3D = Extent3D(width: nat, height: nat, depth: nat)

  /** VkImageCopy. */
  datatype ImageCopy = ImageCopy(
    srcSubresource: SubresourceLayers, srcOffset: Offset3D,
    dstSubresource: SubresourceLayers, dstOffset: Offset3D,
    extent: Extent3D)

  /** VkImageMemoryBarrier (queue family fields are left at their zero value in the source). */
  datatype ImageMemoryBarrier = ImageMemoryBarrier(
    srcAccessMask: bv32, dstAccessMask: bv32,
    oldLayout: ImageLayout, newLayout: ImageLayout,
    image: Handle, subresourceRange: SubresourceRange)

  /** VkImageCreateInfo, restricted to the fields the texture code sets to
      something other than a fixed constant (2D, one mip level, one layer,
      one sample). */
  datatype ImageCreateInfo = ImageCreateInfo(
    format: Format, extent: Extent3D, tiling: ImageTiling, usage: bv32)

  /** A command recorded into a command buffer (vkCmd*). */
  datatype Command =
    | PipelineBarrier(srcStages: bv32, dstStages: bv32, barrier: ImageMemoryBarrier)
    | CopyImage(src: Handle, srcLayout: ImageLayout, dst: Handle, dstLayout: ImageLayout, region: ImageCopy)

  /** A call the texture code makes on the driver, other than recording a
      command; the device model keeps them in order. A submission carries the
      commands of the command buffer it submits. */
  datatype Call =
    | AllocateCommandBuffer(cmd: Handle)
    | BeginCommandBuffer(cmd: Handle)
    | EndCommandBuffer(cmd: Handle)
    | QueueSubmit(cmd: Handle, commands: seq<Command>)
    | QueueWaitIdle
    | FreeCommandBuffer(cmd: Handle)
    | CreateImage(image: Handle, info: ImageCreateInfo)
    | AllocateMemory(memory: Handle, requiredProps: bv32)
    | BindImageMemory(image: Handle, memory: Handle)
    | MapMemory(memory: Handle)
    | UnmapMemory(memory: Handle)
    | DestroyImage(image: Handle)
    | FreeMemory(memory: Handle)

  /** The images a command refers to. */
  function CommandImages(c: Command): set<Handle>
  {
    match c
    case PipelineBarrier(_, _, b) => {b.image}
    case CopyImage(src, _, dst, _, _) => {src, dst}
  }

  /** The images a sequence of commands refers to. */
  function ImagesOf(cmds: seq<Command>): (r: set<Handle>)
    ensures forall i | 0 <= i < |cmds| :: CommandImages(cmds[i]) <= r
  {
    if cmds == [] then {} else CommandImages(cmds[0]) + ImagesOf(cmds[1..])
  }

  lemma {:induction false} ImagesOfAppend(a: seq<Command>, b: seq<Command>)
    ensures ImagesOf(a + b) == ImagesOf(a) + ImagesOf(b)
  {
    if a == [] {
      assert a + b == b;
    } else {
      assert (a + b)[1..] == a[1..] + b;
      ImagesOfAppend(a[1..], b);
    }
  }

  /** The command lists of the submissions in a call trace, in submission order. */
  function Submissions(trace: seq<Call>): (r: seq<seq<Command>>)
    ensures |r| <= |trace|
  {
    if trace == [] then []
    else
      var rest := Submissions(trace[1..]);
      if trace[0].QueueSubmit? then [trace[0].commands] + rest else rest
  }

  lemma {:induction false} SubmissionsAppend(a: seq<Call>, b: seq<Call>)
    ensures Submissions(a + b) == Submissions(a) + Submissions(b)
  {
    if a == [] {
      assert a + b == b;
    } else {
      assert (a + b)[1..] == a[1..] + b;
      SubmissionsAppend(a[1..], b);
    }
  }

  /** A trace submits nothing exactly when none of its calls is a submission. */
  lemma {:induction false} NoSubmitCalls(trace: seq<Call>)
    ensures Submissions(trace) == [] <==> forall i | 0 <= i < |trace| :: !trace[i].QueueSubmit?
  {
    if trace != [] {
      NoSubmitCalls(trace[1..]);
      if Submissions(trace) == [] {
        forall i | 0 <= i < |trace| ensures !trace[i].QueueSubmit? {
          if i > 0 { assert trace[i] == trace[1..][i - 1]; }
        }
      } else if !trace[0].QueueSubmit? {
        var k :| 0 <= k < |trace[1..]| && trace[1..][k].QueueSubmit?;
        assert trace[k + 1].QueueSubmit?;
      }
    }
  }
}

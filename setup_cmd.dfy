/** The deferred setup command buffer of the Vulkan texture code: the global
    `setup_cmd`, opened lazily by `demo_set_image_layout` and submitted, waited
    for and released by `demo_flush_init_cmd`. The device side is abstract:
    driver calls are appended to a trace, and the open command buffer is the
    sequence of commands recorded into it. */
module SetupCommands {
  import opened Vulkan

  /** The destination access mask a layout transition asks for, keyed by the
      new layout. The transfer-destination entry is a transfer READ, as the
      code has it. */
  function DstAccessMask(newLayout: ImageLayout): (r: bv32)
    ensures r in {0, AccessTransferRead, AccessColorAttachmentWrite, AccessDepthStencilAttachmentWrite,
                  AccessShaderRead | AccessInputAttachmentRead}
  {
    match newLayout
    case TransferDstOptimal => AccessTransferRead
    case ColorAttachmentOptimal => AccessColorAttachmentWrite
    case DepthStencilAttachmentOptimal => AccessDepthStencilAttachmentWrite
    case ShaderReadOnlyOptimal => AccessShaderRead | AccessInputAttachmentRead
    case _ => 0
  }

  /** The access mask is empty exactly for the layouts the table does not list. */
  lemma DstAccessMaskZero(l: ImageLayout)
    ensures DstAccessMask(l) == 0 <==>
      !(l.TransferDstOptimal? || l.ColorAttachmentOptimal? ||
        l.DepthStencilAttachmentOptimal? || l.ShaderReadOnlyOptimal?)
  {
  }

  /** Only the two attachment layouts ask for a write access; in particular
      the transfer destination does not. */
  lemma DstAccessMaskWrites(l: ImageLayout)
    ensures DstAccessMask(l) & (AccessTransferWrite | AccessColorAttachmentWrite | AccessDepthStencilAttachmentWrite) != 0
            <==> l.ColorAttachmentOptimal? || l.DepthStencilAttachmentOptimal?
    ensures DstAccessMask(l) & AccessTransferWrite == 0
  {
  }

  /** The four listed layouts are told apart by their masks. */
  lemma DstAccessMaskDistinct(l1: ImageLayout, l2: ImageLayout)
    requires DstAccessMask(l1) != 0 && DstAccessMask(l1) == DstAccessMask(l2)
    ensures l1 == l2
  {
  }

  /** The command `demo_set_image_layout` records for one transition: a
      top-of-pipe to top-of-pipe barrier on the whole of the first mip level
      and array layer, with an empty source access mask. */
  function LayoutBarrier(image: Handle, aspectMask: bv32, oldLayout: ImageLayout, newLayout: ImageLayout): (r: Command)
    ensures r.PipelineBarrier? && CommandImages(r) == {image}
    ensures r.barrier.srcAccessMask == 0 && r.barrier.dstAccessMask == DstAccessMask(newLayout)
  {
    PipelineBarrier(PipelineStageTopOfPipe, PipelineStageTopOfPipe,
      ImageMemoryBarrier(0, DstAccessMask(newLayout), oldLayout, newLayout, image,
        SubresourceRange(aspectMask, 0, 1, 0, 1)))
  }

  /** The layout an image is in, given the layouts recorded so far; an image
      no barrier has touched is undefined. */
  function LayoutIn(state: map<Handle, ImageLayout>, image: Handle): ImageLayout
  {
    if image in state then state[image] else Undefined
  }

  /** Replays recorded commands against the layouts images are in: a barrier
      must start from the image's layout and moves it to the new one, a copy
      must name the layouts its two images are in. None when a command does
      not fit. */
  function Replay(cmds: seq<Command>, state: map<Handle, ImageLayout>): Option<map<Handle, ImageLayout>>
    decreases |cmds|
  {
    if cmds == [] then Some(state)
    else
      match cmds[0]
      case PipelineBarrier(_, _, b) =>
        if b.oldLayout == LayoutIn(state, b.image) then Replay(cmds[1..], state[b.image := b.newLayout]) else None
      case CopyImage(src, srcLayout, dst, dstLayout, _) =>
        if srcLayout == LayoutIn(state, src) && dstLayout == LayoutIn(state, dst) then Replay(cmds[1..], state) else None
  }

  /** Replaying two batches one after the other is replaying their concatenation. */
  lemma {:induction false} ReplayAppend(a: seq<Command>, b: seq<Command>, state: map<Handle, ImageLayout>)
    ensures Replay(a + b, state) == if Replay(a, state).None? then None else Replay(b, Replay(a, state).value)
    decreases |a|
  {
    if a == [] {
      assert a + b == b;
    } else {
      assert (a + b)[0] == a[0] && (a + b)[1..] == a[1..] + b;
      match a[0]
      case PipelineBarrier(_, _, bar) =>
        ReplayAppend(a[1..], b, state[bar.image := bar.newLayout]);
      case CopyImage(_, _, _, _, _) =>
        ReplayAppend(a[1..], b, state);
    }
  }

  /** One transition replays exactly when the image is in its old layout,
      and then moves the image, and only it, to the new layout. */
  lemma LayoutBarrierReplay(image: Handle, aspectMask: bv32, oldLayout: ImageLayout, newLayout: ImageLayout,
                            state: map<Handle, ImageLayout>)
    ensures Replay([LayoutBarrier(image, aspectMask, oldLayout, newLayout)], state)
         == if LayoutIn(state, image) == oldLayout then Some(state[image := newLayout]) else None
  {
    var cmds := [LayoutBarrier(image, aspectMask, oldLayout, newLayout)];
    assert cmds[1..] == [];
  }

  /** Replaying only ever sets the layout of images the commands name. */
  lemma {:induction false} ReplayTouches(cmds: seq<Command>, state: map<Handle, ImageLayout>, image: Handle)
    requires Replay(cmds, state).Some? && image !in ImagesOf(cmds)
    ensures image in Replay(cmds, state).value <==> image in state
    ensures image in state ==> Replay(cmds, state).value[image] == state[image]
    decreases |cmds|
  {
    if cmds != [] {
      assert CommandImages(cmds[0]) <= ImagesOf(cmds);
      match cmds[0]
      case PipelineBarrier(_, _, b) =>
        ReplayTouches(cmds[1..], state[b.image := b.newLayout], image);
      case CopyImage(_, _, _, _, _) =>
        ReplayTouches(cmds[1..], state, image);
    }
  }

  /** The calls that open the setup command buffer, if it is not open yet. */
  function OpenCalls(setupCmd: Option<Handle>, cmd: Handle): seq<Call>
  {
    if setupCmd.None? then [AllocateCommandBuffer(cmd), BeginCommandBuffer(cmd)] else []
  }

  /** The calls of one flush of the open command buffer `cmd` holding `commands`. */
  function FlushCalls(cmd: Handle, commands: seq<Command>): seq<Call>
  {
    [EndCommandBuffer(cmd), QueueSubmit(cmd, commands), QueueWaitIdle, FreeCommandBuffer(cmd)]
  }

  /** One flush makes exactly one submission: the commands of the buffer it ends. */
  lemma FlushSubmitsOnce(cmd: Handle, commands: seq<Command>)
    ensures Submissions(FlushCalls(cmd, commands)) == [commands]
  {
    var calls := FlushCalls(cmd, commands);
    assert calls[1..][1..][1..][1..] == [];
    assert Submissions(calls[1..][1..]) == [];
  }

  /** The device and queue as the texture code sees them, together with the
      module-global `setup_cmd`. */
  class Device {
    /** `setup_cmd`: None stands for VK_NULL_HANDLE. */
    var setupCmd: Option<Handle>
    /** The commands recorded into the open setup command buffer, in order. */
    var recorded: seq<Command>
    /** Every driver call made so far, in order. */
    var trace: seq<Call>
    var liveImages: set<Handle>
    var liveMemory: set<Handle>
    /** The next handle the driver hands out; handles are never reused. */
    var nextHandle: Handle

    ghost predicate Valid()
      reads this
    {
      && nextHandle > NullHandle
      && (setupCmd.None? ==> recorded == [])
      && (setupCmd.Some? ==> NullHandle < setupCmd.value < nextHandle)
      && (forall h | h in liveImages :: NullHandle < h < nextHandle)
      && (forall h | h in liveMemory :: NullHandle < h < nextHandle)
      && ImagesOf(recorded) <= liveImages
    }

    /** What the queue has been given so far. */
    function Submitted(): seq<seq<Command>>
      reads this
    {
      Submissions(trace)
    }

    constructor()
      ensures Valid()
      ensures setupCmd == None && recorded == [] && trace == []
      ensures liveImages == {} && liveMemory == {}
    {
      setupCmd := None;
      recorded := [];
      trace := [];
      liveImages := {};
      liveMemory := {};
      nextHandle := 1;
    }

    /** Hands out a fresh handle. */
    method NewHandle() returns (h: Handle)
      requires Valid()
      modifies this
      ensures Valid()
      ensures h == old(nextHandle) && nextHandle == h + 1
      ensures setupCmd == old(setupCmd) && recorded == old(recorded) && trace == old(trace)
      ensures liveImages == old(liveImages) && liveMemory == old(liveMemory)
    {
      h := nextHandle;
      nextHandle := nextHandle + 1;
    }

    /** `vkCreateImage`. */
    method CreateImage(info: ImageCreateInfo) returns (image: Handle)
      requires Valid()
      modifies this
      ensures Valid()
      ensures image == old(nextHandle) && nextHandle == image + 1
      ensures trace == old(trace) + [Call.CreateImage(image, info)]
      ensures liveImages == old(liveImages) + {image} && liveMemory == old(liveMemory)
      ensures setupCmd == old(setupCmd) && recorded == old(recorded)
    {
      image := NewHandle();
      trace := trace + [Call.CreateImage(image, info)];
      liveImages := liveImages + {image};
    }

    /** `vkAllocateMemory` of a type with the required properties. */
    method AllocateMemory(requiredProps: bv32) returns (memory: Handle)
      requires Valid()
      modifies this
      ensures Valid()
      ensures memory == old(nextHandle) && nextHandle == memory + 1
      ensures trace == old(trace) + [Call.AllocateMemory(memory, requiredProps)]
      ensures liveMemory == old(liveMemory) + {memory} && liveImages == old(liveImages)
      ensures setupCmd == old(setupCmd) && recorded == old(recorded)
    {
      memory := NewHandle();
      trace := trace + [Call.AllocateMemory(memory, requiredProps)];
      liveMemory := liveMemory + {memory};
    }

    /** A driver call that only leaves its mark in the trace
        (`vkBindImageMemory`, `vkMapMemory`, `vkUnmapMemory`). */
    method Log(call: Call)
      requires Valid()
      requires call.BindImageMemory? || call.MapMemory? || call.UnmapMemory?
      modifies this
      ensures Valid()
      ensures trace == old(trace) + [call]
      ensures setupCmd == old(setupCmd) && recorded == old(recorded) && nextHandle == old(nextHandle)
      ensures liveImages == old(liveImages) && liveMemory == old(liveMemory)
    {
      trace := trace + [call];
    }

    /** `vkDestroyImage`. An image that a recorded command still refers to
        must not be destroyed. */
    method DestroyImage(image: Handle)
      requires Valid()
      requires image !in ImagesOf(recorded)
      modifies this
      ensures Valid()
      ensures trace == old(trace) + [Call.DestroyImage(image)]
      ensures liveImages == old(liveImages) - {image} && liveMemory == old(liveMemory)
      ensures setupCmd == old(setupCmd) && recorded == old(recorded) && nextHandle == old(nextHandle)
    {
      trace := trace + [Call.DestroyImage(image)];
      liveImages := liveImages - {image};
    }

    /** `vkFreeMemory`. */
    method FreeMemory(memory: Handle)
      requires Valid()
      modifies this
      ensures Valid()
      ensures trace == old(trace) + [Call.FreeMemory(memory)]
      ensures liveMemory == old(liveMemory) - {memory} && liveImages == old(liveImages)
      ensures setupCmd == old(setupCmd) && recorded == old(recorded) && nextHandle == old(nextHandle)
    {
      trace := trace + [Call.FreeMemory(memory)];
      liveMemory := liveMemory - {memory};
    }

    /** `demo_set_image_layout`: opens the setup command buffer if none is
        open, then records one barrier for the transition. */
    method SetImageLayout(image: Handle, aspectMask: bv32, oldLayout: ImageLayout, newLayout: ImageLayout)
      requires Valid()
      requires image in liveImages
      modifies this
      ensures Valid()
      ensures setupCmd == (if old(setupCmd).None? then Some(old(nextHandle)) else old(setupCmd))
      ensures nextHandle == old(nextHandle) + (if old(setupCmd).None? then 1 else 0)
      ensures trace == old(trace) + OpenCalls(old(setupCmd), old(nextHandle))
      ensures recorded == old(recorded) + [LayoutBarrier(image, aspectMask, oldLayout, newLayout)]
      ensures liveImages == old(liveImages) && liveMemory == old(liveMemory)
    {
      if setupCmd.None? {
        var cmd := NewHandle();
        trace := trace + [AllocateCommandBuffer(cmd), BeginCommandBuffer(cmd)];
        setupCmd := Some(cmd);
      }

      var barrier := ImageMemoryBarrier(0, 0, oldLayout, newLayout, image, SubresourceRange(aspectMask, 0, 1, 0, 1));
      if newLayout == TransferDstOptimal {
        barrier := barrier.(dstAccessMask := AccessTransferRead);
      }
      if newLayout == ColorAttachmentOptimal {
        barrier := barrier.(dstAccessMask := AccessColorAttachmentWrite);
      }
      if newLayout == DepthStencilAttachmentOptimal {
        barrier := barrier.(dstAccessMask := AccessDepthStencilAttachmentWrite);
      }
      if newLayout == ShaderReadOnlyOptimal {
        barrier := barrier.(dstAccessMask := AccessShaderRead | AccessInputAttachmentRead);
      }

      var srcStages := PipelineStageTopOfPipe;
      var dstStages := PipelineStageTopOfPipe;
      recorded := recorded + [PipelineBarrier(srcStages, dstStages, barrier)];
      ImagesOfAppend(old(recorded), [PipelineBarrier(srcStages, dstStages, barrier)]);
    }

    /** `vkCmdCopyImage` into the open setup command buffer. */
    method CmdCopyImage(src: Handle, srcLayout: ImageLayout, dst: Handle, dstLayout: ImageLayout, region: ImageCopy)
      requires Valid()
      requires setupCmd.Some?
      requires src in liveImages && dst in liveImages
      modifies this
      ensures Valid()
      ensures recorded == old(recorded) + [CopyImage(src, srcLayout, dst, dstLayout, region)]
      ensures setupCmd == old(setupCmd) && trace == old(trace) && nextHandle == old(nextHandle)
      ensures liveImages == old(liveImages) && liveMemory == old(liveMemory)
    {
      recorded := recorded + [CopyImage(src, srcLayout, dst, dstLayout, region)];
      ImagesOfAppend(old(recorded), [CopyImage(src, srcLayout, dst, dstLayout, region)]);
    }

    /** `demo_flush_init_cmd`: nothing to do without an open command buffer;
        otherwise ends it, submits it as one unit, waits for the queue to go
        idle and frees it. */
    method FlushInitCmd()
      requires Valid()
      modifies this
      ensures Valid()
      ensures setupCmd == None && recorded == []
      ensures old(setupCmd).None? ==> trace == old(trace)
      ensures old(setupCmd).Some? ==> trace == old(trace) + FlushCalls(old(setupCmd).value, old(recorded))
      ensures Submitted() == old(Submitted()) + (if old(setupCmd).None? then [] else [old(recorded)])
      ensures nextHandle == old(nextHandle) && liveImages == old(liveImages) && liveMemory == old(liveMemory)
    {
      if setupCmd.None? {
        return;
      }
      var cmd := setupCmd.value;
      var calls := FlushCalls(cmd, recorded);
      SubmissionsAppend(trace, calls);
      FlushSubmitsOnce(cmd, recorded);
      trace := trace + calls;
      setupCmd := None;
      recorded := [];
    }
  }

  /** Flushing twice in a row submits at most the one batch that was open. */
  method FlushTwice(dev: Device)
    requires dev.Valid()
    modifies dev
    ensures dev.Valid() && dev.setupCmd == None
    ensures dev.Submitted() == old(dev.Submitted()) + (if old(dev.setupCmd).None? then [] else [old(dev.recorded)])
  {
    dev.FlushInitCmd();
    dev.FlushInitCmd();
  }
}

# Vulkan texture upload of Kore, modelled in Dafny

This project models the texture setup of Kore's Vulkan backend
(`Backends/Vulkan/Sources/Kore/TextureImpl.cpp`): how a `Texture` gets a 2x2
checkerboard into an image the GPU can sample.

- **Setup command buffer.** The module-global `setup_cmd` is opened lazily
  by `demo_set_image_layout`. Each layout transition appends one image
  memory barrier to it. `demo_flush_init_cmd` ends it, submits it as one
  unit, waits for the queue to go idle and frees it. A flush with nothing
  open does nothing.
- **Barrier access masks.** The destination access mask of a transition is
  keyed by the new layout. The source mask is always empty and both stage
  masks are top-of-pipe.
- **Host-visible fill.** `demo_prepare_texture_image` maps the memory of a
  host-visible image. A nested loop then stores the 32-bit colour
  `tex_colors[(x & 1) ^ (y & 1)]` at byte offset `rowPitch * y + 4 * x`.
- **Strategy and staged sequence.** The `Texture` constructor picks one of
  three outcomes. A linear image is written directly when linear tiling can
  be sampled and staging is not forced. Otherwise, when optimal tiling can
  be sampled, a linear staging image is copied into an optimal one.
  Otherwise no image is made. The staged path runs a fixed sequence:
  prepare both images, two transitions, the copy, one transition, the
  flush, and the destruction of the staging image.
- **Stride.** `Texture::stride` is the width times four bytes.

The Vulkan driver is abstract. Handles are numbers handed out by a
`Device` object and are never reused. Driver calls are appended in order to
a call trace. The open command buffer is the sequence of commands recorded
into it. A submission carries the commands of the buffer it submits.
Layout consistency is stated with `Replay`: it runs a command sequence
forward over a map from image to layout, and fails when a barrier's old
layout or a copy's layouts do not match.

Files:

- `vulkan.dfy` (module `Vulkan`): the Vulkan values the code uses, with the
  flag bit values of the Vulkan 1.0 headers, recorded commands, driver calls
  and the submissions of a trace.
- `setup_cmd.dfy` (module `SetupCommands`): the access-mask table, the
  barrier of one transition, `Replay`, and class `Device`, whose
  `SetImageLayout` and `FlushInitCmd` model `demo_set_image_layout` and
  `demo_flush_init_cmd`.
- `texture_image.dfy` (module `TextureImage`): the checkerboard as a
  function of the memory, the in-place fill over a byte array, class
  `TextureObject` (`texture_object`), and `PrepareTextureImage` /
  `DestroyTextureImage`.
- `texture.dfy` (module `Texture`): the strategy choice, the staged command
  batch and its lemmas, both upload paths, class `Texture` with its
  constructor and `Stride`.

Points of the code's behaviour that the model keeps as written:

- For the transfer-destination layout the code asks for transfer READ
  access (`TextureImpl.cpp:98`), not transfer write.
- `imageLayout` is set once, to shader-read-only, when an image is prepared
  (`TextureImpl.cpp:194`). Later transitions never update it, so the staged
  path's transitions at lines 227-228 start from shader-read-only.
- Destroying an image releases the image first and its memory second
  (`TextureImpl.cpp:201-202`).
- The direct path does not flush (`TextureImpl.cpp:218`). Its transition
  stays in the open command buffer.
- The staged batch also holds each image's first transition, undefined to
  shader-read-only, recorded when the image is prepared
  (`TextureImpl.cpp:195`).
- Row y of the mapped memory starts at `data + rowPitch * y`
  (`TextureImpl.cpp:186`). The code ignores the `offset` that
  `vkGetImageSubresourceLayout` reports, and the model does the same.

## Model

| member | source | states |
|---|---|---|
| SetupCommands.DstAccessMask | Backends/Vulkan/Sources/Kore/TextureImpl.cpp:89-112 | The destination access mask keyed by the new layout is always one of the five values the if-chain assigns: 0, transfer read, colour-attachment write, depth-stencil-attachment write, or shader read with input-attachment read. |
| SetupCommands.LayoutBarrier | Backends/Vulkan/Sources/Kore/TextureImpl.cpp:86-119 | One transition is a pipeline barrier on that image alone, with an empty source mask and the table's destination mask. |
| SetupCommands.LayoutBarrierReplay | Backends/Vulkan/Sources/Kore/TextureImpl.cpp:86-119 | One transition is consistent exactly when the image is in its old layout. It then moves that image, and only it, to the new layout. |
| SetupCommands.DstAccessMaskZero | Backends/Vulkan/Sources/Kore/TextureImpl.cpp:89-112 | The destination access mask is empty exactly for layouts other than transfer-destination, colour-attachment, depth-stencil-attachment and shader-read-only. |
| SetupCommands.DstAccessMaskWrites | Backends/Vulkan/Sources/Kore/TextureImpl.cpp:96-112 | Only the two attachment layouts ask for a write access. Transfer-destination asks for no transfer write. |
| SetupCommands.DstAccessMaskDistinct | Backends/Vulkan/Sources/Kore/TextureImpl.cpp:96-112 | The four listed layouts get four different, non-empty masks. |
| SetupCommands.FlushSubmitsOnce | Backends/Vulkan/Sources/Kore/TextureImpl.cpp:26-48 | The calls of one flush (end, submit, wait idle, free) make exactly one submission, holding the buffer's commands. |
| SetupCommands.Device.CreateImage | Backends/Vulkan/Sources/Kore/TextureImpl.cpp:153 | A fresh image handle that is live afterwards. One `vkCreateImage` call with the create info is traced. |
| SetupCommands.Device.AllocateMemory | Backends/Vulkan/Sources/Kore/TextureImpl.cpp:163 | A fresh memory handle that is live afterwards, with the allocation traced. |
| SetupCommands.Device.Log | Backends/Vulkan/Sources/Kore/TextureImpl.cpp:166-191 | Bind, map and unmap only append their call to the trace. |
| SetupCommands.Device.DestroyImage | Backends/Vulkan/Sources/Kore/TextureImpl.cpp:201 | The image is no longer live. This is allowed only when no recorded command refers to it. |
| SetupCommands.Device.FreeMemory | Backends/Vulkan/Sources/Kore/TextureImpl.cpp:202 | The memory is no longer live and the call is traced. |
| SetupCommands.Device.SetImageLayout | Backends/Vulkan/Sources/Kore/TextureImpl.cpp:52-120 | The buffer is allocated and begun only when none is open, with a fresh handle. Either way exactly one barrier is appended: top-of-pipe stages, empty source mask, the table's destination mask, the given layouts, image, and range {aspect, 0, 1, 0, 1}. |
| SetupCommands.Device.CmdCopyImage | Backends/Vulkan/Sources/Kore/TextureImpl.cpp:237 | The copy is appended to the open buffer and nothing else changes. |
| SetupCommands.Device.FlushInitCmd | Backends/Vulkan/Sources/Kore/TextureImpl.cpp:21-50 | With no open buffer, nothing changes and nothing is submitted. Otherwise the buffer's commands, in recording order, become exactly one new submission, and the buffer is closed and empty. |
| SetupCommands.FlushTwice | Backends/Vulkan/Sources/Kore/TextureImpl.cpp:24 | Two flushes in a row submit at most the one batch that was open. |
| TextureImage.ColorIndex | Backends/Vulkan/Sources/Kore/TextureImpl.cpp:188 | `(x & 1) ^ (y & 1)` is 0 or 1. It is 1 exactly when the parities of x and y differ. |
| TextureImage.WordBytes | Backends/Vulkan/Sources/Kore/TextureImpl.cpp:186-188 | A 32-bit store writes four bytes that read back as the stored word. |
| TextureImage.PixelByteIff | Backends/Vulkan/Sources/Kore/TextureImpl.cpp:185-188 | A byte is a pixel byte exactly when it lies in the four bytes at `rowPitch * y + 4 * x` of some pixel. |
| TextureImage.PixelInMemory | Backends/Vulkan/Sources/Kore/TextureImpl.cpp:186-188 | Each pixel's word lies inside the mapped memory when the pitch holds a row and the memory reaches the end of the last row. |
| TextureImage.CheckerboardPixel | Backends/Vulkan/Sources/Kore/TextureImpl.cpp:185-189 | After the fill, the word at `rowPitch * y + 4 * x` is `colors[(x & 1) ^ (y & 1)]`. |
| TextureImage.CheckerboardElsewhere | Backends/Vulkan/Sources/Kore/TextureImpl.cpp:185-189 | After the fill, every byte outside all pixels keeps its value. |
| TextureImage.StoreWord | Backends/Vulkan/Sources/Kore/TextureImpl.cpp:188 | `row[x] = …` changes exactly the four bytes at its offset, to the word's bytes. |
| TextureImage.FillCheckerboard | Backends/Vulkan/Sources/Kore/TextureImpl.cpp:185-189 | The nested loop leaves the memory equal to the checkerboard of its old contents. |
| TextureImage.TextureObject.constructor | Backends/Vulkan/Sources/Kore/TextureImpl.cpp:224 | A zeroed `texture_object`: null handles, size 0, undefined layout. |
| TextureImage.TextureImageInfo | Backends/Vulkan/Sources/Kore/TextureImpl.cpp:132-143 | The image is B8G8R8A8_UNORM with extent 2x2x1, and the tiling and usage are the caller's. |
| TextureImage.HostVisible | Backends/Vulkan/Sources/Kore/TextureImpl.cpp:170 | The fill runs exactly when the host-visible bit is among the required memory properties. |
| TextureImage.PrepareSubmitsNothing | Backends/Vulkan/Sources/Kore/TextureImpl.cpp:122-197 | Preparing an image, including opening the setup buffer, submits nothing. |
| TextureImage.CreateBoundImage | Backends/Vulkan/Sources/Kore/TextureImpl.cpp:132-168 | Image and memory are created with fresh handles and bound. The trace holds create, allocate and bind, in that order. |
| TextureImage.FillMapped | Backends/Vulkan/Sources/Kore/TextureImpl.cpp:170-192 | Map, fill, unmap: the memory holds the checkerboard and the trace gains map then unmap. |
| TextureImage.PrepareTextureImage | Backends/Vulkan/Sources/Kore/TextureImpl.cpp:122-197 | Width and height are 2 and `imageLayout` is shader-read-only. Exactly one barrier, undefined to shader-read-only, is recorded. Memory is filled (and map/unmap traced) only when host visible. The full call trace and the new live image and memory are stated. |
| TextureImage.DestroyTextureImage | Backends/Vulkan/Sources/Kore/TextureImpl.cpp:199-203 | The image is destroyed, then its memory is freed. The open buffer is untouched. |
| Texture.ChooseStrategy | Backends/Vulkan/Sources/Kore/TextureImpl.cpp:216-220 | The chosen path's tiling can sample the format. |
| Texture.UnsupportedIff | Backends/Vulkan/Sources/Kore/TextureImpl.cpp:216-248 | No image is made exactly when optimal tiling cannot sample and either staging is forced or linear tiling cannot sample. |
| Texture.StagingFlag | Backends/Vulkan/Sources/Kore/TextureImpl.cpp:216-220 | Forcing staging never gives the direct path. Without it, the linear sampling bit alone decides for the direct path. With it, optimal sampling means the staged path. |
| Texture.CopyRegion | Backends/Vulkan/Sources/Kore/TextureImpl.cpp:230-235 | The copy region: colour aspect, mip level 0, base layer 0 and one layer on both sides, zero offsets, and the extent width x height x 1. |
| Texture.StagedCommands | Backends/Vulkan/Sources/Kore/TextureImpl.cpp:195-239 | The staged batch has six commands, and each refers only to the staging image and the destination. |
| Texture.CopyCount | Backends/Vulkan/Sources/Kore/TextureImpl.cpp:237 | No copy is counted exactly when no command is a copy. |
| Texture.StagedCopy | Backends/Vulkan/Sources/Kore/TextureImpl.cpp:230-237 | The staged batch holds exactly one copy, the fifth command: staging to destination with extent 2x2x1. The batch refers to those two images only. |
| Texture.StagedReplay | Backends/Vulkan/Sources/Kore/TextureImpl.cpp:225-239 | Every transition of the staged batch starts from the image's current layout. The copy finds transfer-source and transfer-destination. The staging image ends in transfer-source and the destination in shader-read-only. |
| Texture.StagedAfter | Backends/Vulkan/Sources/Kore/TextureImpl.cpp:225-239 | The same holds when the batch follows commands left open for other images. |
| Texture.DirectReplay | Backends/Vulkan/Sources/Kore/TextureImpl.cpp:194-195 | The direct path's only command takes an image no barrier has touched from undefined to shader-read-only. |
| Texture.StagedSubmissions | Backends/Vulkan/Sources/Kore/TextureImpl.cpp:225-243 | The staged path's calls submit exactly one batch. |
| Texture.PrepareDirect | Backends/Vulkan/Sources/Kore/TextureImpl.cpp:216-219 | One linear, sampled, host-visible image is filled with the checkerboard. Its barrier stays in the open buffer, which is the same one if it was already open, and nothing is submitted. |
| Texture.RecordCopy | Backends/Vulkan/Sources/Kore/TextureImpl.cpp:227-239 | Appends the two transitions from the layouts the texture objects hold, the copy of the whole 2x2 image, and the destination's transition back. |
| Texture.RecordStaged | Backends/Vulkan/Sources/Kore/TextureImpl.cpp:222-239 | Staging image, then destination, are prepared. The open buffer then holds the six staged commands in order. |
| Texture.PrepareStaged | Backends/Vulkan/Sources/Kore/TextureImpl.cpp:220-244 | The full call trace is stated: staging prepared, destination prepared, one flush submitting the six staged commands, then the staging image destroyed (image, then memory). The destination stays live and the buffer ends closed. |
| Texture.Texture.constructor | Backends/Vulkan/Sources/Kore/TextureImpl.cpp:206-248 | Takes the chosen path. The unsupported outcome changes nothing. The two other paths give a 2x2 texture whose `imageLayout` is shader-read-only, with each path's trace, buffer state, handles and submissions. The checkerboard is written into the mapped memory of the host-visible image: the texture itself on the direct path, the staging image on the staged path. |
| Texture.Texture.Stride | Backends/Vulkan/Sources/Kore/TextureImpl.cpp:300-302 | `stride()` is four bytes per texel of the loaded image's width. |
| Texture.StrideIsTightPitch | Backends/Vulkan/Sources/Kore/TextureImpl.cpp:300-302 | `stride()` is four bytes per texel of width. As a row pitch it fits a tightly packed buffer and puts pixel (x, y) at texel index `y * width + x`. |

## Left out

- Sampler and image-view creation (`TextureImpl.cpp:250-285`): constant struct filling with floating-point fields, ending in foreign calls.
- `memory_type_from_properties` (`TextureImpl.cpp:18`, `159-160`): its body is not part of this model. The model assumes it finds a memory type. Its fatal failure is not modelled.
- Failing driver calls (`assert(!err)` after each call): every call is assumed to succeed.
- `vkGetImageMemoryRequirements`, `vkGetImageSubresourceLayout` and the pointer `vkMapMemory` returns: the mapped memory and its row pitch are parameters (`mapped`, `rowPitch`). The allocation size is not modelled. Like the source, the model places row y at `rowPitch * y` from the start of the mapping and ignores the layout's `offset`.
- TextureImage.FillCheckerboard: assumes a little-endian host for the byte order of the 32-bit stores.
- Texture.Texture.constructor: the unsupported branch is a fatal `assert` in the source. The model ends it with nothing prepared and does not model a release build running on to the sampler code.
- Texture.Texture.Stride: computed on unbounded integers. The source's 32-bit `int` overflows for widths of 2^29 and more, and the model does not capture that.
- `TextureImpl.h`, where `texture_object` is declared, is not part of this model. `TextureObject` has the fields this file uses, except `sampler` and `view`, whose creation is left out.
- Image contents are not modelled, nor what `vkCmdCopyImage` transfers. On the staged path the checkerboard is stated for the staging image's mapped memory only. The copy is a recorded command that moves no pixels in the model.
- Texture.Texture.constructor: on the unsupported path the model's `texture` is a fresh zeroed object. The source does not zero `texture` there (only `staging_texture` is cleared, line 224), so that state is the model's own choice.
- The `Image` base class and its file loading, the second constructor, the destructor, `_set`, `lock` and `unlock`: empty or outside this file.
- The Direct3D 11 / WinRT headers: declarations only, for concurrency and COM handles.
- Queue timing: `vkQueueWaitIdle` is a traced call. The model has no notion of GPU execution time.

# Livre frame set-up, ray-cast bookkeeping and cache counters in Dafny

This project models three single-threaded parts of Livre, a volume renderer.

- **The per-frame pipeline topology** of `RenderPipeline::Impl`
  (`render_pipeline.dfy`, module `RenderPipeline`). A frame registers
  filters by name in a render pipeline and an upload pipeline. It wires
  output ports to input ports and sets the entry promises. It then assigns
  each stage to one of three executors and reads the node availability.
  The filter-graph engine is not part of this model, so its calls are recorded rather
  than executed:
  - `add` appends a registration;
  - `connect` appends an edge;
  - `getExecutable` looks a registered name up and fails (`Failure`) on an
    unknown one;
  - `getPromise().set` appends the promised port;
  - `schedule` appends a stage/executor assignment.

  Several producers may feed one input: the four data uploaders all feed
  one `CacheObjects` input (fan-in). `Sources` lists the producers of an
  input in wiring order, and the fan-in lemmas state exactly what each
  topology adds to it.
- **The ray-cast renderer's bookkeeping** (`ray_cast_renderer.dfy`, module
  `RayCastRenderer`):
  - the 36 vertices `createBrick` emits per brick, face by face, and the
    layout of the vertex buffer;
  - the range each `glDrawArrays` draws from that buffer;
  - the shader data-type code;
  - the maximum refinement level and the sampling-rate state;
  - the render texture's "resize only on change" guard;
  - the brick order, a sort by an abstract distance key.

  Coordinates are only copied, so they are an abstract type.
- **The cache statistics counters** (`cache_statistics.dfy`, module
  `CacheStatistics`): a record whose mutators each change one field. The
  `size_t` counters wrap modulo 2^64.

Helper modules:
- `results.dfy` holds `Option` and `Result`.
- `c_types.dfy` holds `uint32_t`, `size_t` and `int` as integer ranges, with
  the wrapping conversion to `size_t`.
- `decimal.dfy` holds the decimal rendering of an index, which
  `std::stringstream` produces for the uploader names.

Conversions are written out where the source relies on them:
- `index * nVerticesRenderBrick` is a `size_t` product, and `glDrawArrays`
  receives it as a `GLint` (modulo 2^32, two's complement).
- The viewport differences are converted to `size_t`. The element type of
  `Viewport` is not part of this model; it is taken to be `int`, like the
  `Vector4i` passed to `resizeRenderTexture`. Under that assumption a
  negative difference wraps to a huge width.

`glGetIntegerv( GL_VIEWPORT )` fills x, y, width and height. So
`viewport[2] - viewport[0]` in `resizeRenderTexture` is width minus x, not
the width, whenever x is not 0. The model keeps the code's arithmetic.

## Model

| member | source | states |
|---|---|---|
| RenderPipeline.UploaderRegistrations | livre/lib/pipeline/RenderPipeline.cpp:69-80 | exactly n uploaders are registered, and uploader k sits at position k, named "DataUploader" + k and told index k of nUploadThreads |
| RenderPipeline.UploaderNamesDistinct | livre/lib/pipeline/RenderPipeline.cpp:71-72 | two uploader names are equal if and only if their indices are |
| RenderPipeline.UploaderNames | livre/lib/pipeline/RenderPipeline.cpp:69-74 | the upload pipeline's names are exactly "DataUploader0" … "DataUploader3", in that order |
| Decimal.ParseShow | livre/lib/pipeline/RenderPipeline.cpp:72 | the decimal text streamed after the prefix reads back as the index, so the index can be recovered from a name |
| RenderPipeline.ConnectUploaders | livre/lib/pipeline/RenderPipeline.cpp:65-88 | the loop leaves the render pipeline alone, appends the n registrations in index order, and appends each uploader's three edges in loop order |
| RenderPipeline.CreateAndConnectUploaders | livre/lib/pipeline/RenderPipeline.cpp:65-88 | the four uploaders are registered after the existing ones, each is wired to the visible-set generator and to output, output.CacheObjects gains exactly their outputs as producers, and the render pipeline is untouched |
| RenderPipeline.UploadersWired | livre/lib/pipeline/RenderPipeline.cpp:82-86 | every uploader k < n receives VisibleNodes and Params from the visible-set generator and feeds output.CacheObjects |
| RenderPipeline.UploaderTargets | livre/lib/pipeline/RenderPipeline.cpp:82-86 | every edge of the loop ends at an uploader's VisibleNodes or Params, or at output.CacheObjects |
| RenderPipeline.UploaderFanIn | livre/lib/pipeline/RenderPipeline.cpp:86 | the producers of output.CacheObjects are exactly the n uploaders' CacheObjects, in index order |
| RenderPipeline.FeedFanIn | livre/lib/pipeline/RenderPipeline.cpp:103-111 | the second uploader loop makes the consumer's CacheObjects producers exactly the uploaders' outputs, in index order |
| RenderPipeline.ConnectUploadersTo | livre/lib/pipeline/RenderPipeline.cpp:103-111 | the name lookups succeed if and only if every uploader name is registered; a failure names the first unregistered uploader (every earlier one is registered); a success appends one feed edge per uploader and changes nothing else |
| RenderPipeline.CreateSyncPipeline | livre/lib/pipeline/RenderPipeline.cpp:90-112 | the lookups cannot fail; the render pipeline gains only the visible-set generator, the upload pipeline gains the four uploaders, and the edges gain the uploader edges into the render filter followed by the feeds into the histogram filter |
| RenderPipeline.SyncWiring | livre/lib/pipeline/RenderPipeline.cpp:99-111 | in synchronous mode every uploader is wired to the visible-set generator and feeds both the render filter and the histogram filter |
| RenderPipeline.SyncTargets | livre/lib/pipeline/RenderPipeline.cpp:90-112 | every edge the synchronous topology adds ends at an uploader input, at the render filter's CacheObjects or at the histogram filter's CacheObjects |
| RenderPipeline.SyncFanIn | livre/lib/pipeline/RenderPipeline.cpp:99-111 | the render filter's and the histogram filter's CacheObjects each gain exactly the four uploaders as producers |
| RenderPipeline.CreateAsyncPipeline | livre/lib/pipeline/RenderPipeline.cpp:114-143 | the render pipeline gains the visible-set and rendering-set generators in that order, the upload pipeline the uploaders, and the edges the generator's four edges followed by the uploader edges into the redraw filter |
| RenderPipeline.AsyncWiring | livre/lib/pipeline/RenderPipeline.cpp:128-142 | in asynchronous mode the rendering-set generator's four edges are wired, and every uploader is wired to the visible-set generator and feeds the redraw filter |
| RenderPipeline.AsyncTargets | livre/lib/pipeline/RenderPipeline.cpp:114-143 | every edge the asynchronous topology adds ends at an uploader input, at the redraw filter's CacheObjects, or at one of the generator's four consumers |
| RenderPipeline.AsyncFanIn | livre/lib/pipeline/RenderPipeline.cpp:131-135 | the render filter's and the histogram filter's CacheObjects each gain the rendering-set generator alone as producer |
| RenderPipeline.AsyncRedrawFanIn | livre/lib/pipeline/RenderPipeline.cpp:140-142 | the redraw filter's CacheObjects gains exactly the four uploaders as producers |
| RenderPipeline.FinishFrame | livre/lib/pipeline/RenderPipeline.cpp:182-219 | finishing a frame fails exactly when a generator lookup fails, and the error names the missing generator; on success it records the thirteen promises, the schedule of the mode, and an availability that is all visible nodes (synchronous) or the rendering-set generator's result (asynchronous) |
| RenderPipeline.Render | livre/lib/pipeline/RenderPipeline.cpp:145-219 | a frame never fails; in synchronous mode nAvailable is the number of visible nodes and nNotAvailable is 0; in asynchronous mode the availability is the one computed by the rendering-set generator |
| RenderPipeline.FrameWiring | livre/lib/pipeline/RenderPipeline.cpp:162-180 | the render pipeline holds ["VisibleSetGenerator"] or ["VisibleSetGenerator", "RenderingSetGenerator"], the upload pipeline holds the four uploaders, and the histogram edge stays wired |
| RenderPipeline.PromisesSetOnce | livre/lib/pipeline/RenderPipeline.cpp:161-195 | thirteen promises are set, no port twice, and the promised ports are exactly the six visible-set-generator, three render-filter, two histogram-filter and two send-histogram-filter inputs |
| RenderPipeline.PromisedInputsUnwired | livre/lib/pipeline/RenderPipeline.cpp:161-195 | no edge of either topology feeds an input that a promise sets |
| RenderPipeline.FrameSchedule | livre/lib/pipeline/RenderPipeline.cpp:197-202 | the redraw filter is scheduled, on the render executor, exactly in asynchronous mode; the render pipeline runs on the render executor, the upload pipeline on the upload executor, both histogram filters on the compute executor; no stage is scheduled twice |
| RenderPipeline.ExecutorPools | livre/lib/pipeline/RenderPipeline.cpp:41-43 | two render and two compute threads, and as many upload threads as registered uploaders, each uploader told that count |
| RayCastRenderer.CreateBrick | livre/lib/render/RayCastRenderer.cpp:384-443 | appends exactly 36 positions, leaves the earlier ones unchanged, and the appended ones are the brick's vertices |
| RayCastRenderer.BrickLayout | livre/lib/render/RayCastRenderer.cpp:390-442 | every coordinate emitted is the box's minimum or maximum on its axis, and vertices 6f .. 6f+5 lie in the plane of the back, front, left, right, bottom and top face respectively |
| RayCastRenderer.BrickCoversCorners | livre/lib/render/RayCastRenderer.cpp:390-442 | all eight corners of the box are among the 36 vertices |
| RayCastRenderer.FillVertexBuffer | livre/lib/render/RayCastRenderer.cpp:365-373 | for n bricks the position list has length 36·n, and brick k occupies positions 36k .. 36k+35 with its own vertices |
| RayCastRenderer.RenderBrickVBO | livre/lib/render/RayCastRenderer.cpp:459-474 | nothing is drawn if and only if neither side is wanted; otherwise 36 vertices are drawn from 36·index (while that fits a GLint), culling the back when only the front is wanted, the front when only the back is, and keeping the culling when both are |
| RayCastRenderer.RenderBrick | livre/lib/render/RayCastRenderer.cpp:476-525 | a brick is drawn if and only if its texture is valid, with the front faces culled |
| RayCastRenderer.DrawnBricks | livre/lib/render/RayCastRenderer.cpp:449-451 | the indices of the drawn bricks, increasing, each a brick with a valid texture, none missing |
| RayCastRenderer.RenderBricks | livre/lib/render/RayCastRenderer.cpp:449-451 | the loop issues exactly the draws of the valid-texture bricks, in order, each at the brick's running index, which counts skipped bricks too |
| RayCastRenderer.OnFrameRender | livre/lib/render/RayCastRenderer.cpp:445-457 | the vertex buffer has the brick layout, and there is one draw per valid brick, in order, each for that brick's running index |
| RayCastRenderer.DrawCoversBrick | livre/lib/render/RayCastRenderer.cpp:449-473 | the range a brick's draw covers holds exactly that brick's 36 vertices, when the vertex count fits a GLint |
| RayCastRenderer.ToGLint | livre/lib/render/RayCastRenderer.cpp:473 | the size_t first vertex reaches glDrawArrays congruent modulo 2^32 and unchanged below 2^31 |
| RayCastRenderer.ShaderDataType | livre/lib/render/RayCastRenderer.cpp:216-233 | UINT8/16/32 give 0, INT8/16/32 give 1, FLOAT gives 2, each if and only if; UNDEFINED and any other type fail with "Unsupported type in the shader." |
| RayCastRenderer.MaxRefLevel | livre/lib/render/RayCastRenderer.cpp:242-249 | the result bounds every brick's level and is 0 or one of the levels |
| RayCastRenderer.FindMaxLod | livre/lib/render/RayCastRenderer.cpp:242-249 | the loop starting at 0 and raising to any larger level computes MaxRefLevel |
| RayCastRenderer.MaxRefLevelUnique | livre/lib/render/RayCastRenderer.cpp:242-249 | any value with those two properties is MaxRefLevel |
| RayCastRenderer.Resize | livre/lib/render/RayCastRenderer.cpp:107-120 | afterwards the size is the one requested; an unchanged size changes nothing; a changed size creates a new texture |
| RayCastRenderer.ResizeIdempotent | livre/lib/render/RayCastRenderer.cpp:107-113 | resizing twice to one size is resizing once |
| RayCastRenderer.ResizeRecreatesOnChange | livre/lib/render/RayCastRenderer.cpp:107-120 | the texture is recreated if and only if the size changes, and exists afterwards if and only if it existed or the size changed |
| RayCastRenderer.EmptyFirstResizeAllocatesNothing | livre/lib/render/RayCastRenderer.cpp:90-113 | a new texture resized to 0 x 0 is never created |
| RayCastRenderer.ResizeRenderTexture | livre/lib/render/RayCastRenderer.cpp:209-213 | the size passed is viewport[2]-viewport[0] by viewport[3]-viewport[1]; with integer viewport elements a negative difference wraps to 2^64 plus it; the texture is recreated exactly when the size changes |
| RayCastRenderer.NewRenderer | livre/lib/render/RayCastRenderer.cpp:144-151 | the computed rate starts as the requested one |
| RayCastRenderer.Update | livre/lib/render/RayCastRenderer.cpp:180-187 | after update the computed rate equals the requested rate; the pixel rate is taken; the render texture is untouched |
| RayCastRenderer.OnFrameStart | livre/lib/render/RayCastRenderer.cpp:236-347 | with no requested rate the rate becomes the larger of 512 and the count at the maximum level, otherwise it is unchanged; the data type is looked up; the texture is resized to the viewport unless the lookup failed |
| RayCastRenderer.FrameStartKeepsSampling | livre/lib/render/RayCastRenderer.cpp:240-256 | frame start keeps "a requested rate is the rate used", and the rate used is never 0 afterwards |
| RayCastRenderer.Insert | livre/lib/render/RayCastRenderer.cpp:176 | inserting into a sorted sequence keeps it sorted and adds exactly the element |
| RayCastRenderer.Order | livre/lib/render/RayCastRenderer.cpp:172-178 | the result is a permutation of the bricks, sorted by ascending key |
| RayCastRenderer.SortedPermutationKeys | livre/lib/render/RayCastRenderer.cpp:172-178 | any two sorted arrangements of the same bricks have the same distance at every position, so every result `std::sort` may return has `Order`'s keys |
| RayCastRenderer.OrderSortedUnchanged | livre/lib/render/RayCastRenderer.cpp:172-178 | sorting bricks already in order leaves the distance at every position as it was; only bricks at equal distance can move |
| RayCastRenderer.OrderIdempotent | livre/lib/render/RayCastRenderer.cpp:172-178 | sorting twice gives the same distances at every position as sorting once |
| RayCastRenderer.OrderDistinctDetermined | livre/lib/render/RayCastRenderer.cpp:172-178 | when no two bricks are at the same distance, every sorted permutation is `Order`'s result, so the order is fully determined |
| CacheStatistics.BlockCount | livre/core/cache/CacheStatistics.h:39 | getBlockCount returns the object count as stored, which no mutator of the header changes (GettersUnaffected) |
| CacheStatistics.UsedMemory | livre/core/cache/CacheStatistics.h:44 | getUsedMemory returns the used bytes as stored, which no mutator of the header changes (GettersUnaffected) |
| CacheStatistics.Hit | livre/core/cache/CacheStatistics.h:77 | the hit count goes up by one (mod 2^64), and no other field changes |
| CacheStatistics.Miss | livre/core/cache/CacheStatistics.h:76 | the miss count goes up by one (mod 2^64), and no other field changes |
| CacheStatistics.SetName | livre/core/cache/CacheStatistics.h:49-50 | the name becomes the one given, and no other field changes |
| CacheStatistics.SetMaximumMemory | livre/core/cache/CacheStatistics.h:53-54 | the memory limit becomes the one given, and no other field changes |
| CacheStatistics.GettersUnaffected | livre/core/cache/CacheStatistics.h:39-54 | getBlockCount and getUsedMemory read the same before and after every mutator |
| CacheStatistics.ReplayCounters | livre/core/cache/CacheStatistics.h:76-77 | after any sequence of calls, hits and misses have grown by the number of _hit and _miss calls, modulo 2^64 |
| CacheStatistics.ReplayFields | livre/core/cache/CacheStatistics.h:39-54 | after any sequence of calls, the name and limit are the last ones set, and the used memory, object count and queue size are unchanged |
| CacheStatistics.CountersOrderIndependent | livre/core/cache/CacheStatistics.h:76-77 | the order of the calls does not matter to the hit and miss counts |

## Left out

- The filter-graph engine (Pipeline, PipeFilter, SimpleExecutor, futures and promises): it is not part of this model. `renderFilter.execute()` is left out, and so are the blocking reads of the generators' results. The rendering-set generator's availability is a parameter of `Render`.
- The port declarations in DataUploadFilter.h and RenderingSetGeneratorFilter.h: they come from another revision, and the wiring does not depend on them.
- The `Executor` interface (livre/core/pipeline/Executor.h): it is abstract, and executors appear only as the three kinds and their thread counts.
- All OpenGL work: shaders, uniforms, buffers, textures, culling state, barriers, the full-screen quad, `copyTexToFrameBufAndClear`, and the colour map (`initColorMap`). The draws and the texture size and generation stand for it. The GL-error throw in `RenderTexture::resize` is left out.
- Floating-point computations: the Nyquist count `maxVoxelDim / (1 << (depth - maxLOD - 1))` is the parameter `samplesAtLevel`, already converted to `uint32_t`. The distance of `DistanceOperator` is the key parameter of `Order`, and the half world size is left out.
- RayCastRenderer.Order: states only "a permutation, sorted by key". `std::sort` is not stable, so the relative order of bricks at equal distance is unspecified. The lemmas about `Order` speak of the distance at each position (`Keys`), which every sorted permutation shares, and of the bricks themselves only when all distances differ.
- RayCastRenderer.ResizeRenderTexture: the element type of `Viewport` is not part of this model, and the model takes it to be `int`. If it is a floating-point type, converting a negative difference to `size_t` is undefined behaviour rather than a wrap, and the `v2 < v0` and `v3 < v1` clauses do not apply. The difference is taken in unbounded integers before the conversion, so an `int` overflow in the subtraction, also undefined behaviour, is not modelled.
- RayCastRenderer.RenderBrick: the validity of a brick's texture is an input flag. The texture cache lookup is not modelled, and neither is the error log for an invalid texture.
- CacheStatistics: the constructor, `_loaded` and `_unloaded` are defined outside CacheStatistics.h, and that file is not part of this model. The same holds for `operator<<`. The `_ioQueue` is a multi-threaded queue and is left out too.
- The Equalizer files (livre/eq), View.h and the raw data-source test: they are outside the modelled core.

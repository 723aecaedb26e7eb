# UnityNRD core, modelled in Dafny

This project models the integer, bit, sequence and map logic of UnityNRD. UnityNRD is a Unity
path tracer whose native rendering plugin drives NVIDIA's NRD denoisers and DLSS ray
reconstruction (DLRR) from Unity scripts. One Dafny module models each core source file:

- `Hooks` (hooks.dfy): the vtable hook installer.
  - `ApplyHook` swaps one slot of a vtable array and returns the old entry.
  - `Unprotect` rounds an address down to its page.
  - `StartD3D12Hooks` installs the four device hooks exactly once.
  - The pass-through hooks forward each call to the stored original.
- `RenderingPlugin` (rendering_plugin.dfy): the plugin's instance registries.
  - One id counter serves both NRD and DLRR instances.
  - Instances are created and destroyed, resources are updated, render events are routed, and the NRD registry is cleared on device shutdown.
- `NrdInstances` (nrd_instance.dfy): the native NRD instance.
  - The cached resource array.
  - The early exits and resize rule of `DispatchCompute`.
  - The resource snapshot and the barrier pair around `Denoise`.
  - The once-only initialise and release flags.
- `DlrrInstances` (dlrr_instance.dfy): the native DLRR instance.
  - The 64-bit descriptor key, whose storage flag is bit 63.
  - The memoising descriptor cache.
  - The dispatch guards and the half-resolution input.
- `NrdTypes` (nrd_types.dfy): value types shared by the managed denoisers.
  - The resource types, access states and frame data.
  - The three-slot ring buffer.
- `NrdDenoisers`, `NrdHelpers` and `NrdTextures` (nrd_denoiser.dfy, nrd_helper.dfy, nrd_texture_resource.dfy): the managed denoiser front-ends.
  - The resize and reset rule of `EnsureResources`.
  - The resource-state table sent to native code.
  - The allocate/release lifecycle of wrapped textures.
- `NrdUtil` (nrd_util.dfy): the total map from Unity `GraphicsFormat` to `DXGI_FORMAT`.
- `DataBuilder` (data_builder.dfy): the scene data packing of `PathTracingDataBuilder`.
  - The de-duplicating texture-group pool, four textures per group.
  - Flag and index packing into one `uint`.
  - The primitive-offset prefix sum in `Build`.
- `PathTracingFeatures` (path_tracing_feature.dfy): the renderer feature.
  - The instance-mask rule.
  - The per-camera key and get-or-create of denoisers.
  - Byte-to-`uint4` unpacking.
  - The enqueue guards and `Dispose`.
- `PrepareLights` and `RtxdiBuffers` (prepare_lights.dfy, rtxdi_resources.dfy): RTXDI light preparation and buffers.
  - Light counting and the light-buffer-offset prefix sum.
  - The instance-to-light mapping.
  - Buffer sizes rounded to multiples of four, and conditional buffer creation.
  - Neighbour offsets initialised once.
- `AutoAddTexture` (auto_add_texture.dfy): the editor's texture tools.
  - Asset-path normalisation.
  - Filename and extension matching.
  - Metallic/roughness pairing and the channel merge.
- `FindSameMesh` (find_same_mesh.dfy): mesh de-duplication.
  - The 31-multiplier content hash, which wraps at 32 bits.
  - Grouping by hash with the first-seen mesh as the representative.
  - The collider reassignment rule.
- `Base` (common.dfy): `Option`, and the C# integer conversions (`(ushort)`, `uint` increment, `(int)` on a `uint`, `int` wrap-around) written out explicitly.

Modelling conventions:

- Pointers and handles are `nat`, with 0 for null.
- Native objects that the code updates in place are classes.
  - Their fields are the source's fields.
  - A dictionary becomes a `map` plus, where order matters, a `seq` of keys in insertion order.
- Every call into NRD, NRI, DLSS, D3D12, Unity or the file system is either a parameter or an entry in a call log the method returns.
  - A success flag is a `bool` parameter.
  - A value is a function parameter.
  - A side effect is a log entry, so the contract can say which calls were made and in which order.

## Model

| member | source | states |
|---|---|---|
| Hooks.PageBase | RenderingPlugin/RenderingPlugin/Hooks.cpp:14-16 | the page handed to VirtualProtect is a multiple of 4096 and the address lies in the 4096 bytes from it |
| Hooks.ApplyHook | RenderingPlugin/RenderingPlugin/Hooks.cpp:21-31 | the previous slot entry is returned whether or not the write happened; the slot holds the new function exactly when its page could be unprotected; every other slot is unchanged |
| Hooks.InstalledSlotRunsOriginal | RenderingPlugin/RenderingPlugin/Hooks.cpp:36-81 | a call through a device slot that holds its hook (or its untouched original) runs the native original with the same arguments and returns its result |
| Hooks.RehookedSlotNeverReturns | RenderingPlugin/RenderingPlugin/Hooks.cpp:122-125 | a hook whose stored original is the hook itself never reaches native code: what the `initialized` guard prevents |
| Hooks.HookAll | RenderingPlugin/RenderingPlugin/Hooks.cpp:132-135 | the four device slots are patched and each previous entry is stored as its original; no other slot changes |
| Hooks.HookInstaller.constructor | RenderingPlugin/RenderingPlugin/Hooks.cpp:124 | the installer starts uninitialised with null originals |
| Hooks.HookInstaller.StartD3D12Hooks | RenderingPlugin/RenderingPlugin/Hooks.cpp:122-138 | the first call hooks exactly the four device slots and records the originals; every later call leaves vtable and originals unchanged; afterwards the installer is initialised |
| RenderingPlugin.Plugin.constructor | RenderingPlugin/RenderingPlugin/RenderingPlugin.cpp:24-30 | both registries start empty and the shared id counter starts at 1 |
| RenderingPlugin.Plugin.CreateDenoiserInstance | RenderingPlugin/RenderingPlugin/RenderingPlugin.cpp:117-123 | returns the counter, then increments it; the new id was not registered before, is now registered with a fresh instance, and nothing else changes |
| RenderingPlugin.Plugin.CreateDLRRInstance | RenderingPlugin/RenderingPlugin/RenderingPlugin.cpp:125-131 | draws the id from the NRD counter, so it is never registered as an NRD instance; registers a fresh instance carrying that id |
| RenderingPlugin.Plugin.DestroyDenoiserInstance | RenderingPlugin/RenderingPlugin/RenderingPlugin.cpp:134-143 | removes exactly that id after releasing the instance's resources; an unknown id changes nothing |
| RenderingPlugin.Plugin.DestroyDLRRInstance | RenderingPlugin/RenderingPlugin/RenderingPlugin.cpp:145-154 | the same for the DLRR registry |
| RenderingPlugin.Plugin.UpdateDenoiserResources | RenderingPlugin/RenderingPlugin/RenderingPlugin.cpp:167-178 | a registered instance's cache becomes empty (null or non-positive count) or the first `count` inputs; no other instance and no registry changes |
| RenderingPlugin.Plugin.OnRenderEventAndData | RenderingPlugin/RenderingPlugin/RenderingPlugin.cpp:57-82 | event 1 reaches the NRD instance named by the frame data and event 2 the DLRR instance; unknown events and unregistered ids do nothing; a dispatched frame is skipped exactly on a zero size or no recording, and otherwise stores its size |
| RenderingPlugin.Plugin.OnDeviceShutdown | RenderingPlugin/RenderingPlugin/RenderingPlugin.cpp:46-52 | every NRD instance is released and the NRD registry emptied; the DLRR registry and the counter are unchanged |
| RenderingPlugin.IssuedIdsIncrease | RenderingPlugin/RenderingPlugin/RenderingPlugin.cpp:117-131 | ids issued by successive creations of either kind strictly increase |
| NrdInstances.DescFor | RenderingPlugin/RenderingPlugin/NrdInstance.cpp:135-153 | the creation description carries the size truncated to 16 bits, three queued frames, and SIGMA_SHADOW as identifier 0 and REBLUR_DIFFUSE as identifier 1 |
| NrdInstances.SnapshotHasType | RenderingPlugin/RenderingPlugin/NrdInstance.cpp:75-86 | the snapshot holds a resource type exactly when some cached entry of that type has a non-null texture |
| NrdInstances.SnapshotTakesLastEntry | RenderingPlugin/RenderingPlugin/NrdInstance.cpp:75-86 | the stored resource copies the texture and state of the last entry of its type with a texture |
| NrdInstances.LastTexturedEntryWins | RenderingPlugin/RenderingPlugin/NrdInstance.cpp:75-86 | an entry with a texture that no later entry of its type follows is the one whose texture and state the stored resource copies |
| NrdInstances.FrameRestoresValidationState | RenderingPlugin/RenderingPlugin/NrdInstance.cpp:90-110 | the validation texture is COMMON while `Denoise` runs and back in PIXEL_SHADER_RESOURCE afterwards; no other resource changes state |
| NrdInstances.NrdInstance.constructor | RenderingPlugin/RenderingPlugin/NrdInstance.cpp:10-15 | a new instance has zero size, an empty cache and its resources marked initialised |
| NrdInstances.NrdInstance.UpdateResources | RenderingPlugin/RenderingPlugin/NrdInstance.cpp:115-128 | a null table or a non-positive count empties the cache; otherwise the cache becomes exactly the first `count` entries; nothing else changes |
| NrdInstances.NrdInstance.CreateNrd | RenderingPlugin/RenderingPlugin/NrdInstance.cpp:130-164 | the integration is destroyed and recreated for the stored size; the ids become 0 and 1; a failed recreate reports failure and leaves the integration destroyed |
| NrdInstances.NrdInstance.BuildSnapshot | RenderingPlugin/RenderingPlugin/NrdInstance.cpp:73-86 | the loop builds the snapshot of the cached table |
| NrdInstances.NrdInstance.DispatchCompute | RenderingPlugin/RenderingPlugin/NrdInstance.cpp:22-113 | null data, a zero dimension or no recording changes nothing; a new size is stored and NRD recreated with ids 0 and 1, an equal size never recreates; the frame records settings, the barrier pair around `Denoise` of both denoisers, and the snapshot |
| NrdInstances.NrdInstance.InitializeAndCreateResources | RenderingPlugin/RenderingPlugin/NrdInstance.cpp:166-171 | sets the initialised flag and changes nothing else |
| NrdInstances.NrdInstance.ReleaseResources | RenderingPlugin/RenderingPlugin/NrdInstance.cpp:173-183 | destroys the integration only when initialised and clears the flag, so a second call changes nothing |
| DlrrInstances.DescriptorKey | RenderingPlugin/RenderingPlugin/DLRRInstance.cpp:10-13 | bit 63 of the key is the storage flag and bits 0-62 are the low 63 bits of the native pointer |
| DlrrInstances.DescriptorKeyInjective | RenderingPlugin/RenderingPlugin/DLRRInstance.cpp:10-13 | two keys are equal exactly when their flags and their low 63 pointer bits are equal |
| DlrrInstances.StorageAndShaderViewsDistinct | RenderingPlugin/RenderingPlugin/DLRRInstance.cpp:10-13 | the SRV and the UAV of one texture are cached under different keys |
| DlrrInstances.ViewFor | RenderingPlugin/RenderingPlugin/DLRRInstance.cpp:46-56 | a miss requests a storage view exactly for storage, with the texture's format, mip offset 0 and one mip |
| DlrrInstances.LookupDescriptorProperties | RenderingPlugin/RenderingPlugin/DLRRInstance.cpp:29-68 | a null texture gives null; the cache only grows, by at most the key of this view; a non-null result is exactly a cached key's value |
| DlrrInstances.LookupDescriptorIdempotent | RenderingPlugin/RenderingPlugin/DLRRInstance.cpp:29-68 | asking again for the same view returns the same descriptor and leaves the cache unchanged |
| DlrrInstances.UpscalerDescFor | RenderingPlugin/RenderingPlugin/DLRRInstance.cpp:124-133 | the upscaler is requested at the frame size in PERFORMANCE mode with the DEPTH_INFINITE, HDR and DEPTH_INVERTED flags |
| DlrrInstances.DlrrInstance.constructor | RenderingPlugin/RenderingPlugin/DLRRInstance.cpp:15-22 | the id is stored, resources are marked initialised, size zero, empty cache, no upscaler |
| DlrrInstances.DlrrInstance.GetOrCreateDescriptor | RenderingPlugin/RenderingPlugin/DLRRInstance.cpp:29-68 | the descriptor and the new cache are those of the lookup rule above; nothing else changes |
| DlrrInstances.DlrrInstance.GetPair | RenderingPlugin/RenderingPlugin/DLRRInstance.cpp:70-74 | the pair holds the texture and a descriptor that is null for a null texture and otherwise non-null exactly when its view is cached |
| DlrrInstances.DlrrInstance.BindFrame | RenderingPlugin/RenderingPlugin/DLRRInstance.cpp:158-177 | input is bound as SRV, output as UAV, the six guides as SRVs, and the current resolution is half the frame size; the cache grows only by the frame's views |
| DlrrInstances.DlrrInstance.BindGuides | RenderingPlugin/RenderingPlugin/DLRRInstance.cpp:169-174 | each of the six guides is its texture with its shader-resource descriptor |
| DlrrInstances.DlrrInstance.DispatchCompute | RenderingPlugin/RenderingPlugin/DLRRInstance.cpp:77-182 | null data, a zero dimension or no recording changes nothing; a new size is stored, the old upscaler destroyed and a new one created; a null upscaler is reported where the source dereferences it; otherwise the upscale is dispatched with the frame's bindings |
| DlrrInstances.DlrrInstance.InitializeAndCreateResources | RenderingPlugin/RenderingPlugin/DLRRInstance.cpp:184-189 | sets the initialised flag and changes nothing else |
| DlrrInstances.DlrrInstance.ReleaseResources | RenderingPlugin/RenderingPlugin/DLRRInstance.cpp:191-205 | when initialised, destroys the upscaler if there is one and clears the flag; otherwise nothing happens; the cache is kept |
| NrdTextures.ReleaseClearsLive | UnityProject/Assets/Scripts/NRD/NrdTextureResource.cs:76-80 | releasing the current wrapper leaves no NRI wrapper of this resource outstanding |
| NrdTextures.NrdTextureResource.constructor | UnityProject/Assets/Scripts/NRD/NrdTextureResource.cs:34-41 | the resource is named after its type and keeps type, format, state and sRGB flag; handle and pointers start null |
| NrdTextures.NrdTextureResource.Release | UnityProject/Assets/Scripts/NRD/NrdTextureResource.cs:74-99 | the wrapper is freed only when its pointer is non-zero and the handle only when non-null; afterwards both pointers are zero, the handle null and no wrapper outstanding |
| NrdTextures.NrdTextureResource.Allocate | UnityProject/Assets/Scripts/NRD/NrdTextureResource.cs:43-72 | releases first, then allocates the random-write texture of that size and wraps its native pointer with the format `GetDXGIFormat` gives; afterwards `IsCreated` holds and at most one wrapper is outstanding, none when the wrap returns null |
| NrdTextures.ReleaseIsIdempotent | UnityProject/Assets/Scripts/NRD/NrdTextureResource.cs:76-90 | a second `Release` makes no call at all |
| NrdTypes.FrameDataFor | UnityProject/Assets/Scripts/NRD/NRDDenoiser.cs:141-237 | every current and previous resource and rect size is the camera size cut to 16 bits; the previous matrices are the ones passed in; frame index, instance id and validation flag are set |
| NrdTypes.RingSlot | UnityProject/Assets/Scripts/NRD/NRDDenoiser.cs:239-243 | the slot written is the frame index modulo 3 |
| NrdTypes.ConsecutiveFramesUseDistinctSlots | UnityProject/Assets/Scripts/NRD/NRDDenoiser.cs:241-243 | three consecutive frames, without counter wrap-around, write three distinct slots |
| NrdTypes.WrapAroundReusesSlot | UnityProject/Assets/Scripts/NRD/NRDDenoiser.cs:239-243 | when the 32-bit counter wraps from 2^32-1 to 0, two consecutive frames both write slot 0 |
| NrdDenoisers.InputsOf | UnityProject/Assets/Scripts/NRD/NRDDenoiser.cs:120-123 | one entry per resource, in list order, carrying its type, wrapper pointer and state |
| NrdDenoisers.FirstOfType | UnityProject/Assets/Scripts/NRD/NRDDenoiser.cs:43-46 | the index `List.Find` stops at is the first resource of the type, and none exists when it finds nothing |
| NrdDenoisers.AddedResourcesFollowAccessRule | UnityProject/Assets/Scripts/NRD/NRDDenoiser.cs:82-92 | the eight added resources read every IN_* type as a shader resource and write every OUT_* type as storage |
| NrdDenoisers.AddedResourceTypesDistinct | UnityProject/Assets/Scripts/NRD/NRDDenoiser.cs:85-92 | a size change adds one resource of each of eight distinct types |
| NrdDenoisers.AddedResourceFormatsSupported | UnityProject/Assets/Scripts/NRD/NRDDenoiser.cs:85-92 | every format the added resources use maps to a DXGI code other than UNKNOWN |
| NrdDenoisers.NrdDenoiser.constructor | UnityProject/Assets/Scripts/NRD/NRDDenoiser.cs:29-61 | the id is the plugin's, the frame index 0, the stored size -1 x -1, the list empty, and three default frame blocks |
| NrdDenoisers.NrdDenoiser.GetResource | UnityProject/Assets/Scripts/NRD/NRDDenoiser.cs:43-46 | a resource is found exactly when one of that type is listed, and it is the first listed resource of that type, as `List.Find` returns it |
| NrdDenoisers.NrdDenoiser.GetRT | UnityProject/Assets/Scripts/NRD/NRDDenoiser.cs:48-51 | the lookup fails exactly when no resource has the type, and otherwise yields the handle of the first listed resource of that type |
| NrdDenoisers.NrdDenoiser.UpdateResourceSnapshotInCpp | UnityProject/Assets/Scripts/NRD/NRDDenoiser.cs:102-129 | creates the 20-entry buffer when missing, writes one entry per resource in order and sends them; more than 20 resources overrun the buffer |
| NrdDenoisers.NrdDenoiser.AddAll | UnityProject/Assets/Scripts/NRD/NRDDenoiser.cs:82-92 | the list keeps its old resources and ends with eight fresh ones made from the added specs, in order |
| NrdDenoisers.NrdDenoiser.AllocateAll | UnityProject/Assets/Scripts/NRD/NRDDenoiser.cs:94-97 | every listed resource holds a texture of the new size |
| NrdDenoisers.NrdDenoiser.EnsureResources | UnityProject/Assets/Scripts/NRD/NRDDenoiser.cs:63-100 | an unchanged size reallocates nothing, keeps the frame index and re-sends only at frame index 1; a new size is stored, the frame index restarts at 0, eight resources are appended without clearing, all are allocated and the whole list sent |
| NrdDenoisers.NrdDenoiser.ReleaseTextures | UnityProject/Assets/Scripts/NRD/NRDDenoiser.cs:131-139 | releases every resource in list order and empties the list |
| NrdDenoisers.NrdDenoiser.GetData | UnityProject/Assets/Scripts/NRD/NRDDenoiser.cs:141-237 | the frame data is that of the camera with the previously stored matrices, which the camera's matrices then replace |
| NrdDenoisers.NrdDenoiser.GetInteropDataPtr | UnityProject/Assets/Scripts/NRD/NRDDenoiser.cs:239-248 | writes slot `FrameIndex % 3` only, advances the 32-bit frame index by one, and returns that slot's address |
| NrdDenoisers.NrdDenoiser.Dispose | UnityProject/Assets/Scripts/NRD/NRDDenoiser.cs:250-259 | frees the frame buffer, releases every texture, empties the list and destroys the native instance |
| NrdDenoisers.NewResources | UnityProject/Assets/Scripts/NRD/NRDDenoiser.cs:82-92 | one fresh, unallocated resource per spec, in order, pairwise distinct objects |
| NrdDenoisers.NrdDenoiser.Rebuild | UnityProject/Assets/Scripts/NRD/NRDDenoiser.cs:76-99 | the new-size path: size stored, frame index 0, old resources kept as a prefix, eight added ones at the end, every resource allocated at the new size |
| NrdDenoisers.NrdDenoiser.EnsureResourcesReplacing | UnityProject/Assets/Scripts/NRD/NRDDenoiser.cs:63-100 | corrected form: a new size releases the old resources and leaves exactly the eight added ones, so at most eight are ever listed |
| NrdDenoisers.NrdDenoiser.ReleaseAll | UnityProject/Assets/Scripts/NRD/NRDDenoiser.cs:133-137 | every listed resource is released, in list order |
| NrdDenoisers.GrowOnce | UnityProject/Assets/Scripts/NRD/NRDDenoiser.cs:76-99 | as written, each size change lengthens the list by eight and sends the whole list |
| NrdDenoisers.ThirdSizeOverrunsBuffer | UnityProject/Assets/Scripts/NRD/NRDDenoiser.cs:82-126 | three sizes in a row send 8, then 16, then 24 entries into the 20-entry buffer |
| NrdDenoisers.Resize | UnityProject/Assets/Scripts/NRD/NRDDenoiser.cs:82-126 | a size change keeps the old list, appends the eight listed resources wrapping the next eight pointers, records the size and sends the whole list |
| NrdDenoisers.DuplicatedListSplits | UnityProject/Assets/Scripts/NRD/NRDDenoiser.cs:43-46 | in a 16-entry list made by two sizes, the first resource of type IN_MV is entry 0, while the snapshot keeps the texture of entry 8 |
| NrdDenoisers.SecondSizeSplitsInputs | UnityProject/Assets/Scripts/NRD/NRDDenoiser.cs:82-126 | after a second size, `GetResource(IN_MV)` still gives the first-size resource, whose wrapper the render pass writes, while the plugin reads the second-size texture |
| NrdDenoisers.ReplaceOnce | UnityProject/Assets/Scripts/NRD/NRDDenoiser.cs:63-105 | with the corrected method one call keeps at most eight resources and never overruns |
| NrdDenoisers.ResizesStayInBounds | UnityProject/Assets/Scripts/NRD/NRDDenoiser.cs:63-105 | with the corrected method any sequence of sizes sends at most eight entries each time, fewer than the 20 slots |
| NrdHelpers.AllocatedHandlesFollowAllocOrder | UnityProject/Assets/Scripts/NRD/NRDHelper.cs:106-129 | after a size change every handle is set, and the release order visits the textures in the order they were allocated |
| NrdHelpers.WrapFormatsAgreeWithMapping | UnityProject/Assets/Scripts/NRD/NRDHelper.cs:106-139 | each texture is wrapped with the DXGI format its allocation format maps to, and none is UNKNOWN |
| NrdHelpers.ReleaseNriCalls | UnityProject/Assets/Scripts/NRD/NRDHelper.cs:208-215 | one `ReleaseTexture` call per wrapper |
| NrdHelpers.ReleaseHandleCalls | UnityProject/Assets/Scripts/NRD/NRDHelper.cs:227-242 | one `RTHandles.Release` call per handle |
| NrdHelpers.AllocCalls | UnityProject/Assets/Scripts/NRD/NRDHelper.cs:106-129 | one allocation per texture |
| NrdHelpers.WrapCalls | UnityProject/Assets/Scripts/NRD/NRDHelper.cs:132-139 | one `WrapD3D12Texture` call per wrapper |
| NrdHelpers.LiveAfterConcat | UnityProject/Assets/Scripts/NRD/NRDHelper.cs:206-253 | the wrappers left outstanding by two call sequences in a row are those of their concatenation |
| NrdHelpers.LiveAfterReleases | UnityProject/Assets/Scripts/NRD/NRDHelper.cs:208-215 | releasing wrappers removes exactly them from the outstanding set |
| NrdHelpers.LiveAfterHandleReleases | UnityProject/Assets/Scripts/NRD/NRDHelper.cs:227-242 | releasing handles leaves the outstanding wrappers alone |
| NrdHelpers.LiveAfterAllocs | UnityProject/Assets/Scripts/NRD/NRDHelper.cs:106-129 | allocating textures leaves the outstanding wrappers alone |
| NrdHelpers.LiveAfterWraps | UnityProject/Assets/Scripts/NRD/NRDHelper.cs:132-139 | wrapping adds exactly the non-null wrappers returned |
| NrdHelpers.ReleaseLeavesNoWrapper | UnityProject/Assets/Scripts/NRD/NRDHelper.cs:206-253 | when the outstanding wrappers are those the helper holds, none is left after `ReleaseTextures` |
| NrdHelpers.ResizeOutstanding | UnityProject/Assets/Scripts/NRD/NRDHelper.cs:106-139 | after the allocations and wraps of a size change exactly the new non-null wrappers are outstanding |
| NrdHelpers.HelperSnapshotShape | UnityProject/Assets/Scripts/NRD/NRDHelper.cs:165-180 | the table has eight entries of pairwise distinct types, the i-th carrying the i-th wrapper |
| NrdHelpers.HelperSteadyStateAccess | UnityProject/Assets/Scripts/NRD/NRDHelper.cs:158-177 | after the first frame every input is read as a shader resource, every output but validation is written as storage, and validation is common |
| NrdHelpers.HelperSteadyStateFirstHalf | UnityProject/Assets/Scripts/NRD/NRDHelper.cs:167-172 | the rule of `HelperSteadyStateAccess` for the first four entries |
| NrdHelpers.HelperSteadyStateSecondHalf | UnityProject/Assets/Scripts/NRD/NRDHelper.cs:172-177 | the rule of `HelperSteadyStateAccess` for the last four entries |
| NrdHelpers.HelperFirstFrameAccess | UnityProject/Assets/Scripts/NRD/NRDHelper.cs:158-177 | on frame 0 the four geometry and penumbra inputs and the shadow output are storage, the radiance input and output colour attachments, validation common |
| NrdHelpers.DistinctSnapshotKeepsEntries | UnityProject/Assets/Scripts/NRD/NRDHelper.cs:165-180 | in a table of distinct types the plugin's snapshot keeps every entry that has a texture, under its own type |
| NrdHelpers.HelperSnapshotReachesNative | UnityProject/Assets/Scripts/NRD/NRDHelper.cs:165-180 | every non-null wrapper the helper sends reaches the plugin's snapshot under its type with the table's state |
| NrdHelpers.HelperFrameData | UnityProject/Assets/Scripts/NRD/NRDHelper.cs:256-358 | sizes are the camera's cut to 16 bits; frame index, instance id, pointers and validation are set; the matrices are the camera's and the stored ones, or all four overriding ones |
| NrdHelpers.WriteTable | UnityProject/Assets/Scripts/NRD/NRDHelper.cs:165-177 | the first eight cache entries become the table and the rest are unchanged |
| NrdHelpers.NullOutstanding | UnityProject/Assets/Scripts/NRD/NRDHelper.cs:217-224 | no wrapper is outstanding once every pointer is zero |
| NrdHelpers.NrdHelper.constructor | UnityProject/Assets/Scripts/NRD/NRDHelper.cs:31-81 | the id is the plugin's, frame index 0, size -1 x -1, handles null, pointers zero, no wrapper outstanding, and a live 3-slot buffer |
| NrdHelpers.NrdHelper.UpdateResourceSnapshotInCpp | UnityProject/Assets/Scripts/NRD/NRDHelper.cs:145-183 | (re)creates the 20-entry cache when missing or short, writes the eight table entries at its start and sends exactly them |
| NrdHelpers.NrdHelper.ReleaseTextures | UnityProject/Assets/Scripts/NRD/NRDHelper.cs:206-253 | releases all eight wrappers and handles, null or not, nulls every field, and leaves no wrapper outstanding |
| NrdHelpers.NrdHelper.EnsureResources | UnityProject/Assets/Scripts/NRD/NRDHelper.cs:83-143 | same size with both handles present: no calls, state kept, table re-sent only at frame 1; otherwise release, store the size, frame index 0, allocate and wrap all eight, and send the first-frame table |
| NrdHelpers.NrdHelper.Reallocate | UnityProject/Assets/Scripts/NRD/NRDHelper.cs:98-139 | the reallocating path: release calls then allocations and wraps, new size, frame index 0, the new handles, pointers and wrappers |
| NrdHelpers.NrdHelper.GetData | UnityProject/Assets/Scripts/NRD/NRDHelper.cs:256-359 | the frame data of `HelperFrameData`, after which the camera's own matrices, not the overriding ones, become the previous ones |
| NrdHelpers.NrdHelper.GetInteropDataPtr | UnityProject/Assets/Scripts/NRD/NRDHelper.cs:361-370 | writes slot `FrameIndex % 3` only, advances the 32-bit frame index, and returns that slot's address |
| NrdHelpers.NrdHelper.Dispose | UnityProject/Assets/Scripts/NRD/NRDHelper.cs:372-381 | frees the buffer, releases every texture leaving no wrapper outstanding, and destroys the helper's native instance |
| NrdUtil.UnknownIffUnsupported | UnityProject/Assets/Scripts/NRD/NRDUtil.cs:8-236 | `GetDXGIFormat` gives UNKNOWN exactly for the formats with no DXGI counterpart (three-channel, sRGB one- and two-channel, B8G8R8A8 signed/integer, the RGBA-order packed formats, stencil only, and the default branch) |
| NrdUtil.MappingPreservesSrgb | UnityProject/Assets/Scripts/NRD/NRDUtil.cs:8-236 | an sRGB format maps to an sRGB code or to UNKNOWN, and a linear one never to an sRGB code |
| NrdUtil.ThreeChannelFormatsUnknown | UnityProject/Assets/Scripts/NRD/NRDUtil.cs:37-49 | every three-channel 8-bit and 16-bit format maps to UNKNOWN |
| NrdUtil.SrgbRows | UnityProject/Assets/Scripts/NRD/NRDUtil.cs:51-66 | R8G8B8A8 and B8G8R8A8 sRGB map to their sRGB codes, R8 and R8G8 sRGB to UNKNOWN |
| NrdUtil.PackedRows | UnityProject/Assets/Scripts/NRD/NRDUtil.cs:150-177 | the 11:11:10 float, 10:10:10:2 and shared-exponent formats map to their DXGI codes |
| NrdUtil.DepthRows | UnityProject/Assets/Scripts/NRD/NRDUtil.cs:178-190 | depth with stencil maps to D32_FLOAT_S8X24_UINT and stencil alone to UNKNOWN |
| NrdUtil.BlockCompressedRows | UnityProject/Assets/Scripts/NRD/NRDUtil.cs:191-225 | each DXT/BC7 format keeps its sRGB or UNorm encoding |
| NrdUtil.DenoiserFormatsSupported | UnityProject/Assets/Scripts/NRD/NRDUtil.cs:8-236 | the five formats the denoisers allocate map to their DXGI codes |
| DataBuilder.Pack | UnityProject/Assets/Scripts/PathTracingDataBuilder.cs:282 | shifting the packed word right by 24 gives back the low eight flag bits, and masking with the low 24 bits gives back the low 24 bits of the texture index |
| DataBuilder.MaterialFlags | UnityProject/Assets/Scripts/PathTracingDataBuilder.cs:267-278 | no flags without a material; otherwise TRANSPARENT exactly for a transparent material, NON_TRANSPARENT exactly for an opaque one, STATIC exactly for a static object, and no other bit |
| DataBuilder.GroupAtExtends | UnityProject/Assets/Scripts/PathTracingDataBuilder.cs:103-107 | a group stays at its index when the pool grows at its end |
| DataBuilder.CachedIndicesDistinct | UnityProject/Assets/Scripts/PathTracingDataBuilder.cs:95-109 | two different cached texture groups never share an index |
| DataBuilder.Meshed | UnityProject/Assets/Scripts/PathTracingDataBuilder.cs:163-171 | every renderer `Build` processes is in range and has a mesh |
| DataBuilder.PrimitivesOf | UnityProject/Assets/Scripts/PathTracingDataBuilder.cs:187-235 | one primitive record per triangle, in order, carrying that triangle's vertex indices |
| DataBuilder.AllPrimitivesLength | UnityProject/Assets/Scripts/PathTracingDataBuilder.cs:163-235 | the primitive list is as long as the triangle total of the renderers that have a mesh |
| DataBuilder.AllPrimitivesPrefix | UnityProject/Assets/Scripts/PathTracingDataBuilder.cs:163-235 | the primitives of the first renderers begin the primitives of the whole list |
| DataBuilder.PrimitiveOffsetLocatesTriangles | UnityProject/Assets/Scripts/PathTracingDataBuilder.cs:248-259 | a renderer's primitive offset plus t indexes its own triangle t in the primitive list |
| DataBuilder.MeshedIsIdentityWithoutSkips | UnityProject/Assets/Scripts/PathTracingDataBuilder.cs:256-257 | when every renderer has a mesh, the instance id given to each record equals the record's index |
| DataBuilder.SkippedRendererShiftsInstanceId | UnityProject/Assets/Scripts/PathTracingDataBuilder.cs:163-257 | a meshless renderer in front makes the only instance record, at index 0, carry instance id 1 |
| DataBuilder.OffsetStep | UnityProject/Assets/Scripts/PathTracingDataBuilder.cs:160-259 | the uint primitive offset stays the triangle total modulo 2^32 after each renderer |
| DataBuilder.MeshedStep | UnityProject/Assets/Scripts/PathTracingDataBuilder.cs:163-235 | processing renderer i appends i to the processed renderers exactly when it has a mesh, and appends its primitives |
| DataBuilder.PathTracingDataBuilder.constructor | UnityProject/Assets/Scripts/PathTracingDataBuilder.cs:72-82 | pool, cache, instance and primitive lists start empty |
| DataBuilder.PathTracingDataBuilder.GetTextureGroupIndex | UnityProject/Assets/Scripts/PathTracingDataBuilder.cs:84-111 | 0 for a null material with nothing changed; the cached index of a known group; otherwise the old pool length after appending base, mask, normal and emission textures (defaults for missing ones) and caching the key; the group at the index is the material's |
| DataBuilder.PathTracingDataBuilder.AppendPrimitives | UnityProject/Assets/Scripts/PathTracingDataBuilder.cs:187-235 | appends exactly the mesh's primitive records and changes nothing else |
| DataBuilder.PathTracingDataBuilder.AddInstance | UnityProject/Assets/Scripts/PathTracingDataBuilder.cs:238-311 | appends one instance record whose primitive offset, instance id, flags and texture group are those of the renderer, plus its primitives |
| DataBuilder.PathTracingDataBuilder.RecordKept | UnityProject/Assets/Scripts/PathTracingDataBuilder.cs:311 | a record stays the one made for its renderer as the pool grows and records are appended |
| DataBuilder.PathTracingDataBuilder.Build | UnityProject/Assets/Scripts/PathTracingDataBuilder.cs:123-327 | clears everything, then makes one record per renderer with a mesh: its offset is the wrapped triangle total before it, its instance id the renderer's index, its packed word names the group of its material; the primitives are all triangles in renderer order |
| DataBuilder.PathTracingDataBuilder.BuildStep | UnityProject/Assets/Scripts/PathTracingDataBuilder.cs:163-312 | one loop iteration keeps the records, the primitive list and the wrapped offset in step with the first i + 1 renderers |
| DataBuilder.PathTracingDataBuilder.AddMeshed | UnityProject/Assets/Scripts/PathTracingDataBuilder.cs:173-311 | the iteration for a renderer that has a mesh |
| PathTracingFeatures.MaskBits | UnityProject/Assets/Scripts/PathTracingFeature.cs:28-48 | bit 0x01 is set exactly when some material is null or opaque, 0x02 exactly when some is transparent, no other bit; a renderer without materials gets mask 0 and any other a non-zero mask |
| PathTracingFeatures.InstanceMask | UnityProject/Assets/Scripts/PathTracingFeature.cs:28-48 | the loop over a renderer's materials computes the mask `MaskBits` characterises |
| PathTracingFeatures.SetMask | UnityProject/Assets/Scripts/PathTracingFeature.cs:23-54 | one mask per renderer, in order, each the one its materials call for |
| PathTracingFeatures.CameraKeyDecodes | UnityProject/Assets/Scripts/PathTracingFeature.cs:215-218 | for camera ids in [-50000, 50000) the key determines the eye index and the camera id |
| PathTracingFeatures.CameraKeysCollide | UnityProject/Assets/Scripts/PathTracingFeature.cs:215-218 | camera 100000 without XR and camera 0's second eye get the same key |
| PathTracingFeatures.Unpacked | UnityProject/Assets/Scripts/PathTracingFeature.cs:121-128 | the unpacked array has one element per texel |
| PathTracingFeatures.FlattenLength | UnityProject/Assets/Scripts/PathTracingFeature.cs:121-128 | a texel list holds four values per texel |
| PathTracingFeatures.UnpackRoundTrip | UnityProject/Assets/Scripts/PathTracingFeature.cs:121-128 | unpacking loses nothing: flattening the texels gives back the first four bytes per texel of the raw data |
| PathTracingFeatures.UnpackTexels | UnityProject/Assets/Scripts/PathTracingFeature.cs:121-139 | the loop fills a fresh array of width x height elements, element i holding raw bytes 4i to 4i + 3 |
| PathTracingFeatures.NrdDisposals | UnityProject/Assets/Scripts/PathTracingFeature.cs:295-298 | one NRD disposal per key, in enumeration order |
| PathTracingFeatures.DlrrDisposals | UnityProject/Assets/Scripts/PathTracingFeature.cs:301-304 | one DLRR disposal per key, in enumeration order |
| PathTracingFeatures.DisposalsDistinct | UnityProject/Assets/Scripts/PathTracingFeature.cs:295-304 | with distinct dictionary keys no denoiser is disposed twice |
| PathTracingFeatures.DisposalsCover | UnityProject/Assets/Scripts/PathTracingFeature.cs:295-304 | exactly the NRD keys get NRD disposals and exactly the DLRR keys DLRR disposals |
| PathTracingFeatures.DisposeAll | UnityProject/Assets/Scripts/PathTracingFeature.cs:295-304 | the two loops dispose the NRD denoisers, then the DLRR denoisers, each in enumeration order |
| PathTracingFeatures.PathTracingFeature.constructor | UnityProject/Assets/Scripts/PathTracingFeature.cs:76-88 | no denoisers, no pass, and no buffers |
| PathTracingFeatures.PathTracingFeature.InitializeBuffers | UnityProject/Assets/Scripts/PathTracingFeature.cs:170-207 | the three SHaRC buffers are (re)made with 2^22 zeroed entries of 8, 16 and 16 bytes; nothing else changes |
| PathTracingFeatures.PathTracingFeature.Create | UnityProject/Assets/Scripts/PathTracingFeature.cs:96-168 | the blue-noise buffers are made from the unpacked texels only when missing, the SHaRC buffers only when the accumulation buffer is missing, and the pass always anew |
| PathTracingFeatures.PathTracingFeature.AddRenderPasses | UnityProject/Assets/Scripts/PathTracingFeature.cs:209-283 | preview and reflection cameras change nothing; otherwise the camera key gets an NRD and a DLRR denoiser when it has none, existing ones kept, and the pass is enqueued unless a checked shader or the final material is missing, or packed data is in use and the builder is empty |
| PathTracingFeatures.PathTracingFeature.Dispose | UnityProject/Assets/Scripts/PathTracingFeature.cs:285-320 | disposes every NRD then every DLRR denoiser exactly once, empties both dictionaries and releases every buffer |
| PrepareLights.Tasks | UnityProject/Assets/Scripts/Rtxdi/PrepareLightsPass.cs:97-119 | one task per emissive submesh |
| PrepareLights.Mapped | UnityProject/Assets/Scripts/Rtxdi/PrepareLightsPass.cs:79-106 | the mapping has one slot per geometry instance |
| PrepareLights.TaskOffsetIsPrefixSum | UnityProject/Assets/Scripts/Rtxdi/PrepareLightsPass.cs:106-118 | task i names light i's instance, geometry 0 and its triangle count, at the triangle sum of the lights before it |
| PrepareLights.TasksAreContiguous | UnityProject/Assets/Scripts/Rtxdi/PrepareLightsPass.cs:110-118 | the first task starts at 0 and each next task starts where the previous one ends |
| PrepareLights.TriangleSumMonotone | UnityProject/Assets/Scripts/Rtxdi/PrepareLightsPass.cs:116 | the triangles of a prefix of the lights are no more than those of all of them |
| PrepareLights.TaskRangesDisjoint | UnityProject/Assets/Scripts/Rtxdi/PrepareLightsPass.cs:113-116 | the light-buffer ranges of two tasks never overlap, and they come in order |
| PrepareLights.UnnamedSlotStaysInvalid | UnityProject/Assets/Scripts/Rtxdi/PrepareLightsPass.cs:79-106 | a geometry slot no task names stays RTXDI_INVALID_LIGHT_INDEX |
| PrepareLights.LastTaskWins | UnityProject/Assets/Scripts/Rtxdi/PrepareLightsPass.cs:106 | a named slot holds the offset of the last task naming it |
| PrepareLights.EmissiveListStep | UnityProject/Assets/Scripts/Rtxdi/PrepareLightsPass.cs:18-47 | one more renderer appends its emissive submeshes and adds its submesh count |
| PrepareLights.SubmeshLightsStep | UnityProject/Assets/Scripts/Rtxdi/PrepareLightsPass.cs:32-46 | one more submesh adds a light exactly when it is emissive, with a third of its triangle indices |
| PrepareLights.TasksStep | UnityProject/Assets/Scripts/Rtxdi/PrepareLightsPass.cs:110-118 | one more light appends a task at the running offset and advances the offset by its triangles |
| PrepareLights.CountLightsInScene | UnityProject/Assets/Scripts/Rtxdi/PrepareLightsPass.cs:12-52 | the counts are the number of emissive submeshes, their triangles, and the submeshes of every renderer with a mesh |
| PrepareLights.CountEntry | UnityProject/Assets/Scripts/Rtxdi/PrepareLightsPass.cs:28-46 | the inner loop adds one renderer's emissive submeshes, triangles and submeshes |
| PrepareLights.Process | UnityProject/Assets/Scripts/Rtxdi/PrepareLightsPass.cs:55-141 | the tasks are those of the emissive submeshes in order, the mapping starts invalid and records each task's offset in its instance's slot, and the parameters cover all task triangles in the local region, none infinite, no environment light |
| PrepareLights.ProcessEntry | UnityProject/Assets/Scripts/Rtxdi/PrepareLightsPass.cs:88-119 | the inner loop adds one renderer's tasks and mapping writes |
| PrepareLights.MappedStep | UnityProject/Assets/Scripts/Rtxdi/PrepareLightsPass.cs:106 | one more task writes its offset into its own slot only |
| PrepareLights.AddLight | UnityProject/Assets/Scripts/Rtxdi/PrepareLightsPass.cs:106-118 | one emissive submesh: its task at the running offset, its slot written, the offset advanced |
| PrepareLights.GeometryInstanceCount | UnityProject/Assets/Scripts/Rtxdi/PrepareLightsPass.cs:63-75 | the sum counts the submeshes of every renderer that has a mesh |
| PrepareLights.CountsAgree | UnityProject/Assets/Scripts/Rtxdi/PrepareLightsPass.cs:12-141 | over the same dictionary `Process` makes as many tasks as `CountLightsInScene` counts emissive submeshes, its light count is the counted triangles, and its mapping has a slot per counted geometry instance |
| RtxdiBuffers.ClearLowTwoBits | UnityProject/Assets/Scripts/Rtxdi/RtxdiResources.cs:82 | `& ~3` gives the largest multiple of 4 not above its operand |
| RtxdiBuffers.ClearLowTwoBitsIsMask | UnityProject/Assets/Scripts/Rtxdi/RtxdiResources.cs:82 | the arithmetic form agrees with the 32-bit mask `x & ~3` |
| RtxdiBuffers.QuarterOf | UnityProject/Assets/Scripts/Rtxdi/RtxdiResources.cs:86 | C# `/ 4` on `int` truncates toward zero, for negative and non-negative operands |
| RtxdiBuffers.NeighborSizeRoundsUp | UnityProject/Assets/Scripts/Rtxdi/RtxdiResources.cs:80-86 | without overflow the raw buffer's byte size is a multiple of 4 holding the 2n offset bytes with fewer than 4 to spare, and its element count is that size in words |
| RtxdiBuffers.NeighborSizeIsLeast | UnityProject/Assets/Scripts/Rtxdi/RtxdiResources.cs:80-82 | no smaller multiple of 4 holds the 2n offset bytes |
| RtxdiBuffers.ReservoirsAreThreePitches | UnityProject/Assets/Scripts/Rtxdi/RtxdiResources.cs:94-96 | without overflow there are three reservoirs per pitch element, and the reservoir buffer exists exactly when the pitch is positive |
| RtxdiBuffers.OverflowingPitchDropsReservoirs | UnityProject/Assets/Scripts/Rtxdi/RtxdiResources.cs:94-96 | a pitch of 0x30000000 gives a negative total, so no reservoir buffer although the pitch is positive |
| RtxdiBuffers.StructuredIfPositive | UnityProject/Assets/Scripts/Rtxdi/RtxdiResources.cs:35-67 | a structured buffer with the given stride and name exists exactly when its `uint` maximum is positive, its count the maximum cast to `int` |
| RtxdiBuffers.OffsetsSizeIsTwiceCount | UnityProject/Assets/Scripts/Rtxdi/RtxdiResources.cs:113-114 | below 2^30 offsets the upload array holds exactly two bytes per offset |
| RtxdiBuffers.Released | UnityProject/Assets/Scripts/Rtxdi/RtxdiResources.cs:138-151 | `?.Dispose()` releases the buffer exactly when it exists |
| RtxdiBuffers.RtxdiResources.constructor | UnityProject/Assets/Scripts/Rtxdi/RtxdiResources.cs:23-105 | the maxima are stored; task, light and mapping buffers exist exactly when their maximum is positive; the raw neighbor buffer always, in words; the reservoir buffer exactly when the total is positive |
| RtxdiBuffers.RtxdiResources.InitializeNeighborOffsets | UnityProject/Assets/Scripts/Rtxdi/RtxdiResources.cs:107-130 | the first call uploads the native offsets, two bytes per offset below 2^30, and sets the flag; every later call changes nothing |
| RtxdiBuffers.RtxdiResources.GetMaxEmissiveMeshes | UnityProject/Assets/Scripts/Rtxdi/RtxdiResources.cs:132 | the maximum the constructor stored |
| RtxdiBuffers.RtxdiResources.GetMaxEmissiveTriangles | UnityProject/Assets/Scripts/Rtxdi/RtxdiResources.cs:133 | the maximum the constructor stored |
| RtxdiBuffers.RtxdiResources.GetMaxGeometryInstances | UnityProject/Assets/Scripts/Rtxdi/RtxdiResources.cs:134 | the maximum the constructor stored |
| RtxdiBuffers.RtxdiResources.Dispose | UnityProject/Assets/Scripts/Rtxdi/RtxdiResources.cs:136-152 | releases each existing buffer in declaration order and leaves all five null; maxima and flag unchanged |
| RtxdiBuffers.InitializeTwice | UnityProject/Assets/Scripts/Rtxdi/RtxdiResources.cs:107-130 | a second initialisation, with any count and bytes, keeps the first upload |
| AutoAddTexture.Lower | UnityProject/Assets/Scripts/Editor/AutoAddTexture.cs:365 | `ToLower` keeps the length |
| AutoAddTexture.IndexOfFrom | UnityProject/Assets/Scripts/Editor/AutoAddTexture.cs:380 | the result is the first occurrence at or after the start, and none exactly when there is no occurrence there |
| AutoAddTexture.RemoveAll | UnityProject/Assets/Scripts/Editor/AutoAddTexture.cs:103-110 | `Replace(pat, "")` never lengthens the string |
| AutoAddTexture.ForwardSlashes | UnityProject/Assets/Scripts/Editor/AutoAddTexture.cs:379 | every backslash becomes a slash and every other character stays |
| AutoAddTexture.GetRelativeAssetPath | UnityProject/Assets/Scripts/Editor/AutoAddTexture.cs:377-388 | null exactly when the slash-normalised path has no "Assets/"; otherwise the suffix from its first occurrence, which starts with "Assets/" and has no backslash |
| AutoAddTexture.AssetPathIdempotent | UnityProject/Assets/Scripts/Editor/AutoAddTexture.cs:377-388 | an asset path maps to itself |
| AutoAddTexture.LastSeparator | UnityProject/Assets/Scripts/Editor/AutoAddTexture.cs:361 | the last directory separator, or none when the path has none |
| AutoAddTexture.LastDot | UnityProject/Assets/Scripts/Editor/AutoAddTexture.cs:361-365 | the last '.', or none when there is none |
| AutoAddTexture.FirstWhereIsFirst | UnityProject/Assets/Scripts/Editor/AutoAddTexture.cs:359-373 | the search finds nothing exactly when no file passes, and otherwise the earliest file that passes |
| AutoAddTexture.FindTextureFile | UnityProject/Assets/Scripts/Editor/AutoAddTexture.cs:350-374 | the loop returns the first listed file whose stem equals base name plus suffix ignoring case and whose lower-cased extension is a texture format, and null when there is none |
| AutoAddTexture.FindTextureFileIsFirstAccepted | UnityProject/Assets/Scripts/Editor/AutoAddTexture.cs:359-373 | the result is an accepted file with no accepted one before it, and null exactly when no file is accepted |
| AutoAddTexture.Accepted | UnityProject/Assets/Scripts/Editor/AutoAddTexture.cs:361-367 | the test of one file is the stem-and-extension match |
| AutoAddTexture.FirstExistingIsFirst | UnityProject/Assets/Scripts/Editor/AutoAddTexture.cs:224-232 | nothing exactly when no candidate exists, and otherwise the candidate of the earliest existing extension |
| AutoAddTexture.FindFileWithExtensions | UnityProject/Assets/Scripts/Editor/AutoAddTexture.cs:224-232 | the loop returns the first existing candidate, or null |
| AutoAddTexture.MaskMapOnce | UnityProject/Assets/Scripts/Editor/AutoAddTexture.cs:101-121 | a roughness file whose metallic companion exists, with any of the three image extensions, makes no mask map; the metallic file makes one naming the first existing roughness companion |
| AutoAddTexture.UpperCaseTagIsNotRemoved | UnityProject/Assets/Scripts/Editor/AutoAddTexture.cs:71-83 | "X_ALBEDO.png" passes the case-insensitive albedo test, but the case-sensitive replace leaves its base name "X_ALBEDO", so "X_opacity.png" gives no base map and "X_ALBEDO_opacity.png" gives "X_ALBEDO_baseMap.png" |
| AutoAddTexture.MergesOfFile | UnityProject/Assets/Scripts/Editor/AutoAddTexture.cs:65-128 | one file's merges: a base map when it is an albedo file with an opacity companion, then its mask map unless it is a roughness file whose metallic companion exists |
| AutoAddTexture.MergeTextures | UnityProject/Assets/Scripts/Editor/AutoAddTexture.cs:52-132 | nothing without a folder; otherwise the merges of every listed file, in order |
| AutoAddTexture.GetDefaultColors | UnityProject/Assets/Scripts/Editor/AutoAddTexture.cs:215-223 | a fresh array of `count` copies of the colour |
| AutoAddTexture.MergedPixels | UnityProject/Assets/Scripts/Editor/AutoAddTexture.cs:178-201 | one output pixel per pixel of the first input |
| AutoAddTexture.MissingInputsDefault | UnityProject/Assets/Scripts/Editor/AutoAddTexture.cs:175-199 | a missing metallic map gives metallic 0, a missing roughness map smoothness 0, occlusion is 1 and detail 0, and a missing opacity map gives alpha 1 |
| AutoAddTexture.MergeChannels | UnityProject/Assets/Scripts/Editor/AutoAddTexture.cs:134-213 | no output when neither input exists or sizes differ; otherwise an image of the present input's size (the first when both) whose pixels merge the first (black when missing) with the second (white when missing) |
| FindSameMesh.FoldIsExactModulo | UnityProject/Assets/Scripts/FindSameMesh.cs:220-245 | the wrapping `hash * 31 + x` agrees with the exact polynomial hash modulo 2^32 and stays in the signed 32-bit range |
| FindSameMesh.FoldAppend | UnityProject/Assets/Scripts/FindSameMesh.cs:222-245 | hashing two channels in a row hashes their concatenation |
| FindSameMesh.HashChannel | UnityProject/Assets/Scripts/FindSameMesh.cs:222-225 | one `foreach` loop folds its channel into the running hash |
| FindSameMesh.GetHash | UnityProject/Assets/Scripts/FindSameMesh.cs:211-248 | the hash starts at 17 and folds the vertices, normals, tangents, UVs and second UVs, in that order |
| FindSameMesh.Matching | UnityProject/Assets/Scripts/FindSameMesh.cs:258-275 | a hash group lists, in increasing order, only positions whose mesh is non-null with that hash |
| FindSameMesh.MatchingComplete | UnityProject/Assets/Scripts/FindSameMesh.cs:258-275 | every position with a non-null mesh of the hash is in its group |
| FindSameMesh.InGroupIff | UnityProject/Assets/Scripts/FindSameMesh.cs:258-275 | a position is in the group exactly when its mesh is non-null and has the hash |
| FindSameMesh.MatchingStep | UnityProject/Assets/Scripts/FindSameMesh.cs:258-275 | one more component joins the group of its hash only |
| FindSameMesh.Shared | UnityProject/Assets/Scripts/FindSameMesh.cs:278-290 | de-duplication keeps the number of components |
| FindSameMesh.SharedKeepsHashes | UnityProject/Assets/Scripts/FindSameMesh.cs:258-290 | nulls stay null, every mesh keeps its hash, a replaced mesh is the first earlier mesh of that hash, and singleton groups are untouched |
| FindSameMesh.SharedIdempotent | UnityProject/Assets/Scripts/FindSameMesh.cs:250-293 | running the pass a second time changes nothing |
| FindSameMesh.SameHashesSameGroups | UnityProject/Assets/Scripts/FindSameMesh.cs:258-275 | lists that agree on nullness and hashes have the same groups |
| FindSameMesh.Meshes | UnityProject/Assets/Scripts/FindSameMesh.cs:256 | one mesh per component |
| FindSameMesh.GroupsSkip | UnityProject/Assets/Scripts/FindSameMesh.cs:260 | a component without a mesh leaves the groups alone |
| FindSameMesh.GroupsAddOne | UnityProject/Assets/Scripts/FindSameMesh.cs:264-269 | adding a component to its hash's group keeps every group equal to the matching positions |
| FindSameMesh.GroupsAdd | UnityProject/Assets/Scripts/FindSameMesh.cs:264-269 | a component with a mesh joins the group of its hash, created at the first such component |
| FindSameMesh.FirstsJoin | UnityProject/Assets/Scripts/FindSameMesh.cs:271-274 | joining a known group keeps the mesh recorded for it |
| FindSameMesh.FirstsStart | UnityProject/Assets/Scripts/FindSameMesh.cs:271-274 | a new group records its first component's mesh |
| FindSameMesh.OrderStart | UnityProject/Assets/Scripts/FindSameMesh.cs:264-267 | a new hash is enumerated after the ones seen before |
| FindSameMesh.Collect | UnityProject/Assets/Scripts/FindSameMesh.cs:258-275 | one iteration of the first loop keeps the groups, the first meshes and the hash order in step |
| FindSameMesh.GroupByHash | UnityProject/Assets/Scripts/FindSameMesh.cs:252-275 | the first loop groups every component with a mesh by hash and records each group's first mesh |
| FindSameMesh.Assign | UnityProject/Assets/Scripts/FindSameMesh.cs:284-288 | every member of the group gets the mesh and every other component keeps its own |
| FindSameMesh.GroupAt | UnityProject/Assets/Scripts/FindSameMesh.cs:278-280 | every enumerated hash has its full, non-empty group and first mesh, and is enumerated once |
| FindSameMesh.ShareGroup | UnityProject/Assets/Scripts/FindSameMesh.cs:280-289 | one group of the second loop is de-duplicated, the others left as they were |
| FindSameMesh.ShareGroups | UnityProject/Assets/Scripts/FindSameMesh.cs:278-290 | the second loop de-duplicates every group |
| FindSameMesh.SharedForAll | UnityProject/Assets/Scripts/FindSameMesh.cs:278-290 | once every enumerated hash is done, the components hold the de-duplicated meshes |
| FindSameMesh.FindSameMeshInScene | UnityProject/Assets/Scripts/FindSameMesh.cs:250-293 | every component whose hash group has more than one member holds the group's first mesh, and every other keeps its mesh |
| FindSameMesh.ColliderMesh | UnityProject/Assets/Scripts/FindSameMesh.cs:69-90 | the collider ends with its own or its filter's mesh, and changes exactly when a filter mesh exists, differs from its own and hashes alike |
| FindSameMesh.ColliderMeshStable | UnityProject/Assets/Scripts/FindSameMesh.cs:62-96 | a second collider pass changes nothing |
| FindSameMesh.FindSameMeshColliderInScene | UnityProject/Assets/Scripts/FindSameMesh.cs:62-96 | every collider ends with the mesh the collider rule gives for its own and its filter's mesh |
| FindSameMesh.Mesh.constructor | UnityProject/Assets/Scripts/FindSameMesh.cs:211-217 | a mesh holds the element hashes of its five channels |
| Base.ToUInt16 | UnityProject/Assets/Scripts/NRD/NRDHelper.cs:281-282 | the `(ushort)` cast keeps the low 16 bits: the result is below 2^16, congruent to the input, and equal to it when it already fits |
| Base.IncUInt32 | UnityProject/Assets/Scripts/NRD/NRDHelper.cs:365 | `uint` increment wraps 2^32 - 1 to 0 and otherwise adds one |
| Base.ToInt32 | UnityProject/Assets/Scripts/Rtxdi/RtxdiResources.cs:39 | the unchecked `(int)` cast of a `uint` is the same 32 bits read as signed, equal to the input exactly when it is below 2^31 |
| Base.WrapInt32 | UnityProject/Assets/Scripts/FindSameMesh.cs:224 | unchecked `int` arithmetic lands in the signed 32-bit range, congruent to the exact result and equal to it when that fits |

## Left out

- RenderingPlugin.Plugin.CreateDenoiserInstance, RenderingPlugin.Plugin.CreateDLRRInstance and RenderingPlugin.IssuedIdsIncrease: the shared id counter is an unbounded integer here.
  - In the source it is an `int32_t` incremented with `++`, which is undefined behaviour past 2^31 - 1.
  - So "ids strictly increase" and "the new id was never registered" hold in the source only for fewer than 2^31 - 1 creations.
- PathTracingFeatures.PathTracingFeature.Dispose: it requires that `Create` has made the pass.
  - Before that, the unguarded `_pathTracingPass.Dispose()` at PathTracingFeature.cs:292 throws a null-reference exception, and no denoiser is disposed.
  - The model does not cover that exception path.
- AutoAddTexture.DirectoryName: it is the part of a path before its last separator. .NET's `Path.GetDirectoryName` on Windows also rewrites `/` to `\` and returns null for a root.
  - So companion paths built from it differ in spelling on mixed-separator paths.
- AutoAddTexture.GetRelativeAssetPath: it finds "Assets/" by ordinal comparison, while .NET's `IndexOf(string)` compares culture-sensitively.
- PathTracingFeatures.UnpackTexels and PathTracingFeatures.PathTracingFeature.Create: they require the raw data of each blue-noise texture to hold four bytes per texel.
  - With shorter raw data, the unpacking loop at PathTracingFeature.cs:121-139 reads `rawData[i * 4 + 3]` past the end and throws an `IndexOutOfRangeException`.
  - The model does not cover that exception path.
- RtxdiBuffers.RtxdiResources.InitializeNeighborOffsets: on its first call it requires a non-negative byte count and an existing neighbor-offset buffer.
  - For a count of 2^30 or more, the unchecked `(int)neighborOffsetCount * 2` at RtxdiResources.cs:113 is negative, and `new byte[sizeInBytes]` at RtxdiResources.cs:114 throws an `OverflowException`.
  - After `Dispose`, the buffer is null, and `NeighborOffsetsBuffer.SetData` at RtxdiResources.cs:127 throws a null-reference exception.
  - The model covers neither exception path.
- DataBuilder.PathTracingDataBuilder.Build: the `mesh.RecalculateTangents()` call at PathTracingDataBuilder.cs:184 rewrites the tangents of each processed shared mesh asset. That side effect on the mesh is not modelled, and neither are vertex attributes: a primitive holds only its three vertex indices.
- Concurrency: the mutexes in RenderingPlugin.cpp are not modelled, and the registries are updated sequentially. This includes `CreateDLRRInstance` locking the NRD mutex.
- Floating point:
  - matrices, jitter, unit-vector encoding and area clamps in `GetData` and `DispatchCompute` are not modelled, and only the integer fields of the frame data are;
  - `MergeChannels` colours are `real`, with no rounding.
- Vendor and engine calls: `Denoise`, `Recreate`, `CreateUpscaler`, `CreateTexture2DView`, `WrapD3D12Texture`, resource barriers, `RTHandles`, `GraphicsBuffer` and `Marshal` are parameters or call-log entries. Their own behaviour is not modelled.
- Logging from the hooks and instances is not modelled.
- Page protection: `VirtualProtect` is a success flag, and vtable offsets are opaque slot numbers. D3D12Hook_Offset.c is not part of this model.
- Command-list hooks: the `Hooked_*` command-list functions in Hooks.cpp are never installed by `StartD3D12Hooks`, so only the four device hooks are modelled as installed.
- Hooks.InstalledSlotRunsOriginal: the walk through stored originals is bounded by a fuel argument. For a chain longer than the fuel the result is `None`, not the native result.
- Command buffers, render-graph passes, shader dispatch and the GPU upload of the light tasks, the mapping array and the packed scene data are not modelled. Only the values written into the CPU-side buffers are.
- DataBuilder.PathTracingDataBuilder.Build:
  - the mesh's `triangles` array is modelled as a sequence of triangles, so its length is already the index count divided by three;
  - the acceleration-structure calls are not modelled.
- PathTracingFeatures.PathTracingFeature.Create: the data builder's `Build(accel)` call and the acceleration structure are not modelled, because this `Build` signature is not in PathTracingDataBuilder.cs.
- PrepareLights.Process:
  - `rendererInstanceIndexMap` is not declared in PathTracingDataBuilder.cs, so the renderer-to-instance map is a parameter list of entries;
  - each submesh carries its material's emissive flag, so a missing or out-of-range `sharedMaterials` entry (an exception in the source) is not modelled;
  - an instance index outside the mapping array (also an exception) is excluded by a precondition.
- PrepareLights.CountLightsInScene: the `uint` counters and the LINQ `Sum` are unbounded here. The source's wrap-around and overflow exception beyond 2^32 are not modelled.
- RtxdiBuffers.RtxdiResources.constructor: a `uint` maximum of 2^31 or more becomes a negative `int` count, and Unity's `GraphicsBuffer` throws on that. The model records a buffer with the negative count instead of the exception.
- AutoAddTexture: `AutoAddTexturesToMaterials` and the other asset-database and file-system glue (`AssetDatabase`, `File.Exists`, `Directory.GetFiles`, texture import settings, PNG encoding) are not modelled.
  - Directory listings and file existence are parameters.
  - Case folding is ASCII only.
- FindSameMesh.FindSameMeshInScene models `FindSameSkinMeshInScene` as well, since both apply the same grouping to a list of components with a shared mesh.
- FindSameMesh: the texture and material finders (`FindSameTextureInScene`, `FindSameMatScene`, `FindMatWithoutAO` and the MD5 file hashing in `GetTextureHash`) are not modelled.
- FindSameMesh.FindSameMeshColliderInScene:
  - it requires a collider whose filter mesh differs from its own to have a mesh, because `GetHash` on a null mesh throws in the source;
  - it requires the colliders in the list to be distinct objects.
- NrdHelpers.NrdHelper.GetData: only the size, index, id and validation fields are related to the helper's state. The matrices are not modelled.
- NrdDenoisers.NrdDenoiser.GetData: only the integer fields are related to the denoiser's state. The Prev matrices are not modelled.
- DLRRDenoiser.cs is not part of this model. Its only non-float logic is the same three-slot ring buffer as `NrdTypes.RingSlot`.
- The binary layouts of FrameData and RRFrameData (`pack(1)` in C++, sequential in C#) are not modelled.
- Revision mismatches between files are abstracted rather than reconciled:
  - `DLRRInstance.cpp` reads `data->width`;
  - `NRDDenoiser` calls `Allocate(width, height)`, while `NrdTextureResource.Allocate` takes an `int2`;
  - the `NrdInstance` constructor is declared with an instance id at NrdInstance.h:26 but defined without one at NrdInstance.cpp:10;
  - `PathTracingFeature` constructs `new NRDDenoiser(setting, camName)` (PathTracingFeature.cs:231), while the constructor at NRDDenoiser.cs:55 takes only the setting.

## Findings

| source | as written | input that shows it | evidently intended | confidence | as-written member | corrected member |
|---|---|---|---|---|---|---|
| UnityProject/Assets/Scripts/NRD/NRDDenoiser.cs:82-126 | every size change appends eight new resources to the resource list without releasing or clearing the old ones; the snapshot then writes one entry per list element into a buffer of 20 entries with no bound check | three calls of `EnsureResources` with three distinct sizes: the list holds 24 resources and the snapshot writes past entry 20 | release and clear the old resources before allocating new ones, as NRDHelper.cs does, so the list stays at eight entries | not executed | NrdDenoisers.ThirdSizeOverrunsBuffer | NrdDenoisers.NrdDenoiser.EnsureResourcesReplacing |

Further behaviour of the source that the model states as written:

- `DataBuilder.SkippedRendererShiftsInstanceId`: after a meshless renderer is skipped, the instance id given to a renderer (its index among all renderers) differs from its index in the instance list.
- `PathTracingFeatures.CameraKeysCollide`: the camera key `instanceID + eyeIndex * 100000` collides for distinct cameras whose ids differ by 100000.
- `RtxdiBuffers.OverflowingPitchDropsReservoirs`: for a reservoir pitch of at least 2^31 / 3 the `int` product wraps negative and no reservoir buffer is created.
- `PathTracingFeatures.PathTracingFeature.AddRenderPasses`: the enqueue guard does not check the `dlssBefore` compute shader.
- `DataBuilder.PathTracingDataBuilder.GetTextureGroupIndex`: a null material gets group index 0, which is also the index of the first real group.
- `PathTracingFeatures.SetMask`: a renderer without materials gets mask 0.
- `NrdHelpers.NrdHelper.ReleaseTextures` calls `ReleaseTexture` for every wrapper pointer, null ones included.
- `AutoAddTexture.UpperCaseTagIsNotRemoved`: suffixes are matched case-insensitively, but the suffix is replaced case-sensitively, so an upper-case tag stays in the base name.
- `NrdDenoisers.SecondSizeSplitsInputs`: after the second size, with 16 entries and no overrun yet, the pass draws into the first-size resources that `GetResource` finds first, while the plugin's snapshot keeps the last entry of each type, the second-size one.

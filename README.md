# UnityEngine managed core, modelled in Dafny

Almost all of the UnityEngine runtime library is a thin binding to the native engine. This
project models the few pieces of managed logic that have behaviour of their own, and proves
properties of them:

- **`Graphics`** (`Graphics.dfy`, module `Graphics`): `SetRenderTargetImpl` validates a
  multiple-render-target setup. It checks, in a fixed order, the colour-buffer count, the
  lengths of the action arrays, each load and store action, and the cubemap face range. Only
  then does it reach the engine. The `DrawMesh`, `DrawMeshNow`, `DrawProcedural`,
  `DrawTexture`, `Blit` and `SetRenderTarget` overloads fill in default arguments. Each member
  returns the native call it would make, as a `NativeCall` value.
- **`UnityEventBase`** (`UnityEventBase.dfy`, module `EventBase`): a class with the persistent
  listeners, the cached invokable calls and the dirty flag that says when the cache must be
  rebuilt. It also covers the reflective method lookup (`GetValidMethodInfo`, `FindMethod`),
  the ordered checks of `ValidateRegistration`, and every persistent-listener operation.
- **`UnityEvent<T0>`** (`UnityEventT0.dfy`, module `EventOfT0`): the one-argument event. It is
  built on a base event whose `EventDefined` mode searches with `[T0]`, and it has a reused
  one-slot invocation array.
- **`CrashReport`** (`CrashReports.dfy`, module `CrashReports`): the lazily built report list.
  It is filled once from the engine's report ids and sorted by time with the three-way tick
  comparison. `lastReport`, `Remove` and `RemoveAll` work on it.
- **`Resources.ConvertObjects`** (`Resources.dfy`): the typed copy of an engine object array.
- **`DownloadHandler`** (`DownloadHandler.dfy`, module `Networking`): the base handler's
  defaults, the empty-text guard, and the three ordered checks of `GetCheckedDownloader`.

Shared conventions:

- **Nulls and exceptions.** A nullable reference is an `Option`. A call that can throw returns
  a `Result` whose failure names the exception (`Wrappers.dfy`).
- **Enumerations.** A C# enumeration is a datatype over its underlying `int`, with its members
  as constants. An enum variable can hold any integer, and the source range-checks some of them.
- **Native calls as inputs.** Native answers are parameters of the members that use them:
  - the crash-report ids, report data and removal result;
  - the resolution of a persistent call to an invokable;
  - `Type.GetType` by name;
  - the runtime cast check (`isT`);
  - UTF-8 decoding.
- **Time.** Time is an integer tick count.
- **State.** Mutable state is held in classes: `UnityEventBase`, `UnityEvent`, and
  `CrashReportStore`, which holds the static list. Methods on these classes state the complete
  new state.

Source paths below are relative to the repository root.

## Model

| member | source | states |
|---|---|---|
| Graphics.CheckLoadActionValid | UnityEngine/UnityEngine/Graphics.cs:660-669 | a load action passes exactly when it is `Load` or `DontCare`; otherwise the error is a bad load action for the given buffer |
| Graphics.CheckStoreActionValid | UnityEngine/UnityEngine/Graphics.cs:671-680 | a store action passes exactly when it is `Store` or `DontCare`; otherwise the error is a bad store action for the given buffer |
| Graphics.SetupOutcomeDeterminate | UnityEngine/UnityEngine/Graphics.cs:682-715 | the outcome `SetRenderTargetImpl` promises (`SetupOutcome`) admits exactly one result per setup: the ordered checks leave no case open |
| Graphics.SetRenderTargetImpl | UnityEngine/UnityEngine/Graphics.cs:682-715 | `SetupOutcome`: the setup reaches the native MRT call if and only if all of the following hold: there is a colour buffer, the array lengths match, every colour and depth action is valid, and the face is in `Unknown..NegativeZ`. The call it reaches carries the setup's own colour buffers, depth buffer, action arrays, mip level, face and depth actions. Checks run in source order: no colour buffer, then load-length mismatch, then store-length mismatch, then a bad colour load, a bad colour store, a bad depth load, a bad depth store, and a bad face. Each failure is reported only when every earlier check passed |
| Graphics.SetRenderTargetBuffersImpl | UnityEngine/UnityEngine/Graphics.cs:717-722 | a single colour and depth buffer reach the simple render-target call unchecked |
| Graphics.SetRenderTargetTextureImpl | UnityEngine/UnityEngine/Graphics.cs:724-734 | a null texture takes the null-render-target branch, and only a null texture does; a texture targets its own colour and depth buffers |
| Graphics.SetRenderTargetMRTImpl | UnityEngine/UnityEngine/Graphics.cs:736-740 | several colour buffers and a depth buffer reach the simple MRT call unchecked |
| Graphics.SetRenderTargetTexture | UnityEngine/UnityEngine/Graphics.cs:751-754 | `SetRenderTarget(null)` takes the null-render-target branch; a texture is targeted at mip 0, face `Unknown` |
| Graphics.SetRenderTargetTextureMip | UnityEngine/UnityEngine/Graphics.cs:765-768 | like the texture form at the given mip level, face `Unknown` |
| Graphics.SetRenderTargetTextureFace | UnityEngine/UnityEngine/Graphics.cs:779-782 | like the texture form at the given mip level and face |
| Graphics.SetRenderTargetBuffers | UnityEngine/UnityEngine/Graphics.cs:793-796 | the buffers are targeted at mip 0, face `Unknown` |
| Graphics.SetRenderTargetBuffersMip | UnityEngine/UnityEngine/Graphics.cs:807-810 | the buffers are targeted at the given mip, face `Unknown` |
| Graphics.SetRenderTargetBuffersFace | UnityEngine/UnityEngine/Graphics.cs:821-824 | the buffers are targeted at the given mip and face |
| Graphics.SetRenderTargetMRT | UnityEngine/UnityEngine/Graphics.cs:835-838 | the buffer array is targeted at mip 0, face `Unknown` |
| Graphics.SetRenderTarget | UnityEngine/UnityEngine/Graphics.cs:840-843 | `SetupOutcome`, as for `SetRenderTargetImpl`: the engine call with every field of the setup exactly when all checks pass, otherwise the first failing check's exception in source order |
| Graphics.DrawMesh | UnityEngine/UnityEngine/Graphics.cs:164-175 | the full form (the matrix form is lines 274-284) passes the shadow mode as its integer and the receive flag as 1 or 0. The probe-anchor id is 0 for a null anchor and the anchor's instance id otherwise. Mesh, material, camera, layer, submesh and properties are passed unchanged |
| Graphics.DrawMeshNoProbe | UnityEngine/UnityEngine/Graphics.cs:134-138 | a shadow mode and receive flag with no probe anchor draw as the full form with a null anchor (matrix form 260-264) |
| Graphics.DrawMeshShadowMode | UnityEngine/UnityEngine/Graphics.cs:141-146 | a shadow mode alone receives shadows, with no anchor (matrix form 267-272) |
| Graphics.DrawMeshCasting | UnityEngine/UnityEngine/Graphics.cs:128-131 | `castShadows` true draws with `ShadowCastingMode.On`, false with `Off` (matrix form 238-241) |
| Graphics.DrawMeshCastFlag | UnityEngine/UnityEngine/Graphics.cs:68-72 | a cast flag alone maps to `On`/`Off` and receives shadows (matrix form 178-182) |
| Graphics.DrawMeshWithProperties | UnityEngine/UnityEngine/Graphics.cs:75-80 | defaults: casts (`On`) and receives shadows (matrix form 185-190) |
| Graphics.DrawMeshSubmesh | UnityEngine/UnityEngine/Graphics.cs:83-89 | defaults: null properties, `On`, receives (matrix form 193-199) |
| Graphics.DrawMeshInCamera | UnityEngine/UnityEngine/Graphics.cs:92-99 | defaults: submesh 0, null properties, `On`, receives (matrix form 202-209) |
| Graphics.DrawMeshOnLayer | UnityEngine/UnityEngine/Graphics.cs:102-110 | defaults: camera null, submesh 0, null properties, `On`, receives (matrix form 212-220) |
| Graphics.DrawMeshNowSubset | UnityEngine/UnityEngine/Graphics.cs:315-318 | the material index is passed as given, through `Internal_DrawMeshNow1/2` (matrix form 341-358) |
| Graphics.DrawMeshNow | UnityEngine/UnityEngine/Graphics.cs:302-305 | without an index, -1 is passed (matrix form 328-331) |
| Graphics.DrawProcedural | UnityEngine/UnityEngine/Graphics.cs:375-379 | without an instance count, one instance is drawn |
| Graphics.DrawProceduralIndirect | UnityEngine/UnityEngine/Graphics.cs:392-396 | without an offset, the arguments are read from offset 0 |
| Graphics.DrawTextureRegion | UnityEngine/UnityEngine/Graphics.cs:465-480 | the argument block holds the given rectangles, borders and material, and the colour RGBA(128,128,128,128) |
| Graphics.DrawTextureRegionTinted | UnityEngine/UnityEngine/Graphics.cs:501-514 | as the region form but with the caller's colour, converted |
| Graphics.DrawTextureRegionTintedDefaultMaterial | UnityEngine/UnityEngine/Graphics.cs:483-487 | the tinted form with a null material |
| Graphics.DrawTextureRegionDefaultMaterial | UnityEngine/UnityEngine/Graphics.cs:447-451 | the region form with a null material, grey colour |
| Graphics.DrawTextureBordered | UnityEngine/UnityEngine/Graphics.cs:441-444 | the whole texture (0,0,1,1) as source, grey colour |
| Graphics.DrawTextureBorderedDefaultMaterial | UnityEngine/UnityEngine/Graphics.cs:423-427 | the bordered form with a null material |
| Graphics.DrawTextureWithMaterial | UnityEngine/UnityEngine/Graphics.cs:417-420 | border-less: all four borders 0, whole texture, grey |
| Graphics.DrawTextureSimple | UnityEngine/UnityEngine/Graphics.cs:399-403 | borders 0, whole texture, grey, null material |
| Graphics.Blit | UnityEngine/UnityEngine/Graphics.cs:553-556 | a blit with a destination sets the render target (`setRT` true) |
| Graphics.BlitAllPasses | UnityEngine/UnityEngine/Graphics.cs:540-544 | pass defaults to -1, `setRT` true |
| Graphics.BlitToCurrent | UnityEngine/UnityEngine/Graphics.cs:572-575 | without a destination: a null one, `setRT` false |
| Graphics.BlitToCurrentAllPasses | UnityEngine/UnityEngine/Graphics.cs:559-563 | null destination, pass -1, `setRT` false |
| EventBase.FindOnLevel | UnityEngine/UnityEngine.Events/UnityEventBase.cs:195 | the lookup on one type level finds a method of the requested name and arity, and the first such one; it finds nothing exactly when no method matches |
| EventBase.ValidMethodInfoIsFirstAcceptingLevel | UnityEngine/UnityEngine.Events/UnityEventBase.cs:190-222 | the walk's answer is null exactly when no level of the type chain accepts. Otherwise it is what the first accepting level finds, and it has the requested name. A level accepts when its lookup finds a method whose parameters all agree in primitiveness |
| EventBase.GetValidMethodInfo | UnityEngine/UnityEngine.Events/UnityEventBase.cs:190-222 | a null object throws `NullReferenceException`; otherwise the loop's result equals the first-accepting-level walk over the object's type chain |
| EventBase.AsEngineObject | UnityEngine/UnityEngine.Events/UnityEventBase.cs:238 | `as Object` keeps exactly the `UnityEngine.Object` targets |
| EventBase.GetListener | UnityEngine/UnityEngine.Events/UnityEventBase.cs:106 | the group gives the call at a valid index and null at any other |
| EventBase.RemoveMatching | UnityEngine/UnityEngine.Events/UnityEventBase.cs:290 | `RemoveListeners(target, name)` keeps exactly the calls that do not have that target and name |
| EventBase.RemoveAt | UnityEngine/UnityEngine.Events/UnityEventBase.cs:296 | `RemoveListener(index)` drops exactly that call: the result is one shorter, the calls before the index stay where they were, and those after move down by one. An invalid index changes nothing |
| EventBase.Dispatch | UnityEngine/UnityEngine.Events/UnityEventBase.cs:176 | every call, in list order, receives the same argument array |
| EventBase.UnityEventBase.constructor | UnityEngine/UnityEngine.Events/UnityEventBase.cs:21-28 | a new event has no listeners and is dirty |
| EventBase.UnityEventBase.OnAfterDeserialize | UnityEngine/UnityEngine.Events/UnityEventBase.cs:34-38 | deserialization makes the event dirty again and drops the persistent invokables |
| EventBase.UnityEventBase.GetPersistentEventCount | UnityEngine/UnityEngine.Events/UnityEventBase.cs:95-98 | the number of persistent listeners: exactly the indices below it name a listener |
| EventBase.UnityEventBase.GetPersistentTarget | UnityEngine/UnityEngine.Events/UnityEventBase.cs:104-108 | an invalid index gives a null target; a valid one gives that listener's target |
| EventBase.UnityEventBase.GetPersistentMethodName | UnityEngine/UnityEngine.Events/UnityEventBase.cs:114-118 | an invalid index gives the empty name; a valid one gives that listener's method name |
| EventBase.UnityEventBase.DirtyPersistentCalls | UnityEngine/UnityEngine.Events/UnityEventBase.cs:120-124 | the persistent invokables are cleared and the flag is set; the listeners and run-time calls are untouched |
| EventBase.UnityEventBase.RebuildPersistentCallsIfNeeded | UnityEngine/UnityEngine.Events/UnityEventBase.cs:126-133 | rebuilds when dirty, and only then, from the persistent calls; clears the flag |
| EventBase.UnityEventBase.SetPersistentListenerState | UnityEngine/UnityEngine.Events/UnityEventBase.cs:140-148 | sets the state at a valid index and changes nothing else; makes the event dirty even for an out-of-range index |
| EventBase.UnityEventBase.AddListener | UnityEngine/UnityEngine.Events/UnityEventBase.cs:150-153 | appends one run-time call for the target and method; the dirty flag is untouched |
| EventBase.UnityEventBase.AddCall | UnityEngine/UnityEngine.Events/UnityEventBase.cs:155-158 | appends the run-time call |
| EventBase.Without | UnityEngine/UnityEngine.Events/UnityEventBase.cs:160-163 | removing a call from the call list keeps exactly the other calls, each as often as before |
| EventBase.WithoutConcat | UnityEngine/UnityEngine.Events/UnityEventBase.cs:160-163 | removal distributes over concatenation, so the calls that stay keep their relative order |
| EventBase.Resolved | UnityEngine/UnityEngine.Events/UnityEventBase.cs:130 | initializing from the group installs the invokable of every call that resolves, and nothing that no call resolves to; it never yields more calls than there are |
| EventBase.UnityEventBase.RemoveListener | UnityEngine/UnityEngine.Events/UnityEventBase.cs:160-163 | the run-time calls become `Without(old calls, that call)`: every call of that target and method goes, and the rest keep their order and count. The persistent state and the dirty flag are untouched |
| EventBase.UnityEventBase.RemoveAllListeners | UnityEngine/UnityEngine.Events/UnityEventBase.cs:168-171 | the run-time calls are cleared, and persistent listeners stay |
| EventBase.UnityEventBase.Invoke | UnityEngine/UnityEngine.Events/UnityEventBase.cs:173-177 | rebuilds exactly when dirty, clears the flag, then runs the persistent invokables and then the run-time calls, each with the parameters |
| EventBase.InvokeTwice | UnityEngine/UnityEngine.Events/UnityEventBase.cs:126-133 | two invocations with no mutation between them run the same calls: the second rebuilds nothing, whatever a resolver would now say |
| EventBase.UnityEventBase.FindMethod | UnityEngine/UnityEngine.Events/UnityEventBase.cs:54-90 | `Void` searches with [], `Int`, `Float`, `String` and `Bool` with their one type, `Object` with the given type or `UnityEngine.Object`, and `EventDefined` with the event's own types. Any other mode gives null. Given a listener, the lookup never throws |
| EventBase.UnityEventBase.StoredArgumentType | UnityEngine/UnityEngine.Events/UnityEventBase.cs:46-50 | an empty stored type name gives `UnityEngine.Object` |
| EventBase.UnityEventBase.FindMethodForCall | UnityEngine/UnityEngine.Events/UnityEventBase.cs:44-52 | looks up the call's method on its target with its mode and the stored argument type. A name that does not resolve falls back to `UnityEngine.Object` |
| EventBase.UnityEventBase.ValidateRegistrationWithArgumentType | UnityEngine/UnityEngine.Events/UnityEventBase.cs:229-267 | checks in order: a null method throws `ArgumentNullException`; a target that is not a `UnityEngine.Object`, or has id 0, throws `ArgumentException`; a static method throws `ArgumentException`. Then the result is whether the method is found. True implies all three checks passed |
| EventBase.UnityEventBase.ValidateRegistration | UnityEngine/UnityEngine.Events/UnityEventBase.cs:224-227 | the three-argument form validates with `UnityEngine.Object` as the argument type |
| EventBase.UnityEventBase.AddPersistentListener | UnityEngine/UnityEngine.Events/UnityEventBase.cs:269-272 | appends one empty listener slot; nothing else changes |
| EventBase.UnityEventBase.RegisterPersistentListener | UnityEngine/UnityEngine.Events/UnityEventBase.cs:274-282 | a failed check throws and changes nothing. A method that is not found changes nothing. A successful registration stores `targetObj as Object` and the method name in `EventDefined` mode, and makes the event dirty |
| EventBase.UnityEventBase.RegisterArgumentPersistentListener | UnityEngine/UnityEngine.Events/UnityEventBase.cs:313-326 | the six typed `Register*` forms (lines 313-435). A null call only warns, except in `Object` mode, where it throws. A failed check throws, and an unfound method changes nothing. Success stores the target, name, mode and argument and makes the event dirty |
| EventBase.UnityEventBase.AddArgumentPersistentListener | UnityEngine/UnityEngine.Events/UnityEventBase.cs:306-311 | the six typed `Add*` forms (lines 306-421): exactly one slot is appended and the old listeners are kept. The registration goes into the new slot, whose index is the count before the add |
| EventBase.UnityEventBase.RemovePersistentListenerOf | UnityEngine/UnityEngine.Events/UnityEventBase.cs:284-292 | a null or static method, or a null or id-0 target, changes nothing, not even the flag. Otherwise every listener with that target and name is removed and the event is dirty |
| EventBase.UnityEventBase.RemovePersistentListener | UnityEngine/UnityEngine.Events/UnityEventBase.cs:294-298 | removes the listener at the index and makes the event dirty |
| EventBase.UnityEventBase.UnregisterPersistentListener | UnityEngine/UnityEngine.Events/UnityEventBase.cs:300-304 | clears that listener's target and method and makes the event dirty |
| EventOfT0.UnityEvent.constructor | UnityEngine/UnityEngine.Events/UnityEvent-T0-.cs:14-19 | a new event has a one-slot argument array and a dirty base event searching with `[T0]` |
| EventOfT0.UnityEvent.FindMethodImpl | UnityEngine/UnityEngine.Events/UnityEvent-T0-.cs:31-37 | searches with exactly `[T0]`; this is the base event's `EventDefined` lookup |
| EventOfT0.UnityEvent.AddListener | UnityEngine/UnityEngine.Events/UnityEvent-T0-.cs:21-24 | appends the delegate as a run-time call |
| EventOfT0.UnityEvent.RemoveListener | UnityEngine/UnityEngine.Events/UnityEvent-T0-.cs:26-29 | the base's run-time calls become `Without(old calls, the delegate's call)`: the others keep their order and count |
| EventOfT0.UnityEvent.Invoke | UnityEngine/UnityEngine.Events/UnityEvent-T0-.cs:49-53 | slot 0 of the reused array holds the argument; then the base invocation runs with exactly `[arg0]` |
| EventOfT0.UnityEvent.RegisterPersistentListener | UnityEngine/UnityEngine.Events/UnityEvent-T0-.cs:68-76 | a null call warns and changes nothing; otherwise it is the base registration of `call.Target as Object` |
| EventOfT0.UnityEvent.AddPersistentListenerWithState | UnityEngine/UnityEngine.Events/UnityEvent-T0-.cs:60-66 | appends one slot and registers at the old count, then sets that same slot's state. If the registration throws, the slot stays empty and the state is not set |
| EventOfT0.UnityEvent.AddPersistentListener | UnityEngine/UnityEngine.Events/UnityEvent-T0-.cs:55-58 | the stateless form adds with `RuntimeOnly`, the default state of a new slot |
| CrashReports.CrashReport.constructor | UnityEngine/UnityEngine/CrashReport.cs:66-71 | a report holds the id, time and text it was made with |
| CrashReports.Compare | UnityEngine/UnityEngine/CrashReport.cs:73-86 | 1 when the first is later, -1 when it is earlier, 0 at equal ticks |
| CrashReports.CompareAntisymmetric | UnityEngine/UnityEngine/CrashReport.cs:73-86 | `Compare(a, b) == -Compare(b, a)` |
| CrashReports.Insert | UnityEngine/UnityEngine/CrashReport.cs:108 | inserting into a sorted list gives a sorted list with one more occurrence of the report, and keeps a list free of repeats |
| CrashReports.SortByTime | UnityEngine/UnityEngine/CrashReport.cs:108 | the sort gives a list in non-decreasing time order that is a permutation of its input |
| CrashReports.SortKeepsDistinct | UnityEngine/UnityEngine/CrashReport.cs:108 | sorting a list without repeats gives a list without repeats |
| CrashReports.SortKeepsIds | UnityEngine/UnityEngine/CrashReport.cs:108 | sorting keeps the multiset of report ids |
| CrashReports.PermutationKeepsIds | UnityEngine/UnityEngine/CrashReport.cs:95-108 | lists with the same reports have the same ids |
| CrashReports.SortedPopulation | UnityEngine/UnityEngine/CrashReport.cs:95-108 | sorting the reports built one per id gives a list that is sorted and free of repeats. It has exactly one report per native id, each with the id's data, and it contains only the built reports |
| CrashReports.RemoveFirst | UnityEngine/UnityEngine/CrashReport.cs:136 | `List.Remove` leaves a list without the report unchanged. Otherwise it takes exactly one occurrence out of the multiset and adds nothing. On a list without repeats, exactly that report goes. Sortedness and the absence of repeats are kept |
| CrashReports.CrashReportStore.constructor | UnityEngine/UnityEngine/CrashReport.cs:12 | the list starts null |
| CrashReports.CrashReportStore.PopulateReports | UnityEngine/UnityEngine/CrashReport.cs:88-111 | an existing list is left as it is. A null list is replaced by fresh reports, one per native id, carrying the engine's data, in non-decreasing time order |
| CrashReports.CrashReportStore.Reports | UnityEngine/UnityEngine/CrashReport.cs:31-44 | populates, then returns a new array holding the list's reports |
| CrashReports.CrashReportStore.LastReport | UnityEngine/UnityEngine/CrashReport.cs:49-64 | populates; null exactly for an empty list, otherwise the last report, which has the maximum time |
| CrashReports.CrashReportStore.Remove | UnityEngine/UnityEngine/CrashReport.cs:129-139 | the list is unchanged unless the engine removed the report; then exactly that report leaves the list |
| CrashReports.CrashReportStore.RemoveAll | UnityEngine/UnityEngine/CrashReport.cs:116-124 | after removing each report of the snapshot, exactly the reports whose native removal failed remain (one fixed answer per id) |
| Resources.ConvertObjects | UnityEngine/UnityEngine/Resources.cs:12-24 | null gives null. Otherwise the result is a new array of the same length with the same elements in order, and nulls stay null. An element that is not a `T` makes the cast throw. The input is not written |
| Networking.GetData | UnityEngine/UnityEngine.Experimental.Networking/DownloadHandler.cs:102-105 | the base handler has no data |
| Networking.GetText | UnityEngine/UnityEngine.Experimental.Networking/DownloadHandler.cs:113-121 | null or empty data gives the empty string; otherwise the UTF-8 decoding of all the bytes |
| Networking.BaseHandlerTextIsEmpty | UnityEngine/UnityEngine.Experimental.Networking/DownloadHandler.cs:102-121 | the base handler's text is empty |
| Networking.ReceiveData | UnityEngine/UnityEngine.Experimental.Networking/DownloadHandler.cs:131-134 | the base handler always continues |
| Networking.GetProgress | UnityEngine/UnityEngine.Experimental.Networking/DownloadHandler.cs:157-160 | the base progress is 0.5 |
| Networking.GetCheckedDownloader | UnityEngine/UnityEngine.Experimental.Networking/DownloadHandler.cs:162-177 | the checks apply in order: a null request throws `NullReferenceException`, an unfinished one `InvalidOperationException`, and a failed one `InvalidOperationException` carrying its error. It succeeds exactly when none applies and the handler casts, and then returns the request's handler |

## Left out

- Native engine code. The bodies of `extern`/`InternalCall` members are not modelled; their effects are the returned `NativeCall` values or the oracle parameters.
- Obsolete `DrawMesh` stubs. The `DrawMesh` overloads without a material (Graphics.cs:862-930) are obsolete with an error and have empty bodies.
- Other `Graphics` forwarders. `BlitMultiTap`, `SetRandomWriteTarget` and the remaining one-line forwarders to natives are not modelled.
- Null arrays. `RenderTargetSetup` arrays are sequences, so a null array, which throws on `.Length` in the source, cannot be given.
- Unity's null test. The overloaded `==` that also treats destroyed objects as null is not modelled; a reference is either `None` or a live object.
- Colour conversion. The `Color` to `Color32` conversion is float arithmetic and is left as `Converted(color)`.
- Reflection. `Type.GetMethod` is abstracted as "first method on the level with that name and arity". Exact binder overload resolution, `AmbiguousMatchException`, visibility flags and interface types are not modelled.
- Events, minor members. `m_TypeName`, `ToString` and the empty `OnBeforeSerialize` are not modelled.
- Logging. `Debug.LogWarning` and message texts are not modelled; a warning path is a no-op.
- Invokable calls. `PersistentCall.IsValid`, `GetRuntimeCall` and `GetDelegate` are the `resolve` oracle and the `Invokable` record. Invocation returns the list of calls with their arguments. It does not run listeners, so listeners that change the event while it runs are not modelled.
- Unseen containers. The bodies of `PersistentCallGroup` and `InvokableCallList` are not part of this model. Their index-based operations on an invalid index are no-ops here.
- EventBase.UnityEventBase.RegisterArgumentPersistentListener: the six typed `Register*` methods are one member, parameterised by the argument. This is likewise true of `AddArgumentPersistentListener` and the six `Add*` methods.
- EventOfT0.UnityEvent.AddListener: the delegate is never null here, so the source's handling of a null delegate is not modelled. `RemoveListener` is the same.
- CrashReports.CrashReportStore.Remove: requires the list to exist. The report constructor is private and only population calls it, so no report exists before the list.
- CrashReports.CrashReportStore.RemoveAll: the engine's removal answer is a function of the report id, fixed for the whole loop. That is exact when the native ids are distinct. With a repeated id the engine is asked again for the second report, and its second answer may differ from the first (the first removal may already have taken the report); the model gives both reports the same answer.
- Crash-report concurrency and time. The `lock` on the report list is not modelled. Neither is the conversion of seconds since 1970 through `DateTime`: time is integer ticks supplied by the report-data oracle.
- CrashReports.SortByTime: `List.Sort` is not stable. The insertion sort is one of the orders it may produce, and only sortedness and permutation are relied on.
- `Resources` natives. `Load`, `LoadAll` and `FindObjectsOfTypeAll` are not modelled.
- `DownloadHandler` natives and no-ops. The native members (`isDone`, creation, `Dispose`) and the empty `ReceiveContentLength` and `CompleteContent` are not modelled. The `data` and `text` properties are `GetData` and `GetText`.
- Floats. `float` values are `real`.

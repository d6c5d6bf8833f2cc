/** The managed side of `UnityEngine.Graphics`: validation of a multiple-render-target setup,
    and the overloads that fill in default arguments before a draw, blit or render-target call
    is handed to the native engine.

    The native engine is not modelled. Each member that would end in a native call returns,
    instead, the call it would make: a `NativeCall` value holding exactly the arguments that
    cross into the engine. */
module Graphics {
  import opened Wrappers

  // ---------------------------------------------------------------------------------------
  // Values carried through unchanged
  // ---------------------------------------------------------------------------------------

  datatype Vector3 = Vector3(x: real, y: real, z: real)
  datatype Quaternion = Quaternion(x: real, y: real, z: real, w: real)
  datatype Matrix4x4 = Matrix4x4(entries: seq<real>)
  datatype Rect = Rect(x: real, y: real, width: real, height: real)
  datatype Color = Color(r: real, g: real, b: real, a: real)
  /** A colour with one byte per channel. */
  datatype Color32 = Color32(r: int, g: int, b: int, a: int)

  /** A live engine object (mesh, material, camera, texture, transform, property block, compute
      buffer), known by its instance id. A null reference is `None`. */
  datatype EngineObject = EngineObject(instanceId: int)
  /** A native colour or depth surface. */
  datatype RenderBuffer = RenderBuffer(handle: int)
  datatype RenderTexture = RenderTexture(instanceId: int, colorBuffer: RenderBuffer, depthBuffer: RenderBuffer)

  /** Where a mesh is drawn: by position and rotation, or by a full matrix. The two families of
      `DrawMesh` and `DrawMeshNow` overloads differ only in this. */
  datatype Placement =
    | PositionRotation(position: Vector3, rotation: Quaternion)
    | Matrix(matrix: Matrix4x4)

  // ---------------------------------------------------------------------------------------
  // Enumerations. A C# enum variable holds any value of its underlying int, which is why the
  // managed code range-checks them; each is therefore its underlying int, with its named
  // members as constants.
  // ---------------------------------------------------------------------------------------

  datatype RenderBufferLoadAction = RenderBufferLoadAction(code: int) {
    static const Load := RenderBufferLoadAction(0)
    static const Clear := RenderBufferLoadAction(1)
    static const DontCare := RenderBufferLoadAction(2)
  }

  datatype RenderBufferStoreAction = RenderBufferStoreAction(code: int) {
    static const Store := RenderBufferStoreAction(0)
    static const DontCare := RenderBufferStoreAction(1)
  }

  datatype CubemapFace = CubemapFace(code: int) {
    static const Unknown := CubemapFace(-1)
    static const PositiveX := CubemapFace(0)
    static const NegativeX := CubemapFace(1)
    static const PositiveY := CubemapFace(2)
    static const NegativeY := CubemapFace(3)
    static const PositiveZ := CubemapFace(4)
    static const NegativeZ := CubemapFace(5)
  }

  datatype ShadowCastingMode = ShadowCastingMode(code: int) {
    static const Off := ShadowCastingMode(0)
    static const On := ShadowCastingMode(1)
    static const TwoSided := ShadowCastingMode(2)
    static const ShadowsOnly := ShadowCastingMode(3)
  }

  datatype MeshTopology = MeshTopology(code: int)

  // ---------------------------------------------------------------------------------------
  // Marshalled argument blocks and native calls
  // ---------------------------------------------------------------------------------------

  /** `Internal_DrawMeshTRArguments` (placement by position and rotation) and
      `Internal_DrawMeshMatrixArguments` (placement by matrix). */
  datatype DrawMeshArguments = DrawMeshArguments(
    placement: Placement, layer: int, submeshIndex: int,
    castShadows: int, receiveShadows: int, reflectionProbeAnchorInstanceID: int)

  /** The colour field of `InternalDrawTextureArguments` is a `Color32`. A float `Color` given by
      the caller is converted implicitly; that conversion is `Converted(color)`. */
  datatype TextureColor = Packed(color32: Color32) | Converted(color: Color)

  /** `InternalDrawTextureArguments`. */
  datatype DrawTextureArguments = DrawTextureArguments(
    screenRect: Rect, texture: Option<EngineObject>, sourceRect: Rect,
    leftBorder: int, rightBorder: int, topBorder: int, bottomBorder: int,
    color: TextureColor, mat: Option<EngineObject>)

  /** A call into the native engine, with the arguments that cross into it. */
  datatype NativeCall =
      /** `Internal_DrawMeshTR` or `Internal_DrawMeshMatrix`, as the placement says. */
    | DrawMeshNative(arguments: DrawMeshArguments, properties: Option<EngineObject>,
                     material: Option<EngineObject>, mesh: Option<EngineObject>, camera: Option<EngineObject>)
      /** `INTERNAL_CALL_Internal_DrawMeshNow1` or `...Now2`, as the placement says. */
    | DrawMeshNowNative(mesh: Option<EngineObject>, nowPlacement: Placement, materialIndex: int)
    | DrawProceduralNative(topology: MeshTopology, vertexCount: int, instanceCount: int)
    | DrawProceduralIndirectNative(indirectTopology: MeshTopology, bufferWithArgs: Option<EngineObject>, argsOffset: int)
    | DrawTextureNative(textureArguments: DrawTextureArguments)
    | BlitMaterialNative(source: Option<EngineObject>, dest: Option<RenderTexture>,
                         blitMaterial: Option<EngineObject>, pass: int, setRT: bool)
    | SetNullRTNative
    | SetRTSimpleNative(color: RenderBuffer, depth: RenderBuffer, mip: int, face: CubemapFace)
    | SetMRTSimpleNative(colors: seq<RenderBuffer>, mrtDepth: RenderBuffer, mrtMip: int, mrtFace: CubemapFace)
    | SetMRTFullSetupNative(colorSA: seq<RenderBuffer>, setupDepth: RenderBuffer, setupMip: int, setupFace: CubemapFace,
                            colorLoadSA: seq<RenderBufferLoadAction>, colorStoreSA: seq<RenderBufferStoreAction>,
                            depthLoad: RenderBufferLoadAction, depthStore: RenderBufferStoreAction)

  // ---------------------------------------------------------------------------------------
  // Render-target setup validation
  // ---------------------------------------------------------------------------------------

  /** `RenderTargetSetup`. */
  datatype RenderTargetSetup = RenderTargetSetup(
    color: seq<RenderBuffer>, depth: RenderBuffer, mipLevel: int, cubemapFace: CubemapFace,
    colorLoad: seq<RenderBufferLoadAction>, colorStore: seq<RenderBufferStoreAction>,
    depthLoad: RenderBufferLoadAction, depthStore: RenderBufferStoreAction)

  /** Which buffer a bad action was given for ("Color" or "Depth" in the message). */
  datatype BufferKind = ColorBuffer | DepthBuffer

  /** The `ArgumentException`s `SetRenderTargetImpl` throws, one per message. */
  datatype SetupError =
    | InvalidColorBufferCount
    | ColorLoadActionCountMismatch
    | ColorStoreActionCountMismatch
    | BadLoadAction(loadBuffer: BufferKind)
    | BadStoreAction(storeBuffer: BufferKind)
    | BadCubemapFace

  /** A load action passes exactly when it is `Load` or `DontCare`; otherwise the
      `ArgumentException` names the buffer it was given for. */
  function CheckLoadActionValid(load: RenderBufferLoadAction, bufferType: BufferKind): (r: Option<SetupError>)
    ensures r.None? <==> (load == RenderBufferLoadAction.Load || load == RenderBufferLoadAction.DontCare)
    ensures r.Some? ==> r.value == BadLoadAction(bufferType)
  {
    if load != RenderBufferLoadAction.Load && load != RenderBufferLoadAction.DontCare
    then Some(BadLoadAction(bufferType))
    else None
  }

  /** A store action passes exactly when it is `Store` or `DontCare`. */
  function CheckStoreActionValid(store: RenderBufferStoreAction, bufferType: BufferKind): (r: Option<SetupError>)
    ensures r.None? <==> (store == RenderBufferStoreAction.Store || store == RenderBufferStoreAction.DontCare)
    ensures r.Some? ==> r.value == BadStoreAction(bufferType)
  {
    if store != RenderBufferStoreAction.Store && store != RenderBufferStoreAction.DontCare
    then Some(BadStoreAction(bufferType))
    else None
  }

  predicate AllLoadActionsValid(loads: seq<RenderBufferLoadAction>) {
    forall i :: 0 <= i < |loads| ==>
      loads[i] == RenderBufferLoadAction.Load || loads[i] == RenderBufferLoadAction.DontCare
  }

  predicate AllStoreActionsValid(stores: seq<RenderBufferStoreAction>) {
    forall i :: 0 <= i < |stores| ==>
      stores[i] == RenderBufferStoreAction.Store || stores[i] == RenderBufferStoreAction.DontCare
  }

  /** The array shapes `SetRenderTargetImpl` checks first: at least one colour buffer, and one
      load and one store action per colour buffer. */
  predicate WellShaped(setup: RenderTargetSetup) {
    |setup.color| != 0 && |setup.colorLoad| == |setup.color| && |setup.colorStore| == |setup.color|
  }

  predicate FaceInRange(face: CubemapFace) {
    CubemapFace.Unknown.code <= face.code <= CubemapFace.NegativeZ.code
  }

  /** Everything a setup must satisfy to reach the engine. */
  predicate SetupAccepted(setup: RenderTargetSetup) {
    && WellShaped(setup)
    && AllLoadActionsValid(setup.colorLoad)
    && AllStoreActionsValid(setup.colorStore)
    && (setup.depthLoad == RenderBufferLoadAction.Load || setup.depthLoad == RenderBufferLoadAction.DontCare)
    && (setup.depthStore == RenderBufferStoreAction.Store || setup.depthStore == RenderBufferStoreAction.DontCare)
    && FaceInRange(setup.cubemapFace)
  }

  /** What validating and forwarding `setup` ends in: the engine call with the setup's own
      buffers, mip level, face and actions when every check passes, and otherwise the
      exception of the first check that fails, in the order the checks are made. */
  predicate SetupOutcome(setup: RenderTargetSetup, r: Result<NativeCall, SetupError>) {
    && (r.Success? <==> SetupAccepted(setup))
    && (r.Success? ==> r.value == SetMRTFullSetupNative(
          setup.color, setup.depth, setup.mipLevel, setup.cubemapFace, setup.colorLoad, setup.colorStore,
          setup.depthLoad, setup.depthStore))
    && (|setup.color| == 0 ==> r == Failure(InvalidColorBufferCount))
    && (|setup.color| != 0 && |setup.colorLoad| != |setup.color| ==>
          r == Failure(ColorLoadActionCountMismatch))
    && (|setup.color| != 0 && |setup.colorLoad| == |setup.color| && |setup.colorStore| != |setup.color| ==>
          r == Failure(ColorStoreActionCountMismatch))
    && (WellShaped(setup) && !AllLoadActionsValid(setup.colorLoad) ==>
          r == Failure(BadLoadAction(ColorBuffer)))
    && (WellShaped(setup) && AllLoadActionsValid(setup.colorLoad) && !AllStoreActionsValid(setup.colorStore) ==>
          r == Failure(BadStoreAction(ColorBuffer)))
    && (WellShaped(setup) && AllLoadActionsValid(setup.colorLoad) && AllStoreActionsValid(setup.colorStore)
        && !(setup.depthLoad == RenderBufferLoadAction.Load || setup.depthLoad == RenderBufferLoadAction.DontCare) ==>
          r == Failure(BadLoadAction(DepthBuffer)))
    && (WellShaped(setup) && AllLoadActionsValid(setup.colorLoad) && AllStoreActionsValid(setup.colorStore)
        && (setup.depthLoad == RenderBufferLoadAction.Load || setup.depthLoad == RenderBufferLoadAction.DontCare)
        && !(setup.depthStore == RenderBufferStoreAction.Store || setup.depthStore == RenderBufferStoreAction.DontCare) ==>
          r == Failure(BadStoreAction(DepthBuffer)))
    && (SetupAccepted(setup.(cubemapFace := CubemapFace.Unknown)) && !FaceInRange(setup.cubemapFace) ==>
          r == Failure(BadCubemapFace))
  }

  /** The outcome leaves no choice: every setup has exactly one. */
  lemma SetupOutcomeDeterminate(setup: RenderTargetSetup, r1: Result<NativeCall, SetupError>, r2: Result<NativeCall, SetupError>)
    requires SetupOutcome(setup, r1) && SetupOutcome(setup, r2)
    ensures r1 == r2
  {
  }

  /** Validates a multiple-render-target setup check by check, and forwards it to the engine
      only when every check passes. The checks are tried in a fixed order and the first that
      fails decides the exception. */
  method SetRenderTargetImpl(setup: RenderTargetSetup) returns (r: Result<NativeCall, SetupError>)
    ensures SetupOutcome(setup, r)
  {
    if |setup.color| == 0 {
      return Failure(InvalidColorBufferCount);
    }
    if |setup.color| != |setup.colorLoad| {
      return Failure(ColorLoadActionCountMismatch);
    }
    if |setup.color| != |setup.colorStore| {
      return Failure(ColorStoreActionCountMismatch);
    }
    for i := 0 to |setup.colorLoad|
      invariant forall k :: 0 <= k < i ==>
        setup.colorLoad[k] == RenderBufferLoadAction.Load || setup.colorLoad[k] == RenderBufferLoadAction.DontCare
    {
      var check := CheckLoadActionValid(setup.colorLoad[i], ColorBuffer);
      if check.Some? {
        return Failure(check.value);
      }
    }
    for j := 0 to |setup.colorStore|
      invariant forall k :: 0 <= k < j ==>
        setup.colorStore[k] == RenderBufferStoreAction.Store || setup.colorStore[k] == RenderBufferStoreAction.DontCare
    {
      var check := CheckStoreActionValid(setup.colorStore[j], ColorBuffer);
      if check.Some? {
        return Failure(check.value);
      }
    }
    var depthLoadCheck := CheckLoadActionValid(setup.depthLoad, DepthBuffer);
    if depthLoadCheck.Some? {
      return Failure(depthLoadCheck.value);
    }
    var depthStoreCheck := CheckStoreActionValid(setup.depthStore, DepthBuffer);
    if depthStoreCheck.Some? {
      return Failure(depthStoreCheck.value);
    }
    if setup.cubemapFace.code < CubemapFace.Unknown.code || setup.cubemapFace.code > CubemapFace.NegativeZ.code {
      return Failure(BadCubemapFace);
    }
    r := Success(SetMRTFullSetupNative(
      setup.color, setup.depth, setup.mipLevel, setup.cubemapFace, setup.colorLoad, setup.colorStore,
      setup.depthLoad, setup.depthStore));
  }

  /** A single colour and depth buffer go to the engine unchecked. */
  method SetRenderTargetBuffersImpl(colorBuffer: RenderBuffer, depthBuffer: RenderBuffer, mipLevel: int, face: CubemapFace)
    returns (c: NativeCall)
    ensures c == SetRTSimpleNative(colorBuffer, depthBuffer, mipLevel, face)
  {
    var renderBuffer := colorBuffer;
    var renderBuffer2 := depthBuffer;
    c := SetRTSimpleNative(renderBuffer, renderBuffer2, mipLevel, face);
  }

  /** A live render texture targets its own colour and depth buffers; a null (or destroyed)
      one selects the screen through the null-render-target call. */
  method SetRenderTargetTextureImpl(rt: Option<RenderTexture>, mipLevel: int, face: CubemapFace) returns (c: NativeCall)
    ensures rt.None? <==> c == SetNullRTNative
    ensures rt.Some? ==> c == SetRTSimpleNative(rt.value.colorBuffer, rt.value.depthBuffer, mipLevel, face)
  {
    if rt.Some? {
      c := SetRenderTargetBuffersImpl(rt.value.colorBuffer, rt.value.depthBuffer, mipLevel, face);
    } else {
      c := SetNullRTNative;
    }
  }

  /** Several colour buffers and one depth buffer go to the engine unchecked. */
  method SetRenderTargetMRTImpl(colorBuffers: seq<RenderBuffer>, depthBuffer: RenderBuffer, mipLevel: int, face: CubemapFace)
    returns (c: NativeCall)
    ensures c == SetMRTSimpleNative(colorBuffers, depthBuffer, mipLevel, face)
  {
    var renderBuffer := depthBuffer;
    c := SetMRTSimpleNative(colorBuffers, renderBuffer, mipLevel, face);
  }

  /** `SetRenderTarget(rt)`: mip level 0, cubemap face `Unknown`. */
  method SetRenderTargetTexture(rt: Option<RenderTexture>) returns (c: NativeCall)
    ensures rt.None? ==> c == SetNullRTNative
    ensures rt.Some? ==> c == SetRTSimpleNative(rt.value.colorBuffer, rt.value.depthBuffer, 0, CubemapFace.Unknown)
  {
    c := SetRenderTargetTextureImpl(rt, 0, CubemapFace.Unknown);
  }

  /** `SetRenderTarget(rt, mipLevel)`: cubemap face `Unknown`. */
  method SetRenderTargetTextureMip(rt: Option<RenderTexture>, mipLevel: int) returns (c: NativeCall)
    ensures rt.None? ==> c == SetNullRTNative
    ensures rt.Some? ==> c == SetRTSimpleNative(rt.value.colorBuffer, rt.value.depthBuffer, mipLevel, CubemapFace.Unknown)
  {
    c := SetRenderTargetTextureImpl(rt, mipLevel, CubemapFace.Unknown);
  }

  /** `SetRenderTarget(rt, mipLevel, face)`. */
  method SetRenderTargetTextureFace(rt: Option<RenderTexture>, mipLevel: int, face: CubemapFace) returns (c: NativeCall)
    ensures rt.None? ==> c == SetNullRTNative
    ensures rt.Some? ==> c == SetRTSimpleNative(rt.value.colorBuffer, rt.value.depthBuffer, mipLevel, face)
  {
    c := SetRenderTargetTextureImpl(rt, mipLevel, face);
  }

  /** `SetRenderTarget(colorBuffer, depthBuffer)`: mip level 0, cubemap face `Unknown`. */
  method SetRenderTargetBuffers(colorBuffer: RenderBuffer, depthBuffer: RenderBuffer) returns (c: NativeCall)
    ensures c == SetRTSimpleNative(colorBuffer, depthBuffer, 0, CubemapFace.Unknown)
  {
    c := SetRenderTargetBuffersImpl(colorBuffer, depthBuffer, 0, CubemapFace.Unknown);
  }

  /** `SetRenderTarget(colorBuffer, depthBuffer, mipLevel)`: cubemap face `Unknown`. */
  method SetRenderTargetBuffersMip(colorBuffer: RenderBuffer, depthBuffer: RenderBuffer, mipLevel: int) returns (c: NativeCall)
    ensures c == SetRTSimpleNative(colorBuffer, depthBuffer, mipLevel, CubemapFace.Unknown)
  {
    c := SetRenderTargetBuffersImpl(colorBuffer, depthBuffer, mipLevel, CubemapFace.Unknown);
  }

  /** `SetRenderTarget(colorBuffer, depthBuffer, mipLevel, face)`. */
  method SetRenderTargetBuffersFace(colorBuffer: RenderBuffer, depthBuffer: RenderBuffer, mipLevel: int, face: CubemapFace)
    returns (c: NativeCall)
    ensures c == SetRTSimpleNative(colorBuffer, depthBuffer, mipLevel, face)
  {
    c := SetRenderTargetBuffersImpl(colorBuffer, depthBuffer, mipLevel, face);
  }

  /** `SetRenderTarget(colorBuffers, depthBuffer)`: mip level 0, cubemap face `Unknown`. */
  method SetRenderTargetMRT(colorBuffers: seq<RenderBuffer>, depthBuffer: RenderBuffer) returns (c: NativeCall)
    ensures c == SetMRTSimpleNative(colorBuffers, depthBuffer, 0, CubemapFace.Unknown)
  {
    c := SetRenderTargetMRTImpl(colorBuffers, depthBuffer, 0, CubemapFace.Unknown);
  }

  /** `SetRenderTarget(setup)`: the validated path. */
  method SetRenderTarget(setup: RenderTargetSetup) returns (r: Result<NativeCall, SetupError>)
    ensures SetupOutcome(setup, r)
  {
    r := SetRenderTargetImpl(setup);
  }

  // ---------------------------------------------------------------------------------------
  // DrawMesh
  // ---------------------------------------------------------------------------------------

  /** What the full `DrawMesh` form hands to the engine: the shadow mode as its int, the
      receive flag as 1 or 0, and the probe anchor as its instance id, or 0 when there is none. */
  predicate DrawsMesh(c: NativeCall, mesh: Option<EngineObject>, placement: Placement, material: Option<EngineObject>,
                      layer: int, camera: Option<EngineObject>, submeshIndex: int, properties: Option<EngineObject>,
                      castShadows: ShadowCastingMode, receiveShadows: bool, probeAnchor: Option<EngineObject>)
  {
    && c.DrawMeshNative?
    && c.arguments.placement == placement
    && c.arguments.layer == layer
    && c.arguments.submeshIndex == submeshIndex
    && c.arguments.castShadows == castShadows.code
    && c.arguments.receiveShadows == (if receiveShadows then 1 else 0)
    && c.arguments.reflectionProbeAnchorInstanceID == (if probeAnchor.Some? then probeAnchor.value.instanceId else 0)
    && c.properties == properties && c.material == material && c.mesh == mesh && c.camera == camera
  }

  /** The full form: fills the argument block field by field and calls the engine. */
  method DrawMesh(mesh: Option<EngineObject>, placement: Placement, material: Option<EngineObject>, layer: int,
                  camera: Option<EngineObject>, submeshIndex: int, properties: Option<EngineObject>,
                  castShadows: ShadowCastingMode, receiveShadows: bool, probeAnchor: Option<EngineObject>)
    returns (c: NativeCall)
    ensures DrawsMesh(c, mesh, placement, material, layer, camera, submeshIndex, properties, castShadows, receiveShadows, probeAnchor)
    ensures c.arguments.receiveShadows in {0, 1}
    ensures probeAnchor.None? ==> c.arguments.reflectionProbeAnchorInstanceID == 0
  {
    var arguments := DrawMeshArguments(placement, 0, 0, 0, 0, 0);
    arguments := arguments.(layer := layer);
    arguments := arguments.(submeshIndex := submeshIndex);
    arguments := arguments.(castShadows := castShadows.code);
    arguments := arguments.(receiveShadows := if !receiveShadows then 0 else 1);
    arguments := arguments.(reflectionProbeAnchorInstanceID := if probeAnchor.None? then 0 else probeAnchor.value.instanceId);
    c := DrawMeshNative(arguments, properties, material, mesh, camera);
  }

  /** A shadow mode and receive flag, no probe anchor. */
  method DrawMeshNoProbe(mesh: Option<EngineObject>, placement: Placement, material: Option<EngineObject>, layer: int,
                         camera: Option<EngineObject>, submeshIndex: int, properties: Option<EngineObject>,
                         castShadows: ShadowCastingMode, receiveShadows: bool)
    returns (c: NativeCall)
    ensures DrawsMesh(c, mesh, placement, material, layer, camera, submeshIndex, properties, castShadows, receiveShadows, None)
  {
    c := DrawMesh(mesh, placement, material, layer, camera, submeshIndex, properties, castShadows, receiveShadows, None);
  }

  /** A shadow mode only: receives shadows, no probe anchor. */
  method DrawMeshShadowMode(mesh: Option<EngineObject>, placement: Placement, material: Option<EngineObject>, layer: int,
                            camera: Option<EngineObject>, submeshIndex: int, properties: Option<EngineObject>,
                            castShadows: ShadowCastingMode)
    returns (c: NativeCall)
    ensures DrawsMesh(c, mesh, placement, material, layer, camera, submeshIndex, properties, castShadows, true, None)
  {
    c := DrawMesh(mesh, placement, material, layer, camera, submeshIndex, properties, castShadows, true, None);
  }

  /** The bool form: casting shadows means `ShadowCastingMode.On`, not casting means `Off`. */
  method DrawMeshCasting(mesh: Option<EngineObject>, placement: Placement, material: Option<EngineObject>, layer: int,
                         camera: Option<EngineObject>, submeshIndex: int, properties: Option<EngineObject>,
                         castShadows: bool, receiveShadows: bool)
    returns (c: NativeCall)
    ensures castShadows ==>
      DrawsMesh(c, mesh, placement, material, layer, camera, submeshIndex, properties, ShadowCastingMode.On, receiveShadows, None)
    ensures !castShadows ==>
      DrawsMesh(c, mesh, placement, material, layer, camera, submeshIndex, properties, ShadowCastingMode.Off, receiveShadows, None)
  {
    c := DrawMeshNoProbe(mesh, placement, material, layer, camera, submeshIndex, properties,
                         if !castShadows then ShadowCastingMode.Off else ShadowCastingMode.On, receiveShadows);
  }

  /** A cast flag only: receives shadows. */
  method DrawMeshCastFlag(mesh: Option<EngineObject>, placement: Placement, material: Option<EngineObject>, layer: int,
                          camera: Option<EngineObject>, submeshIndex: int, properties: Option<EngineObject>, castShadows: bool)
    returns (c: NativeCall)
    ensures castShadows ==>
      DrawsMesh(c, mesh, placement, material, layer, camera, submeshIndex, properties, ShadowCastingMode.On, true, None)
    ensures !castShadows ==>
      DrawsMesh(c, mesh, placement, material, layer, camera, submeshIndex, properties, ShadowCastingMode.Off, true, None)
  {
    var receiveShadows := true;
    c := DrawMeshCasting(mesh, placement, material, layer, camera, submeshIndex, properties, castShadows, receiveShadows);
  }

  /** Up to the property block: casts and receives shadows. */
  method DrawMeshWithProperties(mesh: Option<EngineObject>, placement: Placement, material: Option<EngineObject>, layer: int,
                                camera: Option<EngineObject>, submeshIndex: int, properties: Option<EngineObject>)
    returns (c: NativeCall)
    ensures DrawsMesh(c, mesh, placement, material, layer, camera, submeshIndex, properties, ShadowCastingMode.On, true, None)
  {
    c := DrawMeshCasting(mesh, placement, material, layer, camera, submeshIndex, properties, true, true);
  }

  /** Up to the submesh index: no property block. */
  method DrawMeshSubmesh(mesh: Option<EngineObject>, placement: Placement, material: Option<EngineObject>, layer: int,
                         camera: Option<EngineObject>, submeshIndex: int)
    returns (c: NativeCall)
    ensures DrawsMesh(c, mesh, placement, material, layer, camera, submeshIndex, None, ShadowCastingMode.On, true, None)
  {
    c := DrawMeshCasting(mesh, placement, material, layer, camera, submeshIndex, None, true, true);
  }

  /** Up to the camera: submesh 0. */
  method DrawMeshInCamera(mesh: Option<EngineObject>, placement: Placement, material: Option<EngineObject>, layer: int,
                          camera: Option<EngineObject>)
    returns (c: NativeCall)
    ensures DrawsMesh(c, mesh, placement, material, layer, camera, 0, None, ShadowCastingMode.On, true, None)
  {
    c := DrawMeshCasting(mesh, placement, material, layer, camera, 0, None, true, true);
  }

  /** Only the layer: drawn in every camera (camera null). */
  method DrawMeshOnLayer(mesh: Option<EngineObject>, placement: Placement, material: Option<EngineObject>, layer: int)
    returns (c: NativeCall)
    ensures DrawsMesh(c, mesh, placement, material, layer, None, 0, None, ShadowCastingMode.On, true, None)
  {
    c := DrawMeshCasting(mesh, placement, material, layer, None, 0, None, true, true);
  }

  // ---------------------------------------------------------------------------------------
  // DrawMeshNow, DrawProcedural
  // ---------------------------------------------------------------------------------------

  /** A given material index is passed as is. */
  method DrawMeshNowSubset(mesh: Option<EngineObject>, placement: Placement, materialIndex: int) returns (c: NativeCall)
    ensures c == DrawMeshNowNative(mesh, placement, materialIndex)
  {
    c := DrawMeshNowNative(mesh, placement, materialIndex);
  }

  /** Without a material index, -1 (all subsets) is passed. */
  method DrawMeshNow(mesh: Option<EngineObject>, placement: Placement) returns (c: NativeCall)
    ensures c.DrawMeshNowNative? && c.materialIndex == -1
    ensures c.mesh == mesh && c.nowPlacement == placement
  {
    c := DrawMeshNowSubset(mesh, placement, -1);
  }

  /** Without an instance count, one instance is drawn. */
  method DrawProcedural(topology: MeshTopology, vertexCount: int) returns (c: NativeCall)
    ensures c == DrawProceduralNative(topology, vertexCount, 1)
  {
    var instanceCount := 1;
    c := DrawProceduralNative(topology, vertexCount, instanceCount);
  }

  /** Without an offset, the draw arguments are read from offset 0. */
  method DrawProceduralIndirect(topology: MeshTopology, bufferWithArgs: Option<EngineObject>) returns (c: NativeCall)
    ensures c == DrawProceduralIndirectNative(topology, bufferWithArgs, 0)
  {
    var argsOffset := 0;
    c := DrawProceduralIndirectNative(topology, bufferWithArgs, argsOffset);
  }

  // ---------------------------------------------------------------------------------------
  // DrawTexture
  // ---------------------------------------------------------------------------------------

  /** The neutral modulation colour used when none is given: 128 in every channel. */
  const NeutralGrey := Color32(128, 128, 128, 128)

  /** The whole texture, in normalised coordinates. */
  const WholeTexture := Rect(0.0, 0.0, 1.0, 1.0)

  /** What a `DrawTexture` call hands to the engine. */
  predicate DrawsTexture(c: NativeCall, screenRect: Rect, texture: Option<EngineObject>, sourceRect: Rect,
                         leftBorder: int, rightBorder: int, topBorder: int, bottomBorder: int,
                         color: TextureColor, mat: Option<EngineObject>)
  {
    c == DrawTextureNative(DrawTextureArguments(screenRect, texture, sourceRect,
                                                leftBorder, rightBorder, topBorder, bottomBorder, color, mat))
  }

  /** A source region and borders without a colour: modulated by the neutral grey. */
  method DrawTextureRegion(screenRect: Rect, texture: Option<EngineObject>, sourceRect: Rect,
                           leftBorder: int, rightBorder: int, topBorder: int, bottomBorder: int, mat: Option<EngineObject>)
    returns (c: NativeCall)
    ensures DrawsTexture(c, screenRect, texture, sourceRect, leftBorder, rightBorder, topBorder, bottomBorder, Packed(NeutralGrey), mat)
    ensures c.textureArguments.color == Packed(Color32(128, 128, 128, 128))
  {
    var arguments := DrawTextureArguments(Rect(0.0, 0.0, 0.0, 0.0), None, Rect(0.0, 0.0, 0.0, 0.0), 0, 0, 0, 0,
                                          Packed(Color32(0, 0, 0, 0)), None);
    arguments := arguments.(screenRect := screenRect);
    arguments := arguments.(texture := texture);
    arguments := arguments.(sourceRect := sourceRect);
    arguments := arguments.(leftBorder := leftBorder);
    arguments := arguments.(rightBorder := rightBorder);
    arguments := arguments.(topBorder := topBorder);
    arguments := arguments.(bottomBorder := bottomBorder);
    var color := Color32(0, 0, 0, 0);
    color := color.(a := 128);
    color := color.(b := color.a);
    color := color.(g := color.b);
    color := color.(r := color.g);
    arguments := arguments.(color := Packed(color));
    arguments := arguments.(mat := mat);
    c := DrawTextureNative(arguments);
  }

  /** A source region, borders and a float colour. */
  method DrawTextureRegionTinted(screenRect: Rect, texture: Option<EngineObject>, sourceRect: Rect,
                                 leftBorder: int, rightBorder: int, topBorder: int, bottomBorder: int,
                                 color: Color, mat: Option<EngineObject>)
    returns (c: NativeCall)
    ensures DrawsTexture(c, screenRect, texture, sourceRect, leftBorder, rightBorder, topBorder, bottomBorder, Converted(color), mat)
  {
    var arguments := DrawTextureArguments(Rect(0.0, 0.0, 0.0, 0.0), None, Rect(0.0, 0.0, 0.0, 0.0), 0, 0, 0, 0,
                                          Packed(Color32(0, 0, 0, 0)), None);
    arguments := arguments.(screenRect := screenRect);
    arguments := arguments.(texture := texture);
    arguments := arguments.(sourceRect := sourceRect);
    arguments := arguments.(leftBorder := leftBorder);
    arguments := arguments.(rightBorder := rightBorder);
    arguments := arguments.(topBorder := topBorder);
    arguments := arguments.(bottomBorder := bottomBorder);
    arguments := arguments.(color := Converted(color));
    arguments := arguments.(mat := mat);
    c := DrawTextureNative(arguments);
  }

  /** A source region, borders and a colour, no material. */
  method DrawTextureRegionTintedDefaultMaterial(screenRect: Rect, texture: Option<EngineObject>, sourceRect: Rect,
                                                leftBorder: int, rightBorder: int, topBorder: int, bottomBorder: int,
                                                color: Color)
    returns (c: NativeCall)
    ensures DrawsTexture(c, screenRect, texture, sourceRect, leftBorder, rightBorder, topBorder, bottomBorder, Converted(color), None)
  {
    c := DrawTextureRegionTinted(screenRect, texture, sourceRect, leftBorder, rightBorder, topBorder, bottomBorder, color, None);
  }

  /** A source region and borders, no material. */
  method DrawTextureRegionDefaultMaterial(screenRect: Rect, texture: Option<EngineObject>, sourceRect: Rect,
                                          leftBorder: int, rightBorder: int, topBorder: int, bottomBorder: int)
    returns (c: NativeCall)
    ensures DrawsTexture(c, screenRect, texture, sourceRect, leftBorder, rightBorder, topBorder, bottomBorder, Packed(NeutralGrey), None)
  {
    c := DrawTextureRegion(screenRect, texture, sourceRect, leftBorder, rightBorder, topBorder, bottomBorder, None);
  }

  /** Borders and a material: the whole texture is the source. */
  method DrawTextureBordered(screenRect: Rect, texture: Option<EngineObject>,
                             leftBorder: int, rightBorder: int, topBorder: int, bottomBorder: int, mat: Option<EngineObject>)
    returns (c: NativeCall)
    ensures DrawsTexture(c, screenRect, texture, WholeTexture, leftBorder, rightBorder, topBorder, bottomBorder, Packed(NeutralGrey), mat)
  {
    c := DrawTextureRegion(screenRect, texture, Rect(0.0, 0.0, 1.0, 1.0), leftBorder, rightBorder, topBorder, bottomBorder, mat);
  }

  /** Borders only: no material. */
  method DrawTextureBorderedDefaultMaterial(screenRect: Rect, texture: Option<EngineObject>,
                                            leftBorder: int, rightBorder: int, topBorder: int, bottomBorder: int)
    returns (c: NativeCall)
    ensures DrawsTexture(c, screenRect, texture, WholeTexture, leftBorder, rightBorder, topBorder, bottomBorder, Packed(NeutralGrey), None)
  {
    c := DrawTextureBordered(screenRect, texture, leftBorder, rightBorder, topBorder, bottomBorder, None);
  }

  /** A material without borders: all four borders are 0. */
  method DrawTextureWithMaterial(screenRect: Rect, texture: Option<EngineObject>, mat: Option<EngineObject>)
    returns (c: NativeCall)
    ensures DrawsTexture(c, screenRect, texture, WholeTexture, 0, 0, 0, 0, Packed(NeutralGrey), mat)
  {
    c := DrawTextureBordered(screenRect, texture, 0, 0, 0, 0, mat);
  }

  /** Only a rectangle and a texture. */
  method DrawTextureSimple(screenRect: Rect, texture: Option<EngineObject>) returns (c: NativeCall)
    ensures DrawsTexture(c, screenRect, texture, WholeTexture, 0, 0, 0, 0, Packed(NeutralGrey), None)
  {
    c := DrawTextureWithMaterial(screenRect, texture, None);
  }

  // ---------------------------------------------------------------------------------------
  // Blit
  // ---------------------------------------------------------------------------------------

  /** A blit with a destination sets it as the render target. */
  method Blit(source: Option<EngineObject>, dest: Option<RenderTexture>, mat: Option<EngineObject>, pass: int)
    returns (c: NativeCall)
    ensures c == BlitMaterialNative(source, dest, mat, pass, true)
  {
    c := BlitMaterialNative(source, dest, mat, pass, true);
  }

  /** A blit with a destination and without a pass uses every pass (-1). */
  method BlitAllPasses(source: Option<EngineObject>, dest: Option<RenderTexture>, mat: Option<EngineObject>)
    returns (c: NativeCall)
    ensures c == BlitMaterialNative(source, dest, mat, -1, true)
  {
    var pass := -1;
    c := Blit(source, dest, mat, pass);
  }

  /** A blit without a destination passes a null one and leaves the render target alone. */
  method BlitToCurrent(source: Option<EngineObject>, mat: Option<EngineObject>, pass: int) returns (c: NativeCall)
    ensures c == BlitMaterialNative(source, None, mat, pass, false)
  {
    c := BlitMaterialNative(source, None, mat, pass, false);
  }

  /** Neither a destination nor a pass. */
  method BlitToCurrentAllPasses(source: Option<EngineObject>, mat: Option<EngineObject>) returns (c: NativeCall)
    ensures c == BlitMaterialNative(source, None, mat, -1, false)
  {
    var pass := -1;
    c := BlitToCurrent(source, mat, pass);
  }
}

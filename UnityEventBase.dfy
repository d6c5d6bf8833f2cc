/** The managed bookkeeping of `UnityEngine.Events.UnityEventBase`: the persistent (serialized)
    listeners, the cache of their invokable calls with its dirty flag, and the reflection-based
    method lookup that decides whether a listener can be registered.

    Reflection is abstract here. A type is the chain of its levels from its own type up to, not
    including, `System.Object`; on each level, the method lookup finds the first method with the
    requested name and number of parameters. The unseen containers are sequences of records:
    `InvokableCallList` is a sequence of persistent invokables and one of runtime invokables,
    `PersistentCallGroup` a sequence of `PersistentCall`s. */
module EventBase {
  import opened Wrappers

  // ---------------------------------------------------------------------------------------
  // Reflection, abstractly
  // ---------------------------------------------------------------------------------------

  /** A reflected type: its name and whether it is primitive. */
  datatype TypeInfo = TypeInfo(name: string, isPrimitive: bool)

  const IntType := TypeInfo("System.Int32", true)
  const FloatType := TypeInfo("System.Single", true)
  const StringType := TypeInfo("System.String", false)
  const BoolType := TypeInfo("System.Boolean", true)
  /** `UnityEngine.Object`. */
  const ObjectType := TypeInfo("UnityEngine.Object", false)

  datatype MethodInfo = MethodInfo(name: string, parameters: seq<TypeInfo>, isStatic: bool)

  /** One level of a type's inheritance chain, with the methods lookup sees on it. */
  datatype TypeLevel = TypeLevel(levelType: TypeInfo, methods: seq<MethodInfo>)

  /** A managed object: its runtime type and that type's chain of levels (most derived first,
      `System.Object` left out); whether it derives from `UnityEngine.Object`, and if so its
      instance id. */
  datatype Obj = Obj(runtimeType: TypeInfo, typeChain: seq<TypeLevel>, isUnityObject: bool, instanceId: int)

  /** A delegate: the object it is bound to (null for a static methodInfo) and its methodInfo. */
  datatype UnityAction = UnityAction(target: Option<Obj>, methodInfo: MethodInfo)

  /** The exceptions thrown by this part of the event system. */
  datatype EventError =
    | NullReference                   // `GetType()` called on a null object
    | ArgumentNull(paramName: string) // `ArgumentNullException`
    | NotAnEngineObject               // `ArgumentException`: the target is not a live `UnityEngine.Object`
    | StaticMethod                    // `ArgumentException`: static functions are not supported

  /** A method matches a lookup by name and number of parameters. */
  predicate Matches(m: MethodInfo, name: string, argumentTypes: seq<TypeInfo>) {
    m.name == name && |m.parameters| == |argumentTypes|
  }

  /** A first match in the tail of a method list whose head does not match is a first match
      in the whole list. */
  lemma FirstMatchBehindHead(methods: seq<MethodInfo>, name: string, argumentTypes: seq<TypeInfo>, r: Option<MethodInfo>)
    requires |methods| > 0 && !Matches(methods[0], name, argumentTypes)
    requires r.None? <==> forall m :: m in methods[1..] ==> !Matches(m, name, argumentTypes)
    requires r.Some? ==> exists k :: (0 <= k < |methods[1..]| && methods[1..][k] == r.value &&
      forall j :: 0 <= j < k ==> !Matches(methods[1..][j], name, argumentTypes))
    ensures r.None? <==> forall m :: m in methods ==> !Matches(m, name, argumentTypes)
    ensures r.Some? ==> exists k :: (0 <= k < |methods| && methods[k] == r.value &&
      forall j :: 0 <= j < k ==> !Matches(methods[j], name, argumentTypes))
  {
    assert methods == [methods[0]] + methods[1..];
    if r.Some? {
      var k' :| 0 <= k' < |methods[1..]| && methods[1..][k'] == r.value &&
        forall j :: 0 <= j < k' ==> !Matches(methods[1..][j], name, argumentTypes);
      assert methods[k' + 1] == r.value;
      assert forall j :: 1 <= j < k' + 1 ==> methods[j] == methods[1..][j - 1];
    }
  }

  /** The method lookup of one level (`Type.GetMethod` with a list of argument types): the first
      method with that name and as many parameters as there are argument types. */
  function FindOnLevel(methods: seq<MethodInfo>, name: string, argumentTypes: seq<TypeInfo>): (r: Option<MethodInfo>)
    ensures r.Some? ==> r.value in methods && r.value.name == name && |r.value.parameters| == |argumentTypes|
    ensures r.None? <==> forall m :: m in methods ==> !Matches(m, name, argumentTypes)
    ensures r.Some? ==> exists k :: (0 <= k < |methods| && methods[k] == r.value &&
      forall j :: 0 <= j < k ==> !Matches(methods[j], name, argumentTypes))
  {
    if |methods| == 0 then None
    else if Matches(methods[0], name, argumentTypes) then Some(methods[0])
    else
      var r := FindOnLevel(methods[1..], name, argumentTypes);
      FirstMatchBehindHead(methods, name, argumentTypes, r);
      r
  }

  /** Every parameter of the found method agrees in primitiveness with the requested type at
      the same position. */
  predicate PrimitivenessAgrees(parameters: seq<TypeInfo>, argumentTypes: seq<TypeInfo>)
    requires |parameters| <= |argumentTypes|
  {
    forall i :: 0 <= i < |parameters| ==> argumentTypes[i].isPrimitive == parameters[i].isPrimitive
  }

  /** A level of the chain accepts the request when its lookup finds a method whose parameters
      agree in primitiveness with the requested types. */
  predicate AcceptsOnLevel(level: TypeLevel, name: string, argumentTypes: seq<TypeInfo>) {
    var m := FindOnLevel(level.methods, name, argumentTypes);
    m.Some? && PrimitivenessAgrees(m.value.parameters, argumentTypes)
  }

  /** The method `GetValidMethodInfo` returns for a type chain: what the first accepting level
      finds, or null. */
  function ValidMethodInfo(chain: seq<TypeLevel>, name: string, argumentTypes: seq<TypeInfo>): Option<MethodInfo>
  {
    if |chain| == 0 then None
    else if AcceptsOnLevel(chain[0], name, argumentTypes) then FindOnLevel(chain[0].methods, name, argumentTypes)
    else ValidMethodInfo(chain[1..], name, argumentTypes)
  }

  /** `ValidMethodInfo` is null exactly when no level accepts; otherwise it is what the first
      accepting level finds, and that method has the requested name. */
  lemma {:induction false} ValidMethodInfoIsFirstAcceptingLevel(chain: seq<TypeLevel>, name: string, argumentTypes: seq<TypeInfo>)
    ensures ValidMethodInfo(chain, name, argumentTypes).None? <==>
      forall k :: 0 <= k < |chain| ==> !AcceptsOnLevel(chain[k], name, argumentTypes)
    ensures ValidMethodInfo(chain, name, argumentTypes).Some? ==>
      ValidMethodInfo(chain, name, argumentTypes).value.name == name &&
      exists k :: 0 <= k < |chain| && AcceptsOnLevel(chain[k], name, argumentTypes)
        && ValidMethodInfo(chain, name, argumentTypes) == FindOnLevel(chain[k].methods, name, argumentTypes)
        && forall j :: 0 <= j < k ==> !AcceptsOnLevel(chain[j], name, argumentTypes)
  {
    if |chain| != 0 && !AcceptsOnLevel(chain[0], name, argumentTypes) {
      var rest := chain[1..];
      ValidMethodInfoIsFirstAcceptingLevel(rest, name, argumentTypes);
      assert forall k :: 1 <= k < |chain| ==> chain[k] == rest[k - 1];
      if ValidMethodInfo(rest, name, argumentTypes).Some? {
        var k :| 0 <= k < |rest| && AcceptsOnLevel(rest[k], name, argumentTypes)
          && ValidMethodInfo(rest, name, argumentTypes) == FindOnLevel(rest[k].methods, name, argumentTypes)
          && forall j :: 0 <= j < k ==> !AcceptsOnLevel(rest[j], name, argumentTypes);
        assert chain[k + 1] == rest[k];
        assert forall j :: 0 <= j < k + 1 ==> !AcceptsOnLevel(chain[j], name, argumentTypes) by {
          forall j | 0 <= j < k + 1 ensures !AcceptsOnLevel(chain[j], name, argumentTypes) {
            if j > 0 { assert chain[j] == rest[j - 1]; }
          }
        }
      }
    }
  }

  /** Walks the object's type chain upward and returns the first method found whose every
      parameter agrees in primitiveness with the requested types, or null. A null object
      throws when its type is asked for. */
  method GetValidMethodInfo(obj: Option<Obj>, functionName: string, argumentTypes: seq<TypeInfo>)
    returns (r: Result<Option<MethodInfo>, EventError>)
    ensures obj.None? ==> r == Failure(NullReference)
    ensures obj.Some? ==> r == Success(ValidMethodInfo(obj.value.typeChain, functionName, argumentTypes))
  {
    if obj.None? {
      return Failure(NullReference);
    }
    var chain := obj.value.typeChain;
    var level := 0;
    while level < |chain|
      invariant 0 <= level <= |chain|
      invariant ValidMethodInfo(chain, functionName, argumentTypes) == ValidMethodInfo(chain[level..], functionName, argumentTypes)
    {
      var found := FindOnLevel(chain[level].methods, functionName, argumentTypes);
      if found.Some? {
        var parameters := found.value.parameters;
        var flag := true;
        var num := 0;
        for i := 0 to |parameters|
          invariant num == i
          invariant flag <==> forall k :: 0 <= k < i ==> argumentTypes[k].isPrimitive == parameters[k].isPrimitive
        {
          var type2 := argumentTypes[num];
          flag := type2.isPrimitive == parameters[i].isPrimitive;
          if !flag {
            break;
          }
          num := num + 1;
        }
        if flag {
          return Success(found);
        }
      }
      assert chain[level..][1..] == chain[level + 1..];
      level := level + 1;
    }
    r := Success(None);
  }

  // ---------------------------------------------------------------------------------------
  // Listener modes and persistent calls
  // ---------------------------------------------------------------------------------------

  datatype PersistentListenerMode = PersistentListenerMode(code: int) {
    static const EventDefined := PersistentListenerMode(0)
    static const Void := PersistentListenerMode(1)
    static const Object := PersistentListenerMode(2)
    static const Int := PersistentListenerMode(3)
    static const Float := PersistentListenerMode(4)
    static const String := PersistentListenerMode(5)
    static const Bool := PersistentListenerMode(6)
  }

  datatype UnityEventCallState = UnityEventCallState(code: int) {
    static const Off := UnityEventCallState(0)
    static const EditorAndRuntime := UnityEventCallState(1)
    static const RuntimeOnly := UnityEventCallState(2)
  }

  /** The stored arguments of a persistent call (`ArgumentCache`). */
  datatype ArgumentCache = ArgumentCache(
    objectArgument: Option<Obj>, objectArgumentTypeName: string,
    intArgument: int, floatArgument: real, stringArgument: string, boolArgument: bool)

  const EmptyArguments := ArgumentCache(None, "", 0, 0.0, "", false)

  /** A serialized listener (`PersistentCall`). */
  datatype PersistentCall = PersistentCall(
    target: Option<Obj>, methodName: string, mode: PersistentListenerMode,
    arguments: ArgumentCache, callState: UnityEventCallState)

  /** The slot a new persistent listener starts as. */
  const EmptyPersistentCall := PersistentCall(None, "", PersistentListenerMode.EventDefined, EmptyArguments,
                                              UnityEventCallState.RuntimeOnly)

  /** The fixed argument a typed persistent listener is registered with. */
  datatype ListenerArgument =
    | VoidArgument
    | IntArgument(i: int)
    | FloatArgument(f: real)
    | StringArgument(s: string)
    | BoolArgument(b: bool)
    | ObjectArgument(o: Option<Obj>)

  function ModeOf(argument: ListenerArgument): PersistentListenerMode {
    match argument
    case VoidArgument => PersistentListenerMode.Void
    case IntArgument(_) => PersistentListenerMode.Int
    case FloatArgument(_) => PersistentListenerMode.Float
    case StringArgument(_) => PersistentListenerMode.String
    case BoolArgument(_) => PersistentListenerMode.Bool
    case ObjectArgument(_) => PersistentListenerMode.Object
  }

  /** The argument cache after storing a typed argument; the other fields keep their values. */
  function WithArgument(cache: ArgumentCache, argument: ListenerArgument): ArgumentCache {
    match argument
    case VoidArgument => cache
    case IntArgument(i) => cache.(intArgument := i)
    case FloatArgument(f) => cache.(floatArgument := f)
    case StringArgument(s) => cache.(stringArgument := s)
    case BoolArgument(b) => cache.(boolArgument := b)
    case ObjectArgument(o) =>
      cache.(objectArgument := o, objectArgumentTypeName := if o.Some? then o.value.runtimeType.name else "")
  }

  /** `call.Target as Object`: the target if it is a `UnityEngine.Object`, null otherwise. */
  function AsEngineObject(o: Option<Obj>): (r: Option<Obj>)
    ensures r.Some? <==> o.Some? && o.value.isUnityObject
    ensures r.Some? ==> r == o
  {
    if o.Some? && o.value.isUnityObject then o else None
  }

  /** A registration target must be a `UnityEngine.Object` with a non-zero instance id. */
  predicate IsRegistrableTarget(o: Option<Obj>) {
    o.Some? && o.value.isUnityObject && o.value.instanceId != 0
  }

  // ---------------------------------------------------------------------------------------
  // The persistent call group, abstractly
  // ---------------------------------------------------------------------------------------

  /** `GetListener(index)`: the call at a valid index, null at any other. */
  function GetListener(calls: seq<PersistentCall>, index: int): (r: Option<PersistentCall>)
    ensures r.Some? <==> 0 <= index < |calls|
    ensures r.Some? ==> r.value == calls[index]
  {
    if 0 <= index < |calls| then Some(calls[index]) else None
  }

  /** The group after replacing the call at `index` by `call`; an invalid index changes
      nothing. */
  function UpdateAt(calls: seq<PersistentCall>, index: int, call: PersistentCall): (r: seq<PersistentCall>)
    ensures |r| == |calls|
    ensures forall k :: 0 <= k < |calls| && k != index ==> r[k] == calls[k]
    ensures 0 <= index < |calls| ==> r[index] == call
  {
    if 0 <= index < |calls| then calls[index := call] else calls
  }

  /** The group after `RegisterEventPersistentListener`: target and method name set, mode
      `EventDefined`, the stored arguments untouched. */
  function RegisterEventAt(calls: seq<PersistentCall>, index: int, target: Option<Obj>, methodName: string): seq<PersistentCall> {
    if 0 <= index < |calls|
    then UpdateAt(calls, index, calls[index].(target := target, methodName := methodName, mode := PersistentListenerMode.EventDefined))
    else calls
  }

  /** The group after one of the typed `Register...PersistentListener`s: target and method name
      set, the mode of the argument, the argument stored. */
  function RegisterArgumentAt(calls: seq<PersistentCall>, index: int, target: Option<Obj>, methodName: string,
                              argument: ListenerArgument): seq<PersistentCall> {
    if 0 <= index < |calls|
    then UpdateAt(calls, index, calls[index].(target := target, methodName := methodName, mode := ModeOf(argument),
                                              arguments := WithArgument(calls[index].arguments, argument)))
    else calls
  }

  /** The group after `RemoveListeners(target, methodName)`: every call with that target and
      method name is gone, the others keep their order. */
  function RemoveMatching(calls: seq<PersistentCall>, target: Option<Obj>, methodName: string): (r: seq<PersistentCall>)
    ensures forall c :: c in r <==> c in calls && !(c.target == target && c.methodName == methodName)
    ensures |r| <= |calls|
  {
    if |calls| == 0 then []
    else if calls[0].target == target && calls[0].methodName == methodName then RemoveMatching(calls[1..], target, methodName)
    else [calls[0]] + RemoveMatching(calls[1..], target, methodName)
  }

  /** The group after `RemoveListener(index)`. */
  function RemoveAt(calls: seq<PersistentCall>, index: int): (r: seq<PersistentCall>)
    ensures 0 <= index < |calls| ==>
      |r| == |calls| - 1 && forall j :: 0 <= j < |r| ==> r[j] == (if j < index then calls[j] else calls[j + 1])
    ensures !(0 <= index < |calls|) ==> r == calls
  {
    if 0 <= index < |calls| then calls[..index] + calls[index + 1..] else calls
  }

  /** The group after `UnregisterPersistentListener(index)`: that call loses its target and
      method name. */
  function UnregisterAt(calls: seq<PersistentCall>, index: int): seq<PersistentCall> {
    if 0 <= index < |calls| then UpdateAt(calls, index, calls[index].(target := None, methodName := "")) else calls
  }

  // ---------------------------------------------------------------------------------------
  // Invocation
  // ---------------------------------------------------------------------------------------

  /** An invokable call (`BaseInvokableCall`): the object and method it runs. */
  datatype Invokable = Invokable(callTarget: Option<Obj>, callMethod: MethodInfo)

  /** A boxed argument of an invocation (`object`). */
  datatype Boxed = NullValue | IntValue(i: int) | FloatValue(f: real) | StringValue(s: string) | BoolValue(b: bool) | ObjectValue(o: Obj)

  /** One call run by `Invoke`, with the arguments it receives. */
  datatype Invocation = Invocation(call: Invokable, parameters: seq<Boxed>)

  /** The persistent calls the group installs when it initializes the call list: each call is
      turned into its runtime invokable, or dropped, by `resolve` (`PersistentCall.IsValid` and
      `GetRuntimeCall`, which rest on reflection). */
  function Resolved(calls: seq<PersistentCall>, resolve: PersistentCall -> Option<Invokable>): (r: seq<Invokable>)
    ensures |r| <= |calls|
    ensures forall i :: 0 <= i < |calls| && resolve(calls[i]).Some? ==> resolve(calls[i]).value in r
    ensures forall c :: c in r ==> exists p :: p in calls && resolve(p) == Some(c)
  {
    if |calls| == 0 then []
    else (if resolve(calls[0]).Some? then [resolve(calls[0]).value] else []) + Resolved(calls[1..], resolve)
  }

  /** Every call receives the same arguments, in list order. */
  function Dispatch(calls: seq<Invokable>, parameters: seq<Boxed>): (r: seq<Invocation>)
    ensures |r| == |calls|
    ensures forall i :: 0 <= i < |calls| ==> r[i] == Invocation(calls[i], parameters)
  {
    seq(|calls|, i requires 0 <= i < |calls| => Invocation(calls[i], parameters))
  }

  /** The call list after `RemoveListener(targetObj, method)`: every occurrence of the call is
      gone, and the others keep their order and their number. */
  function Without(calls: seq<Invokable>, x: Invokable): (r: seq<Invokable>)
    ensures forall c :: c in r <==> c in calls && c != x
    ensures multiset(r) == multiset(calls)[x := 0]
  {
    if |calls| == 0 then []
    else
      var init := calls[..|calls| - 1];
      assert calls == init + [calls[|calls| - 1]];
      Without(init, x) + (if calls[|calls| - 1] == x then [] else [calls[|calls| - 1]])
  }

  /** Removal distributes over concatenation: the calls that stay keep their relative order. */
  lemma {:induction false} WithoutConcat(a: seq<Invokable>, b: seq<Invokable>, x: Invokable)
    ensures Without(a + b, x) == Without(a, x) + Without(b, x)
    decreases |b|
  {
    if |b| == 0 {
      assert a + b == a;
    } else {
      var initB := b[..|b| - 1];
      assert (a + b)[..|a + b| - 1] == a + initB;
      WithoutConcat(a, initB, x);
    }
  }

  // ---------------------------------------------------------------------------------------
  // The event
  // ---------------------------------------------------------------------------------------

  class UnityEventBase {
    /** The parameter types of the concrete event: its `FindMethod_Impl` searches with these. */
    const eventArgumentTypes: seq<TypeInfo>
    /** `m_PersistentCalls`. */
    var persistentCalls: seq<PersistentCall>
    /** `m_Calls`: the invokables built from the persistent calls ... */
    var persistentInvokables: seq<Invokable>
    /** ... and those added at run time. */
    var runtimeCalls: seq<Invokable>
    /** `m_CallsDirty`: the persistent invokables must be rebuilt before the next invocation. */
    var callsDirty: bool

    /** While dirty, no stale persistent invokable is left in the call list. */
    ghost predicate Valid()
      reads this
    {
      callsDirty ==> persistentInvokables == []
    }

    /** A new event has no listeners and starts dirty. */
    constructor (eventArgumentTypes: seq<TypeInfo>)
      ensures Valid()
      ensures this.eventArgumentTypes == eventArgumentTypes
      ensures callsDirty
      ensures persistentCalls == [] && persistentInvokables == [] && runtimeCalls == []
    {
      this.eventArgumentTypes := eventArgumentTypes;
      persistentCalls := [];
      persistentInvokables := [];
      runtimeCalls := [];
      callsDirty := true;
    }

    /** After deserialization the persistent invokables are stale. */
    method OnAfterDeserialize()
      requires Valid()
      modifies this
      ensures Valid()
      ensures callsDirty && persistentInvokables == []
      ensures persistentCalls == old(persistentCalls) && runtimeCalls == old(runtimeCalls)
    {
      DirtyPersistentCalls();
    }

    /** The number of persistent listeners: exactly the indices below it name a listener. */
    function GetPersistentEventCount(): (r: nat)
      reads this
      ensures forall i :: 0 <= i < r ==> GetListener(persistentCalls, i).Some?
      ensures forall i :: GetListener(persistentCalls, i).Some? ==> 0 <= i < r
    {
      |persistentCalls|
    }

    /** The target of the listener at `index`, or null for an invalid index. */
    function GetPersistentTarget(index: int): (r: Option<Obj>)
      reads this
      ensures !(0 <= index < |persistentCalls|) ==> r.None?
      ensures 0 <= index < |persistentCalls| ==> r == persistentCalls[index].target
    {
      var listener := GetListener(persistentCalls, index);
      if listener.None? then None else listener.value.target
    }

    /** The method name of the listener at `index`, or the empty string for an invalid index. */
    function GetPersistentMethodName(index: int): (r: string)
      reads this
      ensures !(0 <= index < |persistentCalls|) ==> r == ""
      ensures 0 <= index < |persistentCalls| ==> r == persistentCalls[index].methodName
    {
      var listener := GetListener(persistentCalls, index);
      if listener.None? then "" else listener.value.methodName
    }

    /** Drops the persistent invokables and marks the cache dirty. */
    method DirtyPersistentCalls()
      modifies this
      ensures Valid()
      ensures callsDirty && persistentInvokables == []
      ensures persistentCalls == old(persistentCalls) && runtimeCalls == old(runtimeCalls)
    {
      persistentInvokables := [];
      callsDirty := true;
    }

    /** Rebuilds the persistent invokables when, and only when, the cache is dirty. */
    method RebuildPersistentCallsIfNeeded(resolve: PersistentCall -> Option<Invokable>)
      requires Valid()
      modifies this
      ensures Valid() && !callsDirty
      ensures persistentCalls == old(persistentCalls) && runtimeCalls == old(runtimeCalls)
      ensures old(callsDirty) ==> persistentInvokables == Resolved(persistentCalls, resolve)
      ensures !old(callsDirty) ==> persistentInvokables == old(persistentInvokables)
    {
      if callsDirty {
        persistentInvokables := persistentInvokables + Resolved(persistentCalls, resolve);
        callsDirty := false;
      }
    }

    /** Sets the call state of the listener at `index` if there is one, and marks the cache
      dirty in every case. */
    method SetPersistentListenerState(index: int, state: UnityEventCallState)
      requires Valid()
      modifies this
      ensures Valid()
      ensures callsDirty && persistentInvokables == []
      ensures runtimeCalls == old(runtimeCalls)
      ensures 0 <= index < |old(persistentCalls)| ==>
        persistentCalls == old(persistentCalls)[index := old(persistentCalls)[index].(callState := state)]
      ensures !(0 <= index < |old(persistentCalls)|) ==> persistentCalls == old(persistentCalls)
    {
      var listener := GetListener(persistentCalls, index);
      if listener.Some? {
        persistentCalls := UpdateAt(persistentCalls, index, listener.value.(callState := state));
      }
      DirtyPersistentCalls();
    }

    /** Adds a run-time listener for `method` on `targetObj` (`GetDelegate`). */
    method AddListener(targetObj: Option<Obj>, methodInfo: MethodInfo)
      requires Valid()
      modifies this
      ensures Valid()
      ensures runtimeCalls == old(runtimeCalls) + [Invokable(targetObj, methodInfo)]
      ensures persistentCalls == old(persistentCalls) && persistentInvokables == old(persistentInvokables)
      ensures callsDirty == old(callsDirty)
    {
      AddCall(Invokable(targetObj, methodInfo));
    }

    /** Adds a ready-made run-time call. */
    method AddCall(call: Invokable)
      requires Valid()
      modifies this
      ensures Valid()
      ensures runtimeCalls == old(runtimeCalls) + [call]
      ensures persistentCalls == old(persistentCalls) && persistentInvokables == old(persistentInvokables)
      ensures callsDirty == old(callsDirty)
    {
      runtimeCalls := runtimeCalls + [call];
    }

    /** Removes every run-time call of `method` on `targetObj`. */
    method RemoveListener(targetObj: Option<Obj>, methodInfo: MethodInfo)
      requires Valid()
      modifies this
      ensures Valid()
      ensures runtimeCalls == Without(old(runtimeCalls), Invokable(targetObj, methodInfo))
      ensures persistentCalls == old(persistentCalls) && persistentInvokables == old(persistentInvokables)
      ensures callsDirty == old(callsDirty)
    {
      var kept := [];
      for i := 0 to |runtimeCalls|
        invariant kept == Without(runtimeCalls[..i], Invokable(targetObj, methodInfo))
      {
        assert runtimeCalls[..i + 1][..i] == runtimeCalls[..i];
        if runtimeCalls[i] != Invokable(targetObj, methodInfo) {
          kept := kept + [runtimeCalls[i]];
        }
      }
      assert runtimeCalls[..|runtimeCalls|] == runtimeCalls;
      runtimeCalls := kept;
    }

    /** Removes every run-time listener; persistent listeners stay. */
    method RemoveAllListeners()
      requires Valid()
      modifies this
      ensures Valid()
      ensures runtimeCalls == []
      ensures persistentCalls == old(persistentCalls) && persistentInvokables == old(persistentInvokables)
      ensures callsDirty == old(callsDirty)
    {
      runtimeCalls := [];
    }

    /** Rebuilds the persistent invokables if the cache is dirty, then runs every call with the
      given arguments: the persistent ones first, then the run-time ones. */
    method Invoke(parameters: seq<Boxed>, resolve: PersistentCall -> Option<Invokable>) returns (dispatched: seq<Invocation>)
      requires Valid()
      modifies this
      ensures Valid() && !callsDirty
      ensures persistentCalls == old(persistentCalls) && runtimeCalls == old(runtimeCalls)
      ensures old(callsDirty) ==> persistentInvokables == Resolved(persistentCalls, resolve)
      ensures !old(callsDirty) ==> persistentInvokables == old(persistentInvokables)
      ensures dispatched == Dispatch(persistentInvokables + runtimeCalls, parameters)
    {
      RebuildPersistentCallsIfNeeded(resolve);
      dispatched := Dispatch(persistentInvokables + runtimeCalls, parameters);
    }

    /** The argument types a listener mode searches with: none for `Void`, the one fixed type of
      `Int`, `Float`, `String` and `Bool`, the given type (or `UnityEngine.Object`) for `Object`,
      the event's own types for `EventDefined`, and no search at all for any other value. */
    function ModeArgumentTypes(mode: PersistentListenerMode, argumentType: Option<TypeInfo>): Option<seq<TypeInfo>> {
      if mode == PersistentListenerMode.EventDefined then Some(eventArgumentTypes)
      else if mode == PersistentListenerMode.Void then Some([])
      else if mode == PersistentListenerMode.Object then Some([if argumentType.Some? then argumentType.value else ObjectType])
      else if mode == PersistentListenerMode.Int then Some([IntType])
      else if mode == PersistentListenerMode.Float then Some([FloatType])
      else if mode == PersistentListenerMode.String then Some([StringType])
      else if mode == PersistentListenerMode.Bool then Some([BoolType])
      else None
    }

    /** What `FindMethod(name, listener, mode, argumentType)` returns or throws. */
    function FindMethodResult(name: string, listener: Option<Obj>, mode: PersistentListenerMode, argumentType: Option<TypeInfo>)
      : Result<Option<MethodInfo>, EventError>
    {
      match ModeArgumentTypes(mode, argumentType)
      case None => Success(None)
      case Some(types) =>
        if listener.None? then Failure(NullReference) else Success(ValidMethodInfo(listener.value.typeChain, name, types))
    }

    /** Looks a listener method up with the argument types its mode stands for. */
    method FindMethod(name: string, listener: Option<Obj>, mode: PersistentListenerMode, argumentType: Option<TypeInfo>)
      returns (r: Result<Option<MethodInfo>, EventError>)
      ensures r == FindMethodResult(name, listener, mode, argumentType)
      ensures listener.Some? ==> r.Success?
      ensures mode == PersistentListenerMode.Void && listener.Some? ==>
        r == Success(ValidMethodInfo(listener.value.typeChain, name, []))
      ensures mode == PersistentListenerMode.Int && listener.Some? ==>
        r == Success(ValidMethodInfo(listener.value.typeChain, name, [IntType]))
      ensures mode == PersistentListenerMode.Float && listener.Some? ==>
        r == Success(ValidMethodInfo(listener.value.typeChain, name, [FloatType]))
      ensures mode == PersistentListenerMode.String && listener.Some? ==>
        r == Success(ValidMethodInfo(listener.value.typeChain, name, [StringType]))
      ensures mode == PersistentListenerMode.Bool && listener.Some? ==>
        r == Success(ValidMethodInfo(listener.value.typeChain, name, [BoolType]))
      ensures mode == PersistentListenerMode.Object && listener.Some? && argumentType.None? ==>
        r == Success(ValidMethodInfo(listener.value.typeChain, name, [ObjectType]))
      ensures mode == PersistentListenerMode.Object && listener.Some? && argumentType.Some? ==>
        r == Success(ValidMethodInfo(listener.value.typeChain, name, [argumentType.value]))
      ensures mode == PersistentListenerMode.EventDefined && listener.Some? ==>
        r == Success(ValidMethodInfo(listener.value.typeChain, name, eventArgumentTypes))
      ensures !(0 <= mode.code <= 6) ==> r == Success(None)
    {
      if mode == PersistentListenerMode.EventDefined {
        r := GetValidMethodInfo(listener, name, eventArgumentTypes);
      } else if mode == PersistentListenerMode.Void {
        r := GetValidMethodInfo(listener, name, []);
      } else if mode == PersistentListenerMode.Object {
        r := GetValidMethodInfo(listener, name, [if argumentType.Some? then argumentType.value else ObjectType]);
      } else if mode == PersistentListenerMode.Int {
        r := GetValidMethodInfo(listener, name, [IntType]);
      } else if mode == PersistentListenerMode.Float {
        r := GetValidMethodInfo(listener, name, [FloatType]);
      } else if mode == PersistentListenerMode.String {
        r := GetValidMethodInfo(listener, name, [StringType]);
      } else if mode == PersistentListenerMode.Bool {
        r := GetValidMethodInfo(listener, name, [BoolType]);
      } else {
        r := Success(None);
      }
    }

    /** The argument type a persistent call's `Object` mode searches with: the type its stored
      type name resolves to (`Type.GetType`, here `typeByName`), or `UnityEngine.Object` when
      the name is empty or does not resolve. */
    function StoredArgumentType(call: PersistentCall, typeByName: string -> Option<TypeInfo>): (t: TypeInfo)
      ensures call.arguments.objectArgumentTypeName == "" ==> t == ObjectType
    {
      if call.arguments.objectArgumentTypeName == "" then ObjectType
      else if typeByName(call.arguments.objectArgumentTypeName).Some? then typeByName(call.arguments.objectArgumentTypeName).value
      else ObjectType
    }

    /** Looks up the method a persistent call names, on its target, with its mode. */
    method FindMethodForCall(call: PersistentCall, typeByName: string -> Option<TypeInfo>)
      returns (r: Result<Option<MethodInfo>, EventError>)
      ensures r == FindMethodResult(call.methodName, call.target, call.mode, Some(StoredArgumentType(call, typeByName)))
    {
      r := FindMethod(call.methodName, call.target, call.mode, Some(StoredArgumentType(call, typeByName)));
    }

    /** What `ValidateRegistration` returns or throws. */
    function RegistrationCheck(methodInfo: Option<MethodInfo>, targetObj: Option<Obj>, mode: PersistentListenerMode,
                               argumentType: Option<TypeInfo>): Result<bool, EventError>
    {
      if methodInfo.None? then Failure(ArgumentNull("method"))
      else if !IsRegistrableTarget(targetObj) then Failure(NotAnEngineObject)
      else if methodInfo.value.isStatic then Failure(StaticMethod)
      else
        var found := FindMethodResult(methodInfo.value.name, targetObj, mode, argumentType);
        if found.Failure? then Failure(found.error) else Success(found.value.Some?)
    }

    /** The checks before a listener is registered, in order: a method is given, the target is
      a live `UnityEngine.Object`, the method is not static; then the answer is whether the
      method can be found for the mode. */
    method ValidateRegistrationWithArgumentType(methodInfo: Option<MethodInfo>, targetObj: Option<Obj>,
                                                mode: PersistentListenerMode, argumentType: Option<TypeInfo>)
      returns (r: Result<bool, EventError>)
      ensures r == RegistrationCheck(methodInfo, targetObj, mode, argumentType)
      ensures methodInfo.None? ==> r == Failure(ArgumentNull("method"))
      ensures methodInfo.Some? && !IsRegistrableTarget(targetObj) ==> r == Failure(NotAnEngineObject)
      ensures methodInfo.Some? && IsRegistrableTarget(targetObj) && methodInfo.value.isStatic ==> r == Failure(StaticMethod)
      ensures methodInfo.Some? && IsRegistrableTarget(targetObj) && !methodInfo.value.isStatic ==>
        r == Success(FindMethodResult(methodInfo.value.name, targetObj, mode, argumentType).value.Some?)
      ensures r == Success(true) ==> methodInfo.Some? && IsRegistrableTarget(targetObj) && !methodInfo.value.isStatic
    {
      if methodInfo.None? {
        return Failure(ArgumentNull("method"));
      }
      var engineObject := AsEngineObject(targetObj);
      if engineObject.None? || engineObject.value.instanceId == 0 {
        return Failure(NotAnEngineObject);
      }
      if methodInfo.value.isStatic {
        return Failure(StaticMethod);
      }
      var found := FindMethod(methodInfo.value.name, targetObj, mode, argumentType);
      match found {
        case Failure(e) => r := Failure(e);
        case Success(m) => r := Success(m.Some?);
      }
    }

    /** `ValidateRegistration` without an argument type searches `Object` mode with `UnityEngine.Object`. */
    method ValidateRegistration(methodInfo: Option<MethodInfo>, targetObj: Option<Obj>, mode: PersistentListenerMode)
      returns (r: Result<bool, EventError>)
      ensures r == RegistrationCheck(methodInfo, targetObj, mode, Some(ObjectType))
    {
      r := ValidateRegistrationWithArgumentType(methodInfo, targetObj, mode, Some(ObjectType));
    }

    /** Appends an empty listener slot; the cache is not touched. */
    method AddPersistentListener()
      requires Valid()
      modifies this
      ensures Valid()
      ensures persistentCalls == old(persistentCalls) + [EmptyPersistentCall]
      ensures persistentInvokables == old(persistentInvokables) && runtimeCalls == old(runtimeCalls)
      ensures callsDirty == old(callsDirty)
    {
      persistentCalls := persistentCalls + [EmptyPersistentCall];
    }

    /** Registers `method` on `targetObj` as the event-defined listener at `index` if the
      registration checks pass, and then marks the cache dirty; a method that cannot be found
      changes nothing, and a failed check throws. */
    method RegisterPersistentListener(index: int, targetObj: Option<Obj>, methodInfo: Option<MethodInfo>)
      returns (r: Result<(), EventError>)
      requires Valid()
      modifies this
      ensures Valid()
      ensures RegistrationCheck(methodInfo, targetObj, PersistentListenerMode.EventDefined, Some(ObjectType)).Failure? ==>
        r == Failure(RegistrationCheck(methodInfo, targetObj, PersistentListenerMode.EventDefined, Some(ObjectType)).error)
      ensures RegistrationCheck(methodInfo, targetObj, PersistentListenerMode.EventDefined, Some(ObjectType)) != Success(true) ==>
        unchanged(this)
      ensures RegistrationCheck(methodInfo, targetObj, PersistentListenerMode.EventDefined, Some(ObjectType)) == Success(true) ==>
        && r == Success(())
        && persistentCalls == RegisterEventAt(old(persistentCalls), index, AsEngineObject(targetObj), methodInfo.value.name)
        && callsDirty && persistentInvokables == [] && runtimeCalls == old(runtimeCalls)
      ensures RegistrationCheck(methodInfo, targetObj, PersistentListenerMode.EventDefined, Some(ObjectType)) == Success(false) ==>
        r == Success(())
    {
      var valid := ValidateRegistration(methodInfo, targetObj, PersistentListenerMode.EventDefined);
      if valid.Failure? {
        return Failure(valid.error);
      }
      if !valid.value {
        return Success(());
      }
      persistentCalls := RegisterEventAt(persistentCalls, index, AsEngineObject(targetObj), methodInfo.value.name);
      DirtyPersistentCalls();
      r := Success(());
    }

    /** The argument type a typed registration validates with: the object argument's own type
      in `Object` mode (`UnityEngine.Object` for a null argument), `UnityEngine.Object` otherwise. */
    function RegistrationArgumentType(argument: ListenerArgument): TypeInfo {
      if argument.ObjectArgument? && argument.o.Some? then argument.o.value.runtimeType else ObjectType
    }

    /** What a typed registration does with `call`: throws for a null call in `Object` mode,
      does nothing for a null call in the other modes, and otherwise what the checks say. */
    function TypedRegistrationCheck(call: Option<UnityAction>, argument: ListenerArgument): Result<bool, EventError> {
      if call.None? then (if argument.ObjectArgument? then Failure(ArgumentNull("call")) else Success(false))
      else RegistrationCheck(Some(call.value.methodInfo), call.value.target, ModeOf(argument), Some(RegistrationArgumentType(argument)))
    }

    /** The typed `Register...PersistentListener(index, call, argument)` family (`Void`, `Int`,
      `Float`, `String`, `Bool`, `Object`). */
    method RegisterArgumentPersistentListener(index: int, call: Option<UnityAction>, argument: ListenerArgument)
      returns (r: Result<(), EventError>)
      requires Valid()
      modifies this
      ensures Valid()
      ensures call.None? && argument.ObjectArgument? ==> r == Failure(ArgumentNull("call"))
      ensures TypedRegistrationCheck(call, argument).Failure? ==> r == Failure(TypedRegistrationCheck(call, argument).error)
      ensures TypedRegistrationCheck(call, argument).Success? ==> r == Success(())
      ensures TypedRegistrationCheck(call, argument) != Success(true) ==> unchanged(this)
      ensures TypedRegistrationCheck(call, argument) == Success(true) ==>
        && persistentCalls == RegisterArgumentAt(old(persistentCalls), index, AsEngineObject(call.value.target),
                                                 call.value.methodInfo.name, argument)
        && callsDirty && persistentInvokables == [] && runtimeCalls == old(runtimeCalls)
    {
      if call.None? {
        if argument.ObjectArgument? {
          return Failure(ArgumentNull("call"));
        }
        // only a warning is logged
        return Success(());
      }
      var valid := ValidateRegistrationWithArgumentType(Some(call.value.methodInfo), call.value.target, ModeOf(argument),
                                                        Some(RegistrationArgumentType(argument)));
      if valid.Failure? {
        return Failure(valid.error);
      }
      if !valid.value {
        return Success(());
      }
      persistentCalls := RegisterArgumentAt(persistentCalls, index, AsEngineObject(call.value.target),
                                            call.value.methodInfo.name, argument);
      DirtyPersistentCalls();
      r := Success(());
    }

    /** The typed `Add...PersistentListener(call, argument)` family: appends a slot and
      registers into it, at the index equal to the listener count before the call. */
    method AddArgumentPersistentListener(call: Option<UnityAction>, argument: ListenerArgument)
      returns (r: Result<(), EventError>)
      requires Valid()
      modifies this
      ensures Valid()
      ensures |persistentCalls| == |old(persistentCalls)| + 1
      ensures persistentCalls[..|old(persistentCalls)|] == old(persistentCalls)
      ensures TypedRegistrationCheck(call, argument).Failure? ==> r == Failure(TypedRegistrationCheck(call, argument).error)
      ensures TypedRegistrationCheck(call, argument).Success? ==> r == Success(())
      ensures TypedRegistrationCheck(call, argument) != Success(true) ==>
        && persistentCalls == old(persistentCalls) + [EmptyPersistentCall]
        && callsDirty == old(callsDirty) && persistentInvokables == old(persistentInvokables)
      ensures TypedRegistrationCheck(call, argument) == Success(true) ==>
        && persistentCalls == old(persistentCalls) + [EmptyPersistentCall.(
             target := AsEngineObject(call.value.target), methodName := call.value.methodInfo.name, mode := ModeOf(argument),
             arguments := WithArgument(EmptyArguments, argument))]
        && callsDirty && persistentInvokables == []
      ensures runtimeCalls == old(runtimeCalls)
    {
      var persistentEventCount := GetPersistentEventCount();
      AddPersistentListener();
      r := RegisterArgumentPersistentListener(persistentEventCount, call, argument);
      assert persistentEventCount == |old(persistentCalls)|;
    }

    /** Removes every persistent listener of `method` on `target`, unless the method is null or
      static or the target is null or has instance id 0, in which case nothing changes. */
    method RemovePersistentListenerOf(target: Option<Obj>, methodInfo: Option<MethodInfo>)
      requires Valid()
      modifies this
      ensures Valid()
      ensures methodInfo.None? || methodInfo.value.isStatic || target.None? || target.value.instanceId == 0 ==> unchanged(this)
      ensures !(methodInfo.None? || methodInfo.value.isStatic || target.None? || target.value.instanceId == 0) ==>
        && persistentCalls == RemoveMatching(old(persistentCalls), target, methodInfo.value.name)
        && callsDirty && persistentInvokables == [] && runtimeCalls == old(runtimeCalls)
    {
      if methodInfo.None? || methodInfo.value.isStatic || target.None? || target.value.instanceId == 0 {
        return;
      }
      persistentCalls := RemoveMatching(persistentCalls, target, methodInfo.value.name);
      DirtyPersistentCalls();
    }

    /** Removes the persistent listener at `index` and marks the cache dirty. */
    method RemovePersistentListener(index: int)
      requires Valid()
      modifies this
      ensures Valid()
      ensures persistentCalls == RemoveAt(old(persistentCalls), index)
      ensures callsDirty && persistentInvokables == [] && runtimeCalls == old(runtimeCalls)
    {
      persistentCalls := RemoveAt(persistentCalls, index);
      DirtyPersistentCalls();
    }

    /** Clears the target and method of the persistent listener at `index` and marks the cache
      dirty. */
    method UnregisterPersistentListener(index: int)
      requires Valid()
      modifies this
      ensures Valid()
      ensures persistentCalls == UnregisterAt(old(persistentCalls), index)
      ensures callsDirty && persistentInvokables == [] && runtimeCalls == old(runtimeCalls)
    {
      persistentCalls := UnregisterAt(persistentCalls, index);
      DirtyPersistentCalls();
    }
  }

  /** Two invocations with no mutation between them: the second reuses what the first built,
      whatever the resolver would now say. */
  method InvokeTwice(e: UnityEventBase, parameters: seq<Boxed>,
                     resolve: PersistentCall -> Option<Invokable>, laterResolve: PersistentCall -> Option<Invokable>)
    returns (first: seq<Invocation>, second: seq<Invocation>)
    requires e.Valid()
    modifies e
    ensures e.Valid() && !e.callsDirty
    ensures first == second
    ensures old(e.callsDirty) ==> e.persistentInvokables == Resolved(e.persistentCalls, resolve)
  {
    first := e.Invoke(parameters, resolve);
    second := e.Invoke(parameters, laterResolve);
  }
}

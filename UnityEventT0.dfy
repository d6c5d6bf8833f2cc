/** `UnityEngine.Events.UnityEvent<T0>`: the one-argument event. It extends the base event by
    composition: `base` is the `UnityEventBase` part of the object, created with the argument
    list `[T0]` that its `FindMethod_Impl` searches with, and `invokeArray` is the reused
    one-slot argument array. */
module EventOfT0 {
  import opened Wrappers
  import opened EventBase

  class UnityEvent {
    /** The event's argument type `T0`. */
    const t0: TypeInfo
    const base: UnityEventBase
    /** `m_InvokeArray`. */
    const invokeArray: array<Boxed>

    ghost predicate Valid()
      reads this, base
    {
      base.Valid() && base.eventArgumentTypes == [t0] && invokeArray.Length == 1
    }

    constructor (t0: TypeInfo)
      ensures Valid()
      ensures this.t0 == t0
      ensures fresh(base) && fresh(invokeArray)
      ensures base.callsDirty && base.persistentCalls == [] && base.runtimeCalls == []
    {
      this.t0 := t0;
      base := new UnityEventBase([t0]);
      invokeArray := new Boxed[1](_ => NullValue);
    }

    /** `FindMethod_Impl`: the base-type walk with exactly the argument list `[T0]`; this is
      what the base event's `EventDefined` mode searches with. */
    method FindMethodImpl(name: string, targetObj: Option<Obj>) returns (r: Result<Option<MethodInfo>, EventError>)
      ensures targetObj.None? ==> r == Failure(NullReference)
      ensures targetObj.Some? ==> r == Success(ValidMethodInfo(targetObj.value.typeChain, name, [t0]))
      ensures base.eventArgumentTypes == [t0] ==>
        r == base.FindMethodResult(name, targetObj, PersistentListenerMode.EventDefined, None)
    {
      r := GetValidMethodInfo(targetObj, name, [t0]);
    }

    /** Adds a run-time listener. */
    method AddListener(call: UnityAction)
      requires Valid()
      modifies base
      ensures Valid()
      ensures base.runtimeCalls == old(base.runtimeCalls) + [Invokable(call.target, call.methodInfo)]
      ensures base.persistentCalls == old(base.persistentCalls)
      ensures base.persistentInvokables == old(base.persistentInvokables) && base.callsDirty == old(base.callsDirty)
    {
      base.AddCall(Invokable(call.target, call.methodInfo));
    }

    /** Removes every run-time listener with the call's target and method. */
    method RemoveListener(call: UnityAction)
      requires Valid()
      modifies base
      ensures Valid()
      ensures base.runtimeCalls == Without(old(base.runtimeCalls), Invokable(call.target, call.methodInfo))
      ensures base.persistentCalls == old(base.persistentCalls)
      ensures base.persistentInvokables == old(base.persistentInvokables) && base.callsDirty == old(base.callsDirty)
    {
      base.RemoveListener(call.target, call.methodInfo);
    }

    /** Stores the argument in slot 0 of the reused array, then runs the base invocation with
      that array. */
    method Invoke(arg0: Boxed, resolve: PersistentCall -> Option<Invokable>) returns (dispatched: seq<Invocation>)
      requires Valid()
      modifies base, invokeArray
      ensures Valid() && !base.callsDirty
      ensures invokeArray[..] == [arg0]
      ensures base.persistentCalls == old(base.persistentCalls) && base.runtimeCalls == old(base.runtimeCalls)
      ensures old(base.callsDirty) ==> base.persistentInvokables == Resolved(base.persistentCalls, resolve)
      ensures !old(base.callsDirty) ==> base.persistentInvokables == old(base.persistentInvokables)
      ensures dispatched == Dispatch(base.persistentInvokables + base.runtimeCalls, [arg0])
    {
      invokeArray[0] := arg0;
      assert invokeArray[..] == [arg0];
      dispatched := base.Invoke(invokeArray[..], resolve);
    }

    /** What registering `call` as an event-defined listener does: nothing for a null call,
      otherwise the base event's registration checks on `call.Target as Object`. */
    function ListenerCheck(call: Option<UnityAction>): Result<bool, EventError> {
      if call.None? then Success(false)
      else base.RegistrationCheck(Some(call.value.methodInfo), AsEngineObject(call.value.target),
                                  PersistentListenerMode.EventDefined, Some(ObjectType))
    }

    /** Registers `call` as the event-defined listener at `index`; a null call only warns. */
    method RegisterPersistentListener(index: int, call: Option<UnityAction>) returns (r: Result<(), EventError>)
      requires Valid()
      modifies base
      ensures Valid()
      ensures call.None? ==> r == Success(()) && unchanged(base)
      ensures ListenerCheck(call).Failure? ==> r == Failure(ListenerCheck(call).error)
      ensures ListenerCheck(call).Success? ==> r == Success(())
      ensures ListenerCheck(call) != Success(true) ==> unchanged(base)
      ensures ListenerCheck(call) == Success(true) ==>
        && base.persistentCalls == RegisterEventAt(old(base.persistentCalls), index, AsEngineObject(call.value.target),
                                                   call.value.methodInfo.name)
        && base.callsDirty && base.persistentInvokables == [] && base.runtimeCalls == old(base.runtimeCalls)
    {
      if call.None? {
        // only a warning is logged
        return Success(());
      }
      r := base.RegisterPersistentListener(index, AsEngineObject(call.value.target), Some(call.value.methodInfo));
    }

    /** Appends a listener slot, registers `call` into it at the count before the append, and
      sets that same slot's call state; a registration that throws leaves the state unset. */
    method AddPersistentListenerWithState(call: Option<UnityAction>, callState: UnityEventCallState)
      returns (r: Result<(), EventError>)
      requires Valid()
      modifies base
      ensures Valid()
      ensures base.runtimeCalls == old(base.runtimeCalls)
      ensures ListenerCheck(call).Failure? ==>
        && r == Failure(ListenerCheck(call).error)
        && base.persistentCalls == old(base.persistentCalls) + [EmptyPersistentCall]
        && base.callsDirty == old(base.callsDirty) && base.persistentInvokables == old(base.persistentInvokables)
      ensures ListenerCheck(call) == Success(false) ==>
        && r == Success(())
        && base.persistentCalls == old(base.persistentCalls) + [EmptyPersistentCall.(callState := callState)]
        && base.callsDirty && base.persistentInvokables == []
      ensures ListenerCheck(call) == Success(true) ==>
        && r == Success(())
        && base.persistentCalls == old(base.persistentCalls) + [EmptyPersistentCall.(
             target := AsEngineObject(call.value.target), methodName := call.value.methodInfo.name, callState := callState)]
        && base.callsDirty && base.persistentInvokables == []
    {
      var persistentEventCount := base.GetPersistentEventCount();
      base.AddPersistentListener();
      r := RegisterPersistentListener(persistentEventCount, call);
      if r.Failure? {
        return;
      }
      base.SetPersistentListenerState(persistentEventCount, callState);
    }

    /** A persistent listener added without a state runs at run time only. */
    method AddPersistentListener(call: Option<UnityAction>) returns (r: Result<(), EventError>)
      requires Valid()
      modifies base
      ensures Valid()
      ensures base.runtimeCalls == old(base.runtimeCalls)
      ensures ListenerCheck(call).Failure? ==>
        && r == Failure(ListenerCheck(call).error)
        && base.persistentCalls == old(base.persistentCalls) + [EmptyPersistentCall]
      ensures ListenerCheck(call) == Success(false) ==>
        && r == Success(())
        && base.persistentCalls == old(base.persistentCalls) + [EmptyPersistentCall]
        && base.callsDirty && base.persistentInvokables == []
      ensures ListenerCheck(call) == Success(true) ==>
        && r == Success(())
        && base.persistentCalls == old(base.persistentCalls) + [EmptyPersistentCall.(
             target := AsEngineObject(call.value.target), methodName := call.value.methodInfo.name)]
        && base.callsDirty && base.persistentInvokables == []
    {
      r := AddPersistentListenerWithState(call, UnityEventCallState.RuntimeOnly);
    }
  }
}

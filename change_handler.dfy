/**
 * The static part of `ControllerChangeHandler`: the process-wide table of
 * in-flight push handlers, the `executeChange` protocol with its completion
 * callback, aborting and fast-forwarding a push, and the pure value mappings
 * (direction tags, the handler bundle, `removesFromViewOnPush`).
 */
module ChangeHandler {
  import opened Wrappers
  import opened Platform

  /** The class a handler gets when `executeChange` is given none. */
  const SimpleSwapClassName: string := "com.bluelinelabs.conductor.changehandler.SimpleSwapChangeHandler"

  /** A change handler instance: an identity and the name of its class. */
  datatype Handler = Handler(id: nat, className: string)

  /** A controller, known here only by its instance id. */
  datatype Controller = Controller(instanceId: string)

  /** A `ControllerChangeListener`, known only by its identity. */
  datatype Listener = Listener(id: nat)

  /** `ControllerChangeType`. */
  datatype ChangeType = PushEnter | PushExit | PopEnter | PopExit
  {
    predicate IsPush() { this == PushEnter || this == PushExit }
    predicate IsEnter() { this == PushEnter || this == PopEnter }
  }

  /** The tag given to the controller that comes in. */
  function EnterType(isPush: bool): (t: ChangeType)
    ensures t.IsEnter() && t.IsPush() == isPush
  {
    if isPush then PushEnter else PopEnter
  }

  /** The tag given to the controller that goes out. */
  function ExitType(isPush: bool): (t: ChangeType)
    ensures !t.IsEnter() && t.IsPush() == isPush
  {
    if isPush then PushExit else PopExit
  }

  /** The four tags are told apart by direction and by side. */
  lemma ChangeTypesDistinct(isPush: bool, isPush': bool)
    ensures EnterType(isPush) != ExitType(isPush')
    ensures EnterType(isPush) == EnterType(isPush') <==> isPush == isPush'
    ensures ExitType(isPush) == ExitType(isPush') <==> isPush == isPush'
  {
  }

  /**
   * Everything the completion callback of one `executeChange` captured:
   * `handler` is the handler in use, `inHandler` the one the caller passed.
   */
  datatype Change = Change(
    to: Option<Controller>,
    from: Option<Controller>,
    isPush: bool,
    container: Container,
    handler: Handler,
    inHandler: Option<Handler>,
    listeners: seq<Listener>)

  /** One step of the protocol, in the order it happens. */
  datatype ChangeEvent =
    | Recorded(instanceId: string, handler: Handler)
    | Removed(instanceId: string)
    | AbortPush(pushHandler: Handler, newHandler: Handler, newTop: Option<Controller>)
    | CompleteImmediately(handler: Handler)
    | ChangeStarted(listener: Listener, to: Option<Controller>, from: Option<Controller>,
                    isPush: bool, container: Container, listenerHandler: Option<Handler>)
    | Inflate(controller: Controller, container: Container)
    | ControllerChangeStarted(controller: Controller, handler: Handler, changeType: ChangeType)
    | PerformChange(handler: Handler, container: Container, from: Option<Controller>,
                    to: Option<Controller>, isPush: bool, completion: nat)
    | ControllerChangeEnded(controller: Controller, handler: Handler, changeType: ChangeType)
    | ChangeCompleted(listener: Listener, to: Option<Controller>, from: Option<Controller>,
                      isPush: bool, container: Container, listenerHandler: Option<Handler>)

  /** `onChangeStarted` on the first `n` listeners. */
  function StartNotices(c: Change, n: nat): seq<ChangeEvent>
    requires n <= |c.listeners|
  {
    seq(n, i requires 0 <= i < n && n <= |c.listeners| =>
      ChangeStarted(c.listeners[i], c.to, c.from, c.isPush, c.container, c.inHandler))
  }

  /** `onChangeCompleted` on the first `n` listeners. */
  function CompletionNotices(c: Change, n: nat): seq<ChangeEvent>
    requires n <= |c.listeners|
  {
    seq(n, i requires 0 <= i < n && n <= |c.listeners| =>
      ChangeCompleted(c.listeners[i], c.to, c.from, c.isPush, c.container, c.inHandler))
  }

  /** What `executeChange` does with the controllers before it hands over to `performChange`. */
  function ControllerStarts(c: Change): seq<ChangeEvent> {
    (if c.to.Some? then [Inflate(c.to.value, c.container), ControllerChangeStarted(c.to.value, c.handler, EnterType(c.isPush))] else [])
    + (if c.from.Some? then [ControllerChangeStarted(c.from.value, c.handler, ExitType(c.isPush))] else [])
  }

  /** The notifications made before `performChange`. */
  function StartEvents(c: Change): seq<ChangeEvent> {
    StartNotices(c, |c.listeners|) + ControllerStarts(c)
  }

  /** The controller steps of the completion callback. */
  function ControllerEnds(c: Change): seq<ChangeEvent> {
    (if c.from.Some? then [ControllerChangeEnded(c.from.value, c.handler, ExitType(c.isPush))] else [])
    + (if c.to.Some? then [Removed(c.to.value.instanceId), ControllerChangeEnded(c.to.value, c.handler, EnterType(c.isPush))] else [])
  }

  /** Everything the completion callback does. */
  function EndEvents(c: Change): seq<ChangeEvent> {
    ControllerEnds(c) + CompletionNotices(c, |c.listeners|)
  }

  /** The place of a start event in the protocol. */
  function StartPhase(e: ChangeEvent): nat {
    match e
    case ChangeStarted(_, _, _, _, _, _) => 0
    case Inflate(_, _) => 1
    case ControllerChangeStarted(_, _, t) => if t.IsEnter() then 2 else 3
    case _ => 4
  }

  /** The place of a completion event in the protocol. */
  function EndPhase(e: ChangeEvent): nat {
    match e
    case ControllerChangeEnded(_, _, t) => if t.IsEnter() then 2 else 0
    case Removed(_) => 1
    case ChangeCompleted(_, _, _, _, _, _) => 3
    case _ => 4
  }

  /**
   * Before `performChange`: every listener hears `onChangeStarted` first,
   * then the incoming controller is inflated and told, then the outgoing one.
   */
  lemma StartEventsInOrder(c: Change)
    ensures forall i, j | 0 <= i < j < |StartEvents(c)| ::
      StartPhase(StartEvents(c)[i]) <= StartPhase(StartEvents(c)[j]) < 4
  {
    var starts := ControllerStarts(c);
    var notices := StartNotices(c, |c.listeners|);
    assert forall i | 0 <= i < |notices| :: StartPhase(notices[i]) == 0;
    assert forall i, j | 0 <= i < j < |starts| :: 0 < StartPhase(starts[i]) <= StartPhase(starts[j]) < 4 by {
      if c.to.Some? {
        assert StartPhase(starts[0]) == 1 && StartPhase(starts[1]) == 2;
      }
      if c.from.Some? {
        assert StartPhase(starts[|starts| - 1]) == 3;
      }
    }
    assert forall i | 0 <= i < |notices| :: StartPhase(StartEvents(c)[i]) == 0;
    assert forall i | |notices| <= i < |StartEvents(c)| :: StartPhase(StartEvents(c)[i]) == StartPhase(starts[i - |notices|]);
  }

  /**
   * On completion: the outgoing controller hears `changeEnded` first, then
   * the incoming one's table entry is removed and it hears `changeEnded`,
   * then every listener hears `onChangeCompleted`.
   */
  lemma EndEventsInOrder(c: Change)
    ensures forall i, j | 0 <= i < j < |EndEvents(c)| ::
      EndPhase(EndEvents(c)[i]) <= EndPhase(EndEvents(c)[j]) < 4
  {
    var ends := ControllerEnds(c);
    var notices := CompletionNotices(c, |c.listeners|);
    assert forall i | 0 <= i < |notices| :: EndPhase(notices[i]) == 3;
    assert forall i, j | 0 <= i < j < |ends| :: EndPhase(ends[i]) <= EndPhase(ends[j]) < 3 by {
      if c.from.Some? {
        assert EndPhase(ends[0]) == 0;
      }
    }
    assert forall i | 0 <= i < |ends| :: EndPhase(EndEvents(c)[i]) == EndPhase(ends[i]) < 3;
    assert forall i | |ends| <= i < |EndEvents(c)| :: EndPhase(EndEvents(c)[i]) == 3;
  }

  /** Listeners are told about `inHandler`, which may be absent, not about the handler in use. */
  lemma ListenersSeeInHandler(c: Change)
    ensures forall e | e in StartEvents(c) && e.ChangeStarted? :: e.listenerHandler == c.inHandler
    ensures forall e | e in EndEvents(c) && e.ChangeCompleted? :: e.listenerHandler == c.inHandler
    ensures |StartEvents(c)| >= |c.listeners| && |EndEvents(c)| >= |c.listeners|
  {
    assert forall e | e in ControllerStarts(c) :: !e.ChangeStarted?;
    assert forall e | e in ControllerEnds(c) :: !e.ChangeCompleted?;
  }

  /**
   * Each controller is tagged by the direction of the change, the incoming
   * one with an enter tag and the outgoing one with an exit tag, and it
   * hears `changeEnded` with exactly the handler and tag it heard
   * `changeStarted` with.
   */
  lemma TagsMatchAtStartAndEnd(c: Change, x: Controller, h: Handler, t: ChangeType)
    ensures ControllerChangeStarted(x, h, t) in StartEvents(c) <==> ControllerChangeEnded(x, h, t) in EndEvents(c)
    ensures ControllerChangeStarted(x, h, t) in StartEvents(c) ==>
      && h == c.handler && t.IsPush() == c.isPush
      && (t.IsEnter() ==> c.to == Some(x))
      && (!t.IsEnter() ==> c.from == Some(x))
  {
    var started := ControllerChangeStarted(x, h, t);
    var ended := ControllerChangeEnded(x, h, t);
    assert started !in StartNotices(c, |c.listeners|);
    assert ended !in CompletionNotices(c, |c.listeners|);
    assert started in StartEvents(c) <==> started in ControllerStarts(c);
    assert ended in EndEvents(c) <==> ended in ControllerEnds(c);
  }

  /**
   * The push table after the bookkeeping `executeChange` does before
   * notifying anyone: a push records the incoming controller, a pop aborts
   * the outgoing one's push.
   */
  function TableAtStart(table: map<string, Handler>, to: Option<Controller>, from: Option<Controller>,
                        isPush: bool, handler: Handler): (r: map<string, Handler>)
    ensures isPush && to.Some? ==>
      to.value.instanceId in r && r[to.value.instanceId] == handler
    ensures !isPush && from.Some? ==> from.value.instanceId !in r
    ensures forall id | !(isPush && to.Some? && id == to.value.instanceId) && !(!isPush && from.Some? && id == from.value.instanceId) ::
      (id in r <==> id in table) && (id in r ==> r[id] == table[id])
  {
    if isPush && to.Some? then table[to.value.instanceId := handler]
    else if !isPush && from.Some? then table - {from.value.instanceId}
    else table
  }

  /** What `abortPush` does to the log. */
  function AbortEvents(table: map<string, Handler>, toAbort: Controller, newController: Option<Controller>,
                       newHandler: Handler): seq<ChangeEvent>
  {
    if toAbort.instanceId in table
    then [ChangeEvent.AbortPush(table[toAbort.instanceId], newHandler, newController), Removed(toAbort.instanceId)]
    else []
  }

  /** The bookkeeping steps `executeChange` takes before notifying anyone. */
  function BookkeepingEvents(table: map<string, Handler>, to: Option<Controller>, from: Option<Controller>,
                             isPush: bool, handler: Handler): seq<ChangeEvent>
  {
    if isPush && to.Some? then [Recorded(to.value.instanceId, handler)]
    else if !isPush && from.Some? then AbortEvents(table, from.value, to, handler)
    else []
  }

  /**
   * The static state: `inProgressPushHandlers`, the completions handed to
   * `performChange` and not forgotten (`changes[k]` is the k-th), and the
   * log of every step taken.
   */
  class Orchestrator {
    var inProgressPushHandlers: map<string, Handler>
    /** The identity the next `SimpleSwapChangeHandler` created here gets. */
    var nextHandlerId: nat
    var changes: seq<Change>
    ghost var log: seq<ChangeEvent>

    constructor (firstHandlerId: nat)
      ensures inProgressPushHandlers == map[] && changes == [] && log == []
      ensures nextHandlerId == firstHandlerId
    {
      inProgressPushHandlers := map[];
      nextHandlerId := firstHandlerId;
      changes := [];
      log := [];
    }

    /** `new SimpleSwapChangeHandler()`: a handler of that class with a new identity. */
    method NewSimpleSwapChangeHandler() returns (h: Handler)
      modifies this`nextHandlerId
      ensures h == Handler(old(nextHandlerId), SimpleSwapClassName)
      ensures nextHandlerId == old(nextHandlerId) + 1
    {
      h := Handler(nextHandlerId, SimpleSwapClassName);
      nextHandlerId := nextHandlerId + 1;
    }

    /** Fast-forwards the in-flight push of `controllerInstanceId`, if any; the entry stays. */
    method CompletePushImmediately(controllerInstanceId: string)
      modifies this`log
      ensures log == old(log) +
        (if controllerInstanceId in inProgressPushHandlers
         then [CompleteImmediately(inProgressPushHandlers[controllerInstanceId])] else [])
    {
      if controllerInstanceId in inProgressPushHandlers {
        var changeHandler := inProgressPushHandlers[controllerInstanceId];
        log := log + [CompleteImmediately(changeHandler)];
      }
    }

    /**
     * Tells the handler of `toAbort`'s in-flight push, if any, that it was
     * aborted, then forgets it; without an entry nothing happens.
     */
    method AbortPush(toAbort: Controller, newController: Option<Controller>, newChangeHandler: Handler)
      modifies this`inProgressPushHandlers, this`log
      ensures inProgressPushHandlers == old(inProgressPushHandlers) - {toAbort.instanceId}
      ensures log == old(log) + AbortEvents(old(inProgressPushHandlers), toAbort, newController, newChangeHandler)
    {
      if toAbort.instanceId in inProgressPushHandlers {
        var handlerForPush := inProgressPushHandlers[toAbort.instanceId];
        log := log + [ChangeEvent.AbortPush(handlerForPush, newChangeHandler, newController)];
        inProgressPushHandlers := inProgressPushHandlers - {toAbort.instanceId};
        log := log + [Removed(toAbort.instanceId)];
      }
    }

    /** The bookkeeping `executeChange` does first: record a push, or abort the popped controller's push. */
    method RecordOrAbort(to: Option<Controller>, from: Option<Controller>, isPush: bool, handler: Handler)
      modifies this`inProgressPushHandlers, this`log
      ensures inProgressPushHandlers == TableAtStart(old(inProgressPushHandlers), to, from, isPush, handler)
      ensures log == old(log) + BookkeepingEvents(old(inProgressPushHandlers), to, from, isPush, handler)
    {
      if isPush && to.Some? {
        inProgressPushHandlers := inProgressPushHandlers[to.value.instanceId := handler];
        log := log + [Recorded(to.value.instanceId, handler)];
      } else if !isPush && from.Some? {
        AbortPush(from.value, to, handler);
      }
    }

    /** Tells every listener, then the incoming controller, then the outgoing one, that change `c` starts. */
    method NotifyStarted(c: Change)
      modifies this`log
      ensures log == old(log) + StartEvents(c)
    {
      for i := 0 to |c.listeners|
        invariant log == old(log) + StartNotices(c, i)
      {
        log := log + [ChangeStarted(c.listeners[i], c.to, c.from, c.isPush, c.container, c.inHandler)];
        assert StartNotices(c, i + 1) == StartNotices(c, i) + [ChangeStarted(c.listeners[i], c.to, c.from, c.isPush, c.container, c.inHandler)];
      }
      ghost var notified := log;
      var toChangeType := EnterType(c.isPush);
      var fromChangeType := ExitType(c.isPush);
      if c.to.Some? {
        log := log + [Inflate(c.to.value, c.container)];
        log := log + [ControllerChangeStarted(c.to.value, c.handler, toChangeType)];
      }
      if c.from.Some? {
        log := log + [ControllerChangeStarted(c.from.value, c.handler, fromChangeType)];
      }
      assert log == notified + ControllerStarts(c);
    }

    /**
     * `executeChange`. Without a container nothing happens. Otherwise the
     * handler is `inHandler` or a new `SimpleSwapChangeHandler`; a push
     * records it for the incoming controller and a pop aborts the outgoing
     * controller's push; the listeners and controllers are told the change
     * started; and `performChange` gets completion number `|changes|`,
     * which `Complete` runs.
     */
    method ExecuteChange(to: Option<Controller>, from: Option<Controller>, isPush: bool,
                         container: Option<Container>, inHandler: Option<Handler>, listeners: seq<Listener>)
      modifies this`inProgressPushHandlers, this`nextHandlerId, this`changes, this`log
      ensures container.None? ==>
        && inProgressPushHandlers == old(inProgressPushHandlers) && nextHandlerId == old(nextHandlerId)
        && changes == old(changes) && log == old(log)
      ensures container.Some? ==>
        var handler := if inHandler.Some? then inHandler.value else Handler(old(nextHandlerId), SimpleSwapClassName);
        var c := Change(to, from, isPush, container.value, handler, inHandler, listeners);
        && nextHandlerId == old(nextHandlerId) + (if inHandler.Some? then 0 else 1)
        && inProgressPushHandlers == TableAtStart(old(inProgressPushHandlers), to, from, isPush, handler)
        && changes == old(changes) + [c]
        && log == old(log) + BookkeepingEvents(old(inProgressPushHandlers), to, from, isPush, handler)
                  + StartEvents(c) + [PerformChange(handler, container.value, from, to, isPush, |old(changes)|)]
    {
      if container.Some? {
        var handler;
        if inHandler.Some? {
          handler := inHandler.value;
        } else {
          handler := NewSimpleSwapChangeHandler();
        }
        var c := Change(to, from, isPush, container.value, handler, inHandler, listeners);
        RecordOrAbort(to, from, isPush, handler);
        NotifyStarted(c);
        log := log + [PerformChange(handler, container.value, from, to, isPush, |changes|)];
        changes := changes + [c];
      }
    }

    /** The `executeChange` overload without listeners. */
    method ExecuteChangeWithoutListeners(to: Option<Controller>, from: Option<Controller>, isPush: bool,
                                         container: Option<Container>, inHandler: Option<Handler>)
      modifies this`inProgressPushHandlers, this`nextHandlerId, this`changes, this`log
      ensures container.None? ==>
        && inProgressPushHandlers == old(inProgressPushHandlers) && nextHandlerId == old(nextHandlerId)
        && changes == old(changes) && log == old(log)
      ensures container.Some? ==>
        var handler := if inHandler.Some? then inHandler.value else Handler(old(nextHandlerId), SimpleSwapClassName);
        var c := Change(to, from, isPush, container.value, handler, inHandler, []);
        && nextHandlerId == old(nextHandlerId) + (if inHandler.Some? then 0 else 1)
        && inProgressPushHandlers == TableAtStart(old(inProgressPushHandlers), to, from, isPush, handler)
        && changes == old(changes) + [c]
        && log == old(log) + BookkeepingEvents(old(inProgressPushHandlers), to, from, isPush, handler)
                  + ControllerStarts(c) + [PerformChange(handler, container.value, from, to, isPush, |old(changes)|)]
    {
      ExecuteChange(to, from, isPush, container, inHandler, []);
    }

    /**
     * The completion callback of change `k`: the outgoing controller's
     * change ends, the incoming controller's entry is removed (for pushes
     * and pops alike) and its change ends, then every listener is told.
     */
    method Complete(k: nat)
      requires k < |changes|
      modifies this`inProgressPushHandlers, this`log
      ensures inProgressPushHandlers ==
        (if changes[k].to.Some? then old(inProgressPushHandlers) - {changes[k].to.value.instanceId}
         else old(inProgressPushHandlers))
      ensures changes[k].to.Some? ==> changes[k].to.value.instanceId !in inProgressPushHandlers
      ensures forall id | !(changes[k].to.Some? && id == changes[k].to.value.instanceId) ::
        && (id in inProgressPushHandlers <==> id in old(inProgressPushHandlers))
        && (id in inProgressPushHandlers ==> inProgressPushHandlers[id] == old(inProgressPushHandlers)[id])
      ensures log == old(log) + EndEvents(changes[k])
    {
      var c := changes[k];
      if c.from.Some? {
        log := log + [ControllerChangeEnded(c.from.value, c.handler, ExitType(c.isPush))];
      }
      if c.to.Some? {
        inProgressPushHandlers := inProgressPushHandlers - {c.to.value.instanceId};
        log := log + [Removed(c.to.value.instanceId)];
        log := log + [ControllerChangeEnded(c.to.value, c.handler, EnterType(c.isPush))];
      }
      ghost var ended := log;
      for i := 0 to |c.listeners|
        invariant log == ended + CompletionNotices(c, i)
      {
        log := log + [ChangeCompleted(c.listeners[i], c.to, c.from, c.isPush, c.container, c.inHandler)];
        assert CompletionNotices(c, i + 1) == CompletionNotices(c, i) + [ChangeCompleted(c.listeners[i], c.to, c.from, c.isPush, c.container, c.inHandler)];
      }
    }
  }

  // ---------------------------------------------------------------------
  // Handler bundles

  /**
   * The bundle `toBundle` writes: the handler's class name under
   * `KEY_CLASS_NAME` and its own state under `KEY_SAVED_STATE`; `None` is a
   * key that is absent.
   */
  datatype HandlerBundle = HandlerBundle(className: Option<string>, savedState: Option<Blob>)

  /** A handler `fromBundle` instantiates: its class and what `restoreFromBundle` receives. */
  datatype Instance = Instance(className: string, restoredFrom: Option<Blob>)

  /** `fromBundle` could not instantiate the named class (absent, unknown, or without a default constructor). */
  datatype BundleError = CannotInstantiate(className: Option<string>)

  /**
   * `toBundle`, where `written` is what the handler's `saveToBundle` writes:
   * both keys are always present, so a bundle it produces never takes the
   * missing-class-name path of `fromBundle`.
   */
  function ToBundle(h: Handler, written: Blob): (b: HandlerBundle)
    ensures b.className.Some? && b.className.value == h.className
    ensures b.savedState.Some? && b.savedState.value == written
  {
    HandlerBundle(Some(h.className), Some(written))
  }

  /**
   * `fromBundle`: no handler for a null bundle, otherwise an instance of the
   * named class restored from the saved-state entry. `constructible` is the
   * set of class names that can be instantiated by name.
   */
  function FromBundle(bundle: Option<HandlerBundle>, constructible: set<string>): (r: Result<Option<Instance>, BundleError>)
    ensures bundle.None? <==> r == Ok(None)
    ensures r.Err? <==> bundle.Some? && (bundle.value.className.None? || bundle.value.className.value !in constructible)
    ensures r.Ok? && r.value.Some? ==>
      && bundle.Some? && bundle.value.className == Some(r.value.value.className)
      && r.value.value.className in constructible
      && r.value.value.restoredFrom == bundle.value.savedState
  {
    match bundle
    case None => Ok(None)
    case Some(b) =>
      if b.className.Some? && b.className.value in constructible
      then Ok(Some(Instance(b.className.value, b.savedState)))
      else Err(CannotInstantiate(b.className))
  }

  /**
   * A handler's bundle brings back a handler of the same class whose
   * `restoreFromBundle` receives what its `saveToBundle` wrote.
   */
  lemma BundleRoundTrip(h: Handler, written: Blob, constructible: set<string>)
    requires h.className in constructible
    ensures FromBundle(Some(ToBundle(h, written)), constructible) == Ok(Some(Instance(h.className, Some(written))))
  {
  }

  /**
   * `removesFromViewOnPush`: `overrides` holds the answer of each handler
   * class that overrides it; every other class answers true.
   */
  function RemovesFromViewOnPush(h: Handler, overrides: map<string, bool>): (r: bool)
    ensures h.className !in overrides ==> r
    ensures h.className in overrides ==> r == overrides[h.className]
  {
    if h.className in overrides then overrides[h.className] else true
  }
}

/**
 * Whole runs of the two components, written as clients would drive them:
 * each method builds fresh state, makes the calls, and its postcondition
 * states the observable outcome.
 */
module Scenarios {
  import opened Wrappers
  import opened Platform
  import opened LifecycleState
  import opened Lifecycle
  import opened ChangeHandler

  /**
   * A code registered for a controller brings the activity result, tagged
   * with that controller's id, to every router; an unregistered code
   * reaches none.
   */
  method ActivityResultReachesEveryRouter() returns (routers: seq<Router>, ghost delivered: seq<Event>)
    ensures |routers| == 2 && routers[0] != routers[1]
    ensures delivered == [ToRouter(routers[0], ActivityResult("R1", 42, -1, None)),
                          ToRouter(routers[1], ActivityResult("R1", 42, -1, None))]
  {
    var registry := new Registry();
    var handler := new LifecycleHandler(registry);
    var first := handler.GetRouter(Container(1), None);
    var second := handler.GetRouter(Container(2), None);
    handler.RegisterForActivityResult("R1", 42);
    var before := handler.log;
    handler.OnActivityResult(7, -1, None);
    assert handler.log == before;
    handler.OnActivityResult(42, -1, None);
    routers := handler.Routers();
    assert routers == [first, second];
    delivered := handler.log[|before|..];
  }

  /**
   * A permission request made while detached is queued and forwarded
   * exactly once when the handler attaches; attaching again forwards
   * nothing more.
   */
  method DeferredPermissionForwardedOnce() returns (ghost forwarded: seq<Event>, owner: Option<string>)
    ensures forwarded == [ToHost(DoRequestPermissions(["CAMERA"], 7))]
    ensures owner == Some("C1")
  {
    var registry := new Registry();
    var handler := new LifecycleHandler(registry);
    handler.RequestPermissions("C1", ["CAMERA"], 7);
    assert handler.log == [];
    handler.OnAttach();
    handler.OnAttach();
    assert Reversed([PendingPermissionRequest("C1", ["CAMERA"], 7)]) == [PendingPermissionRequest("C1", ["CAMERA"], 7)];
    forwarded := handler.log;
    owner := if 7 in handler.permissionRequestMap then Some(handler.permissionRequestMap[7]) else None;
  }

  /**
   * Two detached requests for the same code: replay runs from the last
   * queued, so the code ends up owned by the one queued first, and the host
   * is asked in reverse order.
   */
  method ReplayOrderIsReversed() returns (ghost forwarded: seq<Event>, owner: Option<string>)
    ensures forwarded == [ToHost(DoRequestPermissions(["LOCATION"], 5)), ToHost(DoRequestPermissions(["CAMERA"], 5))]
    ensures owner == Some("A")
  {
    var registry := new Registry();
    var handler := new LifecycleHandler(registry);
    handler.RequestPermissions("A", ["CAMERA"], 5);
    handler.RequestPermissions("B", ["LOCATION"], 5);
    var pending := handler.pendingPermissionRequests;
    handler.OnAttach();
    ReplayKeepsEarliestOwner(map[], pending, 0);
    forwarded := handler.log;
    owner := if 5 in handler.permissionRequestMap then Some(handler.permissionRequestMap[5]) else None;
  }

  /**
   * Routers are torn down once: detaching twice, then destroying, tells
   * each router about the destroyed Activity a single time, and a second
   * `onDestroy` does nothing.
   */
  method TeardownIsIdempotent() returns (router: Router, ghost notices: seq<Event>)
    ensures notices == [ToRouter(router, ActivityDestroyed(Activity(1)))]
  {
    var registry := new Registry();
    var handler := new LifecycleHandler(registry);
    handler.RegisterActivityListener(Activity(1));
    router := handler.GetRouter(Container(3), None);
    assert handler.Routers() == [router];
    var before := handler.log;
    handler.OnDetach();
    assert handler.log == before + [ToRouter(router, ActivityDestroyed(Activity(1)))];
    ghost var detached := handler.log;
    handler.OnDetach();
    assert handler.log == detached;
    handler.OnDestroy();
    assert handler.log == detached;
    handler.OnDestroy();
    assert handler.log == detached;
    notices := handler.log[|before|..];
  }

  /**
   * Installing twice for the same Activity before the provider commits
   * returns the same handler, because the registry answers first.
   */
  method InstallTwiceBeforeCommit() returns (first: LifecycleHandler, second: LifecycleHandler)
    ensures first == second
  {
    var registry := new Registry();
    var provider := new Provider();
    first := Install(registry, provider, Activity(9));
    second := Install(registry, provider, Activity(9));
  }

  /**
   * `install(activity).getRouter(container, null)` run twice for one
   * Activity: the second install finds the handler the first created, and
   * that handler hands back the router it already holds for the container.
   */
  method InstallThenGetRouterTwice() returns (first: Router, second: Router)
    ensures first == second && first.containerId == 8
  {
    var registry := new Registry();
    var provider := new Provider();
    var handler := Install(registry, provider, Activity(5));
    assert registry.activeLifecycleHandlers == map[Activity(5) := handler] && provider.committed == map[];
    first := handler.GetRouter(Container(8), None);
    assert registry.activeLifecycleHandlers.Values == {handler};
    assert Wired(registry, provider);
    var again := Install(registry, provider, Activity(5));
    second := again.GetRouter(Container(8), None);
  }

  /**
   * Pushing U1 with H1 and then popping U1 with H2 before the push
   * completes aborts the push once, tells H1 about H2, and leaves no entry
   * for U1; a later abort of U1 does nothing.
   */
  method PopAbortsInFlightPush() returns (ghost aborts: seq<ChangeEvent>, table: map<string, Handler>)
    ensures aborts == [ChangeEvent.AbortPush(Handler(1, "H1"), Handler(2, "H2"), None), Removed("U1")]
    ensures "U1" !in table
  {
    var orchestrator := new Orchestrator(100);
    var u1 := Controller("U1");
    orchestrator.ExecuteChangeWithoutListeners(Some(u1), None, true, Some(Container(1)), Some(Handler(1, "H1")));
    assert orchestrator.inProgressPushHandlers == map["U1" := Handler(1, "H1")];
    var before := orchestrator.log;
    orchestrator.ExecuteChangeWithoutListeners(None, Some(u1), false, Some(Container(1)), Some(Handler(2, "H2")));
    aborts := orchestrator.log[|before|..|before| + 2];
    var afterPop := orchestrator.log;
    orchestrator.AbortPush(u1, None, Handler(3, "H3"));
    assert orchestrator.log == afterPop;
    table := orchestrator.inProgressPushHandlers;
  }

  /**
   * A push without a handler gets a new `SimpleSwapChangeHandler`; the
   * entry lasts until the change completes, and completing it clears it.
   */
  method PushCompletesAndClears() returns (recorded: Handler, table: map<string, Handler>)
    ensures recorded.className == SimpleSwapClassName
    ensures table == map[]
  {
    var orchestrator := new Orchestrator(0);
    orchestrator.ExecuteChange(Some(Controller("U2")), None, true, Some(Container(4)), None, [Listener(1)]);
    recorded := orchestrator.inProgressPushHandlers["U2"];
    orchestrator.CompletePushImmediately("U2");
    assert "U2" in orchestrator.inProgressPushHandlers;
    orchestrator.Complete(0);
    table := orchestrator.inProgressPushHandlers;
  }
}

/**
 * The host lifecycle bridge: one `LifecycleHandler` per Activity, the
 * process-wide registry of active handlers, and the provider that attaches a
 * retained handler to an Activity. Calls the handler makes on routers and on
 * its host component are recorded in the handler's ghost `log`.
 */
module Lifecycle {
  import opened Wrappers
  import opened Platform
  import opened LifecycleState

  /**
   * Process-wide state: the static `activeLifecycleHandlers` table and the
   * handlers registered as `Application.ActivityLifecycleCallbacks`.
   */
  class Registry {
    var activeLifecycleHandlers: map<Activity, LifecycleHandler>
    var lifecycleCallbacks: set<LifecycleHandler>

    constructor ()
      ensures activeLifecycleHandlers == map[] && lifecycleCallbacks == {}
    {
      activeLifecycleHandlers := map[];
      lifecycleCallbacks := {};
    }
  }

  class LifecycleHandler {
    /** The process this handler registers itself with. */
    const registry: Registry

    var activity: Option<Activity>
    var hasRegisteredCallbacks: bool
    var destroyed: bool
    var attached: bool

    /** Routers keyed by container id. */
    var routerMap: map<int, Router>
    /** The order in which `routerMap.values()` is iterated. */
    var routerOrder: seq<int>

    var permissionRequestMap: map<int, string>
    var activityRequestMap: map<int, string>
    var pendingPermissionRequests: seq<PendingPermissionRequest>

    /** Every call made on a router or on the host component, oldest first. */
    ghost var log: seq<Event>

    /** `routerOrder` lists each key of `routerMap` once, and each router sits under its own container id. */
    ghost predicate Valid()
      reads this`routerMap, this`routerOrder
    {
      && (forall i, j | 0 <= i < j < |routerOrder| :: routerOrder[i] != routerOrder[j])
      && (forall i | 0 <= i < |routerOrder| :: routerOrder[i] in routerMap)
      && (forall k | k in routerMap :: k in routerOrder)
      && (forall k | k in routerMap :: routerMap[k].containerId == k)
    }

    /** `getRouters()`: the routers in iteration order. */
    function Routers(): (routers: seq<Router>)
      reads this`routerMap, this`routerOrder
      requires Valid()
      ensures |routers| == |routerOrder|
      ensures forall i | 0 <= i < |routers| :: routers[i] == routerMap[routerOrder[i]]
    {
      var m, order := routerMap, routerOrder;
      seq(|order|, i requires 0 <= i < |order| && order[i] in m => m[order[i]])
    }

    /** The request-code tables and pending queue, as `saveState` persists them. */
    function Tables(): Bookkeeping
      reads this`permissionRequestMap, this`activityRequestMap, this`pendingPermissionRequests
    {
      Bookkeeping(permissionRequestMap, activityRequestMap, pendingPermissionRequests)
    }

    /** A handler as its component constructs it: detached, with nothing recorded. */
    ghost predicate Initial()
      reads this
    {
      && activity == None && !hasRegisteredCallbacks && !destroyed && !attached
      && routerMap == map[] && routerOrder == []
      && permissionRequestMap == map[] && activityRequestMap == map[]
      && pendingPermissionRequests == [] && log == []
    }

    constructor (registry: Registry)
      ensures this.registry == registry
      ensures Initial() && Valid()
    {
      this.registry := registry;
      activity := None;
      hasRegisteredCallbacks := false;
      destroyed := false;
      attached := false;
      routerMap := map[];
      routerOrder := [];
      permissionRequestMap := map[];
      activityRequestMap := map[];
      pendingPermissionRequests := [];
      log := [];
    }

    /**
     * Binds the handler to `a`; the first call also registers the lifecycle
     * callbacks and the registry entry, later calls only rebind.
     */
    method RegisterActivityListener(a: Activity)
      modifies this`activity, this`hasRegisteredCallbacks, registry
      ensures activity == Some(a) && hasRegisteredCallbacks
      ensures old(hasRegisteredCallbacks) ==>
        && registry.activeLifecycleHandlers == old(registry.activeLifecycleHandlers)
        && registry.lifecycleCallbacks == old(registry.lifecycleCallbacks)
      ensures !old(hasRegisteredCallbacks) ==>
        && registry.activeLifecycleHandlers == old(registry.activeLifecycleHandlers)[a := this]
        && registry.lifecycleCallbacks == old(registry.lifecycleCallbacks) + {this}
    {
      activity := Some(a);
      if !hasRegisteredCallbacks {
        hasRegisteredCallbacks := true;
        registry.lifecycleCallbacks := registry.lifecycleCallbacks + {this};
        registry.activeLifecycleHandlers := registry.activeLifecycleHandlers[a := this];
      }
    }

    /**
     * The router for `container`: the existing one for its id, or a new one,
     * restored from the saved state kept under that id, added to the table.
     * The table never loses a router.
     */
    method GetRouter(container: Container, savedInstanceState: Option<SavedState>) returns (router: Router)
      requires Valid()
      modifies this`routerMap, this`routerOrder, this`log
      ensures Valid()
      ensures container.id in routerMap && routerMap[container.id] == router
      ensures old(routerMap).Keys <= routerMap.Keys
      ensures forall k | k in old(routerMap) :: routerMap[k] == old(routerMap)[k]
      ensures container.id in old(routerMap) ==>
        && router == old(routerMap)[container.id]
        && routerMap == old(routerMap) && routerOrder == old(routerOrder)
        && log == old(log) + [ToRouter(router, SetHost(container))]
      ensures container.id !in old(routerMap) ==>
        && fresh(router) && router.containerId == container.id
        && routerMap == old(routerMap)[container.id := router]
        && routerOrder == old(routerOrder) + [container.id]
        && log == old(log) + [ToRouter(router, SetHost(container))] + RestoredRouterState(router, savedInstanceState)
    {
      if container.id in routerMap {
        router := routerMap[container.id];
        log := log + [ToRouter(router, SetHost(container))];
      } else {
        router := new Router(container.id);
        log := log + [ToRouter(router, SetHost(container))];
        if savedInstanceState.Some? && router.containerId in savedInstanceState.value.routerStates {
          log := log + [ToRouter(router, RestoreInstanceState(savedInstanceState.value.routerStates[router.containerId]))];
        }
        routerMap := routerMap[container.id := router];
        routerOrder := routerOrder + [container.id];
      }
    }

    /** Makes `call` on every router, in iteration order. */
    method NotifyRouters(call: RouterCall)
      requires Valid()
      modifies this`log
      ensures log == old(log) + Broadcast(Routers(), call)
    {
      var routers := Routers();
      for i := 0 to |routers|
        invariant log == old(log) + Broadcast(routers[..i], call)
      {
        assert Broadcast(routers[..i + 1], call) == Broadcast(routers[..i], call) + [ToRouter(routers[i], call)];
        log := log + [ToRouter(routers[i], call)];
      }
      assert routers[..|routers|] == routers;
    }

    /**
     * Once attached, replays the pending permission requests, starting from
     * the last one queued, and empties the queue; when already attached it
     * does nothing.
     */
    method SetAttached()
      modifies this`attached, this`permissionRequestMap, this`pendingPermissionRequests, this`log
      ensures attached
      ensures old(attached) ==>
        && permissionRequestMap == old(permissionRequestMap)
        && pendingPermissionRequests == old(pendingPermissionRequests)
        && log == old(log)
      ensures !old(attached) ==>
        && pendingPermissionRequests == []
        && permissionRequestMap == Granted(old(permissionRequestMap), Reversed(old(pendingPermissionRequests)))
        && log == old(log) + Forwarded(Reversed(old(pendingPermissionRequests)))
    {
      if !attached {
        attached := true;
        ghost var pending := pendingPermissionRequests;
        var i := |pendingPermissionRequests| - 1;
        while i >= 0
          invariant -1 <= i < |pending|
          invariant attached
          invariant pendingPermissionRequests == pending[..i + 1]
          invariant permissionRequestMap == Granted(old(permissionRequestMap), Reversed(pending[i + 1..]))
          invariant log == old(log) + Forwarded(Reversed(pending[i + 1..]))
        {
          var request := pendingPermissionRequests[i];
          assert request == pending[i];
          pendingPermissionRequests := pendingPermissionRequests[..i] + pendingPermissionRequests[i + 1..];
          assert pendingPermissionRequests == pending[..i];
          RequestPermissions(request.instanceId, request.permissions, request.requestCode);
          ReplayStep(old(permissionRequestMap), pending, i);
          i := i - 1;
        }
        assert pending[0..] == pending;
      }
    }

    /** Tells every router the Activity is destroyed, at most once until `OnAttach` clears `destroyed`. */
    method DestroyRouters()
      requires Valid()
      modifies this`destroyed, this`log
      ensures destroyed
      ensures log == old(log) +
        (if !old(destroyed) && activity.Some? then Broadcast(Routers(), ActivityDestroyed(activity.value)) else [])
    {
      if !destroyed {
        destroyed := true;
        if activity.Some? {
          NotifyRouters(ActivityDestroyed(activity.value));
        }
      }
    }

    /** Records `instanceId` as the owner of `requestCode`, replacing any previous owner. */
    method RegisterForActivityResult(instanceId: string, requestCode: int)
      modifies this`activityRequestMap
      ensures activityRequestMap == old(activityRequestMap)[requestCode := instanceId]
    {
      activityRequestMap := activityRequestMap[requestCode := instanceId];
    }

    /** Drops exactly the activity-result codes owned by `instanceId`. */
    method UnregisterForActivityResults(instanceId: string)
      modifies this`activityRequestMap
      ensures activityRequestMap == WithoutOwner(old(activityRequestMap), instanceId)
    {
      ghost var table := activityRequestMap;
      var remaining := activityRequestMap.Keys;
      while remaining != {}
        invariant remaining <= table.Keys
        invariant activityRequestMap ==
          map code | code in table && (code in remaining || table[code] != instanceId) :: table[code]
        decreases remaining
      {
        if forall c :: c !in remaining {
          assert false;
        }
        var code :| code in remaining;
        if activityRequestMap[code] == instanceId {
          activityRequestMap := activityRequestMap - {code};
        }
        remaining := remaining - {code};
      }
    }

    /** Replaces the bookkeeping with what `savedInstanceState` holds; a null bundle changes nothing. */
    method RestoreState(savedInstanceState: Option<SavedState>)
      modifies this`permissionRequestMap, this`activityRequestMap, this`pendingPermissionRequests
      ensures Tables() == RestoreFrom(old(Tables()), savedInstanceState)
    {
      if savedInstanceState.Some? {
        var saved := savedInstanceState.value;
        permissionRequestMap := if saved.permissionRequests.Some? then saved.permissionRequests.value else map[];
        activityRequestMap := if saved.activityRequests.Some? then saved.activityRequests.value else map[];
        pendingPermissionRequests :=
          if saved.pendingPermissionRequests.Some? then saved.pendingPermissionRequests.value else [];
      }
    }

    /** Writes the bookkeeping into `outState`, leaving the routers' entries alone. */
    method SaveState(outState: SavedState) returns (saved: SavedState)
      ensures saved == SaveInto(Tables(), outState)
    {
      saved := outState.(
        permissionRequests := Some(permissionRequestMap),
        activityRequests := Some(activityRequestMap),
        pendingPermissionRequests := Some(pendingPermissionRequests));
    }

    /** `onAttach`: clears `destroyed` and attaches, replaying pending requests. */
    method OnAttach()
      modifies this`destroyed, this`attached, this`permissionRequestMap, this`pendingPermissionRequests, this`log
      ensures !destroyed && attached
      ensures old(attached) ==>
        && permissionRequestMap == old(permissionRequestMap)
        && pendingPermissionRequests == old(pendingPermissionRequests)
        && log == old(log)
      ensures !old(attached) ==>
        && pendingPermissionRequests == []
        && permissionRequestMap == Granted(old(permissionRequestMap), Reversed(old(pendingPermissionRequests)))
        && log == old(log) + Forwarded(Reversed(old(pendingPermissionRequests)))
    {
      destroyed := false;
      SetAttached();
    }

    /** `onDetach`: always detaches, then tears the routers down unless already done. */
    method OnDetach()
      requires Valid()
      modifies this`attached, this`destroyed, this`log
      ensures !attached && destroyed
      ensures log == old(log) +
        (if !old(destroyed) && activity.Some? then Broadcast(Routers(), ActivityDestroyed(activity.value)) else [])
    {
      attached := false;
      DestroyRouters();
    }

    /**
     * `onDestroy`: with an Activity bound, unregisters from the process,
     * tears the routers down and drops the Activity; otherwise a no-op.
     */
    method OnDestroy()
      requires Valid()
      modifies this`activity, this`destroyed, this`log, registry
      ensures activity == None
      ensures old(activity) == None ==>
        && destroyed == old(destroyed) && log == old(log)
        && registry.activeLifecycleHandlers == old(registry.activeLifecycleHandlers)
        && registry.lifecycleCallbacks == old(registry.lifecycleCallbacks)
      ensures old(activity).Some? ==>
        && destroyed
        && registry.lifecycleCallbacks == old(registry.lifecycleCallbacks) - {this}
        && registry.activeLifecycleHandlers == old(registry.activeLifecycleHandlers) - {old(activity).value}
        && log == old(log) +
          (if old(destroyed) then [] else Broadcast(Routers(), ActivityDestroyed(old(activity).value)))
    {
      if activity.Some? {
        registry.lifecycleCallbacks := registry.lifecycleCallbacks - {this};
        registry.activeLifecycleHandlers := registry.activeLifecycleHandlers - {activity.value};
        DestroyRouters();
        activity := None;
      }
    }

    /** Registers the code, then asks the host to start the Activity for a result. */
    method StartActivityForResult(instanceId: string, intent: Intent, requestCode: int, options: Option<Blob>)
      modifies this`activityRequestMap, this`log
      ensures activityRequestMap == old(activityRequestMap)[requestCode := instanceId]
      ensures log == old(log) + [ToHost(HostCall.StartActivityForResult(intent, requestCode, options))]
    {
      RegisterForActivityResult(instanceId, requestCode);
      log := log + [ToHost(HostCall.StartActivityForResult(intent, requestCode, options))];
    }

    /** Registers the code, then asks the host to start the intent sender for a result. */
    method StartIntentSenderForResult(
      instanceId: string, sender: Intent, requestCode: int, fillInIntent: Option<Intent>,
      flagsMask: int, flagsValues: int, extraFlags: int, options: Option<Blob>)
      modifies this`activityRequestMap, this`log
      ensures activityRequestMap == old(activityRequestMap)[requestCode := instanceId]
      ensures log == old(log) +
        [ToHost(HostCall.StartIntentSenderForResult(sender, requestCode, fillInIntent, flagsMask, flagsValues, extraFlags, options))]
    {
      RegisterForActivityResult(instanceId, requestCode);
      log := log + [ToHost(HostCall.StartIntentSenderForResult(sender, requestCode, fillInIntent, flagsMask, flagsValues, extraFlags, options))];
    }

    /**
     * Attached: records the owner of the code and forwards to the host once.
     * Detached: only queues the request.
     */
    method RequestPermissions(instanceId: string, permissions: seq<string>, requestCode: int)
      modifies this`permissionRequestMap, this`pendingPermissionRequests, this`log
      ensures attached ==>
        && permissionRequestMap == old(permissionRequestMap)[requestCode := instanceId]
        && pendingPermissionRequests == old(pendingPermissionRequests)
        && log == old(log) + [ToHost(DoRequestPermissions(permissions, requestCode))]
      ensures !attached ==>
        && permissionRequestMap == old(permissionRequestMap)
        && pendingPermissionRequests ==
             old(pendingPermissionRequests) + [PendingPermissionRequest(instanceId, permissions, requestCode)]
        && log == old(log)
    {
      if attached {
        permissionRequestMap := permissionRequestMap[requestCode := instanceId];
        log := log + [ToHost(DoRequestPermissions(permissions, requestCode))];
      } else {
        pendingPermissionRequests :=
          pendingPermissionRequests + [PendingPermissionRequest(instanceId, permissions, requestCode)];
      }
    }

    method InvalidateOptionsMenu()
      modifies this`log
      ensures log == old(log) + [ToHost(HostCall.InvalidateOptionsMenu)]
    {
      log := log + [ToHost(HostCall.InvalidateOptionsMenu)];
    }

    method StartActivity(intent: Intent)
      modifies this`log
      ensures log == old(log) + [ToHost(HostCall.StartActivity(intent))]
    {
      log := log + [ToHost(HostCall.StartActivity(intent))];
    }

    /** An unknown code is dropped; a known one goes, with its owner, to every router. */
    method OnActivityResult(requestCode: int, resultCode: int, data: Option<Intent>)
      requires Valid()
      modifies this`log
      ensures log == old(log) +
        (if requestCode in activityRequestMap
         then Broadcast(Routers(), ActivityResult(activityRequestMap[requestCode], requestCode, resultCode, data))
         else [])
    {
      if requestCode in activityRequestMap {
        var instanceId := activityRequestMap[requestCode];
        NotifyRouters(ActivityResult(instanceId, requestCode, resultCode, data));
      }
    }

    /** An unknown code is dropped; a known one goes, with its owner, to every router. */
    method OnRequestPermissionsResult(requestCode: int, permissions: seq<string>, grantResults: seq<int>)
      requires Valid()
      modifies this`log
      ensures log == old(log) +
        (if requestCode in permissionRequestMap
         then Broadcast(Routers(), RequestPermissionsResult(permissionRequestMap[requestCode], requestCode, permissions, grantResults))
         else [])
    {
      if requestCode in permissionRequestMap {
        var instanceId := permissionRequestMap[requestCode];
        NotifyRouters(RequestPermissionsResult(instanceId, requestCode, permissions, grantResults));
      }
    }

    /**
     * The answer of the first router, in iteration order, that has one for
     * `permission`; none when no router answers. Each router asked is logged,
     * and no router after the one that answers is asked.
     */
    method ShouldShowRequestPermissionRationale(permission: string, handleRequestedPermission: (Router, string) -> Option<bool>)
      returns (handled: Option<bool>)
      requires Valid()
      modifies this`log
      ensures handled == None <==>
        forall i | 0 <= i < |Routers()| :: handleRequestedPermission(Routers()[i], permission) == None
      ensures handled == None ==> log == old(log) + Broadcast(Routers(), HandleRequestedPermission(permission))
      ensures handled != None ==>
        exists i | 0 <= i < |Routers()| ::
          && handleRequestedPermission(Routers()[i], permission) == handled
          && (forall j | 0 <= j < i :: handleRequestedPermission(Routers()[j], permission) == None)
          && log == old(log) + Broadcast(Routers()[..i + 1], HandleRequestedPermission(permission))
    {
      var routers := Routers();
      var call := HandleRequestedPermission(permission);
      for i := 0 to |routers|
        invariant forall j | 0 <= j < i :: handleRequestedPermission(routers[j], permission) == None
        invariant log == old(log) + Broadcast(routers[..i], call)
      {
        log := log + [ToRouter(routers[i], call)];
        assert Broadcast(routers[..i + 1], call) == Broadcast(routers[..i], call) + [ToRouter(routers[i], call)];
        var answer := handleRequestedPermission(routers[i], permission);
        if answer != None {
          assert handleRequestedPermission(Routers()[i], permission) == answer;
          return answer;
        }
      }
      assert routers[..|routers|] == routers;
      return None;
    }

    method OnCreateOptionsMenu(menu: Menu)
      requires Valid()
      modifies this`log
      ensures log == old(log) + Broadcast(Routers(), CreateOptionsMenu(menu))
    {
      NotifyRouters(CreateOptionsMenu(menu));
    }

    method OnPrepareOptionsMenu(menu: Menu)
      requires Valid()
      modifies this`log
      ensures log == old(log) + Broadcast(Routers(), PrepareOptionsMenu(menu))
    {
      NotifyRouters(PrepareOptionsMenu(menu));
    }

    /** True exactly when some router handles the item; the first one that does ends the search. */
    method OnOptionsItemSelected(item: MenuItem, onOptionsItemSelected: (Router, MenuItem) -> bool) returns (handled: bool)
      requires Valid()
      modifies this`log
      ensures handled <==> exists i | 0 <= i < |Routers()| :: onOptionsItemSelected(Routers()[i], item)
      ensures !handled ==> log == old(log) + Broadcast(Routers(), OptionsItemSelected(item))
      ensures handled ==>
        exists i | 0 <= i < |Routers()| ::
          && onOptionsItemSelected(Routers()[i], item)
          && (forall j | 0 <= j < i :: !onOptionsItemSelected(Routers()[j], item))
          && log == old(log) + Broadcast(Routers()[..i + 1], OptionsItemSelected(item))
    {
      var routers := Routers();
      var call := OptionsItemSelected(item);
      for i := 0 to |routers|
        invariant forall j | 0 <= j < i :: !onOptionsItemSelected(routers[j], item)
        invariant log == old(log) + Broadcast(routers[..i], call)
      {
        log := log + [ToRouter(routers[i], call)];
        assert Broadcast(routers[..i + 1], call) == Broadcast(routers[..i], call) + [ToRouter(routers[i], call)];
        if onOptionsItemSelected(routers[i], item) {
          assert onOptionsItemSelected(Routers()[i], item);
          return true;
        }
      }
      assert routers[..|routers|] == routers;
      return false;
    }

    /**
     * Binds an unbound handler to `a` when the lookup for `a` resolves to this
     * handler; a bound handler ignores the callback.
     */
    method OnActivityCreated(a: Activity, provider: Provider)
      requires Wired(registry, provider)
      modifies this`activity, registry,
        registry.activeLifecycleHandlers.Values`activity, registry.activeLifecycleHandlers.Values`hasRegisteredCallbacks,
        provider.committed.Values`activity, provider.committed.Values`hasRegisteredCallbacks
      ensures Wired(registry, provider)
      ensures old(activity).Some? ==>
        && activity == old(activity)
        && unchanged(registry)
        && unchanged(old(registry.activeLifecycleHandlers.Values))
        && unchanged(old(provider.committed.Values))
      ensures old(activity) == None && old(Resolved(registry, provider, a)) == this ==> activity == Some(a)
      ensures old(activity) == None && old(Resolved(registry, provider, a)) != this ==> activity == None
      ensures old(activity) == None && old(Resolved(registry, provider, a)) == null ==> unchanged(registry)
      ensures old(activity) == None ==>
        var found := old(Resolved(registry, provider, a));
        found != null ==>
          && found.activity == Some(a) && found.hasRegisteredCallbacks
          && registry.activeLifecycleHandlers ==
               (if old(found.hasRegisteredCallbacks) then old(registry.activeLifecycleHandlers)
                else old(registry.activeLifecycleHandlers)[a := found])
          && registry.lifecycleCallbacks ==
               (if old(found.hasRegisteredCallbacks) then old(registry.lifecycleCallbacks)
                else old(registry.lifecycleCallbacks) + {found})
      ensures old(activity) == None ==>
        forall h: LifecycleHandler | old(allocated(h)) && h != old(Resolved(registry, provider, a)) ::
          h.activity == old(h.activity) && h.hasRegisteredCallbacks == old(h.hasRegisteredCallbacks)
    {
      if activity == None {
        var found := FindInActivity(registry, provider, a);
        if found == this {
          activity := Some(a);
        }
      }
    }

    method OnActivityStarted(a: Activity)
      requires Valid()
      modifies this`log
      ensures log == old(log) + (if activity == Some(a) then Broadcast(Routers(), ActivityStarted(a)) else [])
    {
      if activity == Some(a) {
        NotifyRouters(ActivityStarted(a));
      }
    }

    method OnActivityResumed(a: Activity)
      requires Valid()
      modifies this`log
      ensures log == old(log) + (if activity == Some(a) then Broadcast(Routers(), ActivityResumed(a)) else [])
    {
      if activity == Some(a) {
        NotifyRouters(ActivityResumed(a));
      }
    }

    method OnActivityPaused(a: Activity)
      requires Valid()
      modifies this`log
      ensures log == old(log) + (if activity == Some(a) then Broadcast(Routers(), ActivityPaused(a)) else [])
    {
      if activity == Some(a) {
        NotifyRouters(ActivityPaused(a));
      }
    }

    method OnActivityStopped(a: Activity)
      requires Valid()
      modifies this`log
      ensures log == old(log) + (if activity == Some(a) then Broadcast(Routers(), ActivityStopped(a)) else [])
    {
      if activity == Some(a) {
        NotifyRouters(ActivityStopped(a));
      }
    }

    /**
     * For the bound Activity, stores each router's own state in `outState`
     * under the router's container id; other entries of `outState` stay.
     */
    method OnActivitySaveInstanceState(a: Activity, outState: SavedState, saveInstanceState: Router -> Blob)
      returns (saved: SavedState)
      requires Valid()
      modifies this`log
      ensures activity != Some(a) ==> saved == outState && log == old(log)
      ensures activity == Some(a) ==> log == old(log) + Broadcast(Routers(), SaveInstanceState)
      ensures activity == Some(a) ==>
        && saved.permissionRequests == outState.permissionRequests
        && saved.activityRequests == outState.activityRequests
        && saved.pendingPermissionRequests == outState.pendingPermissionRequests
        && (forall k :: k in saved.routerStates <==> k in outState.routerStates || k in routerMap)
        && (forall k | k in routerMap :: saved.routerStates[k] == saveInstanceState(routerMap[k]))
        && (forall k | k in outState.routerStates && k !in routerMap :: saved.routerStates[k] == outState.routerStates[k])
    {
      saved := outState;
      if activity == Some(a) {
        var routers := Routers();
        for i := 0 to |routers|
          invariant saved.permissionRequests == outState.permissionRequests
          invariant saved.activityRequests == outState.activityRequests
          invariant saved.pendingPermissionRequests == outState.pendingPermissionRequests
          invariant forall k :: k in saved.routerStates <==> k in outState.routerStates || k in routerOrder[..i]
          invariant forall k | k in routerOrder[..i] :: saved.routerStates[k] == saveInstanceState(routerMap[k])
          invariant forall k | k in outState.routerStates && k !in routerOrder[..i] ::
            saved.routerStates[k] == outState.routerStates[k]
          invariant log == old(log) + Broadcast(routers[..i], SaveInstanceState)
        {
          var router := routers[i];
          log := log + [ToRouter(router, SaveInstanceState)];
          assert Broadcast(routers[..i + 1], SaveInstanceState) == Broadcast(routers[..i], SaveInstanceState) + [ToRouter(router, SaveInstanceState)];
          assert router == routerMap[routerOrder[i]] && router.containerId == routerOrder[i];
          assert routerOrder[..i + 1] == routerOrder[..i] + [routerOrder[i]];
          saved := saved.(routerStates := saved.routerStates[router.containerId := saveInstanceState(router)]);
        }
        assert routerOrder[..|routers|] == routerOrder;
        assert routers[..|routers|] == routers;
      }
    }

    /** Any handler's callback drops the registry entry of a destroyed Activity. */
    method OnActivityDestroyed(a: Activity)
      modifies registry`activeLifecycleHandlers
      ensures registry.activeLifecycleHandlers == old(registry.activeLifecycleHandlers) - {a}
    {
      registry.activeLifecycleHandlers := registry.activeLifecycleHandlers - {a};
    }
  }

  /** The installs issued through a provider whose transaction has not executed yet. */
  function Committed(committed: map<Activity, LifecycleHandler>, pending: seq<(Activity, LifecycleHandler)>)
    : map<Activity, LifecycleHandler>
    decreases |pending|
  {
    if pending == [] then committed
    else
      var last := pending[|pending| - 1];
      Committed(committed, pending[..|pending| - 1])[last.0 := last.1]
  }

  /**
   * The `LifecycleHandlerProvider` that attaches a retained fragment: an
   * install only queues a transaction, and a lookup finds only handlers whose
   * transaction has executed.
   */
  class Provider {
    var committed: map<Activity, LifecycleHandler>
    var pendingCommits: seq<(Activity, LifecycleHandler)>

    constructor ()
      ensures committed == map[] && pendingCommits == []
    {
      committed := map[];
      pendingCommits := [];
    }

    method FindInActivity(a: Activity) returns (handler: LifecycleHandler?)
      ensures handler == if a in committed then committed[a] else null
    {
      handler := if a in committed then committed[a] else null;
    }

    method Install(registry: Registry, a: Activity) returns (handler: LifecycleHandler)
      modifies this`pendingCommits
      ensures fresh(handler) && handler.registry == registry && handler.Initial() && handler.Valid()
      ensures pendingCommits == old(pendingCommits) + [(a, handler)]
    {
      handler := new LifecycleHandler(registry);
      pendingCommits := pendingCommits + [(a, handler)];
    }

    /** The host runs the queued transactions, in order. */
    method ExecutePendingTransactions()
      modifies this
      ensures pendingCommits == []
      ensures committed == Committed(old(committed), old(pendingCommits))
    {
      var pending := pendingCommits;
      for i := 0 to |pending|
        invariant committed == Committed(old(committed), pending[..i])
      {
        assert pending[..i + 1][..i] == pending[..i];
        committed := committed[pending[i].0 := pending[i].1];
      }
      assert pending[..|pending|] == pending;
      pendingCommits := [];
    }
  }

  /**
   * Every handler the registry or the provider can hand out belongs to
   * `registry`, and the ones a lookup can return keep a valid router table.
   */
  ghost predicate Wired(registry: Registry, provider: Provider)
    reads registry, provider,
      registry.activeLifecycleHandlers.Values`routerMap, registry.activeLifecycleHandlers.Values`routerOrder,
      provider.committed.Values`routerMap, provider.committed.Values`routerOrder
  {
    && (forall h | h in registry.activeLifecycleHandlers.Values :: h.registry == registry && h.Valid())
    && (forall h | h in provider.committed.Values :: h.registry == registry && h.Valid())
    && (forall i | 0 <= i < |provider.pendingCommits| :: provider.pendingCommits[i].1.registry == registry)
  }

  /** What `findInActivity` resolves `a` to: the registry first, then the provider. */
  ghost function Resolved(registry: Registry, provider: Provider, a: Activity): LifecycleHandler?
    reads registry, provider
  {
    if a in registry.activeLifecycleHandlers then registry.activeLifecycleHandlers[a]
    else if a in provider.committed then provider.committed[a]
    else null
  }

  /** Looks `a` up in the registry, then through the provider, and binds what it finds to `a`. */
  method FindInActivity(registry: Registry, provider: Provider, a: Activity) returns (handler: LifecycleHandler?)
    requires Wired(registry, provider)
    modifies registry,
      registry.activeLifecycleHandlers.Values`activity, registry.activeLifecycleHandlers.Values`hasRegisteredCallbacks,
      provider.committed.Values`activity, provider.committed.Values`hasRegisteredCallbacks
    ensures Wired(registry, provider)
    ensures handler == old(Resolved(registry, provider, a))
    ensures handler == null ==> unchanged(registry)
    ensures forall h: LifecycleHandler | old(allocated(h)) && h != handler ::
      h.activity == old(h.activity) && h.hasRegisteredCallbacks == old(h.hasRegisteredCallbacks)
    ensures handler != null ==>
      && handler.activity == Some(a) && handler.hasRegisteredCallbacks
      && registry.activeLifecycleHandlers ==
           (if old(handler.hasRegisteredCallbacks) then old(registry.activeLifecycleHandlers)
            else old(registry.activeLifecycleHandlers)[a := handler])
      && registry.lifecycleCallbacks ==
           (if old(handler.hasRegisteredCallbacks) then old(registry.lifecycleCallbacks)
            else old(registry.lifecycleCallbacks) + {handler})
  {
    handler := if a in registry.activeLifecycleHandlers then registry.activeLifecycleHandlers[a] else null;
    if handler == null {
      handler := provider.FindInActivity(a);
    }
    if handler != null {
      handler.RegisterActivityListener(a);
    }
  }

  /**
   * The handler for `a`: the one the registry or the provider already knows,
   * or a new one the provider installs. Afterwards `a` resolves to the
   * returned handler, so a second install returns it again.
   */
  method Install(registry: Registry, provider: Provider, a: Activity) returns (handler: LifecycleHandler)
    requires Wired(registry, provider)
    modifies registry, provider`pendingCommits,
      registry.activeLifecycleHandlers.Values`activity, registry.activeLifecycleHandlers.Values`hasRegisteredCallbacks,
      provider.committed.Values`activity, provider.committed.Values`hasRegisteredCallbacks
    ensures Wired(registry, provider)
    ensures handler.activity == Some(a) && handler.hasRegisteredCallbacks && handler.Valid()
    ensures Resolved(registry, provider, a) == handler
    ensures old(Resolved(registry, provider, a)) != null ==>
      && handler == old(Resolved(registry, provider, a)) && provider.pendingCommits == old(provider.pendingCommits)
      && registry.activeLifecycleHandlers ==
           (if old(handler.hasRegisteredCallbacks) then old(registry.activeLifecycleHandlers)
            else old(registry.activeLifecycleHandlers)[a := handler])
      && registry.lifecycleCallbacks ==
           (if old(handler.hasRegisteredCallbacks) then old(registry.lifecycleCallbacks)
            else old(registry.lifecycleCallbacks) + {handler})
    ensures forall h: LifecycleHandler | old(allocated(h)) && h != handler ::
      h.activity == old(h.activity) && h.hasRegisteredCallbacks == old(h.hasRegisteredCallbacks)
    ensures old(Resolved(registry, provider, a)) == null ==>
      && fresh(handler) && handler.registry == registry && handler.Valid()
      && provider.pendingCommits == old(provider.pendingCommits) + [(a, handler)]
      && registry.activeLifecycleHandlers == old(registry.activeLifecycleHandlers)[a := handler]
      && registry.lifecycleCallbacks == old(registry.lifecycleCallbacks) + {handler}
  {
    var found := FindInActivity(registry, provider, a);
    if found == null {
      handler := provider.Install(registry, a);
    } else {
      handler := found;
    }
    handler.RegisterActivityListener(a);
  }
}

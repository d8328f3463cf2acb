/**
 * The values a `LifecycleHandler` keeps and hands on: pending permission
 * requests, the saved-state record, the outbound calls it makes to routers
 * and to the host, and the pure functions that say what replaying, saving and
 * restoring that bookkeeping produces.
 */
module LifecycleState {
  import opened Wrappers
  import opened Platform

  /** A permission request issued while the handler was not attached. */
  datatype PendingPermissionRequest = PendingPermissionRequest(
    instanceId: string,
    permissions: seq<string>,
    requestCode: int)

  /**
   * An `ActivityHostedRouter`: an external navigation stack. Only its identity
   * and the id of the container it was created for are visible to the handler.
   */
  class Router {
    const containerId: int

    constructor (containerId: int)
      ensures this.containerId == containerId
    {
      this.containerId := containerId;
    }
  }

  /** A call the handler makes on one router. */
  datatype RouterCall =
    | SetHost(container: Container)
    | RestoreInstanceState(state: Blob)
    | ActivityDestroyed(activity: Activity)
    | ActivityResult(instanceId: string, requestCode: int, resultCode: int, data: Option<Intent>)
    | RequestPermissionsResult(instanceId: string, requestCode: int, permissions: seq<string>, grantResults: seq<int>)
    | CreateOptionsMenu(menu: Menu)
    | PrepareOptionsMenu(menu: Menu)
    | ActivityStarted(activity: Activity)
    | ActivityResumed(activity: Activity)
    | ActivityPaused(activity: Activity)
    | ActivityStopped(activity: Activity)
    | HandleRequestedPermission(permission: string)
    | OptionsItemSelected(item: MenuItem)
    | SaveInstanceState

  /** A call the handler makes on its host component (`LifecycleHandlerComponent`). */
  datatype HostCall =
    | DoRequestPermissions(permissions: seq<string>, requestCode: int)
    | StartActivity(intent: Intent)
    | StartActivityForResult(intent: Intent, requestCode: int, options: Option<Blob>)
    | StartIntentSenderForResult(
        sender: Intent, requestCode: int, fillInIntent: Option<Intent>,
        flagsMask: int, flagsValues: int, extraFlags: int, options: Option<Blob>)
    | InvalidateOptionsMenu

  /** One outbound call, in the order the handler makes them. */
  datatype Event = ToRouter(router: Router, call: RouterCall) | ToHost(host: HostCall)

  /** The same call made on every router, in iteration order. */
  function Broadcast(routers: seq<Router>, call: RouterCall): seq<Event> {
    seq(|routers|, i requires 0 <= i < |routers| => ToRouter(routers[i], call))
  }

  /** The host calls made by forwarding each request of `requests`, in order. */
  function Forwarded(requests: seq<PendingPermissionRequest>): seq<Event> {
    seq(|requests|, i requires 0 <= i < |requests| =>
      ToHost(DoRequestPermissions(requests[i].permissions, requests[i].requestCode)))
  }

  /** `s` read from its last element to its first. */
  function Reversed<T>(s: seq<T>): (r: seq<T>)
    ensures |r| == |s|
  {
    seq(|s|, k requires 0 <= k < |s| => s[|s| - 1 - k])
  }

  /**
   * The request-code table after recording each of `requests`, in order,
   * as an attached `requestPermissions` does (a later request for a code
   * replaces the owner an earlier one recorded).
   */
  function Granted(table: map<int, string>, requests: seq<PendingPermissionRequest>): map<int, string>
    decreases |requests|
  {
    if requests == [] then table
    else
      var last := requests[|requests| - 1];
      Granted(table, requests[..|requests| - 1])[last.requestCode := last.instanceId]
  }

  /** The restore call a new router gets when the saved state holds an entry for its container. */
  function RestoredRouterState(router: Router, savedInstanceState: Option<SavedState>): seq<Event> {
    if savedInstanceState.Some? && router.containerId in savedInstanceState.value.routerStates
    then [ToRouter(router, RestoreInstanceState(savedInstanceState.value.routerStates[router.containerId]))]
    else []
  }

  /** Reading `s[i..]` backwards is reading `s[i + 1..]` backwards, then `s[i]`. */
  lemma ReversedStep<T>(s: seq<T>, i: int)
    requires 0 <= i < |s|
    ensures Reversed(s[i..]) == Reversed(s[i + 1..]) + [s[i]]
  {
  }

  lemma ForwardedSnoc(requests: seq<PendingPermissionRequest>, r: PendingPermissionRequest)
    ensures Forwarded(requests + [r]) == Forwarded(requests) + [ToHost(DoRequestPermissions(r.permissions, r.requestCode))]
  {
  }

  /** Replaying `pending[i..]` backwards is replaying `pending[i + 1..]` backwards, then `pending[i]`. */
  lemma ReplayStep(table: map<int, string>, pending: seq<PendingPermissionRequest>, i: int)
    requires 0 <= i < |pending|
    ensures Granted(table, Reversed(pending[i..])) ==
      Granted(table, Reversed(pending[i + 1..]))[pending[i].requestCode := pending[i].instanceId]
    ensures Forwarded(Reversed(pending[i..])) ==
      Forwarded(Reversed(pending[i + 1..])) + [ToHost(DoRequestPermissions(pending[i].permissions, pending[i].requestCode))]
  {
    ReversedStep(pending, i);
    GrantedSnoc(table, Reversed(pending[i + 1..]), pending[i]);
    ForwardedSnoc(Reversed(pending[i + 1..]), pending[i]);
  }

  /** The entries of `table` whose owner is not `instanceId`. */
  function WithoutOwner(table: map<int, string>, instanceId: string): (r: map<int, string>)
    ensures forall code :: code in r <==> code in table && table[code] != instanceId
    ensures forall code | code in r :: r[code] == table[code]
  {
    map code | code in table && table[code] != instanceId :: table[code]
  }

  /** Recording a request on top of a sequence of requests. */
  lemma GrantedSnoc(table: map<int, string>, requests: seq<PendingPermissionRequest>, r: PendingPermissionRequest)
    ensures Granted(table, requests + [r]) == Granted(table, requests)[r.requestCode := r.instanceId]
  {
    assert (requests + [r])[..|requests|] == requests;
  }

  /** The last request recorded for a code owns it. */
  lemma {:induction false} GrantedLastOwner(table: map<int, string>, requests: seq<PendingPermissionRequest>, j: int)
    requires 0 <= j < |requests|
    requires forall k | j < k < |requests| :: requests[k].requestCode != requests[j].requestCode
    ensures requests[j].requestCode in Granted(table, requests)
    ensures Granted(table, requests)[requests[j].requestCode] == requests[j].instanceId
    decreases |requests|
  {
    if j < |requests| - 1 {
      var init := requests[..|requests| - 1];
      assert forall k | j < k < |init| :: init[k] == requests[k];
      GrantedLastOwner(table, init, j);
    }
  }

  /** A code no request names keeps the owner it had in the table. */
  lemma {:induction false} GrantedUntouched(table: map<int, string>, requests: seq<PendingPermissionRequest>, code: int)
    requires forall k | 0 <= k < |requests| :: requests[k].requestCode != code
    ensures code in Granted(table, requests) <==> code in table
    ensures code in table ==> Granted(table, requests)[code] == table[code]
    decreases |requests|
  {
    if requests != [] {
      var init := requests[..|requests| - 1];
      assert forall k | 0 <= k < |init| :: init[k] == requests[k];
      GrantedUntouched(table, init, code);
    }
  }

  /** Recording requests adds exactly their codes to the table's keys. */
  lemma {:induction false} GrantedKeys(table: map<int, string>, requests: seq<PendingPermissionRequest>)
    ensures Granted(table, requests).Keys == table.Keys + set k | 0 <= k < |requests| :: requests[k].requestCode
    decreases |requests|
  {
    if requests != [] {
      var n := |requests| - 1;
      var init := requests[..n];
      GrantedKeys(table, init);
      assert forall k | 0 <= k < n :: init[k] == requests[k];
      assert (set k | 0 <= k < |requests| :: requests[k].requestCode)
          == (set k | 0 <= k < n :: init[k].requestCode) + {requests[n].requestCode};
    }
  }

  /** Replay forwards every pending request once, the last queued first. */
  lemma ReplayForwardsEachOnce(pending: seq<PendingPermissionRequest>)
    ensures |Forwarded(Reversed(pending))| == |pending|
    ensures forall k | 0 <= k < |pending| ::
      Forwarded(Reversed(pending))[|pending| - 1 - k] == ToHost(DoRequestPermissions(pending[k].permissions, pending[k].requestCode))
  {
  }

  /**
   * Replaying pending requests from the last one to the first leaves each
   * replayed code owned by the EARLIEST pending request for it.
   */
  lemma ReplayKeepsEarliestOwner(table: map<int, string>, pending: seq<PendingPermissionRequest>, j: int)
    requires 0 <= j < |pending|
    requires forall k | 0 <= k < j :: pending[k].requestCode != pending[j].requestCode
    ensures pending[j].requestCode in Granted(table, Reversed(pending))
    ensures Granted(table, Reversed(pending))[pending[j].requestCode] == pending[j].instanceId
  {
    var rev := Reversed(pending);
    var i := |pending| - 1 - j;
    assert rev[i] == pending[j];
    assert forall k | i < k < |rev| :: rev[k] == pending[|pending| - 1 - k];
    GrantedLastOwner(table, rev, i);
  }

  /** The request-code tables and the pending queue: what `saveState` persists. */
  datatype Bookkeeping = Bookkeeping(
    permissionRequests: map<int, string>,
    activityRequests: map<int, string>,
    pendingPermissionRequests: seq<PendingPermissionRequest>)

  /**
   * A saved-instance-state `Bundle`, one field per key the core reads or
   * writes; `None` is a key that is absent. `routerStates` holds the
   * per-router sub-bundles, keyed by container id (the key
   * `KEY_ROUTER_STATE_PREFIX + containerId`).
   */
  datatype SavedState = SavedState(
    permissionRequests: Option<map<int, string>>,
    activityRequests: Option<map<int, string>>,
    pendingPermissionRequests: Option<seq<PendingPermissionRequest>>,
    routerStates: map<int, Blob>)

  /** `outState` after `saveState` has written the three bookkeeping keys into it. */
  function SaveInto(b: Bookkeeping, outState: SavedState): (r: SavedState)
    ensures r.routerStates == outState.routerStates
  {
    outState.(
      permissionRequests := Some(b.permissionRequests),
      activityRequests := Some(b.activityRequests),
      pendingPermissionRequests := Some(b.pendingPermissionRequests))
  }

  /**
   * The bookkeeping after `restoreState(saved)`: nothing changes for a null
   * bundle; otherwise every structure is replaced by the saved one, and a
   * structure whose key is missing becomes empty.
   */
  function RestoreFrom(current: Bookkeeping, saved: Option<SavedState>): (r: Bookkeeping)
    ensures saved.None? ==> r == current
    ensures saved.Some? && saved.value.permissionRequests.None? ==> r.permissionRequests == map[]
    ensures saved.Some? && saved.value.activityRequests.None? ==> r.activityRequests == map[]
    ensures saved.Some? && saved.value.pendingPermissionRequests.None? ==> r.pendingPermissionRequests == []
  {
    match saved
    case None => current
    case Some(s) =>
      Bookkeeping(
        s.permissionRequests.GetOr(map[]),
        s.activityRequests.GetOr(map[]),
        s.pendingPermissionRequests.GetOr([]))
  }

  /** Restoring what was saved reproduces the saved bookkeeping, whatever was there before. */
  lemma SaveRestoreRoundTrip(current: Bookkeeping, b: Bookkeeping, outState: SavedState)
    ensures RestoreFrom(current, Some(SaveInto(b, outState))) == b
  {
  }
}

# Conductor lifecycle bridge and change orchestration, modelled in Dafny

This project models two stateful pieces of the Conductor navigation library for Android.

- **`LifecycleHandler`** (modules `LifecycleState`, `Lifecycle`). One handler exists per Activity. It keeps:
  - the routers it hosts, keyed by container id;
  - the request-code tables for permission requests and activity results, each mapping a code to the instance id of the controller that asked;
  - a queue of permission requests made while the handler was detached;
  - the flags `attached`, `destroyed` and `hasRegisteredCallbacks`.

  The process-wide `activeLifecycleHandlers` table and the application's lifecycle-callback list form the `Registry` class. The fragment-based `LifecycleHandlerProvider` is the `Provider` class: an install only queues a commit, and a lookup sees only committed handlers. Every call the handler makes on a router or on its host component is appended to the handler's ghost `log`, including the queries `handleRequestedPermission`, `onOptionsItemSelected` and `saveInstanceState`, whose answers come from function parameters.
- **The static part of `ControllerChangeHandler`** (module `ChangeHandler`). The `Orchestrator` class holds the process-wide `inProgressPushHandlers` table. `ExecuteChange` records a push or aborts the popped controller's push, notifies listeners and controllers, and stores the completion that `performChange` receives; `Complete(k)` runs that completion. Handler bundles (`toBundle`/`fromBundle`), the direction tags and `removesFromViewOnPush` are pure functions.

Module `Scenarios` drives both components through whole runs, such as a push aborted by a pop or a permission request deferred until attach.

`setAttached` replays the pending queue from its LAST entry to its first (`LifecycleHandler.java:162-165`): the host is asked in reverse order, and when two pending requests share a code, the one queued first owns it afterwards (`ReplayKeepsEarliestOwner`, `Scenarios.ReplayOrderIsReversed`).

## Model

| member | source | states |
|---|---|---|
| Lifecycle.Registry.constructor | conductor/src/main/java/com/bluelinelabs/conductor/internal/LifecycleHandler.java:46 | the process starts with no active handler and no registered callbacks |
| Lifecycle.LifecycleHandler.constructor | conductor/src/main/java/com/bluelinelabs/conductor/internal/LifecycleHandler.java:105-107 | a new handler is unbound, detached, not destroyed, with no routers, empty tables and an empty queue, as the field initialisers at `LifecycleHandler.java:41-51` give; the `LifecycleHandlerComponent` argument is replaced by the `Registry` the handler registers in |
| Lifecycle.LifecycleHandler.Routers | conductor/src/main/java/com/bluelinelabs/conductor/internal/LifecycleHandler.java:144-147 | `getRouters()` lists every router of the table once, in iteration order |
| Lifecycle.FindInActivity | conductor/src/main/java/com/bluelinelabs/conductor/internal/LifecycleHandler.java:83-93 | the registry is consulted before the provider; a found handler is bound to the Activity; the registry entry and callback are added only if it had never registered; no other handler changes |
| Lifecycle.Install | conductor/src/main/java/com/bluelinelabs/conductor/internal/LifecycleHandler.java:95-103 | returns the handler the Activity already resolves to (adding its registry entry and callback only if it had never registered), or a fresh one that the provider queues; no other handler changes; the returned handler's router table is valid, found or fresh; afterwards the Activity resolves to the returned handler, so a second install before the commit returns the same one |
| Lifecycle.LifecycleHandler.RegisterActivityListener | conductor/src/main/java/com/bluelinelabs/conductor/internal/LifecycleHandler.java:109-121 | always binds the Activity; only the first call adds the registry entry and the callback |
| Lifecycle.LifecycleHandler.GetRouter | conductor/src/main/java/com/bluelinelabs/conductor/internal/LifecycleHandler.java:123-142 | reuses the router for the container id; otherwise creates one, restores it from the saved entry for that id when there is one, and adds it; the table never loses or replaces a router |
| Lifecycle.LifecycleHandler.NotifyRouters | conductor/src/main/java/com/bluelinelabs/conductor/internal/LifecycleHandler.java:174-176 | the same call goes to every router once, in iteration order, and nothing else is logged |
| Lifecycle.LifecycleHandler.SetAttached | conductor/src/main/java/com/bluelinelabs/conductor/internal/LifecycleHandler.java:158-167 | when detached: attaches, empties the queue, records every pending request in the permission table and forwards each once, last queued first; when attached: changes nothing |
| LifecycleState.ReplayForwardsEachOnce | conductor/src/main/java/com/bluelinelabs/conductor/internal/LifecycleHandler.java:162-165 | the replay forwards exactly as many requests as were pending, request k at position n-1-k |
| LifecycleState.GrantedKeys | conductor/src/main/java/com/bluelinelabs/conductor/internal/LifecycleHandler.java:162-165 | after the replay the permission table holds its old codes plus exactly the pending requests' codes |
| LifecycleState.ReplayKeepsEarliestOwner | conductor/src/main/java/com/bluelinelabs/conductor/internal/LifecycleHandler.java:162-165 | after the replay, a code is owned by the earliest pending request for it |
| LifecycleState.GrantedLastOwner | conductor/src/main/java/com/bluelinelabs/conductor/internal/LifecycleHandler.java:250-253 | of several recorded requests for one code, the last one recorded owns it |
| LifecycleState.GrantedUntouched | conductor/src/main/java/com/bluelinelabs/conductor/internal/LifecycleHandler.java:250-253 | recording requests leaves every code they do not name as it was |
| Lifecycle.LifecycleHandler.DestroyRouters | conductor/src/main/java/com/bluelinelabs/conductor/internal/LifecycleHandler.java:169-179 | sets `destroyed`; tells every router once, and only if not already destroyed and an Activity is bound |
| Lifecycle.LifecycleHandler.RegisterForActivityResult | conductor/src/main/java/com/bluelinelabs/conductor/internal/LifecycleHandler.java:181-183 | the code is owned by the new id, replacing any previous owner; no other code changes |
| Lifecycle.LifecycleHandler.UnregisterForActivityResults | conductor/src/main/java/com/bluelinelabs/conductor/internal/LifecycleHandler.java:185-191 | the activity-result table afterwards is the old table without the entries owned by the id |
| LifecycleState.WithoutOwner | conductor/src/main/java/com/bluelinelabs/conductor/internal/LifecycleHandler.java:185-191 | a code stays exactly when it was present and not owned by the id, and keeps its owner |
| Lifecycle.LifecycleHandler.RestoreState | conductor/src/main/java/com/bluelinelabs/conductor/internal/LifecycleHandler.java:193-204 | the bookkeeping becomes what `RestoreFrom` says for the bundle |
| LifecycleState.RestoreFrom | conductor/src/main/java/com/bluelinelabs/conductor/internal/LifecycleHandler.java:193-204 | a null bundle changes nothing; a missing key makes that structure empty |
| Lifecycle.LifecycleHandler.SaveState | conductor/src/main/java/com/bluelinelabs/conductor/internal/LifecycleHandler.java:206-210 | the bundle gets the three bookkeeping entries and nothing else of it changes |
| LifecycleState.SaveInto | conductor/src/main/java/com/bluelinelabs/conductor/internal/LifecycleHandler.java:206-210 | saving leaves the routers' entries of the bundle as they were |
| LifecycleState.SaveRestoreRoundTrip | conductor/src/main/java/com/bluelinelabs/conductor/internal/LifecycleHandler.java:193-210 | restoring a saved bundle reproduces both tables and the pending queue, whatever the handler held before |
| Lifecycle.LifecycleHandler.OnAttach | conductor/src/main/java/com/bluelinelabs/conductor/internal/LifecycleHandler.java:212-215 | clears `destroyed`, then attaches as `SetAttached` does |
| Lifecycle.LifecycleHandler.OnDetach | conductor/src/main/java/com/bluelinelabs/conductor/internal/LifecycleHandler.java:217-220 | always detaches, then tears the routers down at most once |
| Lifecycle.LifecycleHandler.OnDestroy | conductor/src/main/java/com/bluelinelabs/conductor/internal/LifecycleHandler.java:222-229 | with an Activity bound: removes the callback and the registry entry, tears down the routers, unbinds; unbound: changes nothing, so a second call is a no-op |
| Lifecycle.LifecycleHandler.StartActivityForResult | conductor/src/main/java/com/bluelinelabs/conductor/internal/LifecycleHandler.java:231-239 | registers the code for the id, then asks the host once |
| Lifecycle.LifecycleHandler.StartIntentSenderForResult | conductor/src/main/java/com/bluelinelabs/conductor/internal/LifecycleHandler.java:241-247 | registers the code for the id, then asks the host once |
| Lifecycle.LifecycleHandler.RequestPermissions | conductor/src/main/java/com/bluelinelabs/conductor/internal/LifecycleHandler.java:249-257 | attached: records the owner and forwards once, the queue unchanged; detached: only queues, the table unchanged and nothing forwarded |
| Lifecycle.LifecycleHandler.InvalidateOptionsMenu | conductor/src/main/java/com/bluelinelabs/conductor/internal/LifecycleHandler.java:259-261 | one call to the host |
| Lifecycle.LifecycleHandler.StartActivity | conductor/src/main/java/com/bluelinelabs/conductor/internal/LifecycleHandler.java:263-265 | one call to the host |
| Lifecycle.LifecycleHandler.OnActivityResult | conductor/src/main/java/com/bluelinelabs/conductor/internal/LifecycleHandler.java:267-274 | an unknown code reaches no router; a known one reaches every router with its owner's id |
| Lifecycle.LifecycleHandler.OnRequestPermissionsResult | conductor/src/main/java/com/bluelinelabs/conductor/internal/LifecycleHandler.java:276-283 | an unknown code reaches no router; a known one reaches every router with its owner's id |
| Lifecycle.LifecycleHandler.ShouldShowRequestPermissionRationale | conductor/src/main/java/com/bluelinelabs/conductor/internal/LifecycleHandler.java:285-293 | no answer exactly when no router answers; otherwise the answer of the first router that has one; the log grows by one query per router asked, up to and including the one that answers, or all of them when none does |
| Lifecycle.LifecycleHandler.OnCreateOptionsMenu | conductor/src/main/java/com/bluelinelabs/conductor/internal/LifecycleHandler.java:295-299 | every router is told, in order |
| Lifecycle.LifecycleHandler.OnPrepareOptionsMenu | conductor/src/main/java/com/bluelinelabs/conductor/internal/LifecycleHandler.java:301-305 | every router is told, in order |
| Lifecycle.LifecycleHandler.OnOptionsItemSelected | conductor/src/main/java/com/bluelinelabs/conductor/internal/LifecycleHandler.java:307-314 | true exactly when some router handles the item; the log grows by one query per router asked, up to and including the first that handles it, or all of them when none does |
| Lifecycle.LifecycleHandler.OnActivityCreated | conductor/src/main/java/com/bluelinelabs/conductor/internal/LifecycleHandler.java:316-321 | a bound handler ignores the callback and nothing changes; for an unbound one the lookup runs: the resolved handler is bound with its callback registered, the registry entry and callback are added only if it had never registered, nothing changes when nothing resolves, every other handler is untouched, and this handler binds to the Activity exactly when the Activity resolves to it |
| Lifecycle.LifecycleHandler.OnActivityStarted | conductor/src/main/java/com/bluelinelabs/conductor/internal/LifecycleHandler.java:323-330 | every router is told only when the Activity is the bound one |
| Lifecycle.LifecycleHandler.OnActivityResumed | conductor/src/main/java/com/bluelinelabs/conductor/internal/LifecycleHandler.java:332-339 | every router is told only when the Activity is the bound one |
| Lifecycle.LifecycleHandler.OnActivityPaused | conductor/src/main/java/com/bluelinelabs/conductor/internal/LifecycleHandler.java:341-348 | every router is told only when the Activity is the bound one |
| Lifecycle.LifecycleHandler.OnActivityStopped | conductor/src/main/java/com/bluelinelabs/conductor/internal/LifecycleHandler.java:350-357 | every router is told only when the Activity is the bound one |
| Lifecycle.LifecycleHandler.OnActivitySaveInstanceState | conductor/src/main/java/com/bluelinelabs/conductor/internal/LifecycleHandler.java:359-368 | for the bound Activity, each router is asked once for its state (logged), which is stored under its container id, and every other entry of the bundle is kept; otherwise the bundle and the log are unchanged |
| Lifecycle.LifecycleHandler.OnActivityDestroyed | conductor/src/main/java/com/bluelinelabs/conductor/internal/LifecycleHandler.java:370-373 | the registry entry of that Activity is removed, whichever handler gets the callback |
| Lifecycle.Provider.constructor | conductor/src/main/java/com/bluelinelabs/conductor/internal/FragmentLifecycleHandlerProvider.java:9 | a new provider has no committed and no queued handler |
| Lifecycle.Provider.Install | conductor/src/main/java/com/bluelinelabs/conductor/internal/FragmentLifecycleHandlerProvider.java:13-18 | a fresh handler is created and its commit queued, not yet visible to lookups |
| Lifecycle.Provider.FindInActivity | conductor/src/main/java/com/bluelinelabs/conductor/internal/FragmentLifecycleHandlerProvider.java:20-29 | finds only a handler whose commit has run |
| Lifecycle.Provider.ExecutePendingTransactions | conductor/src/main/java/com/bluelinelabs/conductor/internal/FragmentLifecycleHandlerProvider.java:16 | the queued commits take effect in order |
| ChangeHandler.EnterType | conductor/src/main/java/com/bluelinelabs/conductor/ControllerChangeHandler.java:136 | the incoming controller gets an enter tag whose direction is the change's |
| ChangeHandler.ExitType | conductor/src/main/java/com/bluelinelabs/conductor/ControllerChangeHandler.java:137 | the outgoing controller gets an exit tag whose direction is the change's |
| ChangeHandler.ChangeTypesDistinct | conductor/src/main/java/com/bluelinelabs/conductor/ControllerChangeHandler.java:136-137 | the two sides never share a tag, and each side's tag determines the direction |
| ChangeHandler.TableAtStart | conductor/src/main/java/com/bluelinelabs/conductor/ControllerChangeHandler.java:126-130 | a push records the incoming controller's handler; a pop removes the outgoing controller's entry; no other entry changes |
| ChangeHandler.Orchestrator.constructor | conductor/src/main/java/com/bluelinelabs/conductor/ControllerChangeHandler.java:26 | the in-flight table starts empty |
| ChangeHandler.Orchestrator.NewSimpleSwapChangeHandler | conductor/src/main/java/com/bluelinelabs/conductor/ControllerChangeHandler.java:124 | the default handler is a new `SimpleSwapChangeHandler` |
| ChangeHandler.Orchestrator.CompletePushImmediately | conductor/src/main/java/com/bluelinelabs/conductor/ControllerChangeHandler.java:103-108 | the in-flight handler, if any, is told to complete immediately; the table is left as it is |
| ChangeHandler.Orchestrator.AbortPush | conductor/src/main/java/com/bluelinelabs/conductor/ControllerChangeHandler.java:110-116 | with an entry: its handler hears `onAbortPush` once, then the entry is removed; without one nothing happens |
| ChangeHandler.Orchestrator.RecordOrAbort | conductor/src/main/java/com/bluelinelabs/conductor/ControllerChangeHandler.java:126-130 | the table becomes `TableAtStart`; a pop with an entry produces one abort |
| ChangeHandler.Orchestrator.NotifyStarted | conductor/src/main/java/com/bluelinelabs/conductor/ControllerChangeHandler.java:132-153 | the start notifications happen as `StartEvents` lists them |
| ChangeHandler.Orchestrator.ExecuteChange | conductor/src/main/java/com/bluelinelabs/conductor/ControllerChangeHandler.java:122-173 | without a container nothing changes; otherwise the handler is the given one or a new default one, the table is updated as `TableAtStart` says, everyone is notified, and `performChange` gets a new completion |
| ChangeHandler.Orchestrator.ExecuteChangeWithoutListeners | conductor/src/main/java/com/bluelinelabs/conductor/ControllerChangeHandler.java:118-120 | the same change with an empty listener list: same table update, same handler numbering (a number is used only when no handler is given), and only the controllers are told |
| ChangeHandler.StartEventsInOrder | conductor/src/main/java/com/bluelinelabs/conductor/ControllerChangeHandler.java:132-153 | every listener's `onChangeStarted` comes before the incoming controller's inflate and `changeStarted`, which come before the outgoing controller's |
| ChangeHandler.Orchestrator.Complete | conductor/src/main/java/com/bluelinelabs/conductor/ControllerChangeHandler.java:155-171 | the completion removes the incoming controller's entry, for pushes and pops alike, every other id keeps its entry, and the log grows by `EndEvents` |
| ChangeHandler.EndEventsInOrder | conductor/src/main/java/com/bluelinelabs/conductor/ControllerChangeHandler.java:155-171 | outgoing `changeEnded`, then removal of the incoming entry, then incoming `changeEnded`, then every listener's `onChangeCompleted` |
| ChangeHandler.ListenersSeeInHandler | conductor/src/main/java/com/bluelinelabs/conductor/ControllerChangeHandler.java:132-169 | listeners receive the handler the caller passed, possibly none, at start and at completion |
| ChangeHandler.TagsMatchAtStartAndEnd | conductor/src/main/java/com/bluelinelabs/conductor/ControllerChangeHandler.java:136-164 | a controller ends its change with the same handler and tag it started with; tags follow the direction, enter for the incoming and exit for the outgoing controller |
| ChangeHandler.FromBundle | conductor/src/main/java/com/bluelinelabs/conductor/ControllerChangeHandler.java:91-101 | a null bundle gives no handler; a missing or unknown class is an error; otherwise an instance of the named class restored from the saved-state entry |
| ChangeHandler.ToBundle | conductor/src/main/java/com/bluelinelabs/conductor/ControllerChangeHandler.java:72-81 | both keys are always written: the handler's class name and what its `saveToBundle` wrote |
| ChangeHandler.BundleRoundTrip | conductor/src/main/java/com/bluelinelabs/conductor/ControllerChangeHandler.java:72-101 | a handler's bundle brings back its class, and what `saveToBundle` wrote reaches `restoreFromBundle` |
| ChangeHandler.RemovesFromViewOnPush | conductor/src/main/java/com/bluelinelabs/conductor/ControllerChangeHandler.java:175-177 | true unless the handler's class overrides it |
| Scenarios.ActivityResultReachesEveryRouter | conductor/src/main/java/com/bluelinelabs/conductor/internal/LifecycleHandler.java:267-274 | code 42 registered for "R1" reaches both routers, tagged "R1" |
| Scenarios.DeferredPermissionForwardedOnce | conductor/src/main/java/com/bluelinelabs/conductor/internal/LifecycleHandler.java:158-167 | a request made while detached is forwarded exactly once across two attaches |
| Scenarios.ReplayOrderIsReversed | conductor/src/main/java/com/bluelinelabs/conductor/internal/LifecycleHandler.java:162-165 | two queued requests for one code are forwarded in reverse order and the first queued owns the code |
| Scenarios.TeardownIsIdempotent | conductor/src/main/java/com/bluelinelabs/conductor/internal/LifecycleHandler.java:169-229 | two detaches and two destroys tell the router about the destroyed Activity once |
| Scenarios.InstallTwiceBeforeCommit | conductor/src/main/java/com/bluelinelabs/conductor/internal/LifecycleHandler.java:95-121 | two installs before the provider commits return the same handler |
| Scenarios.InstallThenGetRouterTwice | conductor/src/main/java/com/bluelinelabs/conductor/internal/LifecycleHandler.java:95-142 | `install(activity).getRouter(container, null)` twice: the second install finds the first handler and gets back the same router |
| Scenarios.PopAbortsInFlightPush | conductor/src/main/java/com/bluelinelabs/conductor/ControllerChangeHandler.java:110-130 | popping a controller whose push is in flight aborts that push once, telling its handler about the new one, and leaves no entry |
| Scenarios.PushCompletesAndClears | conductor/src/main/java/com/bluelinelabs/conductor/ControllerChangeHandler.java:103-165 | a push without a handler uses a `SimpleSwapChangeHandler`, and its completion clears the table |

## Left out

- `getLifecycleHandlerProvider` (reading application metadata and instantiating a class by name) is not modelled. The provider is passed in as a `Provider` object that behaves like the fragment-based default.
- The fragment components only delegate to the handler, so they are not modelled.
- The support-library provider (`SupportFragmentLifecycleHandlerProvider.java:23-39`) is the same install/lookup pair over the support `FragmentManager`, so `Provider` stands for it as well. Its rejection of an Activity that is not a `FragmentActivity` (a `RuntimeException` thrown before either step, `:16-20`, `:24`, `:33`) is a configuration error that is not modelled: every `Activity` is taken to be acceptable to the provider in use.
- The Parcel encoding of `PendingPermissionRequest` and the request-code tables is not modelled. Saved state is the `SavedState` record, with one optional field per bundle key.
- Aliasing is not modelled. `saveState` puts the live pending list into the bundle, and `restoreState` adopts the bundle's lists. The model copies values, so a later change to one side does not show in the other.
- The iteration order of `routerMap.values()`, a `HashMap`, is unspecified. The model fixes it to the order in which routers were added (`routerOrder`).
- Routers, the host component, controllers, listeners and change handlers are external. Their calls are log events, and the answers of router queries are function parameters with no side effects; each query is logged. Re-entrant calls from them back into the handler or the orchestrator are not modelled.
- `getRouterHashKey` uses the container's id, and the restore key uses the router's container id. The model assumes both are the same id.
- The `MenuInflater` argument of `onCreateOptionsMenu`, the `Context` of `onAttach` and the bundle of `onActivityCreated` are unused by the core and dropped. The getter `getLifecycleActivity` is the `activity` field itself.
- The application's callback list is a set, because a handler registers at most once between unregistrations.
- `restoreState` can refill the pending queue while the handler is attached. Those requests then wait for the next detach and attach; the model does not claim the queue is empty while attached.
- `ensureDefaultConstructor` and `ClassUtils.newInstance` are modelled only as the `constructible` set of class names that can be instantiated. `ClassUtils` is not part of this model. A handler whose class has no default constructor cannot be created, so every `Handler` value is taken to be constructible.
- A handler's identity is a number. Handlers created by the orchestrator take numbers from `nextHandlerId`. The model assumes callers do not reuse those numbers.
- ChangeHandler.Orchestrator.Complete: the completion reads the caller's `listeners` list by reference (`ControllerChangeHandler.java:122`, `:167`), so a listener added to it during the change is told `onChangeCompleted` without having been told `onChangeStarted`, and a listener removed from it is told nothing. The model stores a copy of the list in `Change`, so completion tells exactly the listeners that were told of the start.
- `performChange` itself (views, animations) is not modelled. It stores a completion; `Complete(k)` runs it and may be called any number of times, as the callback can be.
- The view of each controller handed to `performChange` is represented by the controller. `from.getView()` is not logged, because it has no effect.

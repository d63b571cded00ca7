# Route controller and F5 driver, modelled in Dafny

The route controller watches OpenShift routes and keeps an external load
balancer in step with them. A route is *managed* when its host ends with the
watched suffix or when it carries the `route.elisa.fi/lbenabled` annotation.
For a managed route the controller asks its provider to set up two pools
(ports 80 and 443) with this cluster's member, pool settings and an HTTP or
HTTPS health monitor. When the route goes away it takes the member out again,
and a pool left empty is deleted with its monitor. Providers are looked up by
name in a registry. The repository ships two providers: a recording fake used
by the tests, and a driver for F5 BIG-IP devices.

The model has these parts:

- **Strings** (`strings.dfy`): suffix test, `Before` (the part up to a
  separator), comma splitting, ASCII lower-casing, and Go's `strconv.Atoi`
  with its sign, digits and 64-bit range.
- **Routes** (`routes.dfy`): the annotation keys, the resolver
  `overrideWithAnnotation` (path, method, balancing method, minimum of active
  members, maintenance), and the managed predicate.
- **Provider** (`provider.dfy`): the provider interface as a call alphabet.
  It is one `Call` datatype carrying the arguments the controller actually
  supplies.
- **Workflows** (`workflows.dfy`):
  - ensure-present and ensure-absent, with ports 80 and 443 interleaved step
    by step;
  - the patch branch of an update;
  - the reporting of provider errors. A failed call never shortens a
    workflow.
- **Dispatcher** (`dispatcher.dfy`): `createRoute`, `deleteRoute` and
  `updateRoute`, with the literal branch conditions of the update handler.
- **Registry** (`registry.dfy`): provider registration and the
  lower-cased lookup.
- **FakeProvider** (`fake.dfy`): the recording provider's call log.
- **Scanner** (`scanner.dfy`): controller startup. It covers the
  configuration checks, the provider lookup, `Initialize` and the orphan
  sweep `cleanUp`.
- **F5** (`f5.dfy`): the F5 driver's decisions over an abstract device, a
  map of pools and a map of monitors. Every device write takes the device's
  reply as an input, so the error paths are modelled. The model covers:
  - naming and monitor scheme;
  - the "already exists" filter;
  - member patching;
  - mode defaulting;
  - deletion of empty pools;
  - the orphan scan with its partition filter;
  - HA address rotation and configuration sync.
- **Convergence** (`convergence.dfy`) and **Teardown** (`teardown.dfy`):
  the controller's workflows run against the F5 driver on a device that
  accepts every write. Ensure-present leaves both pools ready. Ensure-absent
  clears them again. The two together leave no trace of a host that was
  absent before.
- **Scenarios** (`scenarios.dfy`): the handlers driven against the
  recording provider, in general and for the routes of the controller's own
  test suite.

Where the controller's test suite and its code disagree, the model follows
the code. `pkg/controller/controller_test.go:198-232` expects no provider
call when an unchanged managed route is redelivered. The patch branch of
`updateRoute` (`pkg/controller/controller.go:284`, `:321`) always issues
`PreUpdate` and `PostUpdate`, so the model's log for that case is
`["PreUpdate", "PostUpdate"]` (`Scenarios.RedeliveredUpdates`).

## Model

| member | source | states |
|---|---|---|
| Strings.Before | pkg/controller/providers/f5/f5.go:256-259 | The part of a name up to the first separator is a prefix free of the separator, and it ends right at the separator when one occurs. |
| Strings.BeforeJoin | pkg/controller/providers/f5/f5.go:294 | Cutting `a + c + b` at the first `c` gives back `a` when `a` holds no `c`. |
| Strings.Split | pkg/controller/providers/f5/f5.go:73 | Splitting the address list at commas gives at least one part, no part holds a comma, and joining the parts with commas rebuilds the input. |
| Strings.ToLower | pkg/controller/plugins.go:73-78 | Lower-casing keeps the length, turns each upper-case ASCII letter into its lower-case letter, keeps every other character, and so yields a lower-case string and leaves a lower-case string as it is. |
| Strings.Atoi | pkg/controller/controller.go:360-370 | A parse succeeds only on an optionally signed, non-empty run of digits whose value fits in 64 bits, and only a leading minus gives a negative value. |
| Strings.AtoiItoa | pkg/controller/controller.go:360-370 | Every 64-bit integer printed in decimal parses back to itself. |
| Strings.AtoiPlusSign | pkg/controller/controller.go:360-370 | A leading plus sign is accepted: `+n` parses to n for every non-negative 64-bit n. |
| Strings.AtoiLeadingZero | pkg/controller/controller.go:360-370 | Leading zeros are accepted: `0n` parses to n, and `-0` parses to zero. |
| Routes.Resolve | pkg/controller/controller.go:345-375 | Path, method and balancing method are their annotation's value or the default. Maintenance holds exactly when its key is present. The pool minimum is the parsed value, or 0 when the key is missing or does not parse. |
| Routes.ResolveDefaults | pkg/controller/controller.go:345-359 | Without recognised annotations the settings are `("/", "GET", "", 0, false)`. |
| Routes.ResolveOverridesOneField | pkg/controller/controller.go:345-375 | Setting one annotation changes only the field that key controls; the path, method and balancing-method keys set their field to the value verbatim, and an unrecognised key changes nothing. |
| Routes.ResolveIgnoresBadPga | pkg/controller/controller.go:360-370 | An unparsable pool minimum leaves 0 and resolves as if the key were absent. |
| Routes.MaintenanceByPresence | pkg/controller/controller.go:371-373 | Maintenance is on for any value of its key, including the empty string, and off without the key. |
| Routes.NoLabelBoundary | pkg/controller/controller.go:327-339 | The suffix test is plain: "footest.com" is watched under "test.com", "foo.testx.com" is not. |
| Provider.NamesAppend | pkg/controller/providers/fakeprovider/fakeprovider.go:31-35 | The names logged for two call sequences in a row are the two logs concatenated. |
| Workflows.Interleave | pkg/controller/controller.go:145-234 | The two ports' steps alternate: position 2i holds port 80's step i and position 2i+1 holds port 443's. |
| Workflows.EnsurePresentShape | pkg/controller/controller.go:145-234 | Ensure-present opens with `PreUpdate`, closes with `PostUpdate`, and between them alternates ports 80 and 443. Each port sees create pool, add member, modify pool, create monitor, add monitor to pool, in that order. |
| Workflows.EnsurePresentSpelled | pkg/controller/controller.go:145-234 | Ensure-present is the twelve calls in order, with the cluster alias as member, the resolved settings, interval 3 and timeout 10. |
| Workflows.EnsureAbsentShape | pkg/controller/controller.go:236-261 | Ensure-absent is bracketed the same way. Each port sees delete member, then check and clean, with the two ports alternating. |
| Workflows.EnsureAbsentSpelled | pkg/controller/controller.go:236-261 | Ensure-absent is `PreUpdate`, `DeletePoolMember` 80/443, `CheckAndClean` 80/443, `PostUpdate`. |
| Workflows.Patch | pkg/controller/controller.go:281-321 | The patch branch always opens with `PreUpdate` and closes with `PostUpdate`. It holds a `ModifyPool` call exactly when balancing method, pool minimum or maintenance changed, and a `ModifyMonitor` call exactly when path or method changed. Every call in between carries the new settings. |
| Workflows.PatchShape | pkg/controller/controller.go:281-321 | The patch branch is bracketed, addresses ports 80 and 443 only, and issues each update on port 80 and right after on port 443. Seen from either port, the pool update comes before the monitor update. |
| Workflows.PatchUnchanged | pkg/controller/controller.go:281-321 | With no setting changed, the patch branch is just `PreUpdate`, `PostUpdate`. |
| Workflows.PatchPgaOnly | pkg/controller/controller.go:281-321 | A change of the pool minimum alone issues exactly the two `ModifyPool` calls between the brackets. |
| Workflows.OnPortInterleave | pkg/controller/controller.go:145-261 | Filtering an interleaving by port gives back each port's own steps. |
| Workflows.Diagnostics | pkg/controller/controller.go:145-261 | Every refused error-returning call is reported with its operation, host and message, nothing else is reported, and a run without refusals reports nothing. |
| Workflows.DiagnosticsInOrder | pkg/controller/controller.go:145-261 | Diagnostics come out in the order the calls were issued: one more call appends at most its own report at the end. |
| Dispatcher.CreateRoute | pkg/controller/controller.go:334-343 | `createRoute` issues calls exactly when the route is managed by its spec host or annotation, and then they are ensure-present with the resolved settings. |
| Dispatcher.DeleteRoute | pkg/controller/controller.go:326-333 | `deleteRoute` issues calls exactly when the route is managed, and then they are ensure-absent for the spec host. |
| Dispatcher.UpdateRoute | pkg/controller/controller.go:263-324 | Without an ingress entry on both sides nothing is issued. The first branch runs ensure-present on the new status host, the second runs ensure-absent on the old one, and the third runs the patch. Nothing is issued exactly when the update is not admitted or ignored. |
| Dispatcher.BranchImpliesManaged | pkg/controller/controller.go:270-280 | The set-up branch is taken only for a managed new route, the tear-down branch only for a managed old one. |
| Dispatcher.ReconfigureExactly | pkg/controller/controller.go:270-281 | The patch branch is reached exactly when neither transition condition holds and the new route is managed, and then both routes are managed. |
| Dispatcher.IgnoreExactly | pkg/controller/controller.go:270-281 | An admitted update does nothing exactly when neither route is managed. |
| Dispatcher.UpdateEnteringIsCreate | pkg/controller/controller.go:272-275 | A route becoming managed is set up as `createRoute` would set it up. |
| Dispatcher.UpdateLeavingIsDelete | pkg/controller/controller.go:277-280 | A route ceasing to be managed is torn down as `deleteRoute` would tear it down. |
| Dispatcher.UnchangedManagedUpdate | pkg/controller/controller.go:281-321 | Redelivering an unchanged managed route issues `PreUpdate` and `PostUpdate` only. |
| Dispatcher.StillManagedButTornDown | pkg/controller/controller.go:277-280 | The literal conditions are not a comparison of managed-ness: an opted-in route whose host leaves the suffix stays managed, yet its old host is torn down and its new one is not set up. |
| Dispatcher.OptInOnWatchedRouteRecreates | pkg/controller/controller.go:272-275 | A watched route that gains the opt-in key goes through ensure-present again instead of the patch. |
| Registry.Empty | pkg/controller/plugins.go:49-52 | The registry starts with no provider. |
| Registry.GetProvider | pkg/controller/plugins.go:62-70 | A lookup finds a provider exactly when the name is registered, and then it is the registered one. |
| Registry.Register | pkg/controller/plugins.go:55-60 | After registering, the name finds the new provider, every other name finds what it found before, and the only key added is the name. |
| Registry.RegisterOverwrites | pkg/controller/plugins.go:59 | Registering a name twice keeps the later provider. |
| Registry.InitProvider | pkg/controller/plugins.go:73-78 | The configured name is lower-cased before the lookup. |
| Registry.InitProviderFindsOnlyLowerCase | pkg/controller/plugins.go:59-78 | A registration under a name with upper-case letters is never found. A lower-case one is found by any spelling that lower-cases to it. |
| Registry.ConfiguredNameIsCaseInsensitive | pkg/controller/plugins.go:73-78 | "F5" finds a provider registered as "f5" and none registered as "F5". |
| FakeProvider.NewFake | pkg/controller/providers/fakeprovider/fakeprovider.go:24-29 | A new recording provider has an empty log. |
| FakeProvider.Invoke | pkg/controller/providers/fakeprovider/fakeprovider.go:31-103 | Each operation appends exactly its own name. Error-returning ones answer nil, `CheckPools` answers no host, and the others answer nothing. |
| FakeProvider.CleanCalls | pkg/controller/providers/fakeprovider/fakeprovider.go:111-113 | Cleaning leaves an empty log. |
| FakeProvider.Replay | pkg/controller/providers/fakeprovider/fakeprovider.go:31-35 | Replaying calls appends their names to the log in order. |
| Scanner.SweepTearsDown | pkg/controller/controller.go:139-142 | Ensure-absent over a list of hosts tears down each listed host as many times as it is listed, and no other host. |
| Scanner.EnsureAbsentTearsDownOnce | pkg/controller/controller.go:236-261 | One ensure-absent tears down its own host exactly once. |
| Scanner.CleanUp | pkg/controller/controller.go:132-143 | Without a route listing nothing happens. Otherwise `CheckPools` is asked once, and then every reported host is torn down exactly once and no other host is, in whatever order the report is walked. |
| Scanner.Start | pkg/controller/controller.go:98-127 | A missing suffix or cluster alias, or an unregistered provider, is fatal with the source's message. Otherwise the provider is initialised first and the sweep tears down exactly the reported orphans. |
| F5.Scheme | pkg/controller/providers/f5/f5.go:179-182 | The monitor scheme is "https" exactly on port 443, and "http" on every other port. |
| F5.Absorb | pkg/controller/providers/f5/f5.go:51-56 | A create succeeds when the device accepts or says the object already exists in the partition. Any other refusal is returned unchanged. |
| F5.AlreadyExistsIsSuccess | pkg/controller/providers/f5/f5.go:51-56 | Any message ending in "already exists in partition." counts as success. |
| F5.CreatePool | pkg/controller/providers/f5/f5.go:103-111 | The pool `host_port` exists after an accepted create, and a pool that was missing is created empty (no members, no monitor, no mode, no PGA). An existing pool or a refusal changes nothing, and no other pool changes. |
| F5.AddPoolMember | pkg/controller/providers/f5/f5.go:114-123 | The member `alias:port` is in the pool after an accepted add and the driver remembers the alias. A member not yet present is appended with no state or session, and no other member changes. A missing pool stays missing, and other pools and monitors are untouched. |
| F5.FindMember | pkg/controller/providers/f5/f5.go:132-133 | The lookup finds the first member with the name, or reports that there is none. |
| F5.RemoveMember | pkg/controller/providers/f5/f5.go:223-225 | Deleting a member removes every entry of that name and keeps every other member. |
| F5.SessionFor | pkg/controller/providers/f5/f5.go:138-144 | The session is "user-disabled" exactly in maintenance, "user-enabled" otherwise. |
| F5.ModifyMember | pkg/controller/providers/f5/f5.go:125-153 | Only the first member named `alias:port` is patched, with the given priority and the maintenance session. Every other member, later namesakes included, and the pool's other fields stay. A refusal or a missing member changes nothing. |
| F5.PatchMember | pkg/controller/providers/f5/f5.go:134-151 | Patching one member keeps every name, so every later lookup finds the same position. |
| F5.ModeFor | pkg/controller/providers/f5/f5.go:162-166 | The balancing mode is the requested one, or "round-robin" when none is requested. |
| F5.ModifyPool | pkg/controller/providers/f5/f5.go:156-175 | A missing pool returns an error before any change. Otherwise only the first member named `alias:port` is patched, and a refused patch keeps every member. On acceptance the pool gets the mode and the minimum of active members, and a refused pool write keeps them. The member patch stays even when the pool write is refused. |
| F5.CreateMonitor | pkg/controller/providers/f5/f5.go:178-190 | An accepted create makes the monitor named after the pool with the given interval, timeout and request, under the port's scheme. An existing monitor or a refusal changes nothing. |
| F5.ModifyMonitor | pkg/controller/providers/f5/f5.go:193-209 | An accepted modify gives the existing monitor the new settings. A missing monitor is not created, and every device error is returned and changes nothing. |
| F5.AddMonitorToPool | pkg/controller/providers/f5/f5.go:212-220 | An accepted call makes the pool watched by its monitor. Other pools are untouched. |
| F5.DeletePoolMember | pkg/controller/providers/f5/f5.go:223-225 | An accepted delete removes the member from the pool, and the device's answer is returned as it is. |
| F5.CheckAndClean | pkg/controller/providers/f5/f5.go:228-247 | When no members are seen, the pool and then the monitor are deleted, each unless the device refuses. That happens for an empty pool, a missing pool and a pool whose member read is refused, since a failed read does not stop the call. A pool seen with members is left as it is. |
| F5.PreUpdate | pkg/controller/providers/f5/f5.go:311-334 | With one address, a failed query or an active unit, nothing changes. On "standby" the next address is taken, wrapping round, and the address index stays within the list. |
| F5.StandbyRoundsRotate | pkg/controller/providers/f5/f5.go:325-333 | After n standby answers the driver is n addresses further on, modulo the list length. |
| F5.PostUpdate | pkg/controller/providers/f5/f5.go:337-350 | The configuration is synced to the configured group exactly when there is not exactly one address. |
| F5.InitializeDecidesHa | pkg/controller/providers/f5/f5.go:59-100 | After initialisation, a list without commas gives exactly one address, whose driver is never switched and never synced; a list with a comma gives at least two addresses, and a sync goes to the configured group. |
| F5.SingleAddressIsInert | pkg/controller/providers/f5/f5.go:311-350 | A single-address device is never switched and never synced. |
| F5.NewDriver | pkg/controller/providers/f5/f5.go:42-49 | A new driver has no address, index 0, sync group "cluster" and no partition. |
| F5.Initialize | pkg/controller/providers/f5/f5.go:59-100 | Initialisation fails exactly when the address list, the user or the password is missing, with the source's message for a missing address list. The address list is split at commas into comma-free addresses, which join back to the list, and the session opens on the first address. A non-empty group or partition replaces the default. |
| F5.InitializeFreshIsValid | pkg/controller/providers/f5/f5.go:42-100 | A new driver initialised with a complete configuration has its address index inside the list. |
| F5.GetPools | pkg/controller/providers/f5/f5.go:266-281 | The pools kept are exactly the listed ones in scope: partition "Common" when none is configured, else the configured partition. |
| F5.Orphans | pkg/controller/providers/f5/f5.go:284-308 | A host is reported exactly when some pool holds a member of this cluster, the host is the pool's name up to its first underscore, and no managed route has that spec host. |
| F5.CheckPools | pkg/controller/providers/f5/f5.go:284-308 | A failed listing reports no host. Otherwise the hosts reported are exactly those of in-scope pools holding this cluster's member and covered by no managed route. |
| F5.NamingRoundTrip | pkg/controller/providers/f5/f5.go:104-116 | Pool names give back their host and member names give back their alias, for hosts without underscores and aliases without colons. |
| F5.OrphanReported | pkg/controller/providers/f5/f5.go:284-308 | A pool this driver made for a host that no managed route covers any more is reported. |
| Convergence.Apply | pkg/controller/plugins.go:20-46 | Each interface call on the driver keeps the driver's address index valid and leaves addresses, group and partition as they were. |
| Convergence.EnsurePresentConverges | pkg/controller/controller.go:145-234 | On a device that accepts every write, ensure-present reports no error and leaves both pools holding the patched member, with mode, minimum and monitor. It creates a missing monitor with the requested health check and keeps an existing one. It puts only this cluster's member into a pool it creates, and touches no other host. |
| Teardown.EnsureAbsentConverges | pkg/controller/controller.go:236-261 | On a device that accepts every write, ensure-absent reports no error and removes this cluster's member from both pools. It deletes a pool it empties together with its monitor, deletes the leftover monitor of a pool that does not exist, keeps other clusters' members and the monitor of a pool it does not empty, and touches no other host. |
| Teardown.PresentThenAbsent | pkg/controller/controller.go:145-261 | Ensure-present then ensure-absent on a host that had no pools leaves no pool and no monitor of that host, and nothing else changed. |
| Scenarios.NamesAt | pkg/controller/providers/fakeprovider/fakeprovider.go:31-35 | The log holds, at each position, the name of the call made there. |
| Scenarios.CreateLogged | pkg/controller/controller.go:334-343 | On a new recording provider, `createRoute` logs ensure-present's twelve names for a managed route and nothing otherwise. |
| Scenarios.DeleteLogged | pkg/controller/controller.go:326-333 | On a new recording provider, `deleteRoute` logs ensure-absent's six names for a managed route and nothing otherwise. |
| Scenarios.UpdateLogged | pkg/controller/controller.go:263-324 | `updateRoute` logs ensure-present's names when a route enters and ensure-absent's when it leaves. A reconfiguration logs a bracketed log, and an update that is not admitted or is ignored logs nothing. |
| Scenarios.FakeAnswersNil | pkg/controller/providers/fakeprovider/fakeprovider.go:43-93 | The recording provider's error-returning calls answer nil, and `CheckPools` records one call and reports no host. |
| Scenarios.CreateCases | pkg/controller/controller_test.go:16-87 | The create test's routes: a watched host and an opted-in host log ensure-present, a look-alike suffix logs nothing. |
| Scenarios.DeleteCases | pkg/controller/controller_test.go:89-160 | The delete test's routes: the same hosts log ensure-absent or nothing. |
| Scenarios.RedeliveredUpdates | pkg/controller/controller_test.go:198-232 | Redelivering a watched route and then an unwatched one leaves `PreUpdate`, `PostUpdate` in the log, where the test expects an empty log. |
| Scenarios.SuffixTransitions | pkg/controller/controller_test.go:236-314 | A host leaving the suffix logs ensure-absent, a host entering it logs ensure-present. |
| Scenarios.OptInTransitions | pkg/controller/controller_test.go:316-402 | Gaining the opt-in key logs ensure-present, losing it logs ensure-absent. |
| Scenarios.CleanCallsEmpties | pkg/controller/controller_test.go:40-43 | Cleaning the log between cases leaves it empty. |

## Left out

- The informer, list/watch and resync machinery, and the live route
  listing. These are Kubernetes I/O. Events, route lists and the listing's
  failure are parameters.
- Environment-variable reads and the panics on missing values in
  `NewRouteController`, `InitProvider` and the F5 `Initialize`. The values
  are parameters, and a panic is the `Fatal`/`Abort` outcome.
- Sentry reporting (`pkg/common/common.go`) and `log.Printf`. They are side
  channels. Their content is stated only as `Workflows.Diagnostics`, the
  list of refused calls reported.
- The go-bigip HTTP session, the session login, and the monitor's receive
  pattern. They belong to a foreign library. The device is an in-memory map
  of pools and monitors, writes take the device's reply as an input, and the
  pool listing and the HA state query are answers passed in.
- The HA configuration sync itself. `F5.PostUpdate` states only whether it
  runs and to which group; what the device copies is not modelled.
- `providersMutex`, `addCallLock`, the `sync.WaitGroup` and the stop
  channel. They are concurrency guards without sequential meaning.
- `cmd/main.go` (flags, kubeconfig, signals) and
  `pkg/controller/providers/f5/f5_test.go`, which needs a live device.
- The F5 driver's `Calls` and `CleanCalls`. They are empty stubs that exist
  for the interface.
- Scanner.CleanUp: Go's map iteration order is not modelled. The order is
  an output chosen by the method, and the promise is stated over multisets.
- Strings.ToLower: only ASCII letters are lowered, whereas Go's
  `strings.ToLower` also lowers other Unicode letters.
- F5.CheckAndClean: a refused member read is taken as an empty member
  list, so the call goes on to delete the pool and the monitor. The source
  only logs the read error and reads the list it got. Should the library
  hand back no list at all on an error, the source would fail with a nil
  dereference there instead; that failure is not modelled.
- The differing `ModifyPool` signatures: the controller passes five
  arguments, the interface declares six including a priority, and the
  recording provider takes four. `Call.ModifyPool` carries the controller's
  five. The priority is an input of the F5 model and of the convergence
  interpreter only.
- The differing `CheckPools` results: the recording provider returns an
  empty list and the interface a set of hosts. Both are modelled as "no
  host" and as a `set<string>` respectively.
- Convergence.EnsurePresentConverges and Teardown.EnsureAbsentConverges are
  stated only for a device that accepts every write. Their behaviour under refusals is covered call by call by the F5
  members' contracts.

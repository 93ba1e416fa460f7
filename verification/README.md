# Event Gateway: routing, configuration pipeline and worker pool

A Dafny model of the three parts of the event gateway that carry its state, with proofs of
what they promise over every run. `dafny verify dfyconfig.toml` checks everything.

**The route tree.** `PathTree.Node` is the mutable prefix tree: nodes on the heap, a
`children` map each, `AddRoute`, `DeleteRoute` and `Resolve` as loops that walk and change
them; `first` is a non-deterministic choice. A root's ghost view gives the tree as a value
(`RouteTrie.Trie`, a finite map from node paths to optional values), and each method is
proved to do to that value what `Added`, `Removed` and `Lookup` say. `RouteTable` and
`RouteHistory` then prove that the value behaves like a plain table of patterns with the
declarative relation `Patterns.Matches`, over every run.

**The configuration pipeline.** `Service.Service` writes functions, event types and
subscriptions into the shared store (`Store.KV`) through namespaced views
(`Store.Prefixed`); `Watcher.Watcher` turns the store's changes into events;
`SubscriptionCache` and `FunctionCache` fold the events; `Target.Target` answers the
router's lookups. `ServiceModel` states each operation as an error and a new catalog and
carries the invariants over runs; `Acceptance` says exactly what is accepted and what is
kept; `Session`, `ExactAgreement`, `Agreement`, `AsyncLists` and `Disagreement` say exactly
when the caches agree with the store; `ServiceSession` and `ServiceAgreement` put service
runs and watch sessions together.

**The worker pool.** `WorkerPool` is a state machine over atomic steps, with a position per
worker, per request and per call of `Drain`; `PoolSafety`, `PoolFifo`, `PoolDrain`,
`PoolProgress` and `PoolOrder` prove conservation, order, drain safety, termination and the
bound on workers over every interleaving; `PoolRaces` gives the two runs that the side
conditions exclude. `Router.Router` has the router's own fields and methods; every atomic step
it takes is a step of the machine, which its fields always agree with.

## What the code does where its documentation says otherwise

- The comment on `AddRoute` promises a panic for conflicting routes; the code returns an
  error (`internal/pathtree/tree.go:32-97`). The model returns the error.
- The comment on `DeleteRoute` promises a panic for missing nodes; the code returns an error
  when only the last node is missing and dereferences nil when an earlier one is
  (`internal/pathtree/tree.go:102-128`). The first is modelled as the error, the second is
  a precondition (`CanWalkToParent`).
- `docs/subscription-types.md:28-32` lists two conflicts; the tree also refuses a parameter
  beside a static segment, and anything beside a wildcard. `RouteTable.AcceptedIffCompatible`
  has the full condition.
- `DeleteRoute` prunes no ancestors, a space checks only its own paths while the trees are
  shared by all spaces, and a deletion of a path the tree refused walks off it. So agreement
  of cache and store needs conditions: `Disagreement` has one session for each failure,
  `ExactAgreement` the exact condition, for one change and for a whole session, and
  `Agreement` and `ServiceSession.OneSpaceAgrees` prove it met under conditions on what was
  written.
- An update of an async subscription appends its function once more, and a deletion takes one
  occurrence away, so a function can stay listed with nothing subscribed
  (`internal/cache/subscription_cache.go:57-66`, `Disagreement.UpdateLingers`).
  `ServiceAgreement.ServiceListsExact` counts exactly how often.
- Overlapping drains can leave more workers than configured (`router/router.go:144-163`,
  `PoolRaces.OverlappingDrains`); `PoolOrder.BoundedIffCleanStarts` says exactly when.

## Model

| member | source | states |
|---|---|---|
| `Patterns.LocateRenders` | internal/pathtree/tree.go:178-184 | every absolute route splits into segments that join back to it |
| `Patterns.RenderLocates` | internal/pathtree/tree.go:178-184 | every list of slash-free segments is the split of some route |
| `Patterns.CompatibleDisjoint` | internal/pathtree/tree.go:136-176 | no path matches two well-formed compatible patterns |
| `Patterns.ParamsBind` | internal/pathtree/tree.go:144-171 | the parameters of a matching pattern: none for the root, otherwise exactly the names of its parameter and wildcard segments, each bound to what the last segment of that name takes, one segment of the path or the joined rest |
| `Patterns.ParametersRoundTrip` | internal/pathtree/tree.go:144-183 | with distinct names, putting the bound parameters back into the matching pattern rebuilds the requested path, the wildcard's value being the joined rest |
| `Patterns.BoundRebuilds` | internal/pathtree/tree.go:144-183 | any parameters that bind the names so rebuild the path |
| `PathTree.Node.constructor` | internal/pathtree/tree.go:23-27 | a new root is a valid tree holding no route |
| `PathTree.Node.Create` | internal/pathtree/tree.go:193-212 | a created node's flags and parameter name describe its segment; it has no children and no value |
| `PathTree.Node.Inspect` | internal/pathtree/tree.go:51-56 | the node looked at is the segment's own child if there is one, else any child, and nil exactly for a childless node |
| `PathTree.Node.Descend` | internal/pathtree/tree.go:46-97 | the loop of `AddRoute` stops at the first objection of the specification or reaches the last segment's node, all nodes on the way created |
| `PathTree.Node.AddRoute` | internal/pathtree/tree.go:34-100 | the error and the new tree are those of the specification, for any route string, conflicting and ill-formed ones included, whatever child `first` picks |
| `PathTree.Node.DeleteRoute` | internal/pathtree/tree.go:103-132 | drops a leaf or only the value of an inner node, gives an error exactly when the route has no node, leaves all else alone |
| `PathTree.Node.Resolve` | internal/pathtree/tree.go:136-176 | returns the value of the registered pattern that matches, and as parameters exactly its names with what they take, from which with distinct names the path can be rebuilt; nothing when none matches; the answer does not depend on `first` |
| `RouteTrie.AnyChildDecides` | internal/pathtree/tree.go:51-82 | inspecting any child of a node gives the verdict that all of them together imply |
| `RouteTrie.AtMostOneMatch` | internal/pathtree/tree.go:136-176 | at most one node of a tree matches a path |
| `RouteTrie.MatchDecides` | internal/pathtree/tree.go:136-176 | the lookup of a path that some node matches is that node's value |
| `RouteTable.AcceptedIffFits` | internal/pathtree/tree.go:34-100 | `AddRoute` accepts a pattern exactly when it is well-formed and compatible with every node, valueless ones included |
| `RouteTable.ErrorExplained` | internal/pathtree/tree.go:34-97 | a route is called taken exactly when it is registered and ends in no wildcard; every other error names what is wrong at some segment |
| `RouteTable.AcceptedIffCompatible` | internal/pathtree/tree.go:34-100 | in a tree without leftovers it accepts exactly the well-formed patterns compatible with all registered ones |
| `RouteTable.AcceptedIsCompatible` | internal/pathtree/tree.go:34-100 | in any tree, what is accepted is compatible with all registered routes |
| `RouteTable.LeftoversRefuse` | internal/pathtree/tree.go:119-123 | after adding and deleting `/a/b` an empty table still refuses `/:x` |
| `RouteTable.AddedKeepsOk` | internal/pathtree/tree.go:34-100 | every `AddRoute`, failing ones included, keeps the invariant on siblings and wildcards |
| `RouteTable.RemovedKeepsOk` | internal/pathtree/tree.go:103-132 | every `DeleteRoute` keeps it |
| `RouteTable.AddedInTable` | internal/pathtree/tree.go:34-100 | an accepted route enters the table of registered routes; a refused one changes nothing in it, even when its inner wildcard left nodes behind |
| `RouteTable.RemovedFromTable` | internal/pathtree/tree.go:103-132 | deletion removes exactly the route deleted |
| `RouteTable.AddThenDelete` | internal/pathtree/tree.go:34-132 | deleting a route just added is safe and restores every lookup |
| `RouteTable.AddThenDeleteRestores` | internal/pathtree/tree.go:103-132 | the tree itself is restored exactly when the new node hung under an existing one or had children of its own |
| `RouteHistory.RunKeepsTable` | internal/pathtree/tree.go:34-132 | over every run of additions and deletions of registered routes the tree holds exactly the plain table, whose patterns are well-formed and pairwise compatible |
| `RouteHistory.RunResolves` | internal/pathtree/tree.go:136-176 | after every run at most one registered pattern matches a path, and the lookup returns that pattern's value or nothing |
| `RouteHistory.AddAllIffFit` | internal/pathtree/tree.go:34-100 | a sequence of routes can all be inserted exactly when they are well-formed, distinct and pairwise compatible |
| `RouteHistory.OrderIrrelevant` | internal/pathtree/tree.go:34-100 | whether a bag of routes can all be inserted, and the tree they make, do not depend on the order |
| `Watcher.Watcher.constructor` | internal/cache/watcher.go:30-46 | the watched path gets a trailing slash; the root and relative paths are excluded, as the source panics on them |
| `Watcher.Watcher.ProcessEvents` | internal/cache/watcher.go:142-190 | for any batches, the events sent are those of the session over the batches read; all are read unless shutdown is chosen, which it can be only once it is asked for |
| `Watcher.EventsReplayChanges` | internal/cache/watcher.go:142-190 | replaying the events yields the same map as replaying the changes, which is what the session remembers |
| `Watcher.DeletedCarriesLastValue` | internal/cache/watcher.go:142-190 | a Deleted event follows a Modified of its key with nothing about the key in between, and carries exactly that value |
| `Watcher.WritesAreTold` | internal/cache/watcher.go:142-190 | every write outside the directory key is told exactly once, in order |
| `Routing.RemoveFirstCounts` | internal/cache/subscription_cache.go:117-133 | removal takes away one occurrence if there is one |
| `SubscriptionCache.SubscriptionCache.Modified` | internal/cache/subscription_cache.go:32-67 | a sync subscription is added to its tree, created if missing; an async one is appended to its list; nothing else changes in any tree or list; whose function it is added for, `Session.NeverStale` and `AsyncLists.MultiplicityExact` say by space and function ID |
| `SubscriptionCache.SubscriptionCache.Deleted` | internal/cache/subscription_cache.go:69-85 | undoes the one or the other, where the tree can be walked |
| `SubscriptionCache.SubscriptionCache.DeleteEndpoint` | internal/cache/subscription_cache.go:106-115 | removes the route from the tree of its method and event type, if there is such a tree |
| `SubscriptionCache.SubscriptionCache.DeleteSubscription` | internal/cache/subscription_cache.go:117-133 | removes the first occurrence from the list and the list when it is empty |
| `SubscriptionCache.Without` | internal/cache/subscription_cache.go:121-126 | the removal loop removes the first occurrence |
| `FunctionCache.FunctionCache.Modified` | internal/cache/function_cache.go:27-42 | the function is cached under the split key; a value that does not decode changes nothing |
| `FunctionCache.FunctionCache.Deleted` | internal/cache/function_cache.go:44-49 | the split key is dropped |
| `FunctionCache.KeyChain` | internal/cache/function_cache.go:27-49 | key rendering, store prefix, watcher trim and split give the space and ID back |
| `FunctionCache.WriteAgrees` | internal/cache/function_cache.go:27-42 | after a written function is told, cache and store agree on every space and ID |
| `FunctionCache.DeleteAgrees` | internal/cache/function_cache.go:44-49 | likewise after a deletion |
| `Target.Target.Function` | internal/cache/target.go:59-63 | answers the cached function of the space and ID, or nothing |
| `Target.Target.SyncSubscriber` | internal/cache/target.go:36-56 | names the function of the one route that matches in the tree of the method and event type, with exactly the parameters its pattern binds, or nothing |
| `Target.Target.AsyncSubscribers` | internal/cache/target.go:66-79 | lists the functions filed under the method, path and event type, in order |
| `Target.ReactSubscriptions` | internal/cache/watcher.go:51-68 | handing a run of events to the subscription cache leaves it at the fold of all events so far |
| `Target.ReactFunctions` | internal/cache/watcher.go:51-68 | the same for the function cache, each key trimmed of the watched path |
| `Session.OneMoreChange` | internal/cache/watcher.go:156-183 | how one more store change moves store and cache, the directory key and unknown deletions included |
| `Session.NeverStale` | internal/cache/subscription_cache.go:46-115 | over every session, conflicts and several spaces included, each cached route belongs to a live subscription of that method, event type and pattern, and is for its space and function ID, as long as no deletion walks off a tree |
| `Agreement.SeenIsAccepted` | internal/cache/subscription_cache.go:46-56 | a pattern compatible with all others ever seen is accepted, leftovers notwithstanding |
| `Agreement.StaysAgreeing` | internal/cache/subscription_cache.go:32-115 | over every session with pairwise compatible paths and writes that keep their routing, the cache never walks off a tree and holds exactly the live routes |
| `Agreement.LookupsAgree` | internal/cache/target.go:36-56 | then after every prefix a sync lookup returns exactly the function of the live subscription that matches, of which there is at most one, or nothing |
| `ExactAgreement.WriteAgreesIff` | internal/cache/subscription_cache.go:46-56 | from agreement, a write under any key, a repeated one or one over a value that does not decode included, keeps it if and only if what it writes is no sync route, fits the nodes of its tree, or is routed to its function already |
| `ExactAgreement.DeleteAgreesIff` | internal/cache/subscription_cache.go:106-115 | from agreement, a deletion is safe and keeps it if and only if no other live subscription has the same tree and pattern |
| `ExactAgreement.AgreesThroughoutIff` | internal/cache/watcher.go:142-190 | over every session whose repeated writes keep their routing, the cache agrees with the store after every change if and only if every write and every deletion meets its condition |
| `ExactAgreement.FitSessionAnswers` | internal/cache/target.go:36-56 | and then, after every prefix, a sync lookup answers a function if and only if a live subscription of it matches |
| `Disagreement.SpacesShareTrees` | internal/cache/subscription_cache.go:20-56 | a session in which a second space's same path, refused and then deleted, takes the first one's route |
| `Disagreement.RefusedThenDeleted` | internal/pathtree/tree.go:128 | a session in which deleting a refused path walks off the tree |
| `Disagreement.LeftoversHide` | internal/pathtree/tree.go:119-123 | a session in which what is left of a deleted path hides a live subscription |
| `Disagreement.UpdateLingers` | internal/cache/subscription_cache.go:57-133 | a session in which an async subscription is written, updated and deleted, and its function stays listed with nothing live |
| `AsyncLists.MultiplicityIsTally` | internal/cache/subscription_cache.go:57-133 | a function's multiplicity in a list is plus one per Modified and minus one, floored at zero, per Deleted |
| `AsyncLists.MultiplicityExact` | internal/cache/subscription_cache.go:57-133 | the multiplicity of a function under a method, path and event type equals the number of live subscriptions of these, its space and its function ID, plus the number of times one was written again while live |
| `AsyncLists.ListsInArrivalOrder` | internal/cache/subscription_cache.go:57-133 | if no key is written while live, and no two live keys ever file the same function in one list, the list is exactly the live subscriptions' functions in the order of their arrival |
| `AsyncLists.NoneTwice` | internal/cache/target.go:66-79 | if no key is written while live, and no two live keys file the same function in one list, a function is listed once if it has a live subscription there and not at all otherwise |
| `Codec.EscapedSpelled` | libkv/subscription.go:267-276 | a byte that may not stand in a path is written as its two hexadecimal digits |
| `Codec.PathEscapeInjective` | libkv/subscription.go:267-276 | percent-encoding, section 2.1 of RFC 3986, is injective on bytes |
| `Codec.EscapedHasNoComma` | libkv/subscription.go:267-276 | and leaves no comma |
| `Codec.SymbolSpelled` | libkv/subscription.go:275 | the symbols are those of table 2 of RFC 4648, in order |
| `Codec.ThreeBytesEncode` | libkv/subscription.go:275 | three bytes, read as one number in base 256, become the four symbols that spell it in base 64 |
| `Codec.LastBytesEncode` | libkv/subscription.go:275 | two bytes left over become three symbols, one becomes two, without padding |
| `Codec.Base64Injective` | libkv/subscription.go:275 | unpadded base64url, section 5 of RFC 4648, is injective on bytes |
| `Catalog.FieldsSplit` | libkv/subscription.go:267-273 | what an ID encodes splits at its commas into kind, event type, for async the function ID's own pieces, the escaped path and the method |
| `Catalog.SubscriptionIDInjective` | libkv/subscription.go:267-276 | equal IDs of valid subscriptions mean equal kind, event type, path and method, and for async equal function, commas in a function ID notwithstanding |
| `Catalog.KeyUnique` | libkv/function.go:23-25 | a store key of slash-free space and ID can be read in only one way |
| `Catalog.OnlyInOwnSpace` | libkv/subscription.go:278-280 | a key is listed only under its own space's directory |
| `ServiceModel.DeleteFunctionKeepsOk` | libkv/function.go:125-154 | a deletion that passes the two scans leaves no subscription without its function and no event type without its authorizer |
| `ServiceModel.DeleteEventTypeKeepsOk` | libkv/eventtype.go:138-157 | a deletion that passes the scan leaves no subscription without its event type |
| `ServiceModel.EventTypeWritesKeepOk` | libkv/eventtype.go:27-135 | created and updated event types have existing authorizers and lose no subscription |
| `ServiceModel.CreateSubscriptionKeepsOk` | libkv/subscription.go:25-67 | a created subscription refers to an existing event type and function, sits under its own ID, and keeps the paths of its space, method and event type well-formed and compatible |
| `ServiceModel.UpdateSubscriptionKeepsOkIff` | libkv/subscription.go:70-102 | an accepted update keeps all that if and only if the body carries the ID it was sent to |
| `ServiceModel.RunKeepsOk` | libkv/subscription.go:25-189 | over every run of the service: referential integrity, and well-formed, pairwise compatible sync paths per space, method and event type |
| `ServiceModel.OnePerRoute` | libkv/subscription.go:267-276 | at most one sync subscription per space, method, path and event type is stored, and one async one per function beside |
| `ServiceModel.StoredIDsInjective` | libkv/subscription.go:267-276 | equal IDs of stored subscriptions mean the same route |
| `ServiceModel.SubscriptionNamedOnce` | libkv/subscription.go:105-118 | an accepted deletion removes the subscription of exactly the space and ID it names, slashes in the request included |
| `Acceptance.SubscriptionKeeps` | libkv/subscription.go:191-202 | a subscription's kind, event type, function and metadata are kept, its path gets a leading slash, an empty space becomes the default one, an empty method a POST and any other its upper case |
| `Acceptance.ValidInFields` | libkv/subscription.go:191-214 | which subscriptions pass validation, in their own fields; an empty space or method and a path without a leading slash always do |
| `Acceptance.FunctionWritesAccepted` | libkv/function.go:28-77 | a function is created exactly when its name is valid and free, updated exactly when it is valid and taken |
| `Acceptance.FunctionDeletionAccepted` | libkv/function.go:125-154 | deleted exactly when it is stored and no stored subscription of its space calls it and no stored event type of its space is authorized by it |
| `Acceptance.EventTypeWritesAccepted` | libkv/eventtype.go:27-135 | an event type is created or updated exactly when it is valid, free or taken, and its authorizer, if any, is stored |
| `Acceptance.EventTypeDeletionAccepted` | libkv/eventtype.go:138-157 | deleted exactly when it is stored and no stored subscription of its space is for it |
| `Acceptance.SubscriptionCreationAccepted` | libkv/subscription.go:25-67 | a valid subscription is created exactly when no stored one of its space goes the same way, a sync path is free, and its event type and function are stored |
| `Acceptance.SubscriptionUpdateAccepted` | libkv/subscription.go:70-102 | a valid subscription is updated exactly when one is stored under the ID asked for with the same kind, event type, function, path and method |
| `Acceptance.MetadataUpdateAccepted` | libkv/subscription.go:70-102 | an update of a stored subscription's metadata alone is always accepted and changes that alone |
| `Acceptance.SubscriptionDeletionAccepted` | libkv/subscription.go:105-118 | a subscription is deleted exactly when one of that space and ID is stored |
| `Acceptance.RefusalExplained` | libkv/subscription.go:25-118 | every error of every operation names something that is the matter |
| `PathConflicts.AcceptedIffFree` | libkv/subscription.go:166-189 | with the existing paths in, in any order, the tree accepts the new path exactly when it keeps them well-formed and compatible |
| `PathConflicts.NextListed` | libkv/subscription.go:170-181 | adding the existing paths never fails, so ignoring its errors is harmless |
| `Service.TreeOfListed` | libkv/subscription.go:167-181 | the loop ends with a tree registering exactly the competing paths of the listing |
| `Store.OtherViewUntouched` | internal/store/prefixed.go:27-39 | a write or deletion below one root is not seen below another that does not overlap |
| `Store.Prefixed.constructor` | internal/store/prefixed.go:16-24 | the root gets a trailing slash |
| `Store.Prefixed.Put` | internal/store/prefixed.go:27-29 | writes the shared store below the root and changes the view at that key only |
| `Store.Prefixed.Get` | internal/store/prefixed.go:32-34 | answers the view's value or not found |
| `Store.Prefixed.Delete` | internal/store/prefixed.go:37-39 | removes the key from the view, or reports it missing |
| `Store.Prefixed.AtomicPut` | internal/store/prefixed.go:91-93 | writes only a missing key |
| `Store.Prefixed.List` | internal/store/prefixed.go:62-83 | lists each key of the view below the directory once, relative to the root, in some order, without the root's own key |
| `ServiceFeed.GatewayRootsApart` | cmd/event-gateway/main.go:91-97 | none of the gateway's four prefixes lies below another |
| `Service.Service.CreateFunction` | libkv/function.go:28-51 | error, store contents and reported change are those of the specification and the catalog stays in order; an accepted body is answered, stored under `space/id` and reported with its own fields kept, the space defaulted, and nothing else changes |
| `Service.Service.UpdateFunction` | libkv/function.go:54-77 | likewise |
| `Service.Service.DeleteFunction` | libkv/function.go:125-154 | likewise; the two listing loops find a reference exactly when there is one; an accepted deletion drops exactly that key |
| `Service.Service.CreateEventType` | libkv/eventtype.go:27-57 | likewise |
| `Service.Service.UpdateEventType` | libkv/eventtype.go:105-135 | likewise |
| `Service.Service.DeleteEventType` | libkv/eventtype.go:138-157 | likewise |
| `Service.Service.CreateSubscription` | libkv/subscription.go:25-67 | likewise, the tests in the source's order; the path is kept with a leading slash, the method in upper case or as POST, the ID computed |
| `Service.Service.UpdateSubscription` | libkv/subscription.go:70-102 | likewise, with the ID of the body; after an accepted update the catalog is in order if and only if that is the ID asked for |
| `Service.Service.DeleteSubscription` | libkv/subscription.go:105-118 | likewise |
| `Service.Service.CheckForPathConflict` | libkv/subscription.go:166-189 | finds a conflict exactly when the path is ill-formed or incompatible with a stored one of its space, method and event type |
| `Service.Service.ListSubscriptions` | libkv/subscription.go:121-144 | lists exactly the subscriptions of the space, each once |
| `Service.Service.ListEventTypes` | libkv/eventtype.go:79-102 | lists exactly the event types of the space, each once |
| `ServiceSession.SubscriptionsReflected` | libkv/subscription.go:25-118 | after every run of the service the watcher of the subscriptions remembers exactly the stored ones, and the writes it saw kept their routing |
| `ServiceSession.ServiceNeverStale` | internal/cache/target.go:36-56 | after every run, whatever its spaces and conflicts, a sync lookup that answers names the function of a stored subscription that matches |
| `ServiceSession.ServiceLookupsAgree` | internal/cache/target.go:36-56 | if all sync paths ever stored per method and event type are compatible, it answers a function if and only if a stored subscription of that function matches |
| `ServiceSession.OneSpaceAgrees` | libkv/subscription.go:166-189 | the service's own check is enough for that as long as one space is used and no subscription is deleted |
| `ServiceAgreement.ServiceAgreesIff` | internal/cache/subscription_cache.go:32-115 | over every run of the service the cache agrees with the store after every change if and only if every change fits; that repeated writes keep their routing is the service's own doing |
| `ServiceAgreement.DeletionFitsIff` | internal/cache/subscription_cache.go:106-115 | a deletion fits if and only if no other stored sync subscription has the same method, event type and path; one that has is of another space |
| `ServiceAgreement.ServiceListsExact` | internal/cache/target.go:66-79 | after every run a list holds a function once if an async subscription of it is stored there, and once more for every update of one while it was stored |
| `ServiceAgreement.ServiceListsInOrder` | internal/cache/target.go:66-79 | as long as no subscription is updated, every list is exactly the stored async subscriptions' functions in the order of their creation |
| `ServiceSession.FunctionsAgree` | internal/cache/function_cache.go:27-49 | after every run the function cache holds under each space and ID exactly the stored function, and never met a key it could not split |
| `PoolSafety.RunAccounted` | router/router.go:122-441 | in every reachable state the wait group counts the live workers, the gauge is the queue length less uncounted sends plus uncounted receives, and the bags of events balance |
| `PoolSafety.NothingLostNothingTwice` | router/router.go:249-441 | in every interleaving: accepted events are queued, in process or processed, none handed to a function more often than accepted, every attempt accepted or dropped, the backlog bounded |
| `PoolFifo.FirstInFirstOut` | router/router.go:249-432 | in every interleaving workers receive events in the order in which they entered the backlog, and what was not received is what is queued |
| `PoolDrain.DrainSafety` | router/router.go:144-163 | with at least one worker, from the end of its wait until it has returned a drain leaves an empty backlog and every accepted event processed, those announced while draining included, if no request got an event in after draining began |
| `PoolDrain.DrainLeaves` | router/router.go:394-432 | whenever a drain may pass, the backlog holds exactly what requests put there since the last worker's last look, so everything is processed if and only if nothing was |
| `PoolProgress.MoveDescends` | router/router.go:268-312 | a worker's step gives up more weight than it queues; what it queues is a system event, sent for a user event |
| `PoolProgress.WorkIsBounded` | router/router.go:394-498 | in every interleaving the workers' steps are bounded by the weight they began with and what came in from outside |
| `PoolProgress.NeverStuck` | router/router.go:394-432 | once draining has begun a worker that has not exited can take a step |
| `PoolProgress.SystemEventsEmitNone` | router/router.go:453-498 | whatever a worker enqueues is a system event on behalf of a user event; processing a system event emits none |
| `PoolProgress.DrainTerminates` | router/router.go:144-163 | after draining has begun, with requests and starts at rest, the workers' steps are bounded, and when none can take another every waiting drain may pass |
| `PoolProgress.DrainCanPass` | router/router.go:144-163 | from every state in which draining has begun the workers alone can bring every waiting drain to pass |
| `PoolOrder.BoundedIffCleanStarts` | router/router.go:122-163 | over every run the workers, those still to be started included, stay within the configured number in every state if and only if every start on an inactive router finds the wait group at zero |
| `PoolOrder.NeverTooManyWorkers` | router/router.go:122-163 | in particular, if drains start only on an active router and do not overlap, the wait group equals the live workers, never exceeds the configured number, and is zero when inactive |
| `PoolRaces.LateRequest` | router/router.go:53-63 | a run in which a request that looked before draining began leaves its event behind |
| `PoolRaces.OverlappingDrains` | router/router.go:144-163 | a run in which overlapping drains lead to one worker too many |
| `Router.Router.StartWorkers` | router/router.go:122-141 | nothing on an active router; otherwise it is active, has a backlog, and as many more workers as configured, all counted |
| `Router.Router.IsDraining` | router/router.go:501-508 | whether the drain channel is closed |
| `Router.Router.ServeHTTP` | router/router.go:53-118 | a request is served exactly when the router is not draining, the event is not a system event and no plugin objects; it offers its announcement, then those around its sync call, and last one copy of its event to each authorized async subscriber, in order; it moves no worker |
| `Router.AuthorizedExactly` | router/router.go:236-245 | each subscriber that passes authorization stands once, after those that pass before it, and no other stands |
| `Router.Router.EnqueueWork` | router/router.go:249-265 | the event is appended and the gauge raised, or with no room the event is dropped and counted; a path of the state machine |
| `Router.Router.HandleAsyncSubscriptions` | router/router.go:231-247 | for a worker and for a request alike: one attempt for each subscriber that passes authorization, in order; the backlog is filled with the copies as far as there is room |
| `Router.FilledTakesPrefix` | router/router.go:249-265 | of copies offered in one go the backlog takes a prefix, as long as its room |
| `Router.Router.EmitSystem` | router/router.go:453-498 | nothing is announced of a system event; of a user event the stage's system event, by its name, is offered once to each subscriber in order, and a plugin's objection is passed on |
| `Router.Router.CallFunction` | router/router.go:268-312 | a user event's call is announced as invoking and, once it was made, as invoked or invocationFailed by its outcome; nothing more when it was given up, which it is exactly when a plugin objects or the function is missing |
| `Router.Router.ProcessEvent` | router/router.go:435-441 | exactly that event becomes processed, its function called unless it was given up |
| `Router.Router.Loop` | router/router.go:394-432 | once draining has begun a worker left alone terminates, empties the backlog, what it announces itself included, exits and lowers the wait group by one |
| `Router.Router.BeginDrain` | router/router.go:144-153 | closes the drain channel, closed or not |
| `Router.Router.EndDrain` | router/router.go:155-163 | past the wait the router is inactive |

## Left out

- HTTP serving and parsing, JSON, CORS, TLS, metrics other than the backlog gauge and the dropped count, plugins' work, provider calls: input and output. A function call is an arbitrary success or failure, a plugin's objection an arbitrary answer.
- Decoding of stored bytes: a stored value is already a function, an event type, a subscription, or `Malformed`.
- Authorization: which subscribers of an event pass it is left open; system event types are taken to have no authorizer, as the request is nil there.
- The CORS service and cache and `isPathInConflict`: the first is the same tree again, the second is used by its test only.
- The event type cache: the function cache's folding again, keyed by name.
- Several watch sessions and reconnection: the watcher's memory is per session, so the theorems are about one session.
- Interleaved service operations and failures of the store: operations are sequential and reads and writes succeed; `checkForPathConflict` ignores a failing listing, and writes that race are not modelled.
- Slices' shared backing arrays: the removal loop of `deleteSubscription` appends in place; nobody else holds the slice, as lookups copy it under the lock.
- Locks around caches: lookups and events do not overlap.
- Case folding of methods and name tests outside ASCII, and the texts of error messages.
- Metadata filters of listings; getting and listing functions: they would add only easy members.
- Values in the route tree are function keys, where the source allows any non-nil value.
- A backlog of length 0: a Go channel without a buffer hands an event directly to a waiting worker, where the model drops it; a positive length is modelled exactly.
- PathTree.Node.DeleteRoute: requires the nodes before the last to exist, since the source dereferences nil otherwise.
- FunctionCache.FunctionCache.Deleted: requires a key with a slash, since the source indexes the second piece of the split otherwise; `ServiceSession.FunctionsAgree` shows that keys written by the service have one.
- Service.Service.CheckForPathConflict: leaves out the error for a stored subscription that does not decode, since the service writes none; what lies below its three roots is of their kind throughout.
- ServiceModel.RunKeepsOk: is about runs in which updates carry the ID of the request path, as `httpapi/httpapi.go:441-444` arranges; `ServiceModel.UpdateSubscriptionKeepsOkIff` says exactly what happens otherwise.
- Store.Prefixed.AtomicPut: covers a write without a previous pair, the only one the service makes; the comparison with a previous pair is libkv's own and not part of this model.
- Router.Router.Loop: is one worker's loop with nobody in between; the interleavings, with all cases of its three selects, are those of `WorkerPool.Moved`.
- Router.Router.ServeHTTP: a request runs with nobody in between; which subscribers, answers and objections it meets are inputs, and requests between other steps are those of `WorkerPool.NextOfProducer`. HTTP status codes are left out.
- Router.Router.CallFunction: the function's answer is its success or failure, and the reasons for giving an event up are not told apart.
- Router.Router.EmitSystem: the number of subscribers of a system event is bounded by a parameter, which only the termination of `Loop` needs; the safety theorems on the state machine have no such bound.
- The wait group's own behaviour when waited on while it is raised from zero: `DrainPass` is a test for zero.

# GraphQLFragmentWatcher, modelled in Dafny

The model covers `GraphQLFragmentWatcher` from Apollo iOS. This object watches one fragment in the normalized cache. Creating one subscribes it to the client's store, and it reads nothing until `fetch()` is called. `fetch()` runs a read transaction rooted at the watcher's cache key. When the read succeeds, the set of cache keys it touched becomes the watcher's `dependentKeys`, and the result handler gets a `.success` result whose source is `.cache`.

For every batch of changed keys the store reports, the watcher decides in three steps whether to fetch again:
1. A batch tagged with its own `contextIdentifier` is ignored.
2. Every batch is ignored while `dependentKeys` is still unset.
3. Otherwise the watcher refetches exactly when the changed keys share a key with `dependentKeys`.

`cancel()` removes the watcher from the store's subscriber registry. It does nothing when the weak `client` reference has gone nil.

Files:
- `wrappers.dfy`: Swift's `Optional` and `Result`.
- `fragment_watcher.dfy`, module `FragmentWatcher`, in two parts:
  - A value-level model: the watcher's state `WatcherState`, one step function per operation, the decision `ShouldRefetch`, and lemmas about them, including lemmas over whole sequences of events (`Run`).
  - Two classes. `Store` holds the subscriber registry. `Watcher` has the source's fields, and each method states that its new state is the matching step function applied to its old state.

Inputs the watcher cannot see are parameters:
- The read transaction's result is a `ReadOutcome`. It can be `Read(data, touched)`, `Threw(error)` (the transaction throws), or `WatcherReleased` (the `[weak self]` guard finds the watcher gone).
- The weak `client` reference is the flag `clientAlive`. The method `ReleaseClient` stands for the client being deallocated.
- The UUID is a constructor parameter that never changes.
- Calls to the result handler, and fetches started by a notification, are appended to a ghost `log`.

Two consequences of the code worth stating:
- A throwing transaction delivers nothing to the handler. The `try` at line 51 is inside the closure passed to `withinReadTransaction`, and no completion handler is passed, so the error is dropped.
- `cancel()` only unsubscribes. The code keeps no cancelled flag, so a later direct `fetch()`, or a notification already on its way, is handled as before. `UnsubscribedStaysUnsubscribed` shows that nothing ever re-subscribes the watcher.

## Model

| member | source | states |
|---|---|---|
| `FragmentWatcher.ShouldRefetch` | Sources/Apollo/GraphQLFragmentWatcher.swift:74-86 | A notification leads to a fetch if and only if three things hold: its origin is absent or differs from the watcher's id, `dependentKeys` is set, and some key is in both the changed set and `dependentKeys`. |
| `FragmentWatcher.SelfEchoIgnored` | Sources/Apollo/GraphQLFragmentWatcher.swift:74-78 | A notification tagged with the watcher's own context id never triggers a fetch and leaves the whole state unchanged, whatever the key overlap. |
| `FragmentWatcher.UnsetKeysIgnoreNotification` | Sources/Apollo/GraphQLFragmentWatcher.swift:80-82 | While `dependentKeys` is unset, no notification triggers a fetch or changes the state. |
| `FragmentWatcher.DisjointChangeIgnored` | Sources/Apollo/GraphQLFragmentWatcher.swift:84-86 | A change sharing no key with the dependent keys changes nothing. This covers an empty change set and an empty dependent set. |
| `FragmentWatcher.OverlapTriggersRefetch` | Sources/Apollo/GraphQLFragmentWatcher.swift:74-86 | An untagged or foreign notification that shares one key with a set dependent set always refetches. |
| `FragmentWatcher.NotifyChangesKeysOnlyByFetch` | Sources/Apollo/GraphQLFragmentWatcher.swift:69-87 | Handling a notification never changes the subscription or the client. Its new `dependentKeys` are exactly those of the fetch it triggers when the decision is true (so an overlapping, successful refetch installs the new touched set), and the old ones otherwise. |
| `FragmentWatcher.NotifyHandlerCalls` | Sources/Apollo/GraphQLFragmentWatcher.swift:69-87 | A notification invokes the handler exactly once when it triggers a fetch whose read succeeds with the client alive, and otherwise zero times. A fetch is logged if and only if the decision says so. |
| `FragmentWatcher.FetchSuccessReplacesKeys` | Sources/Apollo/GraphQLFragmentWatcher.swift:51-61 | A successful read sets `dependentKeys` to exactly the touched keys, replacing the old value rather than joining it. It then invokes the handler once with a `.success` whose source is the cache and whose dependent keys are the same set. |
| `FragmentWatcher.FetchFailureKeepsState` | Sources/Apollo/GraphQLFragmentWatcher.swift:44-56 | When the transaction throws, or the watcher is gone before the read, the state stays the same and the handler is not called. |
| `FragmentWatcher.FetchWithoutClientIsSilent` | Sources/Apollo/GraphQLFragmentWatcher.swift:44 | With the client gone, `fetch()` changes nothing and calls no handler. |
| `FragmentWatcher.CancelUnsubscribes` | Sources/Apollo/GraphQLFragmentWatcher.swift:65-67 | With a live client, cancelling unsubscribes and changes nothing else. With the client gone it is a no-op. Cancelling twice has the same effect as cancelling once. |
| `FragmentWatcher.InitialState` | Sources/Apollo/GraphQLFragmentWatcher.swift:25-40 | A new watcher is subscribed, has unset `dependentKeys`, has an empty log (so no fetch and no handler call), and satisfies the invariant. |
| `FragmentWatcher.StepPreservesInv` | Sources/Apollo/GraphQLFragmentWatcher.swift:43-87 | Every operation keeps the invariant: `dependentKeys` equals the keys of the last success delivered, and every delivery is a success from the cache. |
| `FragmentWatcher.RunPreservesInv` | Sources/Apollo/GraphQLFragmentWatcher.swift:43-87 | The invariant holds after any sequence of fetches, notifications, cancels and client releases. |
| `FragmentWatcher.DependentKeysFollowLastSuccess` | Sources/Apollo/GraphQLFragmentWatcher.swift:25-61 | Over any life starting at construction, `dependentKeys` is unset until a read succeeds, and afterwards it is the touched set of the most recent successful read. A failed read keeps the earlier value. Only cache successes are ever delivered. |
| `FragmentWatcher.UnsetKeysStayUnset` | Sources/Apollo/GraphQLFragmentWatcher.swift:80-82 | Before the first direct `fetch()`, no run of notifications, cancels or releases sets `dependentKeys` or logs anything. |
| `FragmentWatcher.ReleasedClientIsSilent` | Sources/Apollo/GraphQLFragmentWatcher.swift:43-67 | Once the client is gone, no later event calls the handler or changes the dependent keys or the subscription. |
| `FragmentWatcher.UnsubscribedStaysUnsubscribed` | Sources/Apollo/GraphQLFragmentWatcher.swift:65-67 | Once out of the store's registry, a watcher is never registered again. |
| `FragmentWatcher.PersonAddressScenario` | Sources/Apollo/GraphQLFragmentWatcher.swift:51-86 | Take a read that touches `Person:1` and `Address:9`. An untagged change of `Address:9` then refetches once, and the same change tagged with the watcher's own id changes nothing. |
| `FragmentWatcher.Store.Subscribe` | Sources/Apollo/GraphQLFragmentWatcher.swift:39 | Registering adds the watcher to the subscriber set. |
| `FragmentWatcher.Store.Unsubscribe` | Sources/Apollo/GraphQLFragmentWatcher.swift:66 | Unregistering removes the watcher. Removing one that is not registered is a no-op. |
| `FragmentWatcher.Watcher.constructor` | Sources/Apollo/GraphQLFragmentWatcher.swift:27-40 | Construction adds the watcher to the store's subscribers and changes the store in no other way. It starts in the initial state: client alive, `dependentKeys` unset, nothing fetched, no handler call. |
| `FragmentWatcher.Watcher.Fetch` | Sources/Apollo/GraphQLFragmentWatcher.swift:43-63 | The new watcher state is `FetchStep` of the old one. The store is untouched, and the invariant is kept. |
| `FragmentWatcher.Watcher.Cancel` | Sources/Apollo/GraphQLFragmentWatcher.swift:65-67 | With a live client the store's subscribers lose this watcher. Otherwise they are unchanged. The new state is `CancelStep` of the old one. |
| `FragmentWatcher.Watcher.OnChange` | Sources/Apollo/GraphQLFragmentWatcher.swift:69-87 | Returns whether a fetch was triggered, which equals `ShouldRefetch` on the old dependent keys. The new state is `NotifyStep` of the old one. |
| `FragmentWatcher.Watcher.ReleaseClient` | Sources/Apollo/GraphQLFragmentWatcher.swift:9 | The weak client reference goes nil. Nothing else changes. |
| `FragmentWatcher.PersonAddressOnObjects` | Sources/Apollo/GraphQLFragmentWatcher.swift:27-86 | On real objects, the untagged `Address:9` change triggers a fetch and the self-tagged one does not. After two cancels the watcher is not in the store's registry. |

## Left out

- Thread safety: the `Atomic` wrapper around `dependentKeys` (line 25) and the store's locking. Operations are modelled as sequential, atomic calls, so interleavings of a fetch in flight with a notification are not modelled.
- `callbackQueue` (line 12): it is stored but never used, because the handler is called directly at line 61.
- Weak references (lines 9 and 44-45): memory lifetime is not modelled. The client is the flag `clientAlive`, and a released `self` is the `WatcherReleased` read outcome.
- The read machinery at lines 44-56 is not part of this model: `withinReadTransaction`, `transaction.execute`, `GraphQLSelectionSetMapper`, `GraphQLDependencyTracker` and `zip`. The model replaces them with the `ReadOutcome` parameter.
- UUID generation (line 16): the id is a constructor parameter and stays fixed.
- `WeakCancellableContainer` (lines 18-23): it is declared but never used.
- Of `GraphQLResult`, only the data, the source and the dependent keys are kept. `extensions` and `errors` are always nil here.
- The store's fan-out of change notifications to all of its subscribers is not part of this model. `OnChange` models what happens when one notification reaches this watcher.
- The `Fragment` type parameter, its selections and its variables (lines 52-54) are not modelled: data is opaque.

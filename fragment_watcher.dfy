/**
  A model of `GraphQLFragmentWatcher`, a normalized-cache watcher that re-reads one
  fragment from the store whenever a store change touches a key the last read depended on.

  The first half is a value-level model: the watcher's observable state, one step
  function per operation, the invalidation decision, and the lemmas that state what
  the source promises about them. The second half is the object the source has: a
  `Store` with a subscriber registry and a `Watcher` whose methods update their fields
  exactly as the step functions say.
*/
module FragmentWatcher {
  import opened Wrappers

  /** A record key in the normalized cache (a `String` in the source). */
  type CacheKey = string

  /** The watcher's `contextIdentifier`, a UUID drawn once at construction; only equality matters. */
  type ContextId = nat

  /** The fragment value the selection-set mapper produces; opaque here. */
  type FragmentData = string

  /** What a failing read transaction throws; opaque here. */
  type Error = string

  datatype ResultSource = Cache | Server

  /** The fields of `GraphQLResult` this model keeps. */
  datatype FragmentResult = FragmentResult(data: FragmentData, source: ResultSource, dependentKeys: set<CacheKey>)

  /** The argument of the result handler: `Result<GraphQLResult<Fragment>, Error>`. */
  type HandlerArgument = Result<FragmentResult, Error>

  /** How the read transaction started by `fetch` turns out. It stands for the store's
      transaction machinery and the mapper/dependency-tracker pair, which are not modelled. */
  datatype ReadOutcome =
    | WatcherReleased                                 // `self` is gone when the transaction body runs
    | Threw(error: Error)                             // `transaction.execute` throws
    | Read(data: FragmentData, touched: set<CacheKey>) // the mapped data and the keys the read touched

  /** What the watcher does that a caller can observe, in order. */
  datatype LogEntry =
    | Refetch                              // a change notification called `fetch()`
    | Delivered(argument: HandlerArgument) // the result handler was invoked

  /** Everything about one watcher that its operations read or change. */
  datatype WatcherState = WatcherState(
    subscribed: bool,                       // the watcher is in the store's subscriber registry
    clientAlive: bool,                      // the weak `client` reference is still non-nil
    dependentKeys: Option<set<CacheKey>>,
    log: seq<LogEntry>)

  /** The state right after construction. */
  function Initial(): (s: WatcherState) {
    WatcherState(true, true, None, [])
  }

  // ---------------------------------------------------------------------------
  // The invalidation decision
  // ---------------------------------------------------------------------------

  /** Whether a notification of `changedKeys` with origin `origin` makes the watcher refetch:
      a notification from its own context is dropped, nothing happens before the first
      successful read, and otherwise any shared key triggers a fetch. */
  function ShouldRefetch(ownId: ContextId, dependentKeys: Option<set<CacheKey>>,
                         changedKeys: set<CacheKey>, origin: Option<ContextId>): (refetch: bool)
    ensures refetch <==>
              && origin != Some(ownId)
              && dependentKeys.Some?
              && exists k :: k in changedKeys && k in dependentKeys.value
  {
    if origin.Some? && origin.value == ownId then false
    else if dependentKeys.None? then false
    else !(dependentKeys.value !! changedKeys)
  }

  // ---------------------------------------------------------------------------
  // Operations as steps
  // ---------------------------------------------------------------------------

  /** `fetch()`: nothing without a client or without `self`; a throwing transaction escapes the
      closure with no completion handler, so nothing happens either; a successful read replaces
      the dependent keys and then hands a cache result to the handler. */
  function FetchStep(s: WatcherState, outcome: ReadOutcome): (r: WatcherState) {
    if !s.clientAlive then s
    else match outcome
      case WatcherReleased => s
      case Threw(_) => s
      case Read(data, touched) =>
        s.(dependentKeys := Some(touched),
           log := s.log + [Delivered(Success(FragmentResult(data, Cache, touched)))])
  }

  /** `store(_:didChangeKeys:contextIdentifier:)`: decide, and fetch when the decision says so. */
  function NotifyStep(ownId: ContextId, s: WatcherState, changedKeys: set<CacheKey>,
                      origin: Option<ContextId>, outcome: ReadOutcome): (r: WatcherState) {
    if ShouldRefetch(ownId, s.dependentKeys, changedKeys, origin)
    then FetchStep(s.(log := s.log + [Refetch]), outcome)
    else s
  }

  /** `cancel()`: unsubscribe through the client, if there still is one. */
  function CancelStep(s: WatcherState): (r: WatcherState) {
    if s.clientAlive then s.(subscribed := false) else s
  }

  /** The client behind the weak reference is deallocated. */
  function ReleaseStep(s: WatcherState): (r: WatcherState) {
    s.(clientAlive := false)
  }

  /** One event in a watcher's life. */
  datatype Input =
    | CallFetch(outcome: ReadOutcome)
    | StoreChanged(changedKeys: set<CacheKey>, origin: Option<ContextId>, outcome: ReadOutcome)
    | CallCancel
    | ClientReleased

  function Step(ownId: ContextId, s: WatcherState, input: Input): (r: WatcherState) {
    match input
    case CallFetch(outcome) => FetchStep(s, outcome)
    case StoreChanged(changedKeys, origin, outcome) => NotifyStep(ownId, s, changedKeys, origin, outcome)
    case CallCancel => CancelStep(s)
    case ClientReleased => ReleaseStep(s)
  }

  /** The state after the events `inputs`, in order. */
  function Run(ownId: ContextId, s: WatcherState, inputs: seq<Input>): (r: WatcherState)
    decreases |inputs|
  {
    if inputs == [] then s else Run(ownId, Step(ownId, s, inputs[0]), inputs[1..])
  }

  // ---------------------------------------------------------------------------
  // Observations of the log
  // ---------------------------------------------------------------------------

  /** How many times the result handler has been invoked. */
  function HandlerCalls(log: seq<LogEntry>): (n: nat) {
    if log == [] then 0 else (if log[0].Delivered? then 1 else 0) + HandlerCalls(log[1..])
  }

  /** The dependent keys carried by the last successful result handed to the handler, if any. */
  function LastDelivered(log: seq<LogEntry>): (keys: Option<set<CacheKey>>)
    decreases |log|
  {
    if log == [] then None
    else match log[|log| - 1]
      case Delivered(Success(r)) => Some(r.dependentKeys)
      case _ => LastDelivered(log[..|log| - 1])
  }

  /** Every handler invocation so far carried a success read from the cache. */
  predicate OnlyCacheSuccesses(log: seq<LogEntry>) {
    forall i :: 0 <= i < |log| && log[i].Delivered? ==>
      log[i].argument.Success? && log[i].argument.value.source == Cache
  }

  /** The watcher's invariant: `dependentKeys` is unset until a read succeeds, and afterwards is
      the key set of the most recent successful read (the one the caller was last told about). */
  predicate Inv(s: WatcherState) {
    s.dependentKeys == LastDelivered(s.log) && OnlyCacheSuccesses(s.log)
  }

  lemma {:induction false} HandlerCallsAppend(log: seq<LogEntry>, e: LogEntry)
    ensures HandlerCalls(log + [e]) == HandlerCalls(log) + (if e.Delivered? then 1 else 0)
    decreases |log|
  {
    if log == [] {
      assert [e][1..] == [];
    } else {
      assert (log + [e])[1..] == log[1..] + [e];
      HandlerCallsAppend(log[1..], e);
    }
  }

  lemma {:induction false} LastDeliveredAppend(log: seq<LogEntry>, e: LogEntry)
    ensures LastDelivered(log + [e]) ==
              if e.Delivered? && e.argument.Success? then Some(e.argument.value.dependentKeys)
              else LastDelivered(log)
  {}

  // ---------------------------------------------------------------------------
  // Construction
  // ---------------------------------------------------------------------------

  /** A new watcher is subscribed, has no dependent keys, and has neither fetched nor called
      its handler; it satisfies the invariant. */
  lemma InitialState()
    ensures Initial().subscribed && Initial().clientAlive
    ensures Initial().dependentKeys == None && Initial().log == []
    ensures HandlerCalls(Initial().log) == 0
    ensures Inv(Initial())
  {}

  // ---------------------------------------------------------------------------
  // The invalidation decision, as the source promises it
  // ---------------------------------------------------------------------------

  /** A notification tagged with the watcher's own context id changes nothing, whatever the overlap. */
  lemma SelfEchoIgnored(ownId: ContextId, s: WatcherState, changedKeys: set<CacheKey>, outcome: ReadOutcome)
    ensures !ShouldRefetch(ownId, s.dependentKeys, changedKeys, Some(ownId))
    ensures NotifyStep(ownId, s, changedKeys, Some(ownId), outcome) == s
  {}

  /** Before the first successful read, no notification changes anything. */
  lemma UnsetKeysIgnoreNotification(ownId: ContextId, s: WatcherState, changedKeys: set<CacheKey>,
                                    origin: Option<ContextId>, outcome: ReadOutcome)
    requires s.dependentKeys.None?
    ensures !ShouldRefetch(ownId, s.dependentKeys, changedKeys, origin)
    ensures NotifyStep(ownId, s, changedKeys, origin, outcome) == s
  {}

  /** A change that shares no key with the dependent keys changes nothing; this covers an
      empty change set and an empty dependent set. */
  lemma DisjointChangeIgnored(ownId: ContextId, s: WatcherState, changedKeys: set<CacheKey>,
                              origin: Option<ContextId>, outcome: ReadOutcome)
    requires s.dependentKeys.Some? ==> s.dependentKeys.value !! changedKeys
    ensures NotifyStep(ownId, s, changedKeys, origin, outcome) == s
  {}

  /** A foreign or untagged notification sharing a key with a set dependent set always refetches. */
  lemma OverlapTriggersRefetch(ownId: ContextId, s: WatcherState, changedKeys: set<CacheKey>,
                               origin: Option<ContextId>, k: CacheKey)
    requires origin != Some(ownId)
    requires s.dependentKeys.Some? && k in s.dependentKeys.value && k in changedKeys
    ensures ShouldRefetch(ownId, s.dependentKeys, changedKeys, origin)
  {}

  /** Handling a notification never touches the subscription or the client, and changes the
      dependent keys only through the fetch it triggers. */
  lemma NotifyChangesKeysOnlyByFetch(ownId: ContextId, s: WatcherState, changedKeys: set<CacheKey>,
                                     origin: Option<ContextId>, outcome: ReadOutcome)
    ensures var r := NotifyStep(ownId, s, changedKeys, origin, outcome);
            && r.subscribed == s.subscribed
            && r.clientAlive == s.clientAlive
            && r.dependentKeys ==
                 if ShouldRefetch(ownId, s.dependentKeys, changedKeys, origin)
                 then FetchStep(s, outcome).dependentKeys
                 else s.dependentKeys
  {}

  /** A notification makes the handler run once if it triggers a fetch whose read succeeds, and
      otherwise not at all; a triggered fetch is logged right after the earlier entries. */
  lemma NotifyHandlerCalls(ownId: ContextId, s: WatcherState, changedKeys: set<CacheKey>,
                           origin: Option<ContextId>, outcome: ReadOutcome)
    ensures var r := NotifyStep(ownId, s, changedKeys, origin, outcome);
            && HandlerCalls(r.log) ==
                 HandlerCalls(s.log) +
                 (if ShouldRefetch(ownId, s.dependentKeys, changedKeys, origin) && s.clientAlive && outcome.Read?
                  then 1 else 0)
            && (ShouldRefetch(ownId, s.dependentKeys, changedKeys, origin) <==>
                  |r.log| > |s.log| && r.log[|s.log|] == Refetch)
  {
    var r := NotifyStep(ownId, s, changedKeys, origin, outcome);
    if ShouldRefetch(ownId, s.dependentKeys, changedKeys, origin) {
      var t := s.(log := s.log + [Refetch]);
      HandlerCallsAppend(s.log, Refetch);
      if s.clientAlive && outcome.Read? {
        HandlerCallsAppend(t.log, r.log[|r.log| - 1]);
        assert r.log == t.log + [r.log[|r.log| - 1]];
      }
    }
  }

  // ---------------------------------------------------------------------------
  // Fetch
  // ---------------------------------------------------------------------------

  /** A successful read replaces the dependent keys with exactly the touched keys, whatever they
      were before, and invokes the handler once with a cache success carrying those keys. */
  lemma FetchSuccessReplacesKeys(s: WatcherState, data: FragmentData, touched: set<CacheKey>)
    requires s.clientAlive
    ensures var r := FetchStep(s, Read(data, touched));
            && r.dependentKeys == Some(touched)
            && r.subscribed == s.subscribed && r.clientAlive
            && r.log == s.log + [Delivered(Success(FragmentResult(data, Cache, touched)))]
            && HandlerCalls(r.log) == HandlerCalls(s.log) + 1
            && LastDelivered(r.log) == Some(touched)
  {
    var r := FetchStep(s, Read(data, touched));
    HandlerCallsAppend(s.log, r.log[|s.log|]);
    LastDeliveredAppend(s.log, r.log[|s.log|]);
  }

  /** A throwing transaction, or a watcher gone before the read runs, leaves everything as it was
      and invokes no handler. */
  lemma FetchFailureKeepsState(s: WatcherState, outcome: ReadOutcome)
    requires !outcome.Read?
    ensures FetchStep(s, outcome) == s
  {}

  /** Without a client, fetching does nothing at all. */
  lemma FetchWithoutClientIsSilent(s: WatcherState, outcome: ReadOutcome)
    requires !s.clientAlive
    ensures FetchStep(s, outcome) == s
  {}

  // ---------------------------------------------------------------------------
  // Cancel
  // ---------------------------------------------------------------------------

  /** Cancelling with a live client unsubscribes and changes nothing else; with the client gone it
      does nothing; cancelling twice is cancelling once. */
  lemma CancelUnsubscribes(s: WatcherState)
    ensures var r := CancelStep(s);
            && r.subscribed == (s.subscribed && !s.clientAlive)
            && r.clientAlive == s.clientAlive && r.dependentKeys == s.dependentKeys && r.log == s.log
    ensures CancelStep(CancelStep(s)) == CancelStep(s)
  {}

  // ---------------------------------------------------------------------------
  // Whole lives
  // ---------------------------------------------------------------------------

  lemma StepPreservesInv(ownId: ContextId, s: WatcherState, input: Input)
    requires Inv(s)
    ensures Inv(Step(ownId, s, input))
  {}

  lemma {:induction false} RunPreservesInv(ownId: ContextId, s: WatcherState, inputs: seq<Input>)
    requires Inv(s)
    ensures Inv(Run(ownId, s, inputs))
    decreases |inputs|
  {
    if inputs != [] {
      StepPreservesInv(ownId, s, inputs[0]);
      RunPreservesInv(ownId, Step(ownId, s, inputs[0]), inputs[1..]);
    }
  }

  /** Over any life of a watcher: its dependent keys are unset until a read succeeds and then are
      exactly the keys of the last successful read; every result ever delivered is a success from
      the cache. */
  lemma DependentKeysFollowLastSuccess(ownId: ContextId, inputs: seq<Input>)
    ensures var r := Run(ownId, Initial(), inputs);
            r.dependentKeys == LastDelivered(r.log) && OnlyCacheSuccesses(r.log)
  {
    InitialState();
    RunPreservesInv(ownId, Initial(), inputs);
  }

  /** Events other than a direct `fetch()` never set the dependent keys, so before the first
      direct fetch every notification is ignored: nothing is logged at all. */
  lemma {:induction false} UnsetKeysStayUnset(ownId: ContextId, s: WatcherState, inputs: seq<Input>)
    requires s.dependentKeys.None?
    requires forall i :: 0 <= i < |inputs| ==> !inputs[i].CallFetch?
    ensures Run(ownId, s, inputs).dependentKeys.None?
    ensures Run(ownId, s, inputs).log == s.log
    decreases |inputs|
  {
    if inputs != [] {
      UnsetKeysStayUnset(ownId, Step(ownId, s, inputs[0]), inputs[1..]);
    }
  }

  /** Once the client is gone the watcher is silent for good: no handler call, no change of
      dependent keys or subscription, whatever happens. */
  lemma {:induction false} ReleasedClientIsSilent(ownId: ContextId, s: WatcherState, inputs: seq<Input>)
    requires !s.clientAlive
    ensures var r := Run(ownId, s, inputs);
            && !r.clientAlive
            && r.subscribed == s.subscribed
            && r.dependentKeys == s.dependentKeys
            && HandlerCalls(r.log) == HandlerCalls(s.log)
    decreases |inputs|
  {
    if inputs != [] {
      var t := Step(ownId, s, inputs[0]);
      if inputs[0].StoreChanged? {
        NotifyHandlerCalls(ownId, s, inputs[0].changedKeys, inputs[0].origin, inputs[0].outcome);
      }
      ReleasedClientIsSilent(ownId, t, inputs[1..]);
    }
  }

  /** Nothing re-subscribes a watcher: once out of the registry it stays out. */
  lemma {:induction false} UnsubscribedStaysUnsubscribed(ownId: ContextId, s: WatcherState, inputs: seq<Input>)
    requires !s.subscribed
    ensures !Run(ownId, s, inputs).subscribed
    decreases |inputs|
  {
    if inputs != [] {
      UnsubscribedStaysUnsubscribed(ownId, Step(ownId, s, inputs[0]), inputs[1..]);
    }
  }

  /** A watcher on `Person:1` whose read touches `Person:1` and `Address:9` refetches once when
      `Address:9` changes with no origin, and not at all when the same change carries its own id. */
  lemma PersonAddressScenario(ownId: ContextId, data: FragmentData)
    ensures var read := Read(data, {"Person:1", "Address:9"});
            var s1 := FetchStep(Initial(), read);
            var s2 := NotifyStep(ownId, s1, {"Address:9"}, None, read);
            var s3 := NotifyStep(ownId, s2, {"Address:9"}, Some(ownId), read);
            && s1.dependentKeys == Some({"Person:1", "Address:9"})
            && HandlerCalls(s2.log) == HandlerCalls(s1.log) + 1
            && s3 == s2
  {
    var read := Read(data, {"Person:1", "Address:9"});
    var s1 := FetchStep(Initial(), read);
    assert "Address:9" in s1.dependentKeys.value;
    NotifyHandlerCalls(ownId, s1, {"Address:9"}, None, read);
  }

  // ---------------------------------------------------------------------------
  // The objects
  // ---------------------------------------------------------------------------

  /** The part of the store the watcher uses: its subscriber registry. */
  class Store {
    var subscribers: set<Watcher>

    constructor ()
      ensures subscribers == {}
    {
      subscribers := {};
    }

    method Subscribe(w: Watcher)
      modifies this
      ensures subscribers == old(subscribers) + {w}
    {
      subscribers := subscribers + {w};
    }

    /** Removing a watcher that is not registered is a no-op. */
    method Unsubscribe(w: Watcher)
      modifies this
      ensures subscribers == old(subscribers) - {w}
    {
      subscribers := subscribers - {w};
    }
  }

  class Watcher {
    /** The store of the client the watcher was created with. */
    const store: Store
    /** The root record the fragment is read from. */
    const cacheKey: CacheKey
    const contextIdentifier: ContextId
    /** Whether the weak `client` reference still points to a client. */
    var clientAlive: bool
    var dependentKeys: Option<set<CacheKey>>
    /** Handler invocations and notification-triggered fetches, in order. */
    ghost var log: seq<LogEntry>

    ghost function State(): (s: WatcherState)
      reads this, store
    {
      WatcherState(this in store.subscribers, clientAlive, dependentKeys, log)
    }

    ghost predicate Valid()
      reads this, store
    {
      Inv(State())
    }

    /** Creating a watcher registers it with the client's store and reads nothing. */
    constructor (store: Store, cacheKey: CacheKey, contextIdentifier: ContextId)
      modifies store
      ensures this.store == store && this.cacheKey == cacheKey && this.contextIdentifier == contextIdentifier
      ensures store.subscribers == old(store.subscribers) + {this}
      ensures State() == Initial()
      ensures Valid()
    {
      this.store := store;
      this.cacheKey := cacheKey;
      this.contextIdentifier := contextIdentifier;
      clientAlive := true;
      dependentKeys := None;
      log := [];
      new;
      store.Subscribe(this);
    }

    method Fetch(outcome: ReadOutcome)
      requires Valid()
      modifies this
      ensures Valid()
      ensures State() == FetchStep(old(State()), outcome)
    {
      if !clientAlive {
        return;
      }
      match outcome
      case WatcherReleased =>
      case Threw(_) =>
      case Read(data, touched) =>
        dependentKeys := Some(touched);
        log := log + [Delivered(Success(FragmentResult(data, Cache, touched)))];
        LastDeliveredAppend(old(log), log[|log| - 1]);
    }

    method Cancel()
      requires Valid()
      modifies store
      ensures Valid()
      ensures store.subscribers == if old(clientAlive) then old(store.subscribers) - {this} else old(store.subscribers)
      ensures State() == CancelStep(old(State()))
    {
      if clientAlive {
        store.Unsubscribe(this);
      }
    }

    /** The store reports `changedKeys`, tagged with the context that changed them, if any;
        `outcome` is how the fetch turns out if one is triggered. */
    method OnChange(changedKeys: set<CacheKey>, origin: Option<ContextId>, outcome: ReadOutcome)
      returns (triggered: bool)
      requires Valid()
      modifies this
      ensures Valid()
      ensures triggered == ShouldRefetch(contextIdentifier, old(dependentKeys), changedKeys, origin)
      ensures State() == NotifyStep(contextIdentifier, old(State()), changedKeys, origin, outcome)
    {
      triggered := false;
      if origin.Some? && origin.value == contextIdentifier {
        return;
      }
      if dependentKeys.None? {
        return;
      }
      if !(dependentKeys.value !! changedKeys) {
        triggered := true;
        log := log + [Refetch];
        LastDeliveredAppend(old(log), Refetch);
        Fetch(outcome);
      }
    }

    /** The client behind the weak reference is deallocated. */
    method ReleaseClient()
      requires Valid()
      modifies this
      ensures Valid()
      ensures State() == ReleaseStep(old(State()))
    {
      clientAlive := false;
    }
  }

  /** The `Person:1` / `Address:9` life played on the objects: the untagged change refetches,
      the self-tagged one does not, and cancelling twice leaves the watcher out of the registry. */
  method PersonAddressOnObjects(data: FragmentData) returns (first: bool, second: bool, registered: bool)
    ensures first && !second && !registered
  {
    var store := new Store();
    var w := new Watcher(store, "Person:1", 7);
    w.Fetch(Read(data, {"Person:1", "Address:9"}));
    assert "Address:9" in w.dependentKeys.value;
    first := w.OnChange({"Address:9"}, None, Read(data, {"Person:1", "Address:9"}));
    second := w.OnChange({"Address:9"}, Some(7), Read(data, {"Person:1", "Address:9"}));
    w.Cancel();
    w.Cancel();
    registered := w in store.subscribers;
  }
}

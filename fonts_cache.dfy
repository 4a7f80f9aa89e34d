/** The module-level font-catalog loader `loadFontsModule` with its two slots
    `fontsCache` and `fontsLoadingPromise`.

    Everything runs on one event loop, so one call of the loader (check, check,
    start the import, store the promise) is atomic. The dynamic import is an
    event of the environment: at some later point the promise it created is
    fulfilled with the catalog or rejected. A promise is named by its index in
    `imports`, the list of every promise the loader ever created, so the number
    of imports started is `|imports|`. */
module FontsCache {
  import opened Fonts

  /** The state of one promise created by starting the import (the import
      chained with its `.then` callback). */
  datatype Settlement = InFlight | Fulfilled(catalog: Catalog) | Rejected(cause: string)

  /** What one call hands back: the cached catalog (the async function wraps it
      in an already fulfilled promise), or a promise that settles as the
      promise `promise` of `imports` does. */
  datatype Reply = Immediate(catalog: Catalog) | Await(promise: nat)

  /** The loader's slots and the promises it created. `cache` is `fontsCache`,
      `pending` is `fontsLoadingPromise`. */
  datatype Loader = Loader(cache: Option<Catalog>, pending: Option<nat>, imports: seq<Settlement>)

  /** What can happen to the loader: a call, or the runtime settling a promise. */
  datatype Event = Call | Resolve(promise: nat, catalog: Catalog) | Reject(promise: nat, cause: string)

  /** The slots at process start: both null, nothing imported. */
  function Initial(): Loader {
    Loader(None, None, [])
  }

  function ImportsStarted(s: Loader): nat {
    |s.imports|
  }

  predicate InFlightAt(s: Loader, h: nat) {
    h < |s.imports| && s.imports[h] == InFlight
  }

  /** One call of the loader: a non-null cache is returned (an empty catalog
      is still a truthy array); otherwise a stored promise is returned;
      otherwise an import is started and its promise stored and returned. */
  function CallStep(s: Loader): (Loader, Reply) {
    if s.cache.Some? then
      (s, Immediate(s.cache.value))
    else if s.pending.Some? then
      (s, Awaiting(s))
    else
      var h := |s.imports|;
      (s.(pending := Some(h), imports := s.imports + [InFlight]), Await(h))
  }

  function Awaiting(s: Loader): Reply
    requires s.pending.Some?
  {
    Await(s.pending.value)
  }

  /** The import behind promise h loaded `catalog`: the `.then` callback stores
      it in the cache, clears the pending slot and fulfils the promise with it.
      A promise that is not in flight cannot settle again. */
  function ResolveStep(s: Loader, h: nat, catalog: Catalog): Loader {
    if InFlightAt(s, h) then
      Loader(Some(catalog), None, s.imports[h := Fulfilled(catalog)])
    else
      s
  }

  /** The import behind promise h failed. There is no rejection handler, so
      only the promise changes: the pending slot keeps the rejected promise. */
  function RejectStep(s: Loader, h: nat, cause: string): Loader {
    if InFlightAt(s, h) then
      s.(imports := s.imports[h := Rejected(cause)])
    else
      s
  }

  function Step(s: Loader, e: Event): Loader {
    match e
    case Call => CallStep(s).0
    case Resolve(h, catalog) => ResolveStep(s, h, catalog)
    case Reject(h, cause) => RejectStep(s, h, cause)
  }

  function Run(s: Loader, events: seq<Event>): Loader
    decreases |events|
  {
    if events == [] then s else Run(Step(s, events[0]), events[1..])
  }

  /** The replies of the calls among `events`, in order. */
  function Replies(s: Loader, events: seq<Event>): seq<Reply>
    decreases |events|
  {
    if events == [] then []
    else
      var rest := Replies(Step(s, events[0]), events[1..]);
      if events[0].Call? then [CallStep(s).1] + rest else rest
  }

  /** What a holder of reply r eventually receives, as far as state s knows. */
  function Outcome(s: Loader, r: Reply): Settlement {
    match r
    case Immediate(catalog) => Fulfilled(catalog)
    case Await(h) => if h < |s.imports| then s.imports[h] else InFlight
  }

  /** The four shapes the slots can take. The first three are never
      requested, loading and loaded; in the last the single import was
      rejected and its promise stays in the pending slot. The two slots are
      never both non-null, and at most one import exists. */
  predicate Inv(s: Loader) {
    || (s.cache.None? && s.pending.None? && s.imports == [])
    || (s.cache.None? && s.pending == Some(0) && s.imports == [InFlight])
    || (s.cache.Some? && s.pending.None? && s.imports == [Fulfilled(s.cache.value)])
    || (s.cache.None? && s.pending == Some(0) && |s.imports| == 1 && s.imports[0].Rejected?)
  }

  lemma {:induction false} RunPreservesInv(s: Loader, events: seq<Event>)
    requires Inv(s)
    ensures Inv(Run(s, events))
    ensures ImportsStarted(Run(s, events)) <= 1
    ensures s.cache.Some? ==> Run(s, events).cache == s.cache
    decreases |events|
  {
    if events != [] {
      RunPreservesInv(Step(s, events[0]), events[1..]);
    }
  }

  /** Whatever calls and settlements happen, the import starts at most once
      and the two slots are never both set. */
  lemma {:induction false} ImportStartsAtMostOnce(events: seq<Event>)
    ensures ImportsStarted(Run(Initial(), events)) <= 1
    ensures Run(Initial(), events).cache.None? || Run(Initial(), events).pending.None?
  {
    RunPreservesInv(Initial(), events);
  }

  /** An import is started exactly by a call that finds both slots null. */
  lemma CallStartsImportIffBothNull(s: Loader)
    requires Inv(s)
    ensures ImportsStarted(CallStep(s).0) == ImportsStarted(s) + (if s.cache.None? && s.pending.None? then 1 else 0)
    ensures s.cache.None? && s.pending.None? ==>
      CallStep(s).0.pending == Some(CallStep(s).1.promise) && InFlightAt(CallStep(s).0, CallStep(s).1.promise)
  {
  }

  /** Once the catalog is cached, nothing changes any more: every later call
      returns the cached catalog and no import starts. */
  lemma {:induction false} LoadedIsFinal(s: Loader, events: seq<Event>)
    requires Inv(s) && s.cache.Some?
    ensures Run(s, events) == s
    ensures forall r :: r in Replies(s, events) ==> r == Immediate(s.cache.value)
    decreases |events|
  {
    if events != [] {
      LoadedIsFinal(Step(s, events[0]), events[1..]);
    }
  }

  /** After the import is rejected nothing changes any more either: the cache
      stays null, no import starts again, and every later call gets the rejected
      promise back. Failures are cached. */
  lemma {:induction false} RejectionIsFinal(s: Loader, events: seq<Event>)
    requires Inv(s) && s.pending.Some? && s.imports[s.pending.value].Rejected?
    ensures Run(s, events) == s
    ensures forall r :: r in Replies(s, events) ==> r == Awaiting(s) && Outcome(s, r).Rejected?
    decreases |events|
  {
    if events != [] {
      RejectionIsFinal(Step(s, events[0]), events[1..]);
    }
  }

  /** The pending slot is cleared only by the import's success, and that stores
      the catalog in the cache. */
  lemma PendingClearedOnlyOnSuccess(s: Loader, e: Event)
    requires Inv(s) && s.pending.Some? && Step(s, e).pending.None?
    ensures e.Resolve? && e.promise == s.pending.value
    ensures Step(s, e).cache == Some(e.catalog) && Step(s, e).imports[e.promise] == Fulfilled(e.catalog)
  {
  }

  /** Every call made before the import settles gets the one promise that the
      first of them created: however many calls, exactly one import. */
  lemma {:induction false} CallsBeforeSettlementShareImport(s: Loader, events: seq<Event>)
    requires s == Initial() || s == Loader(None, Some(0), [InFlight])
    requires forall i :: 0 <= i < |events| ==> events[i].Call?
    ensures events != [] ==> Run(s, events) == Loader(None, Some(0), [InFlight])
    ensures forall r :: r in Replies(s, events) ==> r == Await(0)
    decreases |events|
  {
    if events != [] {
      CallsBeforeSettlementShareImport(Step(s, events[0]), events[1..]);
    }
  }

  /** A reply handed out by a call keeps its meaning: whatever happens
      afterwards, if it delivers a catalog then that catalog is the cached one. */
  lemma {:induction false} DeliveredCatalogIsCached(s: Loader, later: seq<Event>, catalog: Catalog)
    requires Inv(s)
    requires Outcome(Run(CallStep(s).0, later), CallStep(s).1) == Fulfilled(catalog)
    ensures Run(CallStep(s).0, later).cache == Some(catalog)
  {
    var s1 := CallStep(s).0;
    RunPreservesInv(s1, later);
    if s.cache.Some? {
      LoadedIsFinal(s, later);
    }
  }

  /** The loader as a mutable object: the two module-level slots and the
      table of promises it created. */
  class FontsModuleLoader {
    var fontsCache: Option<Catalog>
    var fontsLoadingPromise: Option<nat>
    var imports: seq<Settlement>

    function State(): Loader
      reads this
    {
      Loader(fontsCache, fontsLoadingPromise, imports)
    }

    ghost predicate Valid()
      reads this
    {
      Inv(State())
    }

    /** Module initialisation: both slots null. */
    constructor ()
      ensures Valid() && State() == Initial()
    {
      fontsCache := None;
      fontsLoadingPromise := None;
      imports := [];
    }

    /** `loadFontsModule()`. */
    method Call() returns (reply: Reply)
      requires Valid()
      modifies this
      ensures Valid()
      ensures (State(), reply) == CallStep(old(State()))
      ensures old(fontsCache).Some? ==> reply == Immediate(old(fontsCache).value) && unchanged(this)
      ensures old(fontsCache).None? && old(fontsLoadingPromise).Some? ==>
        reply == Await(old(fontsLoadingPromise).value) && unchanged(this)
      ensures old(fontsCache).None? && old(fontsLoadingPromise).None? ==>
        reply.Await? && fontsLoadingPromise == Some(reply.promise) && fontsCache.None? &&
        imports == old(imports) + [InFlight] && reply.promise == old(|imports|)
    {
      if fontsCache.Some? {
        return Immediate(fontsCache.value);
      }
      if fontsLoadingPromise.Some? {
        return Await(fontsLoadingPromise.value);
      }
      var h := |imports|;
      imports := imports + [InFlight];
      fontsLoadingPromise := Some(h);
      reply := Await(h);
    }

    /** The import behind promise h fulfils with `catalog`: the `.then`
        callback. */
    method Resolve(h: nat, catalog: Catalog)
      requires Valid()
      modifies this
      ensures Valid()
      ensures State() == ResolveStep(old(State()), h, catalog)
      ensures InFlightAt(old(State()), h) ==>
        fontsCache == Some(catalog) && fontsLoadingPromise.None? && imports[h] == Fulfilled(catalog)
      ensures !InFlightAt(old(State()), h) ==> unchanged(this)
    {
      if h < |imports| && imports[h] == InFlight {
        fontsCache := Some(catalog);
        fontsLoadingPromise := None;
        imports := imports[h := Fulfilled(catalog)];
      }
    }

    /** The import behind promise h rejects: nothing handles it, so only the
        promise itself changes. */
    method Reject(h: nat, cause: string)
      requires Valid()
      modifies this
      ensures Valid()
      ensures State() == RejectStep(old(State()), h, cause)
      ensures fontsCache == old(fontsCache) && fontsLoadingPromise == old(fontsLoadingPromise)
      ensures InFlightAt(old(State()), h) ==> imports == old(imports)[h := Rejected(cause)]
    {
      if h < |imports| && imports[h] == InFlight {
        imports := imports[h := Rejected(cause)];
      }
    }
  }
}

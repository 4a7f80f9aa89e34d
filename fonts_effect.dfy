/** The mount effect that loads the catalog into the component's
    `fontsModule` state: one run of the effect owns an `isMounted` flag that
    its cleanup clears, and the loaded list is stored only while the flag is
    still set. A failed load is only logged. */
module FontsEffect {
  import opened Fonts
  import FontsCache

  /** How the effect's `await loadFontsModule()` ends, or the cleanup. */
  datatype EffectEvent = Cleanup | Loaded(fonts: Catalog) | Failed(cause: string)

  /** One effect run: its flag, the component's `fontsModule` state and the
      messages written with `console.error`. */
  datatype EffectState = EffectState(isMounted: bool, fontsModule: Option<Catalog>, logged: seq<string>)

  /** The effect has just run: the flag is set, the state is what it was. */
  function Mounted(fontsModule: Option<Catalog>): EffectState {
    EffectState(true, fontsModule, [])
  }

  function EffectStep(s: EffectState, e: EffectEvent): EffectState {
    match e
    case Cleanup => s.(isMounted := false)
    case Loaded(fonts) => if s.isMounted then s.(fontsModule := Some(fonts)) else s
    case Failed(cause) => s.(logged := s.logged + [cause])
  }

  function RunEffect(s: EffectState, events: seq<EffectEvent>): EffectState
    decreases |events|
  {
    if events == [] then s else RunEffect(EffectStep(s, events[0]), events[1..])
  }

  /** The causes of the failures among `events`, in order. */
  function Failures(events: seq<EffectEvent>): seq<string>
    decreases |events|
  {
    if events == [] then []
    else (if events[0].Failed? then [events[0].cause] else []) + Failures(events[1..])
  }

  /** After the cleanup the state is never written again, whatever the
      pending load does. */
  lemma {:induction false} CleanupFreezesFontsModule(s: EffectState, events: seq<EffectEvent>)
    requires !s.isMounted
    ensures !RunEffect(s, events).isMounted
    ensures RunEffect(s, events).fontsModule == s.fontsModule
    decreases |events|
  {
    if events != [] {
      CleanupFreezesFontsModule(EffectStep(s, events[0]), events[1..]);
    }
  }

  /** Failures change nothing but the log, which gains their causes in order. */
  lemma {:induction false} FailuresOnlyLog(s: EffectState, events: seq<EffectEvent>)
    requires forall i :: 0 <= i < |events| ==> events[i].Failed?
    ensures RunEffect(s, events) == s.(logged := s.logged + Failures(events))
    ensures |RunEffect(s, events).logged| == |s.logged| + |events|
    ensures forall i :: 0 <= i < |events| ==> RunEffect(s, events).logged[|s.logged| + i] == events[i].cause
    decreases |events|
  {
    if events == [] {
      assert s.logged + [] == s.logged;
    } else {
      assert events[0].Failed?;
      var s1 := s.(logged := s.logged + [events[0].cause]);
      assert EffectStep(s, events[0]) == s1;
      FailuresOnlyLog(s1, events[1..]);
      assert Failures(events) == [events[0].cause] + Failures(events[1..]);
      assert s1.logged + Failures(events[1..]) == s.logged + Failures(events);
    }
  }

  /** A stored list is one that some load delivered while the flag was set. */
  lemma {:induction false} StoredFontsWereLoaded(s: EffectState, events: seq<EffectEvent>)
    ensures var t := RunEffect(s, events);
      t.fontsModule == s.fontsModule ||
      (t.fontsModule.Some? && exists i :: 0 <= i < |events| && events[i] == Loaded(t.fontsModule.value))
    decreases |events|
  {
    if events != [] {
      StoredFontsWereLoaded(EffectStep(s, events[0]), events[1..]);
      var t := RunEffect(s, events);
      if t.fontsModule != EffectStep(s, events[0]).fontsModule {
        var i :| 0 <= i < |events[1..]| && events[1..][i] == Loaded(t.fontsModule.value);
        assert events[i + 1] == Loaded(t.fontsModule.value);
      }
    }
  }

  /** What the effect's `await loadFontsModule()` yields, given the reply of
      the call and the loader's state now: None while the promise is pending. */
  function AwaitResult(l: FontsCache.Loader, r: FontsCache.Reply): Option<EffectEvent> {
    match FontsCache.Outcome(l, r)
    case InFlight => None
    case Fulfilled(catalog) => Some(Loaded(catalog))
    case Rejected(cause) => Some(Failed(cause))
  }

  /** The bridge from the loader to the effect: `DeliveredCatalogIsCached`
      read through `AwaitResult`. The list the effect's await yields, after a
      call made in any loader state followed by any loader events, is exactly
      the catalog the loader has cached. */
  lemma AwaitedFontsAreCached(l: FontsCache.Loader, later: seq<FontsCache.Event>, fonts: Catalog)
    requires FontsCache.Inv(l)
    requires AwaitResult(FontsCache.Run(FontsCache.CallStep(l).0, later), FontsCache.CallStep(l).1) == Some(Loaded(fonts))
    ensures FontsCache.Run(FontsCache.CallStep(l).0, later).cache == Some(fonts)
  {
    FontsCache.DeliveredCatalogIsCached(l, later, fonts);
  }

  /** One run of the effect as a mutable object. */
  class InitFontsEffect {
    var isMounted: bool
    var fontsModule: Option<Catalog>
    var logged: seq<string>

    function State(): EffectState
      reads this
    {
      EffectState(isMounted, fontsModule, logged)
    }

    /** The effect body runs: `isMounted = true`, then `initFonts` starts. */
    constructor (current: Option<Catalog>)
      ensures State() == Mounted(current)
    {
      isMounted := true;
      fontsModule := current;
      logged := [];
    }

    /** The returned cleanup: `isMounted = false`. */
    method Cleanup()
      modifies this
      ensures State() == EffectStep(old(State()), EffectEvent.Cleanup)
      ensures !isMounted && fontsModule == old(fontsModule) && logged == old(logged)
    {
      isMounted := false;
    }

    /** The await yields `fonts`: stored only while still mounted. */
    method Complete(fonts: Catalog)
      modifies this
      ensures State() == EffectStep(old(State()), Loaded(fonts))
      ensures isMounted == old(isMounted) && logged == old(logged)
      ensures fontsModule == if old(isMounted) then Some(fonts) else old(fontsModule)
    {
      if isMounted {
        fontsModule := Some(fonts);
      }
    }

    /** The await throws: the error is logged and nothing else changes. */
    method Fail(cause: string)
      modifies this
      ensures State() == EffectStep(old(State()), Failed(cause))
      ensures isMounted == old(isMounted) && fontsModule == old(fontsModule)
      ensures logged == old(logged) + [cause]
    {
      logged := logged + [cause];
    }

    /** `initFonts` after its `await loadFontsModule()`: `reply` is what the
        call returned and `loader` the loader now. A fulfilled promise or a
        cached catalog is stored while mounted, a rejection is logged, and a
        promise still in flight changes nothing yet. A catalog stored from a
        promise is the loader's cached one. */
    method Settle(loader: FontsCache.FontsModuleLoader, reply: FontsCache.Reply)
      requires loader.Valid()
      modifies this
      ensures AwaitResult(loader.State(), reply).None? ==> State() == old(State())
      ensures AwaitResult(loader.State(), reply).Some? ==>
        State() == EffectStep(old(State()), AwaitResult(loader.State(), reply).value)
      ensures old(isMounted) && reply.Await? && FontsCache.Outcome(loader.State(), reply).Fulfilled? ==>
        fontsModule == loader.fontsCache
    {
      var result := AwaitResult(loader.State(), reply);
      match result
      case None =>
      case Some(Loaded(fonts)) => Complete(fonts);
      case Some(Failed(cause)) => Fail(cause);
      case Some(Cleanup) =>
        assert false;
    }
  }

  /** A client of both objects: the effect runs, calls the loader, the import
      (if one is in flight) loads `catalog`, and the await settles. Whatever
      state the loader was in, the effect ends up holding what the loader has
      cached, and at most one import ever exists. A loader whose import was
      rejected is left as it is (no retry) and the effect logs the cause. */
  method MountAndLoad(loader: FontsCache.FontsModuleLoader, catalog: Catalog) returns (effect: InitFontsEffect)
    requires loader.Valid()
    modifies loader
    ensures fresh(effect) && loader.Valid()
    ensures effect.isMounted && effect.fontsModule == loader.fontsCache
    ensures FontsCache.ImportsStarted(loader.State()) <= 1
    ensures old(loader.fontsCache).Some? ==> loader.State() == old(loader.State())
    ensures old(loader.fontsCache).None? && (old(loader.fontsLoadingPromise).None? || old(loader.imports)[0] == FontsCache.InFlight) ==>
      loader.fontsCache == Some(catalog)
    ensures old(loader.fontsCache).None? && old(loader.fontsLoadingPromise).Some? && old(loader.imports)[0].Rejected? ==>
      loader.State() == old(loader.State()) && effect.logged == [old(loader.imports)[0].cause]
    ensures !(old(loader.fontsCache).None? && old(loader.fontsLoadingPromise).Some? && old(loader.imports)[0].Rejected?) ==>
      effect.logged == []
  {
    effect := new InitFontsEffect(None);
    var reply := loader.Call();
    if reply.Await? {
      loader.Resolve(reply.promise, catalog);
    }
    effect.Settle(loader, reply);
  }
}

/** One scheduled run of the watcher: for each configured region, load the
    snapshot, list the current services, and on news save the full list and
    post one notification. The object store and the webhook are the state of a
    `Watcher`; the parameter store is the sequence of responses per region. */
module Watcher {
  import opened Outcomes
  import opened Config
  import opened SnapshotStore
  import opened ServiceLister
  import opened DiffNotifier

  /** What the outside world holds: the snapshot objects and the messages the
      webhook has delivered, oldest first. */
  datatype State = State(store: Store, outbox: seq<string>)

  datatype Step = Step(state: State, outcome: Outcome)

  /** The effect of notifying about `services` given the known `recent` list.
      The snapshot is saved before the message is posted, so a failed post
      leaves the new snapshot in place. */
  function AfterNotify(s: State, region: string, recent: seq<string>, services: seq<string>,
                       webhookUp: bool): Step
  {
    var added := Added(services, recent);
    if |added| == 0 then Step(s, Done)
    else
      var store' := Save(s.store, region, services);
      if webhookUp then
        Step(State(store', s.outbox + [MessageText(DisplayName(region), added)]), Done)
      else
        Step(State(store', s.outbox), Failed(DeliveryFailed))
  }

  /** The effect of one region's cycle: load, list, notify; the first failure
      ends the cycle. */
  function AfterRun(s: State, region: string, pages: seq<Page>, webhookUp: bool): Step
  {
    match LoadRecentServices(s.store, region)
    case Err(e) => Step(s, Failed(e))
    case Ok(recent) =>
      match Listing(pages)
      case Err(e) => Step(s, Failed(e))
      case Ok(services) => AfterNotify(s, region, recent, services, webhookUp)
  }

  /** The effect of a scheduled run over `regions`, in order; a failing region
      ends the run and later regions are not visited. */
  function AfterEvent(s: State, regions: seq<string>, directory: string -> seq<Page>,
                      webhookUp: bool): Step
    decreases |regions|
  {
    if regions == [] then Step(s, Done)
    else
      var first := AfterRun(s, regions[0], directory(regions[0]), webhookUp);
      if first.outcome.Failed? then first
      else AfterEvent(first.state, regions[1..], directory, webhookUp)
  }

  class Watcher {
    var store: Store
    var outbox: seq<string>

    function Current(): State
      reads this
    {
      State(store, outbox)
    }

    constructor (initial: Store)
      ensures store == initial && outbox == []
    {
      store := initial;
      outbox := [];
    }

    /** Overwrites `region`'s snapshot with `services`. */
    method UpdateRecentServices(region: string, services: seq<string>)
      modifies this
      ensures store == Save(old(store), region, services)
      ensures outbox == old(outbox)
    {
      store := Save(store, region, services);
    }

    /** Saves and announces the services that `recent` does not know, if any. */
    method NotifyNews(region: string, recent: seq<string>, services: seq<string>, webhookUp: bool)
      returns (r: Outcome)
      modifies this
      ensures Step(Current(), r) == AfterNotify(old(Current()), region, recent, services, webhookUp)
    {
      var added := Added(services, recent);
      if |added| == 0 {
        return Done;
      }
      UpdateRecentServices(region, services);
      var message := MessageText(DisplayName(region), added);
      if !webhookUp {
        return Failed(DeliveryFailed);
      }
      outbox := outbox + [message];
      r := Done;
    }

    /** One region's cycle. */
    method Run(region: string, pages: seq<Page>, webhookUp: bool) returns (r: Outcome)
      modifies this
      ensures Step(Current(), r) == AfterRun(old(Current()), region, pages, webhookUp)
    {
      var recent := LoadRecentServices(store, region);
      if recent.Err? {
        return Failed(recent.error);
      }
      var services := GetServices(pages);
      if services.Err? {
        return Failed(services.error);
      }
      r := NotifyNews(region, recent.value, services.value, webhookUp);
    }

    /** The scheduled entry point: every configured region in table order. */
    method HandleEvent(directory: string -> seq<Page>, webhookUp: bool) returns (r: Outcome)
      modifies this
      ensures Step(Current(), r) == AfterEvent(old(Current()), RegionCodes(), directory, webhookUp)
    {
      var regions := RegionCodes();
      var i := 0;
      while i < |regions|
        invariant 0 <= i <= |regions|
        invariant AfterEvent(old(Current()), regions, directory, webhookUp)
               == AfterEvent(Current(), regions[i..], directory, webhookUp)
      {
        assert regions[i..][1..] == regions[i + 1..];
        r := Run(regions[i], directory(regions[i]), webhookUp);
        if r.Failed? {
          return;
        }
        i := i + 1;
      }
      r := Done;
    }
  }

  /** No news means no write and no message; and that is the only way a
      notification can leave everything as it was and succeed. */
  lemma NoNewsIsQuiet(s: State, region: string, recent: seq<string>, services: seq<string>,
                      webhookUp: bool)
    ensures AfterNotify(s, region, recent, services, webhookUp) == Step(s, Done)
        <==> forall x :: x in services ==> x in recent
  {
    AddedEmptyIff(services, recent);
    var t := AfterNotify(s, region, recent, services, webhookUp);
    if Added(services, recent) != [] && webhookUp {
      assert |t.state.outbox| == |s.outbox| + 1;
    }
  }

  /** On news the region's snapshot becomes exactly the current list, every
      other region's snapshot is untouched, and (when the webhook is reachable)
      exactly one message is appended, naming the region and each new service. */
  lemma NewsIsSavedAndAnnounced(s: State, region: string, recent: seq<string>, services: seq<string>,
                                webhookUp: bool, x: string)
    requires x in services && x !in recent
    ensures var t := AfterNotify(s, region, recent, services, webhookUp);
      && LoadRecentServices(t.state.store, region) == Ok(services)
      && (forall other :: other != region ==>
            LoadRecentServices(t.state.store, other) == LoadRecentServices(s.store, other))
      && (webhookUp ==>
            && t.outcome == Done
            && |t.state.outbox| == |s.outbox| + 1
            && t.state.outbox[..|s.outbox|] == s.outbox
            && Mentions(t.state.outbox[|s.outbox|], DisplayName(region))
            && forall y :: y in services && y !in recent ==> Mentions(t.state.outbox[|s.outbox|], y))
      && (!webhookUp ==> t.state.outbox == s.outbox && t.outcome == Failed(DeliveryFailed))
  {
    var added := Added(services, recent);
    assert x in added;
    LoadAfterSave(s.store, region, services);
    forall other | other != region
      ensures LoadRecentServices(Save(s.store, region, services), other) == LoadRecentServices(s.store, other)
    {
      SaveIsolated(s.store, region, services, other);
    }
    MessageMentions(DisplayName(region), added);
  }

  /** A region whose snapshot object is empty sees every current service as new
      on its first cycle. */
  lemma FirstRunAnnouncesAll(s: State, region: string, pages: seq<Page>, services: seq<string>)
    requires ObjectKey(region) in s.store && s.store[ObjectKey(region)] == Blank
    requires Listing(pages) == Ok(services) && services != []
    ensures var t := AfterRun(s, region, pages, true);
      && t.outcome == Done
      && t.state.outbox == s.outbox + [MessageText(DisplayName(region), Added(services, []))]
      && forall x :: x in services ==> x in Added(services, [])
  {
    BlankLoadsEmpty(s.store, region);
    assert services[0] in Added(services, []);
  }

  /** A listing failure ends the cycle with nothing saved and nothing sent. */
  lemma ListingFailureWritesNothing(s: State, region: string, pages: seq<Page>, webhookUp: bool)
    requires Listing(pages).Err?
    ensures AfterRun(s, region, pages, webhookUp).state == s
    ensures AfterRun(s, region, pages, webhookUp).outcome.Failed?
  {
  }

  /** The snapshot of `region` already covers everything the listing returns. */
  ghost predicate Settled(s: State, region: string, pages: seq<Page>)
  {
    && LoadRecentServices(s.store, region).Ok?
    && Listing(pages).Ok?
    && forall x :: x in Listing(pages).value ==> x in LoadRecentServices(s.store, region).value
  }

  /** After a cycle that got past loading and listing, the region is settled,
      whether or not the notification was delivered. */
  lemma RunSettles(s: State, region: string, pages: seq<Page>, webhookUp: bool)
    requires LoadRecentServices(s.store, region).Ok? && Listing(pages).Ok?
    ensures Settled(AfterRun(s, region, pages, webhookUp).state, region, pages)
  {
    var recent := LoadRecentServices(s.store, region).value;
    var services := Listing(pages).value;
    AddedEmptyIff(services, recent);
    if Added(services, recent) != [] {
      LoadAfterSave(s.store, region, services);
    }
  }

  /** A settled region's cycle writes nothing and sends nothing. */
  lemma SettledRunIsQuiet(s: State, region: string, pages: seq<Page>, webhookUp: bool)
    requires Settled(s, region, pages)
    ensures AfterRun(s, region, pages, webhookUp) == Step(s, Done)
  {
    var recent := LoadRecentServices(s.store, region).value;
    var services := Listing(pages).value;
    NoNewsIsQuiet(s, region, recent, services, webhookUp);
  }

  /** Idempotence: running a region's cycle again on the same listing, right
      after one that loaded and listed successfully, changes nothing. */
  lemma RunIdempotent(s: State, region: string, pages: seq<Page>, webhookUp: bool, webhookUp2: bool)
    requires LoadRecentServices(s.store, region).Ok? && Listing(pages).Ok?
    ensures var t := AfterRun(s, region, pages, webhookUp).state;
      AfterRun(t, region, pages, webhookUp2) == Step(t, Done)
  {
    RunSettles(s, region, pages, webhookUp);
    SettledRunIsQuiet(AfterRun(s, region, pages, webhookUp).state, region, pages, webhookUp2);
  }

  /** A region's cycle leaves other regions' snapshots as they were, and only
      ever appends to the outbox. */
  lemma RunIsolated(s: State, region: string, pages: seq<Page>, webhookUp: bool, other: string)
    requires other != region
    ensures LoadRecentServices(AfterRun(s, region, pages, webhookUp).state.store, other)
         == LoadRecentServices(s.store, other)
    ensures s.outbox <= AfterRun(s, region, pages, webhookUp).state.outbox
  {
    var load := LoadRecentServices(s.store, region);
    if load.Ok? && Listing(pages).Ok? && Added(Listing(pages).value, load.value) != [] {
      SaveIsolated(s.store, region, Listing(pages).value, other);
    }
  }

  /** A scheduled run touches no snapshot of a region it does not visit. */
  lemma {:induction false} EventIsolated(s: State, regions: seq<string>, directory: string -> seq<Page>,
                                         webhookUp: bool, other: string)
    requires other !in regions
    decreases |regions|
    ensures LoadRecentServices(AfterEvent(s, regions, directory, webhookUp).state.store, other)
         == LoadRecentServices(s.store, other)
    ensures s.outbox <= AfterEvent(s, regions, directory, webhookUp).state.outbox
  {
    if regions != [] {
      var first := AfterRun(s, regions[0], directory(regions[0]), webhookUp);
      RunIsolated(s, regions[0], directory(regions[0]), webhookUp, other);
      if first.outcome.Done? {
        EventIsolated(first.state, regions[1..], directory, webhookUp, other);
      }
    }
  }

  /** After a fully successful scheduled run every visited region is settled. */
  lemma {:induction false} EventSettles(s: State, regions: seq<string>, directory: string -> seq<Page>,
                                        webhookUp: bool)
    requires Distinct(regions)
    requires AfterEvent(s, regions, directory, webhookUp).outcome == Done
    decreases |regions|
    ensures forall r :: r in regions ==>
      Settled(AfterEvent(s, regions, directory, webhookUp).state, r, directory(r))
  {
    if regions != [] {
      var r0 := regions[0];
      var first := AfterRun(s, r0, directory(r0), webhookUp);
      var rest := regions[1..];
      var t := AfterEvent(s, regions, directory, webhookUp).state;
      assert first.outcome.Done?;
      assert Distinct(rest);
      EventSettles(first.state, rest, directory, webhookUp);
      RunSettles(s, r0, directory(r0), webhookUp);
      assert r0 !in rest;
      EventIsolated(first.state, rest, directory, webhookUp, r0);
      assert Settled(t, r0, directory(r0));
    }
  }

  /** A scheduled run over settled regions writes nothing and sends nothing. */
  lemma {:induction false} SettledEventIsQuiet(s: State, regions: seq<string>,
                                               directory: string -> seq<Page>, webhookUp: bool)
    requires forall r :: r in regions ==> Settled(s, r, directory(r))
    decreases |regions|
    ensures AfterEvent(s, regions, directory, webhookUp) == Step(s, Done)
  {
    if regions != [] {
      SettledRunIsQuiet(s, regions[0], directory(regions[0]), webhookUp);
      SettledEventIsQuiet(s, regions[1..], directory, webhookUp);
    }
  }

  /** Idempotence of the scheduled run: after a run in which every region
      succeeded, a second run on the same listings writes nothing and sends
      nothing. */
  lemma EventIdempotent(s: State, directory: string -> seq<Page>, webhookUp: bool, webhookUp2: bool)
    requires AfterEvent(s, RegionCodes(), directory, webhookUp).outcome == Done
    ensures var t := AfterEvent(s, RegionCodes(), directory, webhookUp).state;
      AfterEvent(t, RegionCodes(), directory, webhookUp2) == Step(t, Done)
  {
    EventSettles(s, RegionCodes(), directory, webhookUp);
    SettledEventIsQuiet(AfterEvent(s, RegionCodes(), directory, webhookUp).state, RegionCodes(),
                        directory, webhookUp2);
  }
}

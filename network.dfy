/**
 * The telemetry flush and the pure decisions of its transport: which captured
 * interactions are sent and which are kept, the ingest payload built from the
 * sent ones, the retry budget of their components, the pending-request
 * counter, and the JSON replacer, compression and request tagging rules.
 */
module Network {
  import opened Common
  import opened JsValues
  import opened MonitorTypes
  import ScanCore

  /** Interactions whose entry started at most this many milliseconds ago are sent. */
  const RecentWindow: real := 4000.0

  datatype PayloadInteraction = PayloadInteraction(id: string, name: string, time: real, timestamp: real, kind: string)
  datatype PayloadComponent = PayloadComponent(name: string, interactionId: string, instances: nat, renders: int, totalTime: real)
  datatype IngestRequest = IngestRequest(interactions: seq<PayloadInteraction>, components: seq<PayloadComponent>, session: Session)

  /** How the promise of the first `transport` call settles. */
  datatype Settlement = Resolved | Rejected

  // ---------------------------------------------------------------------------
  // Partition by age
  // ---------------------------------------------------------------------------

  predicate IsRecent(now: real, x: Interaction) {
    now - x.entry.startTime <= RecentWindow
  }

  /** The interactions pushed onto `toFlushInteractions`, in their order. */
  function Recent(now: real, xs: seq<Interaction>): (r: seq<Interaction>)
    ensures |r| <= |xs|
  {
    if xs == [] then []
    else Recent(now, xs[..|xs| - 1]) + (if IsRecent(now, xs[|xs| - 1]) then [xs[|xs| - 1]] else [])
  }

  /** The interactions pushed onto `toKeepInteractions`, in their order. */
  function Stale(now: real, xs: seq<Interaction>): (r: seq<Interaction>)
    ensures |r| <= |xs|
  {
    if xs == [] then []
    else Stale(now, xs[..|xs| - 1]) + (if IsRecent(now, xs[|xs| - 1]) then [] else [xs[|xs| - 1]])
  }

  /** Every interaction lands in exactly one of the two lists, and each list holds exactly those of its kind. */
  lemma {:induction false} PartitionExact(now: real, xs: seq<Interaction>)
    ensures multiset(Recent(now, xs)) + multiset(Stale(now, xs)) == multiset(xs)
    ensures forall x :: x in Recent(now, xs) <==> x in xs && IsRecent(now, x)
    ensures forall x :: x in Stale(now, xs) <==> x in xs && !IsRecent(now, x)
  {
    if xs != [] {
      var init := xs[..|xs| - 1];
      PartitionExact(now, init);
      assert xs == init + [xs[|xs| - 1]];
    }
  }

  /** Both lists keep the original order: splitting the input splits each list at the same place. */
  lemma {:induction false} PartitionKeepsOrder(now: real, xs: seq<Interaction>, ys: seq<Interaction>)
    ensures Recent(now, xs + ys) == Recent(now, xs) + Recent(now, ys)
    ensures Stale(now, xs + ys) == Stale(now, xs) + Stale(now, ys)
    decreases |ys|
  {
    if ys == [] {
      assert xs + ys == xs;
    } else {
      var ys' := ys[..|ys| - 1];
      assert (xs + ys)[..|xs + ys| - 1] == xs + ys';
      PartitionKeepsOrder(now, xs, ys');
    }
  }

  lemma {:induction false} RecentValid(now: real, xs: seq<Interaction>)
    requires ValidInteractions(xs)
    ensures ValidInteractions(Recent(now, xs))
  {
    if xs != [] {
      RecentValid(now, xs[..|xs| - 1]);
    }
  }

  // ---------------------------------------------------------------------------
  // Payload
  // ---------------------------------------------------------------------------

  /** A template literal prints an absent route as `null`. */
  function RouteText(route: Option<string>): string {
    match route
    case Some(r) => r
    case None => "null"
  }

  function InteractionId(x: Interaction, route: Option<string>): string {
    x.entry.entryType + "::" + x.componentPath + "::" + RouteText(route)
  }

  /** The same interaction under two different routes gets two different ids. */
  lemma IdSeparatesRoutes(x: Interaction, r1: Option<string>, r2: Option<string>)
    requires RouteText(r1) != RouteText(r2)
    ensures InteractionId(x, r1) != InteractionId(x, r2)
  {
    var p := x.entry.entryType + "::" + x.componentPath + "::";
    assert InteractionId(x, r1) == p + RouteText(r1);
    assert InteractionId(x, r2) == p + RouteText(r2);
    assert (p + RouteText(r1))[|p|..] == RouteText(r1);
    assert (p + RouteText(r2))[|p|..] == RouteText(r2);
  }

  function PayloadOf(x: Interaction, route: Option<string>): PayloadInteraction {
    PayloadInteraction(InteractionId(x, route), x.componentName, x.entry.duration, x.entry.timestamp, x.entry.entryType)
  }

  /** The payload's interaction list. */
  function PayloadInteractions(fl: seq<Interaction>, route: Option<string>): (r: seq<PayloadInteraction>)
    ensures |r| == |fl|
  {
    if fl == [] then [] else PayloadInteractions(fl[..|fl| - 1], route) + [PayloadOf(fl[|fl| - 1], route)]
  }

  /** Payload entry `i` describes the `i`-th sent interaction, so `interactions[i].id` is that interaction's id. */
  lemma {:induction false} PayloadInteractionsMatch(fl: seq<Interaction>, route: Option<string>)
    ensures forall i :: 0 <= i < |fl| ==>
      PayloadInteractions(fl, route)[i] == PayloadOf(fl[i], route) &&
      PayloadInteractions(fl, route)[i].id == fl[i].entry.entryType + "::" + fl[i].componentPath + "::" + RouteText(route)
  {
    if fl != [] {
      PayloadInteractionsMatch(fl[..|fl| - 1], route);
    }
  }

  /** `Array.from(components.entries())`: a snapshot in insertion order. */
  function Snapshot(m: OMap<string, Component>): (r: seq<(string, Component)>)
    requires ValidOMap(m)
    ensures |r| == |m.order|
    ensures forall j :: 0 <= j < |r| ==> r[j] == (m.order[j], m.entries[m.order[j]])
  {
    seq(|m.order|, j requires 0 <= j < |m.order| => (m.order[j], m.entries[m.order[j]]))
  }

  function RecordOf(name: string, c: Component, id: string): PayloadComponent {
    PayloadComponent(name, id, |c.fibers|, c.renders, c.totalTime)
  }

  /** The payload entries pushed for one snapshot. */
  function RecordsOf(es: seq<(string, Component)>, id: string): (r: seq<PayloadComponent>)
    ensures |r| == |es|
  {
    if es == [] then [] else RecordsOf(es[..|es| - 1], id) + [RecordOf(es[|es| - 1].0, es[|es| - 1].1, id)]
  }

  lemma {:induction false} RecordsOfMatch(es: seq<(string, Component)>, id: string)
    ensures forall j :: 0 <= j < |es| ==> RecordsOf(es, id)[j] == RecordOf(es[j].0, es[j].1, id)
  {
    if es != [] {
      RecordsOfMatch(es[..|es| - 1], id);
    }
  }

  /** The payload's component list for all sent interactions, in order. */
  function AllRecords(fl: seq<Interaction>, route: Option<string>): seq<PayloadComponent>
    requires ValidInteractions(fl)
  {
    if fl == [] then []
    else
      var x := fl[|fl| - 1];
      AllRecords(fl[..|fl| - 1], route) + RecordsOf(Snapshot(x.components), InteractionId(x, route))
  }

  /** The number of components over all interactions. */
  function ComponentCount(fl: seq<Interaction>): nat {
    if fl == [] then 0 else ComponentCount(fl[..|fl| - 1]) + |fl[|fl| - 1].components.order|
  }

  /**
   * Every component of every sent interaction contributes exactly one payload
   * entry, tagged with its interaction's id and carrying `fibers.size` as instances.
   */
  lemma {:induction false} AllRecordsComplete(fl: seq<Interaction>, route: Option<string>)
    requires ValidInteractions(fl)
    ensures |AllRecords(fl, route)| == ComponentCount(fl)
    ensures forall i, k :: 0 <= i < |fl| && k in fl[i].components.entries ==>
      RecordOf(k, fl[i].components.entries[k], InteractionId(fl[i], route)) in AllRecords(fl, route)
  {
    AllRecordsLength(fl, route);
    forall i, k | 0 <= i < |fl| && k in fl[i].components.entries
      ensures RecordOf(k, fl[i].components.entries[k], InteractionId(fl[i], route)) in AllRecords(fl, route)
    {
      RecordPresent(fl, route, i, k);
    }
  }

  lemma {:induction false} AllRecordsLength(fl: seq<Interaction>, route: Option<string>)
    requires ValidInteractions(fl)
    ensures |AllRecords(fl, route)| == ComponentCount(fl)
  {
    if fl != [] {
      var init := fl[..|fl| - 1];
      assert ValidInteractions(init) by {
        forall j | 0 <= j < |init| ensures ValidOMap(init[j].components) {
          assert init[j] == fl[j];
        }
      }
      AllRecordsLength(init, route);
    }
  }

  lemma {:induction false} RecordPresent(fl: seq<Interaction>, route: Option<string>, i: nat, k: string)
    requires ValidInteractions(fl) && i < |fl| && k in fl[i].components.entries
    ensures RecordOf(k, fl[i].components.entries[k], InteractionId(fl[i], route)) in AllRecords(fl, route)
    decreases |fl|
  {
    var n := |fl| - 1;
    var init := fl[..n];
    var x := fl[n];
    assert AllRecords(fl, route) == AllRecords(init, route) + RecordsOf(Snapshot(x.components), InteractionId(x, route));
    if i < n {
      assert init[i] == fl[i];
      assert ValidInteractions(init) by {
        forall j | 0 <= j < |init| ensures ValidOMap(init[j].components) {
          assert init[j] == fl[j];
        }
      }
      RecordPresent(init, route, i, k);
    } else {
      OwnRecordPresent(x, route, k);
    }
  }

  /** A component of an interaction has its record among that interaction's records. */
  lemma OwnRecordPresent(x: Interaction, route: Option<string>, k: string)
    requires ValidOMap(x.components) && k in x.components.entries
    ensures RecordOf(k, x.components.entries[k], InteractionId(x, route)) in RecordsOf(Snapshot(x.components), InteractionId(x, route))
  {
    var es := Snapshot(x.components);
    var id := InteractionId(x, route);
    RecordsOfMatch(es, id);
    var j :| 0 <= j < |x.components.order| && x.components.order[j] == k;
    assert RecordsOf(es, id)[j] == RecordOf(k, x.components.entries[k], id);
  }

  // ---------------------------------------------------------------------------
  // Retry budgets
  // ---------------------------------------------------------------------------

  function Decremented(c: Component): Component {
    c.(retiresAllowed := c.retiresAllowed - 1)
  }

  /** One turn of the component loop on the interaction object. */
  function AgeOne(x: Interaction, e: (string, Component)): (r: Interaction)
    requires ValidOMap(x.components)
    ensures ValidOMap(r.components)
  {
    var cs := if e.1.retiresAllowed == 0 then Remove(x.components, e.0) else Put(x.components, e.0, Decremented(e.1));
    x.(renders := Some(|e.1.fibers|), components := cs)
  }

  function AgedOver(x: Interaction, es: seq<(string, Component)>): (r: Interaction)
    requires ValidOMap(x.components)
    ensures ValidOMap(r.components)
  {
    if es == [] then x else AgeOne(AgedOver(x, es[..|es| - 1]), es[|es| - 1])
  }

  /** The interaction object after the component loop has visited its whole snapshot. */
  function Aged(x: Interaction): (r: Interaction)
    requires ValidOMap(x.components)
    ensures ValidOMap(r.components)
  {
    AgedOver(x, Snapshot(x.components))
  }

  /** After visiting the keys `done`, the visited components are aged and the others untouched. */
  ghost predicate AgedUpTo(x: Interaction, r: Interaction, done: seq<string>) {
    (forall k :: k in r.components.entries <==>
      k in x.components.entries && (k in done ==> x.components.entries[k].retiresAllowed != 0)) &&
    (forall k :: k in r.components.entries ==>
      r.components.entries[k] == if k in done then Decremented(x.components.entries[k]) else x.components.entries[k])
  }

  lemma AgeOneStep(x: Interaction, r: Interaction, done: seq<string>, k: string)
    requires ValidOMap(r.components) && AgedUpTo(x, r, done)
    requires k in x.components.entries && k !in done
    ensures AgedUpTo(x, AgeOne(r, (k, x.components.entries[k])), done + [k])
  {
    var c := x.components.entries[k];
    var r' := AgeOne(r, (k, c));
    assert k in r.components.entries && r.components.entries[k] == c;
    if c.retiresAllowed == 0 {
      assert r'.components.entries == r.components.entries - {k};
    } else {
      assert r'.components.entries == r.components.entries[k := Decremented(c)];
    }
  }

  lemma {:induction false} AgedPrefix(x: Interaction, n: nat)
    requires ValidOMap(x.components) && n <= |x.components.order|
    ensures var r := AgedOver(x, Snapshot(x.components)[..n]);
      r.entry == x.entry && r.componentPath == x.componentPath && r.componentName == x.componentName &&
      (n == 0 ==> r.renders == x.renders) &&
      (n > 0 ==> r.renders == Some(|x.components.entries[x.components.order[n - 1]].fibers|)) &&
      AgedUpTo(x, r, x.components.order[..n])
  {
    var es := Snapshot(x.components);
    if n == 0 {
      assert es[..0] == [];
      assert x.components.order[..0] == [];
    } else {
      AgedPrefix(x, n - 1);
      assert es[..n][..n - 1] == es[..n - 1];
      AgedPrefixStep(x, n, AgedOver(x, es[..n - 1]));
    }
  }

  /** Visiting the n-th snapshot entry extends `AgedUpTo` by that entry's key. */
  lemma AgedPrefixStep(x: Interaction, n: nat, r: Interaction)
    requires ValidOMap(x.components) && 0 < n <= |x.components.order|
    requires ValidOMap(r.components) && AgedUpTo(x, r, x.components.order[..n - 1])
    ensures AgedUpTo(x, AgeOne(r, Snapshot(x.components)[n - 1]), x.components.order[..n])
  {
    var o := x.components.order;
    assert o[..n] == o[..n - 1] + [o[n - 1]];
    LastNotInPrefix(o, n);
    AgeOneStep(x, r, o[..n - 1], o[n - 1]);
  }

  lemma LastNotInPrefix(o: seq<string>, n: nat)
    requires Distinct(o) && 0 < n <= |o|
    ensures o[n - 1] !in o[..n - 1]
  {
    var pre := o[..n - 1];
    forall i | 0 <= i < |pre|
      ensures pre[i] != o[n - 1]
    {
      assert pre[i] == o[i];
    }
  }

  /**
   * After the loop, a component whose budget was 0 is gone from its interaction;
   * every other one is still there with its budget one lower, and the
   * interaction's `renders` is the last component's instance count.
   */
  lemma AgedEffect(x: Interaction)
    requires ValidOMap(x.components)
    ensures var r := Aged(x);
      r.entry == x.entry && r.componentPath == x.componentPath && r.componentName == x.componentName &&
      (x.components.order == [] ==> r.renders == x.renders) &&
      (x.components.order != [] ==> r.renders == Some(|x.components.entries[x.components.order[|x.components.order| - 1]].fibers|)) &&
      (forall k :: k in r.components.entries <==> k in x.components.entries && x.components.entries[k].retiresAllowed != 0) &&
      (forall k :: k in r.components.entries ==> r.components.entries[k].retiresAllowed == x.components.entries[k].retiresAllowed - 1 &&
                                                 r.components.entries[k].fibers == x.components.entries[k].fibers &&
                                                 r.components.entries[k].renders == x.components.entries[k].renders)
  {
    var n := |x.components.order|;
    AgedPrefix(x, n);
    assert Snapshot(x.components)[..n] == Snapshot(x.components);
    assert x.components.order[..n] == x.components.order;
    assert forall k :: k in x.components.order <==> k in x.components.entries;
  }

  function AgedAll(fl: seq<Interaction>): (r: seq<Interaction>)
    requires ValidInteractions(fl)
    ensures |r| == |fl|
  {
    if fl == [] then [] else AgedAll(fl[..|fl| - 1]) + [Aged(fl[|fl| - 1])]
  }

  lemma {:induction false} AgedAllMatch(fl: seq<Interaction>)
    requires ValidInteractions(fl)
    ensures forall i :: 0 <= i < |fl| ==> AgedAll(fl)[i] == Aged(fl[i])
  {
    if fl != [] {
      AgedAllMatch(fl[..|fl| - 1]);
    }
  }

  /** A component whose budget is exhausted is removed from its interaction, yet it is still reported in this payload. */
  lemma ExhaustedStillSent(fl: seq<Interaction>, route: Option<string>, i: nat, k: string)
    requires ValidInteractions(fl) && i < |fl|
    requires k in fl[i].components.entries && fl[i].components.entries[k].retiresAllowed == 0
    ensures k !in AgedAll(fl)[i].components.entries
    ensures RecordOf(k, fl[i].components.entries[k], InteractionId(fl[i], route)) in AllRecords(fl, route)
  {
    AgedAllMatch(fl);
    AgedEffect(fl[i]);
    AllRecordsComplete(fl, route);
  }

  // ---------------------------------------------------------------------------
  // The whole flush
  // ---------------------------------------------------------------------------

  /** What a flush leaves behind: the monitor, the module's session, the sent interactions after the loop, and the transport calls. */
  datatype FlushOutcome = FlushOutcome(
    monitor: Option<Monitor>,
    session: Option<Session>,
    aged: seq<Interaction>,
    sent: seq<(string, IngestRequest)>)

  /** `!monitor || !navigator.onLine || !monitor.url || !monitor.interactions.length`. */
  predicate NothingToDo(monitor: Option<Monitor>, online: bool) {
    monitor.None? || !online || monitor.value.url.None? || monitor.value.url.value == "" || |monitor.value.interactions| == 0
  }

  /**
   * The flush, with the page location, the session `getSession` would build,
   * the clock and the settlement of the first transport promise as inputs.
   * The counter update of that settlement is folded into the result.
   */
  function FlushResult(monitor: Option<Monitor>, session: Option<Session>, online: bool, location: string,
                       stored: Option<Session>, now: real, first: Settlement): FlushOutcome
    requires monitor.Some? ==> ValidInteractions(monitor.value.interactions)
  {
    if NothingToDo(monitor, online) then FlushOutcome(monitor, session, [], [])
    else
      var s0 := if session.Some? then session else stored;
      if s0.None? then FlushOutcome(monitor, None, [], [])
      else
        var m := monitor.value;
        var s := s0.value.(url := location, route := m.route);
        var keep := Stale(now, m.interactions);
        if keep == [] then FlushOutcome(monitor, Some(s), [], [])
        else Sending(m, s, now, first)
  }

  /** The sending part of the flush: payload, monitor update and transport calls. */
  function Sending(m: Monitor, s: Session, now: real, first: Settlement): FlushOutcome
    requires ValidInteractions(m.interactions) && m.url.Some?
  {
    var fl := Recent(now, m.interactions);
    RecentValid(now, m.interactions);
    var payload := IngestRequest(PayloadInteractions(fl, m.route), AllRecords(fl, m.route), s);
    var req := (m.url.value, payload);
    var pending := if first.Resolved? then m.pendingRequests else m.pendingRequests + 1;
    FlushOutcome(Some(m.(pendingRequests := pending, interactions := Stale(now, m.interactions))), Some(s), AgedAll(fl),
                 if first.Resolved? then [req] else [req, req])
  }

  /** No monitor, offline, no URL or no interactions: nothing changes and nothing is sent. */
  lemma FlushGuards(monitor: Option<Monitor>, session: Option<Session>, online: bool, location: string,
                    stored: Option<Session>, now: real, first: Settlement)
    requires monitor.Some? ==> ValidInteractions(monitor.value.interactions)
    requires monitor.None? || !online || monitor.value.url.None? || monitor.value.url == Some("") || monitor.value.interactions == []
    ensures FlushResult(monitor, session, online, location, stored, now, first) == FlushOutcome(monitor, session, [], [])
  {
  }

  /**
   * When every interaction is recent there is nothing to keep: the flush
   * returns before the payload, so the monitor and every budget are untouched
   * and nothing is sent; only the session has been refreshed.
   */
  lemma FlushAllRecentSendsNothing(monitor: Option<Monitor>, session: Option<Session>, online: bool, location: string,
                                   stored: Option<Session>, now: real, first: Settlement)
    requires monitor.Some? && ValidInteractions(monitor.value.interactions) && !NothingToDo(monitor, online)
    requires forall i :: 0 <= i < |monitor.value.interactions| ==> IsRecent(now, monitor.value.interactions[i])
    ensures var r := FlushResult(monitor, session, online, location, stored, now, first);
      r.monitor == monitor && r.aged == [] && r.sent == []
  {
    StaleOfRecent(now, monitor.value.interactions);
  }

  lemma {:induction false} StaleOfRecent(now: real, xs: seq<Interaction>)
    requires forall i :: 0 <= i < |xs| ==> IsRecent(now, xs[i])
    ensures Stale(now, xs) == []
  {
    if xs != [] {
      StaleOfRecent(now, xs[..|xs| - 1]);
    }
  }

  /**
   * A flush that sends: the monitor keeps exactly the old interactions, the
   * payload lists the recent ones in order, the counter is one higher unless
   * the first call resolved, and a rejected first call is retried exactly once
   * with the same request.
   */
  lemma FlushSends(monitor: Option<Monitor>, session: Option<Session>, online: bool, location: string,
                   stored: Option<Session>, now: real, first: Settlement)
    requires monitor.Some? && ValidInteractions(monitor.value.interactions) && !NothingToDo(monitor, online)
    requires session.Some? || stored.Some?
    requires Stale(now, monitor.value.interactions) != []
    ensures var m := monitor.value;
      var r := FlushResult(monitor, session, online, location, stored, now, first);
      var fl := Recent(now, m.interactions);
      r.monitor.Some? &&
      r.monitor.value.interactions == Stale(now, m.interactions) &&
      r.monitor.value.pendingRequests == (if first.Resolved? then m.pendingRequests else m.pendingRequests + 1) &&
      r.monitor.value.url == m.url && r.monitor.value.apiKey == m.apiKey && r.monitor.value.route == m.route &&
      r.session.Some? && r.session.value.url == location && r.session.value.route == m.route &&
      |r.sent| == (if first.Resolved? then 1 else 2) &&
      (forall j :: 0 <= j < |r.sent| ==> r.sent[j] == r.sent[0]) &&
      r.sent[0].0 == m.url.value &&
      |r.sent[0].1.interactions| == |fl| &&
      (forall i :: 0 <= i < |fl| ==> r.sent[0].1.interactions[i] == PayloadOf(fl[i], m.route)) &&
      r.sent[0].1.session == r.session.value &&
      |r.aged| == |fl|
  {
    PayloadInteractionsMatch(Recent(now, monitor.value.interactions), monitor.value.route);
  }

  /** One turn of the outer component loop extends both results by the next interaction. */
  lemma CollectStep(xs: seq<Interaction>, route: Option<string>, i: nat)
    requires ValidInteractions(xs) && i < |xs|
    ensures ValidInteractions(xs[..i]) && ValidInteractions(xs[..i + 1])
    ensures AllRecords(xs[..i + 1], route) == AllRecords(xs[..i], route) + RecordsOf(Snapshot(xs[i].components), InteractionId(xs[i], route))
    ensures AgedAll(xs[..i + 1]) == AgedAll(xs[..i]) + [Aged(xs[i])]
  {
    var pre := xs[..i + 1];
    forall j | 0 <= j < |pre| ensures ValidOMap(pre[j].components) {
      assert pre[j] == xs[j];
    }
    assert xs[..i + 1][..i] == xs[..i];
  }

  class Flusher {
    /** The module-level `session`. */
    var session: Option<Session>

    constructor()
      ensures session.None?
    {
      session := None;
    }

    /** The partition loop: both lists and the payload's interaction list, built side by side. */
    static method Partition(xs: seq<Interaction>, now: real, route: Option<string>)
      returns (interactions: seq<PayloadInteraction>, toFlush: seq<Interaction>, toKeep: seq<Interaction>)
      ensures toFlush == Recent(now, xs) && toKeep == Stale(now, xs)
      ensures interactions == PayloadInteractions(toFlush, route)
    {
      interactions, toFlush, toKeep := [], [], [];
      for i := 0 to |xs|
        invariant toFlush == Recent(now, xs[..i]) && toKeep == Stale(now, xs[..i])
        invariant interactions == PayloadInteractions(toFlush, route)
      {
        assert xs[..i + 1][..i] == xs[..i];
        var x := xs[i];
        if IsRecent(now, x) {
          interactions := interactions + [PayloadOf(x, route)];
          assert (toFlush + [x])[..|toFlush|] == toFlush;
          toFlush := toFlush + [x];
        } else {
          toKeep := toKeep + [x];
        }
      }
      assert xs[..|xs|] == xs;
    }

    /** The inner component loop over one interaction's snapshot. */
    static method AgeInteraction(x: Interaction, id: string) returns (records: seq<PayloadComponent>, y: Interaction)
      requires ValidOMap(x.components)
      ensures records == RecordsOf(Snapshot(x.components), id)
      ensures y == Aged(x)
    {
      var entries := Snapshot(x.components);
      records, y := [], x;
      for j := 0 to |entries|
        invariant records == RecordsOf(entries[..j], id)
        invariant y == AgedOver(x, entries[..j])
      {
        assert entries[..j + 1][..j] == entries[..j];
        var (name, component) := entries[j];
        records := records + [PayloadComponent(name, id, |component.fibers|, component.renders, component.totalTime)];
        var cs := y.components;
        if component.retiresAllowed == 0 {
          cs := Remove(cs, name);
        } else {
          cs := Put(cs, name, component.(retiresAllowed := component.retiresAllowed - 1));
        }
        y := y.(renders := Some(|component.fibers|), components := cs);
      }
      assert entries[..|entries|] == entries;
    }

    /** The outer component loop over the interactions to send. */
    static method CollectComponents(toFlush: seq<Interaction>, interactions: seq<PayloadInteraction>, route: Option<string>)
      returns (components: seq<PayloadComponent>, aged: seq<Interaction>)
      requires ValidInteractions(toFlush) && interactions == PayloadInteractions(toFlush, route)
      ensures components == AllRecords(toFlush, route) && aged == AgedAll(toFlush)
    {
      PayloadInteractionsMatch(toFlush, route);
      components, aged := [], [];
      for i := 0 to |toFlush|
        invariant ValidInteractions(toFlush[..i])
        invariant components == AllRecords(toFlush[..i], route) && aged == AgedAll(toFlush[..i])
      {
        CollectStep(toFlush, route, i);
        var records, y := AgeInteraction(toFlush[i], interactions[i].id);
        components := components + records;
        aged := aged + [y];
      }
      assert toFlush[..|toFlush|] == toFlush;
    }

    /** The sending part of `flush()`, once the partition has left something to keep. */
    static method Send(m: Monitor, s: Session, now: real, first: Settlement,
                       interactions: seq<PayloadInteraction>, toFlush: seq<Interaction>, toKeep: seq<Interaction>)
      returns (next: Monitor, aged: seq<Interaction>, sent: seq<(string, IngestRequest)>)
      requires ValidInteractions(m.interactions) && m.url.Some?
      requires toFlush == Recent(now, m.interactions) && toKeep == Stale(now, m.interactions)
      requires interactions == PayloadInteractions(toFlush, m.route)
      ensures FlushOutcome(Some(next), Some(s), aged, sent) == Sending(m, s, now, first)
    {
      RecentValid(now, m.interactions);
      var components;
      components, aged := CollectComponents(toFlush, interactions, m.route);
      var payload := IngestRequest(interactions, components, s);
      var pending := m.pendingRequests + 1;
      sent := [(m.url.value, payload)];
      match first {
        case Resolved =>
          pending := pending - 1;
        case Rejected =>
          sent := sent + [(m.url.value, payload)];
      }
      next := m.(pendingRequests := pending, interactions := toKeep);
    }

    /**
     * `flush()`. Returns the sent interactions as the loop left them and the
     * transport calls made.
     */
    method Flush(store: ScanCore.Store, online: bool, location: string, stored: Option<Session>, now: real, first: Settlement)
      returns (aged: seq<Interaction>, sent: seq<(string, IngestRequest)>)
      requires store.monitor.Some? ==> ValidInteractions(store.monitor.value.interactions)
      modifies this, store`monitor
      ensures FlushOutcome(store.monitor, session, aged, sent) ==
              FlushResult(old(store.monitor), old(session), online, location, stored, now, first)
    {
      aged, sent := [], [];
      var monitor := store.monitor;
      if monitor.None? || !online || monitor.value.url.None? || monitor.value.url.value == "" || |monitor.value.interactions| == 0 {
        return;
      }
      var m := monitor.value;
      var s0 := session;
      if s0.None? {
        s0 := stored;
      }
      if s0.None? {
        session := None;
        return;
      }
      var s := s0.value.(url := location, route := m.route);
      session := Some(s);
      var interactions, toFlush, toKeep := Partition(m.interactions, now, m.route);
      if |toKeep| == 0 {
        return;
      }
      var next;
      next, aged, sent := Send(m, s, now, first, interactions, toFlush, toKeep);
      store.monitor := Some(next);
    }
  }

  // ---------------------------------------------------------------------------
  // Transport decisions
  // ---------------------------------------------------------------------------

  /** `FLOAT_MAX_LEN`: the replacer keeps five decimal places, so numbers are scaled by 10^5. */
  const FloatMaxLen: real := 100000.0

  /** The remaining constants of the monitoring package, whose values are not part of this model. */
  datatype Limits = Limits(gzipMinLen: nat, gzipMaxLen: nat, maxPendingRequests: int)

  /** `parseInt(value) !== value`, modelled as: the number is not integral. */
  predicate IsIntegral(n: real) {
    n.Floor as real == n
  }

  /** Truncation toward zero. */
  function TruncToward0(x: real): (t: int)
    ensures 0.0 <= x ==> 0 <= t && t as real <= x < t as real + 1.0
    ensures x < 0.0 ==> t <= 0 && x <= t as real < x + 1.0
  {
    if x >= 0.0 then x.Floor else -((-x).Floor)
  }

  const TwoTo31: int := 0x8000_0000
  const TwoTo32: int := 0x1_0000_0000

  /** The 32-bit wrap-around of `~~` (ToInt32). */
  function ToInt32(i: int): (r: int)
    ensures -TwoTo31 <= r < TwoTo31
    ensures (r - i) % TwoTo32 == 0
    ensures -TwoTo31 <= i < TwoTo31 ==> r == i
  {
    var m := i % TwoTo32;
    if m >= TwoTo31 then m - TwoTo32 else m
  }

  /** The value the number branch turns `n` into: `~~(n * FLOAT_MAX_LEN) / FLOAT_MAX_LEN` for non-integral `n`. */
  function TruncatedNumber(n: real): real {
    if IsIntegral(n) then n else ToInt32(TruncToward0(n * FloatMaxLen)) as real / FloatMaxLen
  }

  /** The replacer handed to `JSON.stringify`: `None` makes the key disappear. */
  function Replacer(h: Heap, v: Value): Option<Value> {
    var w := if v.Num? then Num(TruncatedNumber(v.n)) else v;
    if (w != Null && w != Undefined && w != Bool(false)) || (w.Arr? && |ArrayItems(h, w.aid)| > 0) then Some(w) else None
  }

  /** Exactly `null`, `undefined` and `false` are dropped; `0`, `''` and `[]` survive unchanged. */
  lemma ReplacerDropsExactly(h: Heap, v: Value)
    ensures Replacer(h, v).None? <==> v == Null || v == Undefined || v == Bool(false)
    ensures !v.Num? ==> Replacer(h, v).Some? ==> Replacer(h, v).value == v
    ensures Replacer(h, Num(0.0)) == Some(Num(0.0))
    ensures Replacer(h, Str("")) == Some(Str(""))
    ensures v.Arr? ==> Replacer(h, v) == Some(v)
  {
    assert IsIntegral(0.0);
  }

  /** Whether `n * FLOAT_MAX_LEN` is inside the 32-bit range of `~~`. */
  predicate ScaledFits(n: real) {
    -(TwoTo31 as real) <= n * FloatMaxLen < TwoTo31 as real
  }

  /**
   * Integral numbers pass unchanged. Others, while the scaled value fits in 32
   * bits, are cut toward zero to a multiple of 10^-5: never past zero, never
   * away from zero, and by less than 10^-5.
   */
  lemma ReplacerTruncates(h: Heap, n: real)
    ensures IsIntegral(n) ==> Replacer(h, Num(n)) == Some(Num(n))
    ensures !IsIntegral(n) && ScaledFits(n) ==>
      var q := TruncToward0(n * FloatMaxLen) as real / FloatMaxLen;
      Replacer(h, Num(n)) == Some(Num(q)) &&
      IsIntegral(q * FloatMaxLen) &&
      (0.0 <= n ==> 0.0 <= q <= n && n - q < 0.00001) &&
      (n < 0.0 ==> n <= q <= 0.0 && q - n < 0.00001)
  {
    if !IsIntegral(n) && ScaledFits(n) {
      var t := TruncToward0(n * FloatMaxLen);
      assert ToInt32(t) == t;
      assert (t as real / FloatMaxLen) * FloatMaxLen == t as real;
    }
  }

  /** The five-decimal rule on a sample: 0.123456789 is sent as 0.12345, not rounded up to 0.12346. */
  lemma ReplacerTruncatesSample(h: Heap)
    ensures Replacer(h, Num(0.123456789)) == Some(Num(0.12345))
  {
    assert !IsIntegral(0.123456789);
    assert TruncToward0(0.123456789 * FloatMaxLen) == 12345;
  }

  /**
   * The number branch wraps: 21474.836485 is scaled to 2^31 + 0.5, which `~~`
   * sends to -2^31, so the number comes out as -21474.83648.
   */
  lemma ReplacerWrapsLargeNumbers(h: Heap)
    ensures 21474.836485 * FloatMaxLen == TwoTo31 as real + 0.5
    ensures !IsIntegral(21474.836485)
    ensures Replacer(h, Num(21474.836485)) == Some(Num(-21474.83648))
  {
    assert TruncToward0(21474.836485 * FloatMaxLen) == TwoTo31;
    assert ToInt32(TwoTo31) == -TwoTo31;
  }

  /** The number branch as its comment describes it: truncation to five decimal places, with no 32-bit wrap. */
  function TruncatedNumberIntended(n: real): (r: real)
    ensures IsIntegral(r * FloatMaxLen)
    ensures 0.0 <= n ==> 0.0 <= r <= n && n - r < 0.00001
    ensures n < 0.0 ==> n <= r <= 0.0 && r - n < 0.00001
  {
    var t := TruncToward0(n * FloatMaxLen);
    assert (t as real / FloatMaxLen) * FloatMaxLen == t as real;
    t as real / FloatMaxLen
  }

  /** Inside the 32-bit range the code as written and the intended truncation agree. */
  lemma IntendedAgreesWhenFits(n: real)
    requires !IsIntegral(n) && ScaledFits(n)
    ensures TruncatedNumber(n) == TruncatedNumberIntended(n)
  {
    assert ToInt32(TruncToward0(n * FloatMaxLen)) == TruncToward0(n * FloatMaxLen);
  }

  /** The length test in `transport`. */
  predicate ShouldCompress(json: string, limits: Limits) {
    |json| > limits.gzipMinLen
  }

  /** The request `transport` hands to `fetch`. */
  datatype RequestPlan = RequestPlan(url: string, gzipped: bool, contentEncoding: Option<string>, apiKey: Option<string>, keepalive: bool, size: nat)

  /**
   * The decisions of `transport`, with the serialized JSON, the gzip output and
   * the browser's capabilities as inputs; `None` is the `{ ok: false }` result
   * when offline.
   */
  function PlanRequest(url: string, json: string, gzipped: seq<bv8>, supportsCompression: bool, online: bool,
                       monitor: Option<Monitor>, limits: Limits): Option<RequestPlan>
  {
    if !online then None
    else
      var compress := ShouldCompress(json, limits);
      var useGzip := compress && supportsCompression;
      var size := if useGzip then |gzipped| else |json|;
      var pending := if monitor.Some? then monitor.value.pendingRequests else 0;
      Some(RequestPlan(
        if compress then url + "?z=1" else url,
        useGzip,
        if compress then Some("gzip") else None,
        if monitor.Some? then monitor.value.apiKey else None,
        limits.gzipMaxLen > size && limits.maxPendingRequests > pending,
        size))
  }

  /**
   * The `?z=1` suffix and the gzip header follow the length test alone, the
   * body is gzipped only when the browser can also compress, and keepalive is
   * requested exactly for small bodies while few requests are pending.
   */
  lemma PlanRequestDecisions(url: string, json: string, gzipped: seq<bv8>, supportsCompression: bool, online: bool,
                             monitor: Option<Monitor>, limits: Limits)
    ensures var p := PlanRequest(url, json, gzipped, supportsCompression, online, monitor, limits);
      (p.None? <==> !online) &&
      (p.Some? ==>
        (p.value.url == url + "?z=1" <==> |json| > limits.gzipMinLen) &&
        (|json| <= limits.gzipMinLen ==> p.value.url == url) &&
        (p.value.contentEncoding == Some("gzip") <==> |json| > limits.gzipMinLen) &&
        (p.value.contentEncoding.None? <==> |json| <= limits.gzipMinLen) &&
        (p.value.gzipped <==> |json| > limits.gzipMinLen && supportsCompression) &&
        (p.value.size == if p.value.gzipped then |gzipped| else |json|) &&
        (p.value.keepalive <==>
          (p.value.size < limits.gzipMaxLen &&
           (if monitor.Some? then monitor.value.pendingRequests else 0) < limits.maxPendingRequests)))
  {
    if online && |json| <= limits.gzipMinLen {
      assert |url + "?z=1"| != |url|;
    }
  }

  /** The tagging does not depend on whether the browser can compress. */
  lemma TaggingIgnoresSupport(url: string, json: string, gzipped: seq<bv8>, online: bool, monitor: Option<Monitor>, limits: Limits)
    requires online
    ensures var a := PlanRequest(url, json, gzipped, true, online, monitor, limits).value;
      var b := PlanRequest(url, json, gzipped, false, online, monitor, limits).value;
      a.url == b.url && a.contentEncoding == b.contentEncoding
  {
  }

  /** A long payload in a browser without compression is labelled gzip although its body is plain JSON. */
  lemma PlainBodyLabelledGzip(url: string, json: string, gzipped: seq<bv8>, monitor: Option<Monitor>, limits: Limits)
    requires |json| > limits.gzipMinLen
    ensures var p := PlanRequest(url, json, gzipped, false, true, monitor, limits).value;
      !p.gzipped && p.contentEncoding == Some("gzip") && p.url == url + "?z=1"
  {
  }

  /** `transport` with the tags following what was actually sent. */
  function PlanRequestIntended(url: string, json: string, gzipped: seq<bv8>, supportsCompression: bool, online: bool,
                               monitor: Option<Monitor>, limits: Limits): (p: Option<RequestPlan>)
    ensures p.None? <==> !online
    ensures p.Some? ==> (p.value.contentEncoding == Some("gzip") <==> p.value.gzipped)
    ensures p.Some? ==> (p.value.url == url + "?z=1" <==> p.value.gzipped)
  {
    if !online then None
    else
      var useGzip := ShouldCompress(json, limits) && supportsCompression;
      var size := if useGzip then |gzipped| else |json|;
      var pending := if monitor.Some? then monitor.value.pendingRequests else 0;
      assert |url + "?z=1"| != |url|;
      Some(RequestPlan(
        if useGzip then url + "?z=1" else url,
        useGzip,
        if useGzip then Some("gzip") else None,
        if monitor.Some? then monitor.value.apiKey else None,
        limits.gzipMaxLen > size && limits.maxPendingRequests > pending,
        size))
  }
}

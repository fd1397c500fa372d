/**
 * The aggregation store of the scanner: alternate-aware per-fiber reports,
 * the legacy by-name reports, the fold of renders into the latest
 * monitored interaction, options, the component allow-list, the monitor
 * session and the chain of `onRender` subscribers.
 */
module ScanCore {
  import opened Common
  import opened JsValues
  import opened Fibers
  import opened MonitorTypes
  import Instrumentation

  type Render = Instrumentation.Render

  // ---------------------------------------------------------------- fibers

  /** `isFiberUnmounted`; a null fiber is `None`. */
  function IsFiberUnmounted(t: Tree, fiber: Option<FiberId>): (r: bool)
    requires Closed(t) && (fiber.Some? ==> fiber.value in t)
    ensures r <==>
      fiber.None? ||
      t[fiber.value].flags & DeletionFlag != 0 ||
      (t[fiber.value].returnFiber.None? && t[fiber.value].tag != HostRootTag) ||
      (t[fiber.value].alternate.Some? && t[t[fiber.value].alternate.value].flags & DeletionFlag != 0)
  {
    if fiber.None? then true
    else
      var n := t[fiber.value];
      if n.flags & DeletionFlag != 0 then true
      else if n.returnFiber.None? && n.tag != HostRootTag then true
      else match n.alternate
        case Some(a) => t[a].flags & DeletionFlag != 0
        case None => false
  }

  /** For a linked pair of fibers, a deletion flag on either one makes both read as unmounted. */
  lemma {:induction false} DeletionMarksBothTwins(t: Tree, f: FiberId)
    requires Closed(t) && Paired(t) && f in t && t[f].alternate.Some?
    requires t[f].flags & DeletionFlag != 0 || t[t[f].alternate.value].flags & DeletionFlag != 0
    ensures IsFiberUnmounted(t, Some(f)) && IsFiberUnmounted(t, t[f].alternate)
  {
    var g := t[f].alternate.value;
    assert t[g].alternate == Some(f);
  }

  /** `addInstance`: a fiber counts as a new instance unless its alternate is already there. */
  function AddInstance(t: Tree, f: FiberId, s: set<FiberId>): (r: set<FiberId>)
    requires f in t
    ensures (t[f].alternate.Some? && t[f].alternate.value in s) ==> r == s
    ensures !(t[f].alternate.Some? && t[f].alternate.value in s) ==> r == s + {f}
  {
    if t[f].alternate.Some? && t[f].alternate.value in s then s else s + {f}
  }

  /** Adding a fiber and then its alternate yields a single instance; the pair is never counted twice. */
  lemma {:induction false} AddInstanceOncePerPair(t: Tree, f: FiberId, s: set<FiberId>)
    requires Closed(t) && Paired(t) && f in t && t[f].alternate.Some?
    requires f !in s && t[f].alternate.value !in s
    ensures AddInstance(t, t[f].alternate.value, AddInstance(t, f, s)) == s + {f}
    ensures |AddInstance(t, t[f].alternate.value, AddInstance(t, f, s))| == |s| + 1
  {
    var g := t[f].alternate.value;
    assert t[g].alternate == Some(f);
  }

  /** `addInstance` keeps an instance set free of fiber/alternate pairs. */
  lemma {:induction false} AddInstanceKeepsNoTwins(t: Tree, f: FiberId, s: set<FiberId>)
    requires Closed(t) && Paired(t) && f in t && NoTwins(t, s)
    ensures NoTwins(t, AddInstance(t, f, s))
  {
    var r := AddInstance(t, f, s);
    forall g | g in r && g in t && t[g].alternate.Some?
      ensures t[g].alternate.value !in r
    {
      if g == f {
        assert t[f].alternate.value !in s;
      } else if t[g].alternate.value == f {
        assert t[f].alternate == Some(g);
      }
    }
  }

  // ---------------------------------------------------------------- options

  /** `{...options, ...p}`: an object spread copies every own key of `p`, even one holding `undefined`. */
  function MergeOptions(options: map<string, Value>, p: map<string, Value>): (r: map<string, Value>)
    ensures forall k :: k in p ==> k in r && r[k] == p[k]
    ensures forall k :: k !in p ==> (k in r <==> k in options) && (k in options ==> r[k] == options[k])
  {
    options + p
  }

  /** Reading `obj[key]`: a missing key reads `undefined`. */
  function Get(obj: map<string, Value>, key: string): Value {
    if key in obj then obj[key] else Undefined
  }

  // ---------------------------------------------------------------- reports

  /**
   * One entry of the report maps. `renders` names the array the entry holds:
   * arrays are shared by reference, so they live in `ReportStore.arrays`.
   */
  datatype RenderData = RenderData(
    count: int,
    time: real,
    renders: nat,
    displayName: Option<string>,
    componentType: Option<TypeRef>)

  datatype ReportStore = ReportStore(
    byFiber: map<FiberId, RenderData>,
    legacy: OMap<string, RenderData>,
    arrays: map<nat, seq<Render>>,
    nextArray: nat)

  ghost predicate ValidReports(s: ReportStore) {
    ValidOMap(s.legacy) &&
    (forall f :: f in s.byFiber ==> s.byFiber[f].renders in s.arrays) &&
    (forall k :: k in s.legacy.entries ==> s.legacy.entries[k].renders in s.arrays) &&
    (forall a :: a in s.arrays ==> a < s.nextArray)
  }

  /** `arr.push(...renders)` on a stored array (every array an entry names is stored). */
  function Push(arrays: map<nat, seq<Render>>, a: nat, renders: seq<Render>): map<nat, seq<Render>> {
    if a in arrays then arrays[a := arrays[a] + renders] else arrays
  }

  /** `getType(fiber.type) || fiber.type`. */
  function TypeOrSelf(host: Host, ty: Option<TypeRef>): Option<TypeRef> {
    if host.getType(ty).Some? then host.getType(ty) else ty
  }

  /** The report-map part of `reportRender`; the `renders` argument becomes the array `s.nextArray`. */
  function ReportTo(s: ReportStore, t: Tree, host: Host, report: Value, f: FiberId, renders: seq<Render>): ReportStore
    requires f in t && ValidOMap(s.legacy)
  {
    var arg := s.nextArray;
    var s0 := s.(arrays := s.arrays[arg := renders], nextArray := arg + 1);
    LegacyReportTo(FiberReportTo(s0, t, host, f, renders, arg), t, host, report, f, renders, arg)
  }

  /** The per-fiber entry: append to the resolved entry's array, or create the entry around `arg`. */
  function FiberReportTo(s: ReportStore, t: Tree, host: Host, f: FiberId, renders: seq<Render>, arg: nat): (r: ReportStore)
    requires f in t
    ensures r.legacy == s.legacy && r.nextArray == s.nextArray
  {
    var key := ResolveKey(s.byFiber, t, f);
    if key in s.byFiber then s.(arrays := Push(s.arrays, s.byFiber[key].renders, renders))
    else s.(byFiber := s.byFiber[key := RenderData(|renders|, host.timings(f), arg, host.displayName(OfType(t[f].fiberType)), None)])
  }

  /** The legacy entry under the display name, when there is one and reporting is on. */
  function LegacyReportTo(s: ReportStore, t: Tree, host: Host, report: Value, f: FiberId, renders: seq<Render>, arg: nat): (r: ReportStore)
    requires f in t && ValidOMap(s.legacy)
    ensures r.byFiber == s.byFiber && r.nextArray == s.nextArray
  {
    var displayName := host.displayName(OfType(t[f].fiberType));
    if HasName(displayName) && Truthy(report) then
      var name := displayName.value;
      if name in s.legacy.entries then s.(arrays := Push(s.arrays, s.legacy.entries[name].renders, renders))
      else s.(legacy := Put(s.legacy, name, RenderData(|renders|, host.timings(f), arg, None, TypeOrSelf(host, t[f].fiberType))))
    else s
  }

  /** Reporting keeps the store well formed: every entry's array is stored, below the next fresh reference. */
  lemma ReportToValid(s: ReportStore, t: Tree, host: Host, report: Value, f: FiberId, renders: seq<Render>)
    requires f in t && ValidReports(s)
    ensures ValidReports(ReportTo(s, t, host, report, f, renders))
  {
  }

  /**
   * Keying: the entry used is the fiber's own when it has one or has no
   * alternate, its alternate's otherwise. An existing entry keeps its count
   * and time; a new one counts the renders and holds the argument array.
   * No second entry for a fiber/alternate pair is ever created.
   */
  lemma ReportToByFiber(s: ReportStore, t: Tree, host: Host, report: Value, f: FiberId, renders: seq<Render>)
    requires f in t && ValidReports(s) && Paired(t) && NoTwins(t, s.byFiber.Keys)
    ensures var r := ReportTo(s, t, host, report, f, renders);
            var key := ResolveKey(s.byFiber, t, f);
            r.byFiber.Keys == s.byFiber.Keys + {key} &&
            NoTwins(t, r.byFiber.Keys) &&
            (forall g :: g in s.byFiber ==> r.byFiber[g] == s.byFiber[g]) &&
            (key !in s.byFiber ==>
               r.byFiber[key] == RenderData(|renders|, host.timings(f), s.nextArray, host.displayName(OfType(t[f].fiberType)), None))
  {
    ResolveKeyKeepsNoTwins(s.byFiber, t, f);
  }

  /**
   * The array of an existing entry receives the renders, in order, after its
   * old contents; a new entry's array is exactly the renders.
   */
  lemma ReportToAppends(s: ReportStore, t: Tree, host: Host, report: Value, f: FiberId, renders: seq<Render>)
    requires f in t && ValidReports(s)
    ensures var r := ReportTo(s, t, host, report, f, renders);
            var key := ResolveKey(s.byFiber, t, f);
            (key in s.byFiber ==>
               var a := s.byFiber[key].renders;
               a in r.arrays && |s.arrays[a]| + |renders| <= |r.arrays[a]| &&
               r.arrays[a][..|s.arrays[a]| + |renders|] == s.arrays[a] + renders) &&
            (key !in s.byFiber ==> r.arrays[s.nextArray] == renders)
  {
    var key := ResolveKey(s.byFiber, t, f);
    var arg := s.nextArray;
    var s0 := s.(arrays := s.arrays[arg := renders], nextArray := arg + 1);
    var s1 := FiberReportTo(s0, t, host, f, renders, arg);
    var r := ReportTo(s, t, host, report, f, renders);
    assert r == LegacyReportTo(s1, t, host, report, f, renders, arg);
    if key in s.byFiber {
      var a := s.byFiber[key].renders;
      assert a < arg;
      assert s1.arrays[a] == s.arrays[a] + renders;
      var name := host.displayName(OfType(t[f].fiberType));
      if HasName(name) && Truthy(report) && name.value in s1.legacy.entries {
        var b := s1.legacy.entries[name.value].renders;
        if a == b {
          assert r.arrays[a] == s.arrays[a] + renders + renders;
          assert (s.arrays[a] + renders + renders)[..|s.arrays[a]| + |renders|] == s.arrays[a] + renders;
        } else {
          assert r.arrays[a] == s1.arrays[a];
        }
      } else {
        assert r.arrays[a] == s1.arrays[a];
      }
    } else {
      var name := host.displayName(OfType(t[f].fiberType));
      if HasName(name) && Truthy(report) && name.value in s1.legacy.entries {
        assert s1.legacy.entries[name.value].renders < arg;
      }
    }
  }

  /** The legacy by-name map changes only for a non-empty name with `options.report` truthy. */
  lemma ReportToLegacy(s: ReportStore, t: Tree, host: Host, report: Value, f: FiberId, renders: seq<Render>)
    requires f in t && ValidReports(s)
    ensures var r := ReportTo(s, t, host, report, f, renders);
            var name := host.displayName(OfType(t[f].fiberType));
            (!(HasName(name) && Truthy(report)) ==> r.legacy == s.legacy) &&
            (HasName(name) && Truthy(report) ==>
               r.legacy.entries.Keys == s.legacy.entries.Keys + {name.value} &&
               (forall k :: k in s.legacy.entries ==> r.legacy.entries[k] == s.legacy.entries[k]) &&
               (name.value !in s.legacy.entries ==>
                  r.legacy.entries[name.value] ==
                    RenderData(|renders|, host.timings(f), s.nextArray, None, TypeOrSelf(host, t[f].fiberType)) &&
                  r.legacy.order == s.legacy.order + [name.value]))
  {
  }

  /**
   * The first report of a fiber that creates both a fiber entry and a legacy
   * entry stores one array in both, so a later report of the same fiber
   * appends its renders to that array twice.
   */
  lemma {:induction false} SharedArrayAppendsTwice(s: ReportStore, t: Tree, host: Host, report: Value, f: FiberId, first: seq<Render>, second: seq<Render>)
    requires f in t && ValidReports(s) && t[f].alternate.None?
    requires f !in s.byFiber && Truthy(report)
    requires HasName(host.displayName(OfType(t[f].fiberType)))
    requires host.displayName(OfType(t[f].fiberType)).value !in s.legacy.entries
    ensures var r1 := ReportTo(s, t, host, report, f, first);
            var r2 := ReportTo(r1, t, host, report, f, second);
            r1.byFiber[f].renders == r1.legacy.entries[host.displayName(OfType(t[f].fiberType)).value].renders &&
            r2.arrays[r2.byFiber[f].renders] == first + second + second
  {
    var r1 := ReportTo(s, t, host, report, f, first);
    var name := host.displayName(OfType(t[f].fiberType)).value;
    assert ResolveKey(s.byFiber, t, f) == f;
    assert r1.byFiber[f].renders == s.nextArray;
    assert r1.legacy.entries[name].renders == s.nextArray;
    assert ResolveKey(r1.byFiber, t, f) == f;
  }

  // ---------------------------------------------------------------- the interaction fold

  function SumTimes(renders: seq<Render>): real {
    if renders == [] then 0.0 else SumTimes(renders[..|renders| - 1]) + renders[|renders| - 1].time
  }

  /** The new state of one component after the fold. */
  function FoldComponent(t: Tree, f: FiberId, c: Component, renders: seq<Render>, sum: real): Component
    requires f in t
  {
    c.(fibers := AddInstance(t, f, c.fibers),
       renders := c.renders + |renders|,
       totalTime := if c.totalTime != 0.0 then c.totalTime + sum else sum)
  }

  /** The monitor part of `reportRender`: fold the renders into the latest interaction. */
  function FoldInteraction(monitor: Option<Monitor>, t: Tree, host: Host, f: FiberId, renders: seq<Render>): Option<Monitor>
    requires f in t
    requires monitor.Some? ==> ValidInteractions(monitor.value.interactions)
  {
    if monitor.None? || |monitor.value.interactions| == 0 then monitor
    else
      var m := monitor.value;
      var sum := SumTimes(renders);
      var displayName := host.displayName(OfFiber(f));
      if !HasName(displayName) then monitor
      else
        var name := displayName.value;
        var last := m.interactions[|m.interactions| - 1];
        var component :=
          if name in last.components.entries then last.components.entries[name]
          else Component({}, name, 0, sum, 7);
        var updated := last.(components := Put(last.components, name, FoldComponent(t, f, component, renders, sum)));
        Some(m.(interactions := m.interactions[|m.interactions| - 1 := updated]))
  }

  /**
   * Only the latest interaction changes, and only its entry for the fiber's
   * display name. An existing entry gains exactly the renders and their
   * summed time (or restarts from the sum when its total was 0); a new entry
   * starts with 0 renders, 7 retries and the sum, which it then adds again.
   */
  lemma FoldInteractionEffect(monitor: Option<Monitor>, t: Tree, host: Host, f: FiberId, renders: seq<Render>)
    requires f in t && monitor.Some? && ValidInteractions(monitor.value.interactions)
    requires |monitor.value.interactions| > 0 && HasName(host.displayName(OfFiber(f)))
    ensures var m := monitor.value;
            var r := FoldInteraction(monitor, t, host, f, renders);
            var n := |m.interactions|;
            var name := host.displayName(OfFiber(f)).value;
            var before := m.interactions[n - 1].components;
            var after := r.value.interactions[n - 1].components;
            var sum := SumTimes(renders);
            r.Some? && |r.value.interactions| == n &&
            r.value.interactions[..n - 1] == m.interactions[..n - 1] &&
            r.value.pendingRequests == m.pendingRequests && r.value.url == m.url && r.value.route == m.route &&
            r.value.apiKey == m.apiKey && r.value.path == m.path &&
            r.value.interactions[n - 1] == m.interactions[n - 1].(components := after) &&
            after.entries.Keys == before.entries.Keys + {name} &&
            (forall k :: k in before.entries && k != name ==> after.entries[k] == before.entries[k]) &&
            (name in before.entries ==>
               after.entries[name].fibers == AddInstance(t, f, before.entries[name].fibers) &&
               after.entries[name].renders == before.entries[name].renders + |renders| &&
               after.entries[name].retiresAllowed == before.entries[name].retiresAllowed &&
               after.entries[name].totalTime ==
                 (if before.entries[name].totalTime != 0.0 then before.entries[name].totalTime + sum else sum)) &&
            (name !in before.entries ==>
               after.entries[name].renders == |renders| &&
               after.entries[name].retiresAllowed == 7 &&
               after.entries[name].fibers == {f} &&
               after.entries[name].totalTime == (if sum != 0.0 then 2.0 * sum else 0.0))
  {
  }

  /** No display name for the fiber, or no interaction yet: the monitor is left alone. */
  lemma FoldInteractionSkips(monitor: Option<Monitor>, t: Tree, host: Host, f: FiberId, renders: seq<Render>)
    requires f in t && (monitor.Some? ==> ValidInteractions(monitor.value.interactions))
    requires monitor.None? || |monitor.value.interactions| == 0 || !HasName(host.displayName(OfFiber(f)))
    ensures FoldInteraction(monitor, t, host, f, renders) == monitor
  {
  }

  /** Folding keeps every component map well formed. */
  lemma FoldInteractionValid(monitor: Option<Monitor>, t: Tree, host: Host, f: FiberId, renders: seq<Render>)
    requires f in t && (monitor.Some? ==> ValidInteractions(monitor.value.interactions))
    ensures var r := FoldInteraction(monitor, t, host, f, renders);
            r.Some? ==> ValidInteractions(r.value.interactions)
  {
  }

  // ---------------------------------------------------------------- getReport

  datatype ReportResult = Found(data: RenderData) | NotFound | Everything(all: OMap<string, RenderData>)

  // ---------------------------------------------------------------- withScan, Monitor, onRender

  /** The allow-list after `withScan(component, p)` (when not in an iframe and not disabled). */
  function AllowListAfter(list: Option<map<TypeRef, map<string, Value>>>, component: TypeRef, p: map<string, Value>): (r: Option<map<TypeRef, map<string, Value>>>)
    ensures r.Some?
    ensures list.None? ==> r == Some(map[])
    ensures list.Some? ==> r.value.Keys == list.value.Keys + {component} && r.value[component] == p &&
                           forall c :: c in list.value && c != component ==> r.value[c] == list.value[c]
  {
    if list.None? then Some(map[]) else Some(list.value[component := p])
  }

  /** Registering a component takes two calls: the first only creates the empty allow-list. */
  lemma {:induction false} FirstWithScanRegistersNothing(component: TypeRef, p: map<string, Value>, q: map<string, Value>)
    ensures AllowListAfter(None, component, p) == Some(map[])
    ensures component !in AllowListAfter(None, component, p).value
    ensures AllowListAfter(AllowListAfter(None, component, p), component, q) == Some(map[component := q])
  {
    var once := AllowListAfter(None, component, p);
    assert once == Some(map[]);
  }

  function DefaultMonitorUrl(): string {
    "https://monitoring.million.dev/api/v1/ingest"
  }

  /** The monitor after the `Monitor` component's body, or `None` when it throws. */
  function MonitorAfter(monitor: Option<Monitor>, apiKey: Option<string>, url: Option<string>, route: Option<string>, path: string): (r: Option<Monitor>)
    ensures r.None? <==> apiKey.None? || apiKey.value == ""
  {
    if apiKey.None? || apiKey.value == "" then None
    else
      var u := if url.Some? then url else Some(DefaultMonitorUrl());
      var m := if monitor.Some? then monitor.value else Monitor(0, u, apiKey, [], route, path);
      Some(m.(route := route, path := path))
  }

  /**
   * The session is created only when none exists, with no pending request, no
   * interaction and the given (or default) URL and key; an existing session
   * keeps them. Either way `route` and `path` are overwritten.
   */
  lemma MonitorAfterEffect(monitor: Option<Monitor>, apiKey: Option<string>, url: Option<string>, route: Option<string>, path: string)
    requires apiKey.Some? && apiKey.value != ""
    ensures var r := MonitorAfter(monitor, apiKey, url, route, path).value;
            r.route == route && r.path == path &&
            (monitor.None? ==> r.pendingRequests == 0 && r.interactions == [] && r.apiKey == apiKey &&
                               r.url == (if url.Some? then url else Some(DefaultMonitorUrl()))) &&
            (monitor.Some? ==> r.pendingRequests == monitor.value.pendingRequests &&
                               r.interactions == monitor.value.interactions &&
                               r.url == monitor.value.url && r.apiKey == monitor.value.apiKey)
  {
  }

  /** `ReactScanInternals.onRender`: null, or a closure over the previous handler, a type and a callback. */
  datatype Handler = NoHandler | Chained(prev: Handler, forType: Option<TypeRef>, callback: nat)

  /** The callbacks one call of the handler runs, in order, for a fiber whose `getType(fiber.type)` is `ty`. */
  function Invocations(h: Handler, ty: Option<TypeRef>): seq<nat> {
    match h
    case NoHandler => []
    case Chained(prev, forType, callback) => Invocations(prev, ty) + (if ty == forType then [callback] else [])
  }

  /** The handler after a series of `onRender(type, callback)` registrations. */
  function Register(h: Handler, regs: seq<(Option<TypeRef>, nat)>): Handler {
    if regs == [] then h
    else Chained(Register(h, regs[..|regs| - 1]), regs[|regs| - 1].0, regs[|regs| - 1].1)
  }

  function MatchingCallbacks(regs: seq<(Option<TypeRef>, nat)>, ty: Option<TypeRef>): seq<nat> {
    if regs == [] then []
    else MatchingCallbacks(regs[..|regs| - 1], ty) + (if regs[|regs| - 1].0 == ty then [regs[|regs| - 1].1] else [])
  }

  /** Every registered callback whose type matches runs once, in registration order, after the earlier handlers. */
  lemma {:induction false} RegisteredRunInOrder(h: Handler, regs: seq<(Option<TypeRef>, nat)>, ty: Option<TypeRef>)
    ensures Invocations(Register(h, regs), ty) == Invocations(h, ty) + MatchingCallbacks(regs, ty)
    decreases |regs|
  {
    if regs != [] {
      RegisteredRunInOrder(h, regs[..|regs| - 1], ty);
    }
  }

  /** `isValidFiber` in `start`: its rejection sits under a guard that contradicts it, so every fiber is valid. */
  function IsValidFiber(t: Tree, host: Host, allowList: Option<map<TypeRef, map<string, Value>>>, f: FiberId): (r: bool)
    requires f in t
    ensures r
  {
    var shouldAllow := allowList.Some? && t[f].fiberType.Some? && t[f].fiberType.value in allowList.value;
    if shouldAllow then
      var parent := host.ancestorIncludesChildren(f);
      if !parent && !shouldAllow then false else true
    else true
  }

  // ---------------------------------------------------------------- the store

  class Store {
    var reportData: map<FiberId, RenderData>
    var legacyReportData: OMap<string, RenderData>
    var renderArrays: map<nat, seq<Render>>
    var nextArray: nat
    var monitor: Option<Monitor>
    var lastReportTime: real
    var options: map<string, Value>
    /** `ReactScanInternals.instrumentation`: absent, or present with its `isPaused` flag. */
    var instrumentationPaused: Option<bool>
    var componentAllowList: Option<map<TypeRef, map<string, Value>>>
    var onRender: Handler
    var isInIframe: bool

    function Reports(): ReportStore
      reads this
    {
      ReportStore(reportData, legacyReportData, renderArrays, nextArray)
    }

    ghost predicate Valid()
      reads this
    {
      ValidReports(Reports()) && (monitor.Some? ==> ValidInteractions(monitor.value.interactions))
    }

    /** The store and internals as the module initialises them. */
    constructor(isInIframe: bool)
      ensures Valid()
      ensures reportData == map[] && legacyReportData == EmptyOMap() && monitor.None? && lastReportTime == 0.0
      ensures options == map["enabled" := Bool(true), "includeChildren" := Bool(true), "playSound" := Bool(false),
                             "log" := Bool(false), "showToolbar" := Bool(true), "renderCountThreshold" := Num(0.0),
                             "report" := Undefined, "alwaysShowLabels" := Bool(false), "animationSpeed" := Str("fast")]
      ensures instrumentationPaused.None? && componentAllowList.None? && onRender == NoHandler
      ensures this.isInIframe == isInIframe
    {
      reportData := map[];
      legacyReportData := EmptyOMap();
      renderArrays := map[];
      nextArray := 0;
      monitor := None;
      lastReportTime := 0.0;
      options := map["enabled" := Bool(true), "includeChildren" := Bool(true), "playSound" := Bool(false),
                     "log" := Bool(false), "showToolbar" := Bool(true), "renderCountThreshold" := Num(0.0),
                     "report" := Undefined, "alwaysShowLabels" := Bool(false), "animationSpeed" := Str("fast")];
      instrumentationPaused := None;
      componentAllowList := None;
      onRender := NoHandler;
      this.isInIframe := isInIframe;
    }

    /** `getReport(type)`: the first legacy entry, in insertion order, whose type is `type`; with no type, the whole map. */
    method GetReport(componentType: Option<TypeRef>) returns (r: ReportResult)
      requires ValidOMap(legacyReportData)
      ensures componentType.None? ==> r == Everything(legacyReportData)
      ensures componentType.Some? ==> r.Found? || r.NotFound?
      ensures r.NotFound? <==> componentType.Some? &&
                               forall k :: k in legacyReportData.entries ==> legacyReportData.entries[k].componentType != componentType
      ensures r.Found? ==> exists i :: 0 <= i < |legacyReportData.order| &&
                             r.data == legacyReportData.entries[legacyReportData.order[i]] &&
                             r.data.componentType == componentType &&
                             forall j :: 0 <= j < i ==> legacyReportData.entries[legacyReportData.order[j]].componentType != componentType
    {
      if componentType.None? {
        return Everything(legacyReportData);
      }
      var values := Values(legacyReportData);
      for i := 0 to |values|
        invariant forall j :: 0 <= j < i ==> values[j].componentType != componentType
      {
        if values[i].componentType == componentType {
          return Found(values[i]);
        }
      }
      forall k | k in legacyReportData.entries
        ensures legacyReportData.entries[k].componentType != componentType
      {
        var i :| 0 <= i < |legacyReportData.order| && legacyReportData.order[i] == k;
        assert values[i] == legacyReportData.entries[k];
      }
      return NotFound;
    }

    /** `setOptions(p)`. */
    method SetOptions(p: map<string, Value>)
      modifies this
      ensures options == MergeOptions(old(options), p)
      ensures instrumentationPaused == (if old(instrumentationPaused).Some? then Some(Get(p, "enabled") == Bool(false)) else None)
      ensures reportData == old(reportData) && legacyReportData == old(legacyReportData) && renderArrays == old(renderArrays)
      ensures nextArray == old(nextArray) && monitor == old(monitor) && lastReportTime == old(lastReportTime)
      ensures componentAllowList == old(componentAllowList) && onRender == old(onRender) && isInIframe == old(isInIframe)
    {
      if instrumentationPaused.Some? {
        instrumentationPaused := Some(Get(p, "enabled") == Bool(false));
      }
      options := options + p;
    }

    /** `getOptions()`. */
    method GetOptions() returns (r: map<string, Value>)
      ensures r == options
    {
      return options;
    }

    /**
     * `reportRender(fiber, renders)` at time `now` (`performance.now()`);
     * `renders` is a fresh array the store may keep.
     */
    method ReportRender(t: Tree, host: Host, f: FiberId, renders: seq<Render>, now: real)
      requires f in t && Valid()
      modifies this
      ensures Valid()
      ensures Reports() == ReportTo(old(Reports()), t, host, Get(old(options), "report"), f, renders)
      ensures monitor == FoldInteraction(old(monitor), t, host, f, renders)
      ensures lastReportTime == now
      ensures options == old(options) && instrumentationPaused == old(instrumentationPaused)
      ensures componentAllowList == old(componentAllowList) && onRender == old(onRender) && isInIframe == old(isInIframe)
    {
      ReportToValid(Reports(), t, host, Get(options, "report"), f, renders);
      StoreReports(t, host, f, renders, now);
      FoldIntoLatestInteraction(t, host, f, renders);
    }

    /** The report-map half of `reportRender`. */
    method StoreReports(t: Tree, host: Host, f: FiberId, renders: seq<Render>, now: real)
      requires f in t && ValidOMap(legacyReportData)
      modifies this
      ensures Reports() == ReportTo(old(Reports()), t, host, Get(old(options), "report"), f, renders)
      ensures lastReportTime == now && monitor == old(monitor)
      ensures options == old(options) && instrumentationPaused == old(instrumentationPaused)
      ensures componentAllowList == old(componentAllowList) && onRender == old(onRender) && isInIframe == old(isInIframe)
    {
      var byFiber, legacy, arrays := reportData, legacyReportData, renderArrays;
      var arg := nextArray;
      arrays := arrays[arg := renders];
      var key := f;
      if f !in byFiber && t[f].alternate.Some? {
        key := t[f].alternate.value;
      }
      var displayName := host.displayName(OfType(t[f].fiberType));
      if key in byFiber {
        arrays := Push(arrays, byFiber[key].renders, renders);
      } else {
        byFiber := byFiber[key := RenderData(|renders|, host.timings(f), arg, displayName, None)];
      }
      if HasName(displayName) && Truthy(Get(options, "report")) {
        var name := displayName.value;
        if name in legacy.entries {
          arrays := Push(arrays, legacy.entries[name].renders, renders);
        } else {
          legacy := Put(legacy, name, RenderData(|renders|, host.timings(f), arg, None, TypeOrSelf(host, t[f].fiberType)));
        }
      }
      reportData, legacyReportData, renderArrays, nextArray := byFiber, legacy, arrays, arg + 1;
      lastReportTime := now;
    }

    /** The monitor half of `reportRender`. */
    method FoldIntoLatestInteraction(t: Tree, host: Host, f: FiberId, renders: seq<Render>)
      requires f in t && (monitor.Some? ==> ValidInteractions(monitor.value.interactions))
      modifies this
      ensures monitor == FoldInteraction(old(monitor), t, host, f, renders)
      ensures monitor.Some? ==> ValidInteractions(monitor.value.interactions)
      ensures Reports() == old(Reports()) && lastReportTime == old(lastReportTime)
      ensures options == old(options) && instrumentationPaused == old(instrumentationPaused)
      ensures componentAllowList == old(componentAllowList) && onRender == old(onRender) && isInIframe == old(isInIframe)
    {
      FoldInteractionValid(monitor, t, host, f, renders);
      if monitor.Some? && |monitor.value.interactions| > 0 {
        var m := monitor.value;
        var latest := m.interactions[|m.interactions| - 1];
        var totalTime := 0.0;
        for i := 0 to |renders|
          invariant totalTime == SumTimes(renders[..i])
        {
          assert renders[..i + 1][..i] == renders[..i];
          totalTime := totalTime + renders[i].time;
        }
        assert renders[..|renders|] == renders;
        var fiberName := host.displayName(OfFiber(f));
        if !HasName(fiberName) {
          // console.log
          return;
        }
        var component: Component;
        if fiberName.value in latest.components.entries {
          component := latest.components.entries[fiberName.value];
        } else {
          component := Component({}, fiberName.value, 0, totalTime, 7);
        }
        component := component.(fibers := AddInstance(t, f, component.fibers));
        component := component.(renders := component.renders + |renders|);
        component := component.(totalTime := if component.totalTime != 0.0 then component.totalTime + totalTime else totalTime);
        latest := latest.(components := Put(latest.components, fiberName.value, component));
        monitor := Some(m.(interactions := m.interactions[|m.interactions| - 1 := latest]));
      }
    }

    /** `withScan(component, p)`; the `start()` it ends with is not part of this model. */
    method WithScan(component: TypeRef, p: map<string, Value>)
      modifies this
      ensures options == MergeOptions(old(options), p)
      ensures isInIframe || Get(p, "enabled") == Bool(false) ==> componentAllowList == old(componentAllowList)
      ensures !(isInIframe || Get(p, "enabled") == Bool(false)) ==> componentAllowList == AllowListAfter(old(componentAllowList), component, p)
      ensures instrumentationPaused == (if old(instrumentationPaused).Some? then Some(Get(p, "enabled") == Bool(false)) else None)
      ensures Reports() == old(Reports()) && monitor == old(monitor) && lastReportTime == old(lastReportTime)
      ensures onRender == old(onRender) && isInIframe == old(isInIframe)
    {
      SetOptions(p);
      var inIframe := isInIframe;
      var allowList := componentAllowList;
      if inIframe || Get(p, "enabled") == Bool(false) {
        return;
      }
      if allowList.None? {
        componentAllowList := Some(map[]);
      }
      if allowList.Some? {
        // the write goes to the list read before a new one was created
        componentAllowList := Some(allowList.value[component := p]);
      }
    }

    /** The body of the `Monitor` component; `threw` says it raised for a missing key. */
    method MonitorInit(apiKey: Option<string>, url: Option<string>, route: Option<string>, path: string) returns (threw: bool)
      requires Valid()
      modifies this
      ensures Valid()
      ensures threw <==> apiKey.None? || apiKey.value == ""
      ensures threw ==> monitor == old(monitor)
      ensures !threw ==> monitor == MonitorAfter(old(monitor), apiKey, url, route, path)
      ensures Reports() == old(Reports()) && options == old(options) && onRender == old(onRender)
      ensures lastReportTime == old(lastReportTime) && instrumentationPaused == old(instrumentationPaused)
      ensures componentAllowList == old(componentAllowList) && isInIframe == old(isInIframe)
    {
      if apiKey.None? || apiKey.value == "" {
        return true;
      }
      var u := url;
      if u.None? {
        u := Some(DefaultMonitorUrl());
      }
      if monitor.None? {
        monitor := Some(Monitor(0, u, apiKey, [], route, path));
      }
      monitor := Some(monitor.value.(route := route));
      monitor := Some(monitor.value.(path := path));
      return false;
    }

    /** `onRender(type, callback)`: wrap the current handler. */
    method OnRender(forType: Option<TypeRef>, callback: nat)
      modifies this
      ensures onRender == Chained(old(onRender), forType, callback)
      ensures Reports() == old(Reports()) && options == old(options) && monitor == old(monitor)
      ensures lastReportTime == old(lastReportTime) && instrumentationPaused == old(instrumentationPaused)
      ensures componentAllowList == old(componentAllowList) && isInIframe == old(isInIframe)
    {
      var prevOnRender := onRender;
      onRender := Chained(prevOnRender, forType, callback);
    }
  }
}

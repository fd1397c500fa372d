/**
 * The commit walker of the instrumented runtime: per-fiber change detection
 * over props and context, the render records one fiber emits, the two
 * report maps they are aggregated into, and the paired walk over the
 * current/alternate tree that runs once per commit.
 */
module Instrumentation {
  import opened Common
  import opened JsValues
  import opened Fibers

  datatype Change = Change(name: string, prevValue: Value, nextValue: Value, unstable: bool)

  datatype RenderKind = PropsKind | ContextKind | StateKind | MiscKind

  datatype Render = Render(
    kind: RenderKind,
    name: Option<string>,
    time: real,
    count: int,
    trigger: bool,
    forget: bool,
    changes: seq<Change>)

  /**
   * What the walk hands to its `onCommitStart`, `onRender` and `onCommitFinish`
   * callbacks, the `reportDataByFiber` notification to the store's listeners
   * (with the map as it stands when it is sent), and the error log.
   */
  datatype Event =
    | CommitStart
    | Rendered(fiber: FiberId, render: Render)
    | ByFiberEmitted(data: map<FiberId, FiberReport>)
    | CommitFinish
    | ErrorLogged

  /** `isUnstableType`: only reference-typed values can be recreated with an equal shape. */
  predicate IsUnstableType(ty: string) {
    ty == "function" || ty == "object"
  }

  // ---------------------------------------------------------------- change detection

  /** `props[k]` for a props object given as its own entries; a missing key reads `undefined`. */
  function Lookup(props: seq<(string, Prop)>, k: string): Prop {
    if props == [] then Data(Undefined)
    else if props[0].0 == k then props[0].1
    else Lookup(props[1..], k)
  }

  function ValueOf(props: seq<(string, Prop)>, k: string): Value {
    match Lookup(props, k)
    case Data(v) => v
    case ThrowingGetter => Undefined
  }

  function KeysOf(props: seq<(string, Prop)>): (r: seq<string>)
    ensures |r| == |props|
  {
    seq(|props|, i requires 0 <= i < |props| => props[i].0)
  }

  /** `new Set(xs)`: first occurrences, in order. */
  function Dedup(s: seq<string>): (r: seq<string>)
    ensures Distinct(r)
    ensures forall x :: x in r <==> x in s
  {
    if s == [] then []
    else
      var d := Dedup(s[..|s| - 1]);
      assert forall x :: x in s <==> x in s[..|s| - 1] || x == s[|s| - 1];
      if s[|s| - 1] in d then d else d + [s[|s| - 1]]
  }

  /** The keys of prev props, then the keys of next props that prev lacks. */
  function UnionKeys(prev: seq<(string, Prop)>, next: seq<(string, Prop)>): seq<string> {
    Dedup(KeysOf(prev) + KeysOf(next))
  }

  /** Reading `prevProps[k]` or `nextProps[k]` raises. */
  predicate ReadThrows(prev: seq<(string, Prop)>, next: seq<(string, Prop)>, k: string) {
    Lookup(prev, k).ThrowingGetter? || Lookup(next, k).ThrowingGetter?
  }

  predicate AnyReadThrows(prev: seq<(string, Prop)>, next: seq<(string, Prop)>, keys: seq<string>) {
    !forall i :: 0 <= i < |keys| ==> !ReadThrows(prev, next, keys[i])
  }

  /** A key is skipped when its values are the same, either is an element, or it is `children`. */
  predicate Skipped(host: Host, k: string, a: Value, b: Value) {
    SameValue(a, b) || IsValidElement(host, a) || IsValidElement(host, b) || k == "children"
  }

  /** Recreated-but-equivalent: both reference-typed and serialized to the same text. */
  predicate Unstable(host: Host, a: Value, b: Value) {
    IsUnstableType(TypeOf(a)) && IsUnstableType(TypeOf(b)) && host.fastSerialize(a) == host.fastSerialize(b)
  }

  function ChangeFor(host: Host, k: string, a: Value, b: Value): seq<Change> {
    if Skipped(host, k, a, b) then [] else [Change(k, a, b, Unstable(host, a, b))]
  }

  /** The changes the props loop collects over `keys`, in key order. */
  function PropChanges(host: Host, prev: seq<(string, Prop)>, next: seq<(string, Prop)>, keys: seq<string>): seq<Change>
    decreases |keys|
  {
    if keys == [] then []
    else
      var k := keys[|keys| - 1];
      PropChanges(host, prev, next, keys[..|keys| - 1]) + ChangeFor(host, k, ValueOf(prev, k), ValueOf(next, k))
  }

  function PrevProps(t: Tree, f: FiberId): seq<(string, Prop)>
    requires f in t && Closed(t)
  {
    match t[f].alternate
    case None => []
    case Some(a) => t[a].props
  }

  function MakeRender(host: Host, kind: RenderKind, f: FiberId, ty: TypeRef, trigger: bool, changes: seq<Change>): Render {
    Render(kind, host.displayName(OfType(Some(ty))), host.selfTime(f), 1, trigger, host.hasMemoCache(f), changes)
  }

  /** `getPropsRender`: raises when a read of a prop raises, otherwise a props record. */
  function PropsRenderOf(t: Tree, host: Host, f: FiberId, ty: TypeRef): Attempt<Option<Render>>
    requires f in t && Closed(t)
  {
    var prev := PrevProps(t, f);
    var next := t[f].props;
    var keys := UnionKeys(prev, next);
    if AnyReadThrows(prev, next, keys) then Threw
    else Returned(Some(MakeRender(host, PropsKind, f, ty, false, PropChanges(host, prev, next, keys))))
  }

  method GetPropsRender(t: Tree, host: Host, f: FiberId, ty: TypeRef) returns (r: Attempt<Option<Render>>)
    requires f in t && Closed(t)
    ensures r == PropsRenderOf(t, host, f, ty)
  {
    var prevProps := PrevProps(t, f);
    var nextProps := t[f].props;
    var props := UnionKeys(prevProps, nextProps);
    var changes: seq<Change> := [];
    var i := 0;
    while i < |props|
      invariant 0 <= i <= |props|
      invariant forall j :: 0 <= j < i ==> !ReadThrows(prevProps, nextProps, props[j])
      invariant changes == PropChanges(host, prevProps, nextProps, props[..i])
    {
      var propName := props[i];
      var prevProp := Lookup(prevProps, propName);
      var nextProp := Lookup(nextProps, propName);
      if prevProp.ThrowingGetter? || nextProp.ThrowingGetter? {
        assert ReadThrows(prevProps, nextProps, props[i]);
        return Threw;
      }
      var prevValue := prevProp.value;
      var nextValue := nextProp.value;
      PropChangesStep(host, prevProps, nextProps, props, i);
      if !(SameValue(prevValue, nextValue) || IsValidElement(host, prevValue) || IsValidElement(host, nextValue) || propName == "children") {
        var change := Change(propName, prevValue, nextValue, false);
        changes := changes + [change];
        if IsUnstableType(TypeOf(prevValue)) && IsUnstableType(TypeOf(nextValue))
          && host.fastSerialize(prevValue) == host.fastSerialize(nextValue)
        {
          // the pushed change object is updated in place
          changes := changes[..|changes| - 1] + [change.(unstable := true)];
        }
      }
      i := i + 1;
    }
    assert props[..i] == props;
    return Returned(Some(MakeRender(host, PropsKind, f, ty, false, changes)));
  }

  /**
   * `getPropsRender` never returns null: it raises exactly when reading some
   * key of the union raises, and otherwise returns a props record of count 1
   * that is not (yet) a trigger.
   */
  lemma PropsRenderNeverNull(t: Tree, host: Host, f: FiberId, ty: TypeRef)
    requires f in t && Closed(t)
    ensures var r := PropsRenderOf(t, host, f, ty);
            (r.Threw? <==> AnyReadThrows(PrevProps(t, f), t[f].props, UnionKeys(PrevProps(t, f), t[f].props))) &&
            (r.Returned? ==> r.value.Some? && r.value.value.kind == PropsKind && r.value.value.count == 1 && !r.value.value.trigger)
  {
  }

  lemma PropChangesStep(host: Host, prev: seq<(string, Prop)>, next: seq<(string, Prop)>, keys: seq<string>, i: nat)
    requires i < |keys|
    ensures PropChanges(host, prev, next, keys[..i + 1]) ==
            PropChanges(host, prev, next, keys[..i]) + ChangeFor(host, keys[i], ValueOf(prev, keys[i]), ValueOf(next, keys[i]))
  {
    assert keys[..i + 1][..i] == keys[..i];
  }

  /** What `PropChangesContent` promises of one change list. */
  predicate ChangesFaithful(host: Host, prev: seq<(string, Prop)>, next: seq<(string, Prop)>, keys: seq<string>, r: seq<Change>) {
    (forall i :: 0 <= i < |r| ==>
      r[i].name in keys &&
      r[i].prevValue == ValueOf(prev, r[i].name) &&
      r[i].nextValue == ValueOf(next, r[i].name) &&
      !Skipped(host, r[i].name, r[i].prevValue, r[i].nextValue) &&
      (r[i].unstable <==> Unstable(host, r[i].prevValue, r[i].nextValue))) &&
    (forall i, j :: 0 <= i < j < |r| ==> r[i].name != r[j].name)
  }

  /** Every change names a distinct key of the union, holds that key's two values, and is unstable exactly when both are reference-typed with equal serializations. */
  lemma {:induction false} PropChangesContent(host: Host, prev: seq<(string, Prop)>, next: seq<(string, Prop)>, keys: seq<string>)
    requires Distinct(keys)
    ensures ChangesFaithful(host, prev, next, keys, PropChanges(host, prev, next, keys))
    decreases |keys|
  {
    if keys != [] {
      var init := keys[..|keys| - 1];
      var k := keys[|keys| - 1];
      assert Distinct(init);
      PropChangesContent(host, prev, next, init);
      var r0 := PropChanges(host, prev, next, init);
      assert k !in init;
      var step := ChangeFor(host, k, ValueOf(prev, k), ValueOf(next, k));
      var r := r0 + step;
      assert forall i :: 0 <= i < |r0| ==> r[i] == r0[i];
      assert forall i :: |r0| <= i < |r| ==> r[i].name == k;
    }
  }

  predicate Reported(r: seq<Change>, k: string) {
    exists i :: 0 <= i < |r| && r[i].name == k
  }

  /** A key of the union is reported iff its values differ, neither is an element, and it is not `children`. */
  lemma {:induction false} PropChangesComplete(host: Host, prev: seq<(string, Prop)>, next: seq<(string, Prop)>, keys: seq<string>, k: string)
    ensures Reported(PropChanges(host, prev, next, keys), k) <==>
              k in keys && !Skipped(host, k, ValueOf(prev, k), ValueOf(next, k))
    decreases |keys|
  {
    if keys != [] {
      var init := keys[..|keys| - 1];
      var last := keys[|keys| - 1];
      PropChangesComplete(host, prev, next, init, k);
      var r0 := PropChanges(host, prev, next, init);
      var step := ChangeFor(host, last, ValueOf(prev, last), ValueOf(next, last));
      var r := r0 + step;
      assert keys == init + [last];
      assert k in keys <==> k in init || k == last;
      assert Reported(r, k) <==> Reported(r0, k) || Reported(step, k) by {
        if Reported(r, k) {
          var i :| 0 <= i < |r| && r[i].name == k;
          if i < |r0| { assert r0[i].name == k; } else { assert step[i - |r0|].name == k; }
        }
        if Reported(r0, k) {
          var i :| 0 <= i < |r0| && r0[i].name == k;
          assert r[i].name == k;
        }
        if Reported(step, k) {
          var i :| 0 <= i < |step| && step[i].name == k;
          assert r[|r0| + i].name == k;
        }
      }
      assert Reported(step, k) <==> k == last && !Skipped(host, k, ValueOf(prev, k), ValueOf(next, k)) by {
        if Reported(step, k) {
          var i :| 0 <= i < |step| && step[i].name == k;
        }
        if k == last && !Skipped(host, k, ValueOf(prev, k), ValueOf(next, k)) {
          assert step[0].name == k;
        }
      }
    }
  }

  /** Two snapshots that agree key by key yield no change at all. */
  lemma {:induction false} SameSnapshotsNoChanges(host: Host, prev: seq<(string, Prop)>, next: seq<(string, Prop)>, keys: seq<string>)
    requires forall k :: k in keys ==> SameValue(ValueOf(prev, k), ValueOf(next, k))
    ensures PropChanges(host, prev, next, keys) == []
    decreases |keys|
  {
    if keys != [] {
      SameSnapshotsNoChanges(host, prev, next, keys[..|keys| - 1]);
    }
  }

  /** The context loop turns every (prev, next) pair the traversal reports into an unnamed change. */
  function ContextChanges(host: Host, pairs: seq<(Value, Value)>): (r: seq<Change>)
    ensures |r| == |pairs|
    ensures forall i :: 0 <= i < |r| ==>
      r[i] == Change("", pairs[i].0, pairs[i].1, Unstable(host, pairs[i].0, pairs[i].1))
  {
    if pairs == [] then []
    else
      var last := pairs[|pairs| - 1];
      ContextChanges(host, pairs[..|pairs| - 1]) + [Change("", last.0, last.1, Unstable(host, last.0, last.1))]
  }

  /** `getContextRender`: null exactly when the traversal's result is falsy. */
  function ContextRenderOf(host: Host, f: FiberId, ty: TypeRef): Option<Render> {
    if !host.contextsResult(f) then None
    else Some(MakeRender(host, ContextKind, f, ty, false, ContextChanges(host, host.contextPairs(f))))
  }

  method GetContextRender(host: Host, f: FiberId, ty: TypeRef) returns (r: Option<Render>)
    ensures r == ContextRenderOf(host, f, ty)
    ensures r.None? <==> !host.contextsResult(f)
    ensures r.Some? ==> r.value.kind == ContextKind && r.value.count == 1 && !r.value.trigger &&
                        |r.value.changes| == |host.contextPairs(f)| &&
                        forall c :: c in r.value.changes ==> c.name == ""
  {
    var pairs := host.contextPairs(f);
    var changes: seq<Change> := [];
    for i := 0 to |pairs|
      invariant changes == ContextChanges(host, pairs[..i])
    {
      var prevValue := pairs[i].0;
      var nextValue := pairs[i].1;
      var change := Change("", prevValue, nextValue, false);
      if IsUnstableType(TypeOf(prevValue)) && IsUnstableType(TypeOf(nextValue))
        && host.fastSerialize(prevValue) == host.fastSerialize(nextValue)
      {
        change := change.(unstable := true);
      }
      changes := changes + [change];
      assert pairs[..i + 1][..i] == pairs[..i];
    }
    assert pairs[..|pairs|] == pairs;
    if !host.contextsResult(f) {
      return None;
    }
    return Some(MakeRender(host, ContextKind, f, ty, false, changes));
  }

  /** A change between two primitives (typeof neither 'object' nor 'function') is never unstable. */
  lemma PrimitivesNeverUnstable(host: Host, a: Value, b: Value)
    requires !IsUnstableType(TypeOf(a)) || !IsUnstableType(TypeOf(b))
    ensures ChangeFor(host, "", a, b) == [] || !ChangeFor(host, "", a, b)[0].unstable
    ensures forall c :: c in ContextChanges(host, [(a, b)]) ==> !c.unstable
  {
  }

  /** `traverseState`'s callback reports a pair whose `memoizedState` differs by `Object.is`. */
  predicate StateChanged(host: Host, f: FiberId) {
    exists i :: 0 <= i < |host.statePairs(f)| && !SameValue(host.statePairs(f)[i].0, host.statePairs(f)[i].1)
  }

  predicate Trigger(t: Tree, host: Host, f: FiberId)
    requires f in t
  {
    t[f].alternate.Some? && StateChanged(host, f)
  }

  // ---------------------------------------------------------------- report maps

  datatype NameReport = NameReport(count: int, time: real, badRenders: seq<Render>)
  datatype FiberReport = FiberReport(count: int, time: real, badRenders: seq<Render>, displayName: Option<string>)

  function NonNull(rs: seq<Option<Render>>): (r: seq<Render>)
    ensures |r| <= |rs|
  {
    if rs == [] then []
    else NonNull(rs[..|rs| - 1]) + (if rs[|rs| - 1].Some? then [rs[|rs| - 1].value] else [])
  }

  /** The by-name `reportRender`: disabled only by `report === false`. */
  function ReportByName(data: map<string, NameReport>, report: Value, name: string, selfTime: real, renders: seq<Option<Render>>): map<string, NameReport> {
    if report == Bool(false) then data
    else
      var base := if name in data then data[name].(badRenders := data[name].badRenders + NonNull(renders))
                  else NameReport(0, 0.0, []);
      data[name := NameReport(base.count + 1, base.time + selfTime, base.badRenders)]
  }

  /** `reportRenderFiber`: one more render, at least 0.1 ms, under the resolved key. */
  function ReportByFiber(data: map<FiberId, FiberReport>, t: Tree, host: Host, f: FiberId, renders: seq<Option<Render>>): map<FiberId, FiberReport>
    requires f in t
  {
    var key := ResolveKey(data, t, f);
    var time := host.selfTime(f);
    var added := if time != 0.0 then time else 0.1;
    if key in data then
      var report := data[key];
      data[key := FiberReport(report.count + 1, report.time + added, report.badRenders + NonNull(renders), host.displayName(OfType(t[f].fiberType)))]
    else
      data[key := FiberReport(1, added, [], host.displayName(OfType(t[f].fiberType)))]
  }

  /** Folding a series of by-name reports for one name that starts absent. */
  function ReportAllByName(data: map<string, NameReport>, name: string, calls: seq<(real, seq<Option<Render>>)>): map<string, NameReport>
    decreases |calls|
  {
    if calls == [] then data
    else ReportByName(ReportAllByName(data, name, calls[..|calls| - 1]), Bool(true), name, calls[|calls| - 1].0, calls[|calls| - 1].1)
  }

  function SumSelfTimes(calls: seq<(real, seq<Option<Render>>)>): real {
    if calls == [] then 0.0 else SumSelfTimes(calls[..|calls| - 1]) + calls[|calls| - 1].0
  }

  function BadRendersAfterFirst(calls: seq<(real, seq<Option<Render>>)>): seq<Render>
    requires |calls| >= 1
  {
    if |calls| == 1 then [] else BadRendersAfterFirst(calls[..|calls| - 1]) + NonNull(calls[|calls| - 1].1)
  }

  /**
   * After n reports for a fresh name, the entry counts n renders, sums the
   * self times, and holds the non-null records of every call but the first
   * (the call that creates the entry drops its records).
   */
  lemma {:induction false} ReportAllByNameAccumulates(data: map<string, NameReport>, name: string, calls: seq<(real, seq<Option<Render>>)>)
    requires name !in data && |calls| >= 1
    ensures var r := ReportAllByName(data, name, calls);
            name in r && r[name].count == |calls| && r[name].time == SumSelfTimes(calls) &&
            r[name].badRenders == BadRendersAfterFirst(calls) &&
            (forall k :: k != name ==> (k in r <==> k in data) && (k in r ==> r[k] == data[k]))
    decreases |calls|
  {
    if |calls| > 1 {
      ReportAllByNameAccumulates(data, name, calls[..|calls| - 1]);
    } else {
      assert calls[..0] == [];
    }
  }

  /** The by-name report does nothing when `report === false`; otherwise it touches only `name`. */
  lemma ReportByNameFrame(data: map<string, NameReport>, report: Value, name: string, selfTime: real, renders: seq<Option<Render>>)
    ensures report == Bool(false) ==> ReportByName(data, report, name, selfTime, renders) == data
    ensures report != Bool(false) ==>
      var r := ReportByName(data, report, name, selfTime, renders);
      name in r && r.Keys == data.Keys + {name} &&
      (forall k :: k in data && k != name ==> r[k] == data[k]) &&
      r[name].count == (if name in data then data[name].count else 0) + 1 &&
      r[name].badRenders == (if name in data then data[name].badRenders + NonNull(renders) else [])
  {
  }

  /**
   * One by-fiber report touches only the resolved key: its count goes up by
   * one, its time grows by the self time (0.1 ms when that is 0), and an
   * existing entry keeps its records followed by the non-null new ones while
   * a new entry starts with none; the display name is refreshed.
   */
  lemma ReportByFiberStep(data: map<FiberId, FiberReport>, t: Tree, host: Host, f: FiberId, renders: seq<Option<Render>>)
    requires f in t
    ensures var r := ReportByFiber(data, t, host, f, renders);
            var key := ResolveKey(data, t, f);
            var added := if host.selfTime(f) != 0.0 then host.selfTime(f) else 0.1;
            r.Keys == data.Keys + {key} &&
            (forall k :: k in data && k != key ==> r[k] == data[k]) &&
            r[key].count == (if key in data then data[key].count else 0) + 1 &&
            r[key].time == (if key in data then data[key].time else 0.0) + added &&
            r[key].badRenders == (if key in data then data[key].badRenders + NonNull(renders) else []) &&
            r[key].displayName == host.displayName(OfType(t[f].fiberType))
  {
  }

  /** Folding fiber reports over a list of fibers. */
  function ReportAllByFiber(data: map<FiberId, FiberReport>, t: Tree, host: Host, fibers: seq<FiberId>, renders: seq<Option<Render>>): map<FiberId, FiberReport>
    requires forall i :: 0 <= i < |fibers| ==> fibers[i] in t
    decreases |fibers|
  {
    if fibers == [] then data
    else ReportByFiber(ReportAllByFiber(data, t, host, fibers[..|fibers| - 1], renders), t, host, fibers[|fibers| - 1], renders)
  }

  /**
   * Reports that alternate between a fiber and its alternate, in any order,
   * accumulate into exactly one entry of the pair, whose count is the number
   * of reports.
   */
  lemma {:induction false} PairAccumulatesOnce(data: map<FiberId, FiberReport>, t: Tree, host: Host, f: FiberId, fibers: seq<FiberId>, renders: seq<Option<Render>>)
    requires f in t && Paired(t) && t[f].alternate.Some?
    requires f !in data && t[f].alternate.value !in data
    requires |fibers| >= 1 && forall i :: 0 <= i < |fibers| ==> fibers[i] == f || fibers[i] == t[f].alternate.value
    ensures var r := ReportAllByFiber(data, t, host, fibers, renders);
            var g := t[f].alternate.value;
            (f in r) != (g in r) &&
            (f in r ==> r[f].count == |fibers|) && (g in r ==> r[g].count == |fibers|)
    decreases |fibers|
  {
    var g := t[f].alternate.value;
    assert t[g].alternate == Some(f);
    if |fibers| > 1 {
      PairAccumulatesOnce(data, t, host, f, fibers[..|fibers| - 1], renders);
    } else {
      assert fibers[..0] == [];
    }
  }

  // ---------------------------------------------------------------- one fiber

  /** The globals an instrumented commit reads. */
  datatype Config = Config(
    isPaused: bool,
    inspectOff: bool,     // `inspectState.kind === 'inspect-off'`
    enabled: Value,       // `options.enabled`
    report: Value,        // `options.report`
    allowList: Option<set<TypeRef>>)

  /** Everything one commit sees: the tree, the host helpers and the globals. */
  datatype Env = Env(t: Tree, host: Host, cfg: Config)

  /** The state the walk changes: the callback/event log and the two report maps. */
  datatype Reports = Reports(events: seq<Event>, byName: map<string, NameReport>, byFiber: map<FiberId, FiberReport>)

  /** Where a step left the state, and whether it raised. */
  datatype Outcome = Outcome(st: Reports, threw: bool)

  function Stamp(r: Option<Render>, trigger: bool): Option<Render> {
    match r
    case None => None
    case Some(x) => Some(x.(trigger := trigger))
  }

  function StateRender(host: Host, f: FiberId, ty: TypeRef): Render {
    Render(StateKind, host.displayName(OfType(Some(ty))), host.selfTime(f), 1, true, host.hasMemoCache(f), [])
  }

  function MiscRender(host: Host, f: FiberId, ty: TypeRef): Render {
    Render(MiscKind, host.displayName(OfType(Some(ty))), host.selfTime(f), 1, false, host.hasMemoCache(f), [])
  }

  /** The `onRender` calls of `recordRender`, in the order it makes them. */
  function Emitted(host: Host, f: FiberId, ty: TypeRef, p: Option<Render>, c: Option<Render>, trigger: bool): seq<Event> {
    (if p.Some? then [Rendered(f, p.value)] else []) +
    (if c.Some? then [Rendered(f, c.value)] else []) +
    (if trigger then [Rendered(f, StateRender(host, f, ty))] else []) +
    (if p.None? && c.None? && !trigger then [Rendered(f, MiscRender(host, f, ty))] else [])
  }

  /**
   * `recordRender`. The records handed to the report maps are the objects
   * whose `trigger` is set afterwards, so the stored copies carry it. The
   * allow-list test cannot reject (its inner condition contradicts its
   * guard), so it does not appear here.
   */
  function RecordOutcome(env: Env, st: Reports, f: FiberId): Outcome
    requires f in env.t && Closed(env.t)
  {
    var host := env.host;
    var ty := host.getType(env.t[f].fiberType);
    if ty.None? || !host.didFiberRender(f) then Outcome(st, false)
    else match PropsRenderOf(env.t, host, f, ty.value)
      case Threw => Outcome(st, true)
      case Returned(propsRender) =>
        RecordedOutcome(env, st, f, ty.value, propsRender, ContextRenderOf(host, f, ty.value), Trigger(env.t, host, f))
  }

  /** The part of `recordRender` after both records have been computed. */
  function RecordedOutcome(env: Env, st: Reports, f: FiberId, ty: TypeRef, propsRender: Option<Render>, contextRender: Option<Render>, trigger: bool): Outcome
    requires f in env.t
  {
    var p := Stamp(propsRender, trigger);
    var c := Stamp(contextRender, trigger);
    var reported := ReportsTaken(env, st, f, ty, p, c);
    if propsRender.None? && contextRender.None? then Outcome(reported, false)
    else Outcome(reported.(events := reported.events + Emitted(env.host, f, ty, p, c, trigger)), false)
  }

  /**
   * Both report maps take the records when the component has a name; the
   * by-fiber report notifies the listeners with the updated map before the
   * by-name report is taken.
   */
  function ReportsTaken(env: Env, st: Reports, f: FiberId, ty: TypeRef, p: Option<Render>, c: Option<Render>): Reports
    requires f in env.t
  {
    var name := env.host.displayName(OfType(Some(ty)));
    if HasName(name) then
      var byFiber := ReportByFiber(st.byFiber, env.t, env.host, f, [p, c]);
      Reports(st.events + [ByFiberEmitted(byFiber)],
              ReportByName(st.byName, env.cfg.report, name.value, env.host.selfTime(f), [p, c]),
              byFiber)
    else st
  }

  ghost predicate AllIn(t: Tree, visits: seq<FiberId>) {
    forall x :: x in visits ==> x in t
  }

  /** Running `recordRender` over a series of fibers; an exception ends the series. */
  function Run(env: Env, o: Outcome, visits: seq<FiberId>): Outcome
    requires Closed(env.t) && AllIn(env.t, visits)
    decreases |visits|
  {
    if visits == [] || o.threw then o
    else Run(env, RecordOutcome(env, o.st, visits[0]), visits[1..])
  }

  // ---------------------------------------------------------------- the walk

  /** The fibers `mountFiber(first, traverseSiblings)` calls `recordRender` on, in call order. */
  ghost function MountVisits(t: Tree, rank: map<FiberId, nat>, host: Host, f: FiberId, traverseSiblings: bool): (r: seq<FiberId>)
    requires WellFormed(t, rank) && f in t
    ensures AllIn(t, r) && forall x :: x in r ==> !host.shouldFilterFiber(x)
    decreases rank[f]
  {
    (if !host.shouldFilterFiber(f) then [f] else []) +
    (if t[f].child.Some? then MountVisits(t, rank, host, t[f].child.value, true) else []) +
    (if traverseSiblings && t[f].sibling.Some? then MountVisits(t, rank, host, t[f].sibling.value, true) else [])
  }

  /** The fiber itself unless filtered, then its whole child subtree. */
  ghost function OwnVisits(t: Tree, rank: map<FiberId, nat>, host: Host, f: FiberId): (r: seq<FiberId>)
    requires WellFormed(t, rank) && f in t
    ensures AllIn(t, r)
  {
    (if !host.shouldFilterFiber(f) then [f] else []) +
    (if t[f].child.Some? then MountVisits(t, rank, host, t[f].child.value, true) else [])
  }

  lemma MountVisitsSplit(t: Tree, rank: map<FiberId, nat>, host: Host, f: FiberId, traverseSiblings: bool)
    requires WellFormed(t, rank) && f in t
    ensures MountVisits(t, rank, host, f, traverseSiblings) ==
            OwnVisits(t, rank, host, f) +
            (if traverseSiblings && t[f].sibling.Some? then MountVisits(t, rank, host, t[f].sibling.value, true) else [])
  {
  }

  /** The fibers `updateFiber(next, prev)` calls `recordRender` on, in call order. */
  ghost function UpdateVisits(t: Tree, rank: map<FiberId, nat>, host: Host, next: FiberId, prev: Option<FiberId>): (r: seq<FiberId>)
    requires WellFormed(t, rank) && next in t && (prev.Some? ==> prev.value in t)
    ensures AllIn(t, r)
    decreases rank[next] + 1, 0
  {
    if prev.None? then []
    else
      (if !host.shouldFilterFiber(next) then [next] else []) +
      (if t[next].child != t[prev.value].child then ChildVisits(t, rank, host, t[next].child) else [])
  }

  /** What one child of the children loop contributes. */
  ghost function ChildOwnVisits(t: Tree, rank: map<FiberId, nat>, host: Host, c: FiberId): (r: seq<FiberId>)
    requires WellFormed(t, rank) && c in t
    ensures AllIn(t, r)
    decreases rank[c] + 1, 1
  {
    if t[c].alternate.Some? then UpdateVisits(t, rank, host, c, t[c].alternate)
    else MountVisits(t, rank, host, c, false)
  }

  /** The children loop of `updateFiber`, from `child` along the sibling chain. */
  ghost function ChildVisits(t: Tree, rank: map<FiberId, nat>, host: Host, child: Option<FiberId>): (r: seq<FiberId>)
    requires WellFormed(t, rank) && (child.Some? ==> child.value in t)
    ensures AllIn(t, r)
    decreases if child.Some? then rank[child.value] + 1 else 0, 2
  {
    match child
    case None => []
    case Some(c) =>
      ChildOwnVisits(t, rank, host, c) + ChildVisits(t, rank, host, t[c].sibling)
  }

  function IsSkipped(cfg: Config): bool {
    (cfg.isPaused && cfg.inspectOff) || cfg.enabled == Bool(false)
  }

  predicate WasMounted(t: Tree, root: FiberId)
    requires root in t && Closed(t)
  {
    match t[root].alternate
    case None => false
    case Some(a) =>
      t[a].rootState.Some? && Truthy(t[a].rootState.value.element) &&
      t[a].rootState.value.isDehydrated != Bool(true)
  }

  predicate IsMounted(t: Tree, root: FiberId)
    requires root in t
  {
    t[root].rootState.Some? && Truthy(t[root].rootState.value.element)
  }

  /** The fibers the commit of `root` records: mount a fresh root, update a mounted one, else nothing. */
  ghost function RootVisits(t: Tree, rank: map<FiberId, nat>, host: Host, root: FiberId): (r: seq<FiberId>)
    requires WellFormed(t, rank) && root in t
    ensures AllIn(t, r)
  {
    if !WasMounted(t, root) && IsMounted(t, root) then MountVisits(t, rank, host, root, false)
    else if WasMounted(t, root) && IsMounted(t, root) then UpdateVisits(t, rank, host, root, t[root].alternate)
    else []
  }

  /** A root handed to the hook: an identity and its `current` fiber. */
  datatype FiberRoot = FiberRoot(id: nat, current: FiberId)

  /** `handleCommitFiberRoot`; a null root raises when `root.current` is read. */
  ghost function CommitOutcome(env: Env, rank: map<FiberId, nat>, st: Reports, root: Option<FiberRoot>): Outcome
    requires WellFormed(env.t, rank) && (root.Some? ==> root.value.current in env.t)
  {
    if IsSkipped(env.cfg) then Outcome(st, false)
    else
      var started := st.(events := st.events + [CommitStart]);
      if root.None? then Outcome(started, true)
      else
        var o := Run(env, Outcome(started, false), RootVisits(env.t, rank, env.host, root.value.current));
        if o.threw then o else Outcome(o.st.(events := o.st.events + [CommitFinish]), false)
  }

  /** `onCommitFiberRoot`: an exception of the commit is caught and logged. */
  ghost function OnCommitOutcome(env: Env, rank: map<FiberId, nat>, st: Reports, root: Option<FiberRoot>): Reports
    requires WellFormed(env.t, rank) && (root.Some? ==> root.value.current in env.t)
  {
    var o := CommitOutcome(env, rank, st, root);
    if o.threw then o.st.(events := o.st.events + [ErrorLogged]) else o.st
  }

  // ---------------------------------------------------------------- the instrumented runtime

  class Instrumentation {
    var events: seq<Event>
    var reportData: map<string, NameReport>
    var reportDataByFiber: map<FiberId, FiberReport>
    var fiberRoots: set<FiberRoot>

    function State(): Reports
      reads this
    {
      Reports(events, reportData, reportDataByFiber)
    }

    constructor()
      ensures State() == Reports([], map[], map[]) && fiberRoots == {}
    {
      events := [];
      reportData := map[];
      reportDataByFiber := map[];
      fiberRoots := {};
    }

    /** The by-name `reportRender` of the instrumentation layer. */
    method ReportRender(report: Value, name: string, selfTime: real, renders: seq<Option<Render>>)
      modifies this
      ensures reportData == ReportByName(old(reportData), report, name, selfTime, renders)
      ensures events == old(events) && reportDataByFiber == old(reportDataByFiber) && fiberRoots == old(fiberRoots)
    {
      if report == Bool(false) {
        return;
      }
      var base := NameReport(0, 0.0, []);
      if name in reportData {
        base := reportData[name];
        for i := 0 to |renders|
          invariant base == reportData[name].(badRenders := reportData[name].badRenders + NonNull(renders[..i]))
        {
          assert renders[..i + 1][..i] == renders[..i];
          if renders[i].Some? {
            base := base.(badRenders := base.badRenders + [renders[i].value]);
          }
        }
        assert renders[..|renders|] == renders;
      }
      reportData := reportData[name := NameReport(base.count + 1, base.time + selfTime, base.badRenders)];
    }

    /** `reportRenderFiber`. */
    method ReportRenderFiber(t: Tree, host: Host, f: FiberId, renders: seq<Option<Render>>)
      requires f in t
      modifies this
      ensures reportDataByFiber == ReportByFiber(old(reportDataByFiber), t, host, f, renders)
      ensures events == old(events) + [ByFiberEmitted(reportDataByFiber)]
      ensures reportData == old(reportData) && fiberRoots == old(fiberRoots)
    {
      var reportFiber := f;
      if f !in reportDataByFiber && t[f].alternate.Some? {
        reportFiber := t[f].alternate.value;
      }
      var badRenders: seq<Render> := [];
      var count := 0;
      var time := 0.0;
      if reportFiber in reportDataByFiber {
        var report := reportDataByFiber[reportFiber];
        badRenders := report.badRenders;
        for i := 0 to |renders|
          invariant badRenders == report.badRenders + NonNull(renders[..i])
        {
          assert renders[..i + 1][..i] == renders[..i];
          if renders[i].Some? {
            badRenders := badRenders + [renders[i].value];
          }
        }
        assert renders[..|renders|] == renders;
        count := report.count;
        time := report.time;
      }
      var selfTime := host.selfTime(f);
      reportDataByFiber := reportDataByFiber[reportFiber :=
        FiberReport(count + 1, time + (if selfTime != 0.0 then selfTime else 0.1), badRenders, host.displayName(OfType(t[f].fiberType)))];
      events := events + [ByFiberEmitted(reportDataByFiber)];
    }

    /** `recordRender`; `threw` says the call raised. */
    method RecordRender(env: Env, f: FiberId) returns (threw: bool)
      requires f in env.t && Closed(env.t)
      modifies this
      ensures Outcome(State(), threw) == RecordOutcome(env, old(State()), f)
      ensures fiberRoots == old(fiberRoots)
    {
      var host := env.host;
      var ty := host.getType(env.t[f].fiberType);
      if ty.None? {
        return false;
      }
      if !host.didFiberRender(f) {
        return false;
      }
      var propsAttempt := GetPropsRender(env.t, host, f, ty.value);
      if propsAttempt.Threw? {
        return true;
      }
      var propsRender := propsAttempt.value;
      var contextRender := GetContextRender(host, f, ty.value);
      var trigger := false;
      if env.t[f].alternate.Some? {
        var didStateChange := StateChanged(host, f);
        if didStateChange {
          trigger := true;
        }
      }
      assert trigger == Trigger(env.t, host, f);
      threw := RecordRecords(env, f, ty.value, propsRender, contextRender, trigger);
    }

    /** The rest of `recordRender` once the props and context records and `trigger` are known. */
    method RecordRecords(env: Env, f: FiberId, ty: TypeRef, propsRender: Option<Render>, contextRender: Option<Render>, trigger: bool)
      returns (threw: bool)
      requires f in env.t && Closed(env.t)
      requires propsRender.Some?
      modifies this
      ensures Outcome(State(), threw) == RecordedOutcome(env, old(State()), f, ty, propsRender, contextRender, trigger)
      ensures fiberRoots == old(fiberRoots)
    {
      var host := env.host;
      // the reports receive the records whose `trigger` is assigned below
      var p := Stamp(propsRender, trigger);
      var c := Stamp(contextRender, trigger);
      var name := host.displayName(OfType(Some(ty)));
      if HasName(name) {
        ReportRenderFiber(env.t, host, f, [p, c]);
        ReportRender(env.cfg.report, name.value, host.selfTime(f), [p, c]);
      }
      if propsRender.None? && contextRender.None? {
        // unreachable: `getPropsRender` never returns null
        assert false;
      }
      var allowList := env.cfg.allowList;
      var shouldAllow := allowList.Some? && env.t[f].fiberType.Some? && env.t[f].fiberType.value in allowList.value;
      if shouldAllow {
        var parent := host.ancestorIncludesChildren(f);
        if !parent && !shouldAllow {
          // unreachable: the rejection contradicts the guard it sits under
          assert false;
        }
      }
      Emit(host, f, ty, p, c, trigger);
      if propsRender.None? && contextRender.None? && !trigger {
        // unreachable for the same reason: no `misc` record is ever emitted
        assert false;
      }
      return false;
    }

    /** The `onRender` calls of `recordRender`. */
    method Emit(host: Host, f: FiberId, ty: TypeRef, p: Option<Render>, c: Option<Render>, trigger: bool)
      requires p.Some?
      modifies this
      ensures events == old(events) + Emitted(host, f, ty, p, c, trigger)
      ensures reportData == old(reportData) && reportDataByFiber == old(reportDataByFiber) && fiberRoots == old(fiberRoots)
    {
      var emitted: seq<Event> := [];
      if p.Some? {
        emitted := emitted + [Rendered(f, p.value)];
      }
      if c.Some? {
        emitted := emitted + [Rendered(f, c.value)];
      }
      if trigger {
        emitted := emitted + [Rendered(f, StateRender(host, f, ty))];
      }
      events := events + emitted;
    }

    /** `mountFiber(first, traverseSiblings)`. */
    method MountFiber(env: Env, ghost rank: map<FiberId, nat>, first: FiberId, traverseSiblings: bool) returns (threw: bool)
      requires WellFormed(env.t, rank) && first in env.t
      modifies this
      ensures Outcome(State(), threw) == Run(env, Outcome(old(State()), false), MountVisits(env.t, rank, env.host, first, traverseSiblings))
      ensures fiberRoots == old(fiberRoots)
      decreases rank[first], 1
    {
      ghost var target := Run(env, Outcome(State(), false), MountVisits(env.t, rank, env.host, first, traverseSiblings));
      threw := false;
      var fiber: Option<FiberId> := Some(first);
      while fiber.Some?
        invariant fiber.Some? ==> fiber.value in env.t && rank[fiber.value] <= rank[first]
        invariant fiber.Some? ==> target == Run(env, Outcome(State(), false), MountVisits(env.t, rank, env.host, fiber.value, traverseSiblings))
        invariant fiber.None? ==> target == Outcome(State(), false)
        invariant fiberRoots == old(fiberRoots)
        decreases if fiber.Some? then rank[fiber.value] + 1 else 0
      {
        var cur := fiber.value;
        ghost var rest := if traverseSiblings && env.t[cur].sibling.Some? then MountVisits(env.t, rank, env.host, env.t[cur].sibling.value, true) else [];
        MountVisitsSplit(env.t, rank, env.host, cur, traverseSiblings);
        RunAppend(env, Outcome(State(), false), OwnVisits(env.t, rank, env.host, cur), rest);
        threw := MountOne(env, rank, cur);
        if threw {
          RunThrew(env, Outcome(State(), true), rest);
          return true;
        }
        fiber := if traverseSiblings then env.t[cur].sibling else None;
      }
    }

    /** One turn of `mountFiber`'s loop: record the fiber unless filtered, then mount its children. */
    method MountOne(env: Env, ghost rank: map<FiberId, nat>, cur: FiberId) returns (threw: bool)
      requires WellFormed(env.t, rank) && cur in env.t
      modifies this
      ensures Outcome(State(), threw) == Run(env, Outcome(old(State()), false), OwnVisits(env.t, rank, env.host, cur))
      ensures fiberRoots == old(fiberRoots)
      decreases rank[cur], 0
    {
      ghost var own := if !env.host.shouldFilterFiber(cur) then [cur] else [];
      ghost var kids := if env.t[cur].child.Some? then MountVisits(env.t, rank, env.host, env.t[cur].child.value, true) else [];
      RunAppend(env, Outcome(State(), false), own, kids);
      threw := false;
      if !env.host.shouldFilterFiber(cur) {
        ghost var before := State();
        threw := RecordRender(env, cur);
        RunSingle(env, Outcome(before, false), cur);
        if threw {
          RunThrew(env, Outcome(State(), true), kids);
          return;
        }
      }
      if env.t[cur].child.Some? {
        threw := MountFiber(env, rank, env.t[cur].child.value, true);
      }
    }

    /** `updateFiber(nextFiber, prevFiber)`. */
    method UpdateFiber(env: Env, ghost rank: map<FiberId, nat>, next: FiberId, prev: Option<FiberId>) returns (threw: bool)
      requires WellFormed(env.t, rank) && next in env.t && (prev.Some? ==> prev.value in env.t)
      modifies this
      ensures Outcome(State(), threw) == Run(env, Outcome(old(State()), false), UpdateVisits(env.t, rank, env.host, next, prev))
      ensures fiberRoots == old(fiberRoots)
      decreases rank[next] + 1, 0
    {
      if prev.None? {
        return false;
      }
      ghost var own := if !env.host.shouldFilterFiber(next) then [next] else [];
      ghost var kids := if env.t[next].child != env.t[prev.value].child then ChildVisits(env.t, rank, env.host, env.t[next].child) else [];
      RunAppend(env, Outcome(State(), false), own, kids);
      threw := false;
      if !env.host.shouldFilterFiber(next) {
        ghost var before := State();
        threw := RecordRender(env, next);
        RunSingle(env, Outcome(before, false), next);
        if threw {
          RunThrew(env, Outcome(State(), true), kids);
          return;
        }
      }
      if env.t[next].child != env.t[prev.value].child {
        ghost var target := Run(env, Outcome(State(), false), kids);
        var nextChild := env.t[next].child;
        while nextChild.Some?
          invariant nextChild.Some? ==> nextChild.value in env.t && rank[nextChild.value] < rank[next]
          invariant target == Run(env, Outcome(State(), false), ChildVisits(env.t, rank, env.host, nextChild))
          invariant fiberRoots == old(fiberRoots)
          decreases if nextChild.Some? then rank[nextChild.value] + 1 else 0
        {
          var c := nextChild.value;
          RunAppend(env, Outcome(State(), false), ChildOwnVisits(env.t, rank, env.host, c), ChildVisits(env.t, rank, env.host, env.t[c].sibling));
          threw := UpdateChild(env, rank, c);
          if threw {
            RunThrew(env, Outcome(State(), true), ChildVisits(env.t, rank, env.host, env.t[c].sibling));
            return;
          }
          nextChild := env.t[c].sibling;
        }
      }
    }

    /** One turn of `updateFiber`'s children loop: update a child that has an alternate, mount one that has none. */
    method UpdateChild(env: Env, ghost rank: map<FiberId, nat>, c: FiberId) returns (threw: bool)
      requires WellFormed(env.t, rank) && c in env.t
      modifies this
      ensures Outcome(State(), threw) == Run(env, Outcome(old(State()), false), ChildOwnVisits(env.t, rank, env.host, c))
      ensures fiberRoots == old(fiberRoots)
      decreases rank[c] + 1, 1
    {
      var prevChild := env.t[c].alternate;
      if prevChild.Some? {
        threw := UpdateFiber(env, rank, c, prevChild);
      } else {
        threw := MountFiber(env, rank, c, false);
      }
    }

    /** `handleCommitFiberRoot`. */
    method HandleCommitFiberRoot(env: Env, ghost rank: map<FiberId, nat>, root: Option<FiberRoot>) returns (threw: bool)
      requires WellFormed(env.t, rank) && (root.Some? ==> root.value.current in env.t)
      modifies this
      ensures Outcome(State(), threw) == CommitOutcome(env, rank, old(State()), root)
      ensures fiberRoots == old(fiberRoots)
    {
      if (env.cfg.isPaused && env.cfg.inspectOff) || env.cfg.enabled == Bool(false) {
        return false;
      }
      events := events + [CommitStart];
      if root.None? {
        // reading `root.current` of a null root raises
        return true;
      }
      var rootFiber := root.value.current;
      var wasMounted := WasMounted(env.t, rootFiber);
      var isMounted := IsMounted(env.t, rootFiber);
      threw := false;
      if !wasMounted && isMounted {
        threw := MountFiber(env, rank, rootFiber, false);
      } else if wasMounted && isMounted {
        threw := UpdateFiber(env, rank, rootFiber, env.t[rootFiber].alternate);
      }
      if threw {
        return;
      }
      events := events + [CommitFinish];
    }

    /** `onCommitFiberRoot`: remember the root, run the commit, log what it raises. */
    method OnCommitFiberRoot(env: Env, ghost rank: map<FiberId, nat>, root: Option<FiberRoot>)
      requires WellFormed(env.t, rank) && (root.Some? ==> root.value.current in env.t)
      modifies this
      ensures State() == OnCommitOutcome(env, rank, old(State()), root)
      ensures fiberRoots == old(fiberRoots) + (if root.Some? then {root.value} else {})
    {
      if root.Some? {
        fiberRoots := fiberRoots + {root.value};
      }
      var threw := HandleCommitFiberRoot(env, rank, root);
      if threw {
        // console.error
        events := events + [ErrorLogged];
      }
    }
  }

  lemma {:induction false} RunAppend(env: Env, o: Outcome, a: seq<FiberId>, b: seq<FiberId>)
    requires Closed(env.t)
    requires AllIn(env.t, a) && AllIn(env.t, b)
    ensures AllIn(env.t, a + b)
    ensures Run(env, o, a + b) == Run(env, Run(env, o, a), b)
    decreases |a|
  {
    if a == [] {
      assert a + b == b;
    } else if o.threw {
      RunThrew(env, o, b);
    } else {
      assert (a + b)[1..] == a[1..] + b;
      RunAppend(env, RecordOutcome(env, o.st, a[0]), a[1..], b);
    }
  }

  lemma RunThrew(env: Env, o: Outcome, visits: seq<FiberId>)
    requires Closed(env.t) && AllIn(env.t, visits)
    requires o.threw
    ensures Run(env, o, visits) == o
  {
  }

  lemma RunSingle(env: Env, o: Outcome, f: FiberId)
    requires Closed(env.t) && f in env.t && !o.threw
    ensures Run(env, o, [f]) == RecordOutcome(env, o.st, f)
  {
    var r := RecordOutcome(env, o.st, f);
    assert [f][1..] == [];
    assert Run(env, r, []) == r;
  }
  // ---------------------------------------------------------------- properties of the walk

  /** No `misc` record appears in an event log. */
  ghost predicate NoMisc(events: seq<Event>) {
    forall i :: 0 <= i < |events| && events[i].Rendered? ==> events[i].render.kind != MiscKind
  }

  /** Events the walk itself sends between the bracketing callbacks. */
  predicate IsWalkEvent(e: Event) {
    e.Rendered? || e.ByFiberEmitted?
  }

  /** `after` is `before` followed only by `onRender` calls and by-fiber notifications. */
  ghost predicate ExtendsByWalk(before: seq<Event>, after: seq<Event>) {
    |before| <= |after| && after[..|before|] == before &&
    forall i :: |before| <= i < |after| ==> IsWalkEvent(after[i])
  }

  /**
   * `recordRender` emits nothing for a fiber without a type or that did not
   * render; it raises only while reading props, and then changes nothing;
   * otherwise a named component first notifies the listeners with the final
   * by-fiber map, and then come the calls `Emitted` lists, with the records'
   * `trigger` set to the fiber's trigger flag.
   */
  lemma RecordOutcomeShape(env: Env, st: Reports, f: FiberId)
    requires f in env.t && Closed(env.t)
    ensures var o := RecordOutcome(env, st, f);
            var ty := env.host.getType(env.t[f].fiberType);
            (ty.None? || !env.host.didFiberRender(f) ==> o == Outcome(st, false)) &&
            (o.threw <==> ty.Some? && env.host.didFiberRender(f) && PropsRenderOf(env.t, env.host, f, ty.value).Threw?) &&
            (o.threw ==> o.st == st) &&
            (ty.Some? && env.host.didFiberRender(f) && !o.threw ==>
              var trigger := Trigger(env.t, env.host, f);
              var p := PropsRenderOf(env.t, env.host, f, ty.value).value;
              var notice := if HasName(env.host.displayName(OfType(ty))) then [ByFiberEmitted(o.st.byFiber)] else [];
              p.Some? &&
              o.st.events == st.events + notice + Emitted(env.host, f, ty.value, Stamp(p, trigger), Stamp(ContextRenderOf(env.host, f, ty.value), trigger), trigger))
  {
    var ty := env.host.getType(env.t[f].fiberType);
    if ty.Some? && env.host.didFiberRender(f) {
      PropsRenderNeverNull(env.t, env.host, f, ty.value);
    }
  }

  /**
   * The calls `recordRender` makes: the props record first, then the context
   * record when there is one, then a state record exactly when `trigger`
   * holds; all for the same fiber and none of them `misc`.
   */
  lemma EmittedShape(host: Host, f: FiberId, ty: TypeRef, p: Option<Render>, c: Option<Render>, trigger: bool)
    requires p.Some? && p.value.kind == PropsKind && (c.Some? ==> c.value.kind == ContextKind)
    ensures var e := Emitted(host, f, ty, p, c, trigger);
            |e| == 1 + (if c.Some? then 1 else 0) + (if trigger then 1 else 0) &&
            e[0] == Rendered(f, p.value) &&
            (c.Some? ==> e[1] == Rendered(f, c.value)) &&
            (trigger ==> e[|e| - 1] == Rendered(f, StateRender(host, f, ty))) &&
            NoMisc(e) &&
            forall i :: 0 <= i < |e| ==> e[i].Rendered? && e[i].fiber == f
  {
  }

  /** The trigger flag: there is an alternate and some hook state differs by `Object.is`. */
  lemma TriggerMeaning(t: Tree, host: Host, f: FiberId)
    requires f in t
    ensures Trigger(t, host, f) <==>
            t[f].alternate.Some? &&
            exists i :: 0 <= i < |host.statePairs(f)| && host.statePairs(f)[i].0 != host.statePairs(f)[i].1
  {
  }

  lemma RecordOnlyWalkEvents(env: Env, st: Reports, f: FiberId)
    requires f in env.t && Closed(env.t)
    ensures ExtendsByWalk(st.events, RecordOutcome(env, st, f).st.events)
    ensures NoMisc(st.events) ==> NoMisc(RecordOutcome(env, st, f).st.events)
  {
    RecordOutcomeShape(env, st, f);
    var ty := env.host.getType(env.t[f].fiberType);
    var o := RecordOutcome(env, st, f);
    if ty.Some? && env.host.didFiberRender(f) && !o.threw {
      var trigger := Trigger(env.t, env.host, f);
      var p := Stamp(PropsRenderOf(env.t, env.host, f, ty.value).value, trigger);
      var c := Stamp(ContextRenderOf(env.host, f, ty.value), trigger);
      PropsRenderNeverNull(env.t, env.host, f, ty.value);
      EmittedShape(env.host, f, ty.value, p, c, trigger);
      var notice := if HasName(env.host.displayName(OfType(ty))) then [ByFiberEmitted(o.st.byFiber)] else [];
      var e := Emitted(env.host, f, ty.value, p, c, trigger);
      assert o.st.events == st.events + notice + e;
      AppendWalkEvents(st.events, notice);
      AppendWalkEvents(st.events + notice, e);
      ExtendsTransitive(st.events, st.events + notice, o.st.events);
    }
  }

  /** Appending walk events, none of them `misc`, extends a log by the walk. */
  lemma AppendWalkEvents(a: seq<Event>, e: seq<Event>)
    requires forall i :: 0 <= i < |e| ==> IsWalkEvent(e[i])
    requires NoMisc(e)
    ensures ExtendsByWalk(a, a + e)
    ensures NoMisc(a) ==> NoMisc(a + e)
  {
    assert (a + e)[..|a|] == a;
    assert forall i :: |a| <= i < |a + e| ==> (a + e)[i] == e[i - |a|];
  }

  /** A whole series of `recordRender` calls adds only `onRender` calls and by-fiber notifications, no `misc` record among them. */
  lemma {:induction false} RunOnlyWalkEvents(env: Env, o: Outcome, visits: seq<FiberId>)
    requires Closed(env.t) && AllIn(env.t, visits)
    ensures ExtendsByWalk(o.st.events, Run(env, o, visits).st.events)
    ensures NoMisc(o.st.events) ==> NoMisc(Run(env, o, visits).st.events)
    decreases |visits|
  {
    if visits != [] && !o.threw {
      var next := RecordOutcome(env, o.st, visits[0]);
      RecordOnlyWalkEvents(env, o.st, visits[0]);
      RunOnlyWalkEvents(env, next, visits[1..]);
      assert Run(env, o, visits) == Run(env, next, visits[1..]);
      ExtendsTransitive(o.st.events, next.st.events, Run(env, next, visits[1..]).st.events);
    }
  }

  lemma ExtendsTransitive(a: seq<Event>, b: seq<Event>, c: seq<Event>)
    requires ExtendsByWalk(a, b) && ExtendsByWalk(b, c)
    ensures ExtendsByWalk(a, c)
  {
    assert c[..|a|] == c[..|b|][..|a|];
  }

  /**
   * A commit that is not skipped calls `onCommitStart` once, then only
   * `onRender` and the by-fiber notification, then either `onCommitFinish` once or, when the walk raised,
   * logs the error instead. A skipped commit changes nothing.
   */
  lemma CommitBracketed(env: Env, rank: map<FiberId, nat>, st: Reports, root: Option<FiberRoot>)
    requires WellFormed(env.t, rank) && (root.Some? ==> root.value.current in env.t)
    ensures IsSkipped(env.cfg) ==> OnCommitOutcome(env, rank, st, root) == st
    ensures !IsSkipped(env.cfg) ==>
      var after := OnCommitOutcome(env, rank, st, root).events;
      |after| >= |st.events| + 2 &&
      after[..|st.events| + 1] == st.events + [CommitStart] &&
      (after[|after| - 1] == CommitFinish || after[|after| - 1] == ErrorLogged) &&
      (root.None? ==> after == st.events + [CommitStart, ErrorLogged]) &&
      forall i :: |st.events| < i < |after| - 1 ==> IsWalkEvent(after[i])
  {
    if !IsSkipped(env.cfg) && root.Some? {
      var started := st.(events := st.events + [CommitStart]);
      var visits := RootVisits(env.t, rank, env.host, root.value.current);
      RunOnlyWalkEvents(env, Outcome(started, false), visits);
      var o := Run(env, Outcome(started, false), visits);
      assert o.st.events[..|started.events|] == started.events;
      var after := OnCommitOutcome(env, rank, st, root).events;
      assert after[..|o.st.events|] == o.st.events;
      assert after[..|st.events| + 1] == o.st.events[..|started.events|];
    }
  }

  /** Every fiber reachable from `f` by child links, and by sibling links when `traverseSiblings`. */
  ghost function Subtree(t: Tree, rank: map<FiberId, nat>, f: FiberId, traverseSiblings: bool): set<FiberId>
    requires WellFormed(t, rank) && f in t
    decreases rank[f]
  {
    {f} +
    (if t[f].child.Some? then Subtree(t, rank, t[f].child.value, true) else {}) +
    (if traverseSiblings && t[f].sibling.Some? then Subtree(t, rank, t[f].sibling.value, true) else {})
  }

  /**
   * `mountFiber` records exactly the unfiltered fibers of the subtree, starting
   * with the first one when it is unfiltered, and without siblings of the first
   * one unless asked.
   */
  lemma {:induction false} MountVisitsExactly(t: Tree, rank: map<FiberId, nat>, host: Host, f: FiberId, traverseSiblings: bool)
    requires WellFormed(t, rank) && f in t
    ensures forall x :: x in MountVisits(t, rank, host, f, traverseSiblings) <==>
                        x in Subtree(t, rank, f, traverseSiblings) && !host.shouldFilterFiber(x)
    ensures !host.shouldFilterFiber(f) ==> MountVisits(t, rank, host, f, traverseSiblings)[0] == f
    ensures !traverseSiblings ==> MountVisits(t, rank, host, f, false) == OwnVisits(t, rank, host, f)
    decreases rank[f]
  {
    if t[f].child.Some? {
      MountVisitsExactly(t, rank, host, t[f].child.value, true);
    }
    if traverseSiblings && t[f].sibling.Some? {
      MountVisitsExactly(t, rank, host, t[f].sibling.value, true);
    }
  }

  /**
   * `updateFiber` does nothing for a null prev, skips every child when the two
   * fibers share their first child, and otherwise walks the children, updating
   * a child that has an alternate and mounting one that has none.
   */
  lemma UpdateVisitsCases(t: Tree, rank: map<FiberId, nat>, host: Host, next: FiberId, prev: Option<FiberId>)
    requires WellFormed(t, rank) && next in t && (prev.Some? ==> prev.value in t)
    ensures prev.None? ==> UpdateVisits(t, rank, host, next, prev) == []
    ensures prev.Some? && t[next].child == t[prev.value].child ==>
            UpdateVisits(t, rank, host, next, prev) == (if host.shouldFilterFiber(next) then [] else [next])
    ensures prev.Some? && t[next].child != t[prev.value].child && t[next].child.Some? ==>
            var c := t[next].child.value;
            UpdateVisits(t, rank, host, next, prev) ==
              (if host.shouldFilterFiber(next) then [] else [next]) +
              (if t[c].alternate.Some? then UpdateVisits(t, rank, host, c, t[c].alternate) else MountVisits(t, rank, host, c, false)) +
              ChildVisits(t, rank, host, t[c].sibling)
  {
    if prev.Some? && t[next].child != t[prev.value].child && t[next].child.Some? {
      UpdateVisitsFirstChild(t, rank, host, next, prev.value);
    }
  }

  /** The children loop starts with the first child, updated or mounted, then follows its siblings. */
  lemma UpdateVisitsFirstChild(t: Tree, rank: map<FiberId, nat>, host: Host, next: FiberId, prev: FiberId)
    requires WellFormed(t, rank) && next in t && prev in t
    requires t[next].child != t[prev].child && t[next].child.Some?
    ensures var c := t[next].child.value;
            UpdateVisits(t, rank, host, next, Some(prev)) ==
              (if host.shouldFilterFiber(next) then [] else [next]) +
              ChildOwnVisits(t, rank, host, c) +
              ChildVisits(t, rank, host, t[c].sibling)
  {
    var c := t[next].child.value;
    var own := if host.shouldFilterFiber(next) then [] else [next];
    var a := ChildOwnVisits(t, rank, host, c);
    var b := ChildVisits(t, rank, host, t[c].sibling);
    assert ChildVisits(t, rank, host, t[next].child) == a + b;
    assert own + (a + b) == own + a + b;
  }

  /** The root is mounted when it was not mounted and now is, updated when it was and is, and left alone otherwise. */
  lemma RootVisitsCases(t: Tree, rank: map<FiberId, nat>, host: Host, root: FiberId)
    requires WellFormed(t, rank) && root in t
    ensures !IsMounted(t, root) ==> RootVisits(t, rank, host, root) == []
    ensures !WasMounted(t, root) && IsMounted(t, root) ==>
            RootVisits(t, rank, host, root) == MountVisits(t, rank, host, root, false)
    ensures WasMounted(t, root) && IsMounted(t, root) ==>
            RootVisits(t, rank, host, root) == UpdateVisits(t, rank, host, root, t[root].alternate)
    ensures WasMounted(t, root) ==> t[root].alternate.Some?
    ensures !WasMounted(t, root) && IsMounted(t, root) && !host.shouldFilterFiber(root) ==>
            RootVisits(t, rank, host, root)[0] == root
  {
    if !WasMounted(t, root) && IsMounted(t, root) && !host.shouldFilterFiber(root) {
      MountVisitsExactly(t, rank, host, root, false);
    }
  }

  /**
   * Which allow-list is installed never changes what `recordRender` does.
   * `RecordOutcome` has no allow-list branch, so this lemma only records the
   * consequence; the reason the branch may be dropped is the `assert false`
   * in `Instrumentation.RecordRecords`, which proves that the rejection inside
   * the allow-list test cannot be reached.
   */
  lemma AllowListIgnored(env: Env, st: Reports, f: FiberId, allowList: Option<set<TypeRef>>)
    requires f in env.t && Closed(env.t)
    ensures RecordOutcome(env.(cfg := env.cfg.(allowList := allowList)), st, f) == RecordOutcome(env, st, f)
  {
  }
}

/**
 * The inspector's property view: the path under which a property is
 * remembered, the class name and one-line preview of its value, the
 * change-highlight bookkeeping kept across renders, and the per-section
 * record of which object was shown at which path.
 */
module ViewState {
  import opened Common
  import opened JsValues

  // ---------------------------------------------------------------------------
  // Paths
  // ---------------------------------------------------------------------------

  /** `getPath`: a nested property hangs off its parent's path, a top-level one off its section. */
  function GetPath(componentName: string, section: string, parentPath: string, key: string): string {
    if parentPath != "" then componentName + "." + parentPath + "." + key
    else componentName + "." + section + "." + key
  }

  /** The section name matters only at the top level; below it the parent path replaces it. */
  lemma GetPathCases(componentName: string, section: string, parentPath: string, key: string)
    ensures parentPath == "" ==> GetPath(componentName, section, parentPath, key) == componentName + "." + section + "." + key
    ensures parentPath != "" ==>
      GetPath(componentName, section, parentPath, key) == componentName + "." + parentPath + "." + key &&
      forall other :: GetPath(componentName, other, parentPath, key) == GetPath(componentName, section, parentPath, key)
  {
  }

  /** Two keys under the same parent get the same path only if they are the same key. */
  lemma GetPathSeparatesKeys(componentName: string, section: string, parentPath: string, k1: string, k2: string)
    requires GetPath(componentName, section, parentPath, k1) == GetPath(componentName, section, parentPath, k2)
    ensures k1 == k2
  {
    var p := if parentPath != "" then componentName + "." + parentPath + "." else componentName + "." + section + ".";
    assert GetPath(componentName, section, parentPath, k1) == p + k1;
    assert GetPath(componentName, section, parentPath, k2) == p + k2;
    assert (p + k1)[|p|..] == k1;
    assert (p + k2)[|p|..] == k2;
  }

  /**
   * A nested property's path is strictly longer than its parent's, so a
   * descent never comes back to a path it has already passed through.
   */
  lemma NestedPathLonger(componentName: string, section: string, parentPath: string, key: string)
    requires parentPath != ""
    ensures |GetPath(componentName, section, parentPath, key)| > |parentPath|
  {
  }

  // ---------------------------------------------------------------------------
  // Class name and preview
  // ---------------------------------------------------------------------------

  /** `Array.isArray(value)` in this value model. */
  predicate IsArray(v: Value) {
    v.Arr?
  }

  /** `getValueClassName`. */
  function GetValueClassName(v: Value): string {
    if IsArray(v) then "react-scan-array"
    else if v == Null || v == Undefined then "react-scan-null"
    else
      var t := TypeOf(v);
      if t == "string" then "react-scan-string"
      else if t == "number" then "react-scan-number"
      else if t == "boolean" then "react-scan-boolean"
      else if t == "object" then "react-scan-object-key"
      else ""
  }

  /** What `getValueClassName` tells apart: arrays, nullish values, and otherwise the `typeof` result. */
  function Kind(v: Value): string {
    if IsArray(v) then "array" else if v == Null || v == Undefined then "nullish" else TypeOf(v)
  }

  /**
   * Arrays are classified before the null test, so an array gets the array
   * class although `typeof` calls it an object; string, number, boolean and
   * object kinds each get a class of their own, and every other kind gets none.
   */
  lemma ClassNameByKind(a: Value, b: Value)
    ensures a.Arr? ==> GetValueClassName(a) == "react-scan-array" && TypeOf(a) == "object"
    ensures (a == Null || a == Undefined) ==> GetValueClassName(a) == "react-scan-null"
    ensures GetValueClassName(a) == "" <==> Kind(a) in {"function", "bigint", "symbol"}
    ensures GetValueClassName(a) != "" && GetValueClassName(a) == GetValueClassName(b) ==> Kind(a) == Kind(b)
    ensures Kind(a) == Kind(b) ==> GetValueClassName(a) == GetValueClassName(b)
  {
  }

  /** `Array.prototype.join`. */
  function Join(ks: seq<string>, sep: string): string {
    if |ks| == 0 then "" else if |ks| == 1 then ks[0] else Join(ks[..|ks| - 1], sep) + sep + ks[|ks| - 1]
  }

  /** The preview of a plain object with keys `keys`: all of them up to three, otherwise the first three and an ellipsis. */
  function ObjectPreview(keys: seq<string>): string {
    if |keys| <= 3 then "{" + Join(keys, ", ") + "}" else "{" + Join(keys[..3], ", ") + ", ...}"
  }

  /** `getValuePreview`, with `Number.prototype.toString` as the parameter `numberText`. */
  function GetValuePreview(h: Heap, v: Value, numberText: real -> string): string {
    if IsArray(v) then "Array(" + NatToString(|ArrayItems(h, v.aid)|) + ")"
    else if v == Null then "null"
    else if v == Undefined then "undefined"
    else
      match v
      case Str(s) => "\"" + s + "\""
      case Num(n) => numberText(n)
      case Bool(b) => if b then "true" else "false"
      case Obj(oid) => ObjectPreview(ObjectKeys(h, oid))
      case _ => TypeOf(v)
  }

  /** Quoting is undone by dropping the first and last characters. */
  lemma StringPreviewRoundTrip(h: Heap, s: string, numberText: real -> string)
    ensures var r := GetValuePreview(h, Str(s), numberText);
      |r| == |s| + 2 && r[0] == '"' && r[|r| - 1] == '"' && r[1..|r| - 1] == s
  {
    var r := GetValuePreview(h, Str(s), numberText);
    assert r == "\"" + s + "\"";
    assert r[1..|r| - 1] == s;
  }

  /** Functions, bigints and symbols preview as their `typeof` name. */
  lemma OtherPreviewIsTypeOf(h: Heap, v: Value, numberText: real -> string)
    requires v.Fn? || v.BigInt? || v.Sym?
    ensures GetValuePreview(h, v, numberText) == TypeOf(v)
    ensures v.Fn? ==> GetValuePreview(h, v, numberText) == "function"
  {
  }

  lemma NatToStringInjective(a: nat, b: nat)
    requires NatToString(a) == NatToString(b)
    ensures a == b
    decreases a
  {
    var sa := NatToString(a);
    if a >= 10 && b >= 10 {
      assert sa[..|sa| - 1] == NatToString(a / 10);
      assert NatToString(b)[..|sa| - 1] == NatToString(b / 10);
      NatToStringInjective(a / 10, b / 10);
      assert DigitChar(a % 10) == DigitChar(b % 10);
    } else if a < 10 && b < 10 {
      assert DigitChar(a) == DigitChar(b);
    }
  }

  /** Arrays of different lengths never share a preview. */
  lemma ArrayPreviewShowsLength(h: Heap, a: nat, b: nat, numberText: real -> string)
    requires GetValuePreview(h, Arr(a), numberText) == GetValuePreview(h, Arr(b), numberText)
    ensures |ArrayItems(h, a)| == |ArrayItems(h, b)|
  {
    var p := "Array(";
    var sa := NatToString(|ArrayItems(h, a)|);
    var sb := NatToString(|ArrayItems(h, b)|);
    assert GetValuePreview(h, Arr(a), numberText) == p + sa + ")";
    assert GetValuePreview(h, Arr(b), numberText) == p + sb + ")";
    assert (p + sa + ")")[|p|..|p| + |sa|] == sa;
    assert |sa| == |sb|;
    assert (p + sb + ")")[|p|..|p| + |sb|] == sb;
    NatToStringInjective(|ArrayItems(h, a)|, |ArrayItems(h, b)|);
  }

  /**
   * With more than three keys the preview is the three-key preview with its
   * closing brace replaced by `, ...}`; the fourth and later keys never show.
   */
  lemma ObjectPreviewElides(keys: seq<string>, others: seq<string>)
    requires |keys| > 3
    ensures var short := ObjectPreview(keys[..3]);
      ObjectPreview(keys) == short[..|short| - 1] + ", ...}"
    ensures |others| > 3 && others[..3] == keys[..3] ==> ObjectPreview(others) == ObjectPreview(keys)
  {
    var short := ObjectPreview(keys[..3]);
    assert keys[..3][..3] == keys[..3];
    var inner := "{" + Join(keys[..3], ", ");
    assert short == inner + "}";
    assert short[..|short| - 1] == inner;
  }

  // ---------------------------------------------------------------------------
  // Change highlighting
  // ---------------------------------------------------------------------------

  /** Highlights older than this many milliseconds are swept. */
  const FlashWindow: real := 450.0

  /** `lastRendered.get(path)`: missing paths read as `undefined`. */
  function LastValue(lastRendered: map<string, Value>, path: string): Value {
    if path in lastRendered then lastRendered[path] else Undefined
  }

  /** `isChanged`: a remembered value that is not `undefined` and not identical to the new one. */
  predicate IsChanged(lastRendered: map<string, Value>, path: string, value: Value) {
    LastValue(lastRendered, path) != Undefined && !SameValue(LastValue(lastRendered, path), value)
  }

  datatype Highlights = Highlights(lastRendered: map<string, Value>, changedAt: map<string, real>)

  /** The bookkeeping of one `createPropertyElement` call for the property `key` at `path`. */
  function Tracked(st: Highlights, path: string, key: string, value: Value, changedKeys: set<string>, now: real): Highlights {
    var stamp := IsChanged(st.lastRendered, path, value) || key in changedKeys;
    Highlights(st.lastRendered[path := value], if stamp then st.changedAt[path := now] else st.changedAt)
  }

  /**
   * The new value is always remembered; the path is stamped with `now` exactly
   * when it changed or its key is among the changed keys, and otherwise the
   * stamps are untouched. A path seen for the first time never counts as changed.
   */
  lemma TrackedEffect(st: Highlights, path: string, key: string, value: Value, changedKeys: set<string>, now: real)
    ensures var r := Tracked(st, path, key, value, changedKeys, now);
      r.lastRendered[path] == value &&
      (forall p :: p != path ==> LastValue(r.lastRendered, p) == LastValue(st.lastRendered, p)) &&
      ((IsChanged(st.lastRendered, path, value) || key in changedKeys) ==>
        path in r.changedAt && r.changedAt[path] == now && r.changedAt - {path} == st.changedAt - {path}) &&
      (!IsChanged(st.lastRendered, path, value) && key !in changedKeys ==> r.changedAt == st.changedAt) &&
      (path !in st.lastRendered ==> !IsChanged(st.lastRendered, path, value))
  {
  }

  /** Showing the same value again at the same path is not a change, and repeating a call changes nothing more. */
  lemma TrackedIdempotent(st: Highlights, path: string, key: string, value: Value, changedKeys: set<string>, now: real)
    ensures var r := Tracked(st, path, key, value, changedKeys, now);
      !IsChanged(r.lastRendered, path, value) &&
      Tracked(r, path, key, value, changedKeys, now) == r
  {
    var r := Tracked(st, path, key, value, changedKeys, now);
    assert r.lastRendered[path := value] == r.lastRendered;
    if key in changedKeys {
      assert path in r.changedAt && r.changedAt[path] == now;
      assert r.changedAt[path := now] == r.changedAt;
    }
  }

  /** The interval callback: stamps older than the window are dropped. */
  function Swept(changedAt: map<string, real>, now: real): map<string, real> {
    map p | p in changedAt && !(now - changedAt[p] > FlashWindow) :: changedAt[p]
  }

  /** Exactly the stamps more than 450 ms old disappear; the rest keep their time; sweeping twice is sweeping once. */
  lemma SweptExactly(changedAt: map<string, real>, now: real)
    ensures forall p :: p in Swept(changedAt, now) <==> p in changedAt && now - changedAt[p] <= FlashWindow
    ensures forall p :: p in Swept(changedAt, now) ==> Swept(changedAt, now)[p] == changedAt[p]
    ensures Swept(Swept(changedAt, now), now) == Swept(changedAt, now)
  {
  }

  class Inspector {
    var lastRendered: map<string, Value>
    var changedAt: map<string, real>

    function State(): Highlights
      reads this
    {
      Highlights(lastRendered, changedAt)
    }

    constructor()
      ensures State() == Highlights(map[], map[])
    {
      lastRendered := map[];
      changedAt := map[];
    }

    /**
     * The change bookkeeping of `createPropertyElement`; reports whether the
     * path counted as changed and whether it is now highlighted.
     */
    method Track(path: string, key: string, value: Value, changedKeys: set<string>, now: real)
      returns (isChanged: bool, flashing: bool)
      modifies this
      ensures State() == Tracked(old(State()), path, key, value, changedKeys, now)
      ensures isChanged == IsChanged(old(lastRendered), path, value)
      ensures flashing == (path in changedAt)
    {
      var previous := if path in lastRendered then lastRendered[path] else Undefined;
      isChanged := previous != Undefined && previous != value;
      lastRendered := lastRendered[path := value];
      if isChanged {
        changedAt := changedAt[path := now];
      }
      if key in changedKeys {
        changedAt := changedAt[path := now];
      }
      flashing := path in changedAt;
    }

    /** One run of the sweep: each stamp is visited once and deleted when stale. */
    method Sweep(now: real)
      modifies this`changedAt
      ensures changedAt == Swept(old(changedAt), now)
    {
      var start := changedAt;
      var kept := start;
      var pending := start.Keys;
      while pending != {}
        invariant pending <= start.Keys
        invariant forall p :: p in kept <==> p in start && (p in pending || now - start[p] <= FlashWindow)
        invariant forall p :: p in kept ==> kept[p] == start[p]
        decreases |pending|
      {
        var p :| p in pending;
        if now - start[p] > FlashWindow {
          kept := kept - {p};
        }
        pending := pending - {p};
      }
      assert kept == Swept(start, now);
      changedAt := kept;
    }
  }

  // ---------------------------------------------------------------------------
  // Circular reference detection
  // ---------------------------------------------------------------------------

  /** The value kinds `typeof value === 'object' && value !== null` admits. */
  predicate IsObjectLike(v: Value) {
    v.Obj? || v.Arr?
  }

  /** The path sets after showing `value` at `path`. */
  function Visited(paths: map<Value, set<string>>, value: Value, path: string): map<Value, set<string>> {
    if !IsObjectLike(value) then paths
    else if value in paths && path in paths[value] then paths
    else paths[value := (if value in paths then paths[value] else {}) + {path}]
  }

  /** The marker appears exactly for an object already shown at the same path. */
  predicate IsCircular(paths: map<Value, set<string>>, value: Value, path: string) {
    IsObjectLike(value) && value in paths && path in paths[value]
  }

  /**
   * After a visit the object is recorded at the path, no other object's record
   * changes, nothing is forgotten, and a second visit at the same path is
   * reported as circular; a fresh map never reports a cycle.
   */
  lemma VisitedEffect(paths: map<Value, set<string>>, value: Value, path: string, other: Value)
    ensures var r := Visited(paths, value, path);
      (IsObjectLike(value) ==> value in r && path in r[value] && IsCircular(r, value, path)) &&
      (other != value ==> (other in r <==> other in paths) && (other in r ==> r[other] == paths[other])) &&
      (forall v :: v in paths ==> v in r && paths[v] <= r[v]) &&
      (IsObjectLike(value) ==> r[value] == (if value in paths then paths[value] else {}) + {path}) &&
      !IsCircular(map[], value, path)
  {
    if IsCircular(paths, value, path) {
      assert paths[value] + {path} == paths[value];
    }
  }

  /**
   * As written, the marker needs the same object at the same path. An object
   * that holds itself under `childKey` is met again one level down, where the
   * path is longer, so it is not reported circular.
   */
  lemma SelfReferenceNotCircular(componentName: string, section: string, parentPath: string, key: string, childKey: string, value: Value)
    requires IsObjectLike(value)
    ensures var p := GetPath(componentName, section, parentPath, key);
            var q := GetPath(componentName, section, p, childKey);
            !IsCircular(map[], value, p) && !IsCircular(Visited(map[], value, p), value, q)
  {
    var p := GetPath(componentName, section, parentPath, key);
    NestedPathLonger(componentName, section, p, childKey);
  }

  /** The paths a descent through `keys` below `parentPath` reaches, one per level. */
  function DescentPaths(componentName: string, section: string, parentPath: string, keys: seq<string>): (r: seq<string>)
    ensures |r| == |keys|
    decreases |keys|
  {
    if keys == [] then []
    else
      var p := GetPath(componentName, section, parentPath, keys[0]);
      [p] + DescentPaths(componentName, section, p, keys[1..])
  }

  /** Every path recorded for any object is shorter than `n`. */
  ghost predicate RecordedShorter(paths: map<Value, set<string>>, n: int) {
    forall v, p :: v in paths && p in paths[v] ==> |p| < n
  }

  /** Meeting `values[i]` at `ps[i]` in turn, no step shows the circular marker. */
  ghost predicate NoMarkerAlong(paths: map<Value, set<string>>, values: seq<Value>, ps: seq<string>)
    requires |values| == |ps|
    decreases |ps|
  {
    ps == [] ||
    (!IsCircular(paths, values[0], ps[0]) && NoMarkerAlong(Visited(paths, values[0], ps[0]), values[1..], ps[1..]))
  }

  /**
   * As written, the marker cannot fire along a descent: each level's path is
   * longer than every path recorded so far, whatever objects are met on the
   * way, even the same one at every level. Each descent and each expansion
   * starts from a fresh map, for which the requirement holds.
   */
  lemma {:induction false} DescentNeverCircular(componentName: string, section: string, parentPath: string,
                                                keys: seq<string>, values: seq<Value>, paths: map<Value, set<string>>)
    requires |values| == |keys|
    requires RecordedShorter(paths, |parentPath| + 1)
    ensures NoMarkerAlong(paths, values, DescentPaths(componentName, section, parentPath, keys))
    decreases |keys|
  {
    if keys != [] {
      var q := GetPath(componentName, section, parentPath, keys[0]);
      assert |q| > |parentPath|;
      var next := Visited(paths, values[0], q);
      assert RecordedShorter(next, |q| + 1);
      DescentNeverCircular(componentName, section, q, keys[1..], values[1..], next);
      assert DescentPaths(componentName, section, parentPath, keys)[1..] == DescentPaths(componentName, section, q, keys[1..]);
    }
  }

  /** The intended test: the object is one the descent is already inside. */
  predicate IsCircularIntended(ancestors: seq<Value>, value: Value) {
    IsObjectLike(value) && value in ancestors
  }

  /**
   * With the intended test an object met again below itself is reported, so
   * along a descent that shows no marker no object appears twice.
   */
  lemma CircularIntendedCatchesCycles(chain: seq<Value>, i: int, j: int)
    requires 0 <= i < j < |chain| && IsObjectLike(chain[j])
    ensures chain[i] == chain[j] ==> IsCircularIntended(chain[..j], chain[j])
    ensures (forall k | 0 <= k < |chain| :: !IsCircularIntended(chain[..k], chain[k])) ==> chain[i] != chain[j]
  {
    assert chain[..j][i] == chain[i];
  }

  /** One `objectPathMap` per rendered section. */
  class ObjectPathMap {
    var paths: map<Value, set<string>>

    constructor()
      ensures paths == map[]
    {
      paths := map[];
    }

    /** The object branch of `createPropertyElement`: `true` means the circular marker is shown instead. */
    method Visit(value: Value, currentPath: string) returns (circular: bool)
      modifies this
      ensures circular == IsCircular(old(paths), value, currentPath)
      ensures paths == Visited(old(paths), value, currentPath)
    {
      circular := false;
      if value.Obj? || value.Arr? {
        var seen: set<string>;
        if value in paths {
          seen := paths[value];
        } else {
          seen := {};
          paths := paths[value := seen];
        }
        if currentPath in seen {
          circular := true;
          return;
        }
        paths := paths[value := seen + {currentPath}];
      }
    }
  }
}

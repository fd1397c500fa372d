/**
 * The host runtime's double-buffered component tree, as the observer sees it
 * during one commit, and the host helpers whose bodies are not part of this
 * model (they are fields of `Host`, so every lemma holds for all of them).
 */
module Fibers {
  import opened Common
  import opened JsValues

  type FiberId = nat
  type TypeRef = nat

  /** A prop as read through `props[name]`: a plain value, or an accessor that raises. */
  datatype Prop = Data(value: Value) | ThrowingGetter

  /** `memoizedState` of a HostRoot fiber. */
  datatype RootState = RootState(element: Value, isDehydrated: Value)

  datatype Node = Node(
    child: Option<FiberId>,
    sibling: Option<FiberId>,
    alternate: Option<FiberId>,
    returnFiber: Option<FiberId>,
    tag: int,
    flags: bv32,
    fiberType: Option<TypeRef>,
    props: seq<(string, Prop)>,
    rootState: Option<RootState>)

  type Tree = map<FiberId, Node>

  const HostRootTag := 3
  const DeletionFlag: bv32 := 8

  /** The argument of `getDisplayName`: a component type, or a fiber object itself. */
  datatype Named = OfType(t: Option<TypeRef>) | OfFiber(f: FiberId)

  datatype Host = Host(
    shouldFilterFiber: FiberId -> bool,
    didFiberRender: FiberId -> bool,
    selfTime: FiberId -> real,
    timings: FiberId -> real,
    hasMemoCache: FiberId -> bool,
    fastSerialize: Value -> string,
    isElementObject: nat -> bool,
    // the (prev, next) context values `traverseContexts` hands to its callback, and whether its result is truthy
    contextPairs: FiberId -> seq<(Value, Value)>,
    contextsResult: FiberId -> bool,
    // the (prev, next) `memoizedState` pairs `traverseState` visits
    statePairs: FiberId -> seq<(Value, Value)>,
    getType: Option<TypeRef> -> Option<TypeRef>,
    displayName: Named -> Option<string>,
    // whether `traverseFiber` found an ancestor whose allow-list entry includes children
    ancestorIncludesChildren: FiberId -> bool)

  /** `React.isValidElement`: only objects can be elements. */
  predicate IsValidElement(host: Host, v: Value) {
    v.Obj? && host.isElementObject(v.oid)
  }

  /** A name is usable when `getDisplayName` returned a non-empty string. */
  predicate HasName(n: Option<string>) {
    n.Some? && n.value != ""
  }

  /** Every link of every fiber leads to a fiber of the tree. */
  ghost predicate Closed(t: Tree) {
    forall f :: f in t ==>
      (t[f].child.Some? ==> t[f].child.value in t) &&
      (t[f].sibling.Some? ==> t[f].sibling.value in t) &&
      (t[f].alternate.Some? ==> t[f].alternate.value in t) &&
      (t[f].returnFiber.Some? ==> t[f].returnFiber.value in t)
  }

  /** `rank` witnesses that following `child` and `sibling` links always terminates. */
  ghost predicate Ranked(t: Tree, rank: map<FiberId, nat>) {
    forall f :: f in t ==>
      f in rank &&
      (t[f].child.Some? && t[f].child.value in t ==> t[f].child.value in rank && rank[t[f].child.value] < rank[f]) &&
      (t[f].sibling.Some? && t[f].sibling.value in t ==> t[f].sibling.value in rank && rank[t[f].sibling.value] < rank[f])
  }

  ghost predicate WellFormed(t: Tree, rank: map<FiberId, nat>) {
    Closed(t) && Ranked(t, rank)
  }

  /** The double buffer pairs fibers two by two: a fiber's alternate has it as alternate. */
  ghost predicate Paired(t: Tree) {
    forall f :: f in t && t[f].alternate.Some? ==>
      t[f].alternate.value != f &&
      t[f].alternate.value in t &&
      t[t[f].alternate.value].alternate == Some(f)
  }

  /** No fiber and its alternate are both among `keys`. */
  ghost predicate NoTwins(t: Tree, keys: set<FiberId>) {
    forall f :: f in keys && f in t && t[f].alternate.Some? ==> t[f].alternate.value !in keys
  }

  /**
   * The key under which a fiber's aggregate is stored: the fiber itself when it
   * already has an entry or has no alternate, otherwise its alternate.
   */
  function ResolveKey<V>(data: map<FiberId, V>, t: Tree, f: FiberId): (k: FiberId)
    requires f in t
    ensures k == f || t[f].alternate == Some(k)
    ensures f in data ==> k == f
    ensures f !in data && t[f].alternate.Some? ==> k == t[f].alternate.value
  {
    if f in data then f
    else match t[f].alternate
      case None => f
      case Some(a) => a
  }

  /** Storing under the resolved key never creates a second entry for a fiber/alternate pair. */
  lemma ResolveKeyKeepsNoTwins<V>(data: map<FiberId, V>, t: Tree, f: FiberId)
    requires f in t && Paired(t) && NoTwins(t, data.Keys)
    ensures NoTwins(t, data.Keys + {ResolveKey(data, t, f)})
  {
    var k := ResolveKey(data, t, f);
    var keys := data.Keys + {k};
    forall g | g in keys && g in t && t[g].alternate.Some?
      ensures t[g].alternate.value !in keys
    {
    }
  }

  /**
   * Recording a fiber and then its alternate resolves both to one key, so the
   * pair accumulates into a single aggregate.
   */
  lemma {:induction false} AlternateSharesKey<V>(data: map<FiberId, V>, t: Tree, f: FiberId, v: V)
    requires f in t && Paired(t) && NoTwins(t, data.Keys) && t[f].alternate.Some?
    ensures var k := ResolveKey(data, t, f);
            ResolveKey(data[k := v], t, t[f].alternate.value) == k
  {
    var g := t[f].alternate.value;
    var k := ResolveKey(data, t, f);
    if f in data {
      assert g !in data;
      assert t[g].alternate == Some(f);
    } else {
      assert k == g;
    }
  }
}

// The tree build of `Factory.buildFromTemplate` (WebElements/Factory.py) as a
// pure recursive function over an arena of element records. The imperative
// method in factory.dfy is proved to compute exactly this.

module Templates {
  import opened Common
  import opened Registry

  /** A template node. `Absent` is a falsy definition (None or empty),
      `Text` a bare string, `Node` a structured definition. */
  datatype Template =
    | Absent
    | Text(value: string)
    | Node(create: Option<string>, id: Option<string>, name: Option<string>, accessor: Option<string>,
           properties: map<string, string>, childElements: seq<Template>)

  /** What an arena slot holds: an instance of a product, the `Invalid()`
      placeholder, or a `TextNode`. */
  datatype Kind = Product(product: ProductClass) | Placeholder | TextNode(text: string)

  /** One element instance, with the state the build writes: parent link,
      id prefix, script container, applied properties, children (arena
      indices, in order) and the variables inserted into it. */
  datatype Element = Element(kind: Kind, id: Option<string>, name: Option<string>, parent: Option<nat>,
                             prefix: string, scriptContainer: Option<nat>, properties: map<string, string>,
                             children: seq<nat>, variables: map<string, string>)

  /** The arena of all instances and the caller's accessor dictionary
      (`None` when the caller passed none). */
  datatype State = State(elements: seq<Element>, accessors: Option<map<string, nat>>)

  /** The prefix a fresh instance of a kind carries. The placeholder and text
      nodes carry none. */
  function InitialPrefix(k: Kind): string
  {
    if k.Product? then k.product.initialPrefix else ""
  }

  /** A freshly constructed instance of the given kind. */
  function NewElement(kind: Kind, id: Option<string>, name: Option<string>, parent: Option<nat>): Element
  {
    Element(kind, id, name, parent, InitialPrefix(kind), None, map[], [], map[])
  }

  /** The instance `Factory.build` hands back. `Invalid()` is built with no
      id, name or parent. */
  function Instantiate(b: Built): Element
  {
    match b
    case Constructed(p, id, name, parent) => NewElement(Product(p), id, name, parent)
    case Invalid => NewElement(Placeholder, None, None, None)
  }

  /** Whether the element's class has `allowsChildren` set. The placeholder
      and text nodes are taken not to accept children. */
  predicate AcceptsChildren(k: Kind)
  {
    k.Product? && k.product.allowsChildren
  }

  /** The key a structured node is recorded under: its accessor if set, else
      its id if set, else none. */
  function AccessorKey(t: Template): Option<string>
    requires t.Node?
  {
    if Truthy(t.accessor) then t.accessor else if Truthy(t.id) then t.id else None
  }

  /** The accessor dictionary after recording element `e` under `key`. */
  function Record(acc: Option<map<string, nat>>, key: Option<string>, e: nat): Option<map<string, nat>>
  {
    if acc.Some? && key.Some? then Some(acc.value[key.value := e]) else acc
  }

  /** `addChildElement`: append `c` to `p`'s children and make `p` its parent. */
  function AddChild(s: State, p: nat, c: nat): State
    requires p < |s.elements| && c < |s.elements|
  {
    var withChild := s.elements[p := s.elements[p].(children := s.elements[p].children + [c])];
    State(withChild[c := withChild[c].(parent := Some(p))], s.accessors)
  }

  /** The root instance a template yields before any child is added: its kind. */
  function RootKind(products: Products, t: Template): Kind
  {
    match t
    case Absent => Placeholder
    case Text(v) => if v == "" then Placeholder else TextNode(v)
    case Node(create, id, name, _, _, _) =>
      if LookupKey(create) in products then Product(products[LookupKey(create)]) else Placeholder
  }

  /** ... and its id: the template's id, unless the build fell back to a placeholder. */
  function RootId(products: Products, t: Template): Option<string>
  {
    if t.Node? && RootKind(products, t).Product? then t.id else None
  }

  /** `buildFromTemplate(template, variableDict, idPrefix, parent, scriptContainer,
      accessors)`: the new state and the arena index of the built root. */
  function BuildTree(products: Products, s: State, t: Template, variables: map<string, string>,
                     idPrefix: Option<string>, parent: Option<nat>, scriptContainer: Option<nat>): (r: (State, nat))
    decreases t, 1, 0
    ensures r.1 == |s.elements| < |r.0.elements|
    ensures r.0.elements[..|s.elements|] == s.elements
    ensures r.0.accessors.Some? == s.accessors.Some?
  {
    var root := |s.elements|;
    match t
    case Absent => (State(s.elements + [NewElement(Placeholder, None, None, None)], s.accessors), root)
    case Text(v) =>
      var kind := if v == "" then Placeholder else TextNode(v);
      (State(s.elements + [NewElement(kind, None, None, None)], s.accessors), root)
    case Node(_, _, _, _, _, _) =>
      (WithVariables(Populated(products, s, t, idPrefix, parent, scriptContainer), root, variables), root)
  }

  /** The root a structured template yields before its children: the built
      instance, given `idPrefix` when that is truthy and the instance has no
      prefix, then the script container and the template's properties. */
  function RootElement(products: Products, t: Template, idPrefix: Option<string>, parent: Option<nat>,
                       scriptContainer: Option<nat>): Element
    requires t.Node?
  {
    var built := Instantiate(Build(products, t.create, t.id, t.name, parent));
    var prefixed := if Truthy(idPrefix) && built.prefix == "" then built.(prefix := idPrefix.value) else built;
    prefixed.(scriptContainer := scriptContainer, properties := t.properties)
  }

  /** The state once the root is appended and recorded in the accessors. */
  function Opened(products: Products, s: State, t: Template, idPrefix: Option<string>, parent: Option<nat>,
                  scriptContainer: Option<nat>): State
    requires t.Node?
  {
    State(s.elements + [RootElement(products, t, idPrefix, parent, scriptContainer)],
          Record(s.accessors, AccessorKey(t), |s.elements|))
  }

  /** The state once the root's children are built, if it accepts any. */
  function Populated(products: Products, s: State, t: Template, idPrefix: Option<string>, parent: Option<nat>,
                     scriptContainer: Option<nat>): (r: State)
    requires t.Node?
    decreases t, 0, |t.childElements| + 1
    ensures |s.elements| < |r.elements| && r.elements[..|s.elements|] == s.elements
    ensures r.accessors.Some? == s.accessors.Some?
  {
    var s1 := Opened(products, s, t, idPrefix, parent, scriptContainer);
    var r := if AcceptsChildren(RootElement(products, t, idPrefix, parent, scriptContainer).kind)
             then BuildChildren(products, s1, t, |s.elements|, |t.childElements|) else s1;
    assert r.elements[..|s.elements|] == s.elements by {
      assert s1.elements[..|s.elements|] == s.elements;
    }
    r
  }

  /** `insertVariables`, applied only when the dictionary is not empty. */
  function WithVariables(s: State, root: nat, variables: map<string, string>): State
    requires root < |s.elements|
  {
    if variables != map[] then s.(elements := s.elements[root := s.elements[root].(variables := variables)]) else s
  }

  /** A structured template's build in its three steps. */
  lemma BuildNodeSteps(products: Products, s: State, t: Template, variables: map<string, string>,
                       idPrefix: Option<string>, parent: Option<nat>, scriptContainer: Option<nat>)
    requires t.Node?
    ensures BuildTree(products, s, t, variables, idPrefix, parent, scriptContainer)
         == (WithVariables(Populated(products, s, t, idPrefix, parent, scriptContainer), |s.elements|, variables), |s.elements|)
  {
  }

  /** A structured template's build as its accessors and arena size see it:
      those of the opened root, after its children when it accepts them. */
  lemma NodeBuilt(products: Products, s: State, t: Template, variables: map<string, string>,
                  idPrefix: Option<string>, parent: Option<nat>, scriptContainer: Option<nat>)
    requires t.Node?
    ensures var (r, e) := BuildTree(products, s, t, variables, idPrefix, parent, scriptContainer);
      var s1 := Opened(products, s, t, idPrefix, parent, scriptContainer);
      var p := if AcceptsChildren(RootKind(products, t)) then BuildChildren(products, s1, t, |s.elements|, |t.childElements|) else s1;
      && e == |s.elements| && r.accessors == p.accessors && |r.elements| == |p.elements|
      && r.elements[e].children == p.elements[e].children
      && forall i :: 0 <= i < |r.elements| && i != e ==> r.elements[i] == p.elements[i]
  {
    assert RootElement(products, t, idPrefix, parent, scriptContainer).kind == RootKind(products, t);
    var p := Populated(products, s, t, idPrefix, parent, scriptContainer);
    var r := WithVariables(p, |s.elements|, variables);
    assert r.accessors == p.accessors && |r.elements| == |p.elements|;
    assert forall i :: 0 <= i < |r.elements| && i != |s.elements| ==> r.elements[i] == p.elements[i];
  }

  /** The first `n` children of node `t`, built in declared order, each with
      only `parent` and `accessors` passed on, and added to element `root`. */
  function BuildChildren(products: Products, s: State, t: Template, root: nat, n: nat): (r: State)
    requires t.Node? && n <= |t.childElements| && root < |s.elements|
    decreases t, 0, n
    ensures |s.elements| <= |r.elements|
    ensures forall i :: 0 <= i < |s.elements| && i != root ==> r.elements[i] == s.elements[i]
    ensures r.elements[root] == s.elements[root].(children := r.elements[root].children)
    ensures r.accessors.Some? == s.accessors.Some?
  {
    if n == 0 then s
    else
      var s1 := BuildChildren(products, s, t, root, n - 1);
      var (s2, c) := BuildTree(products, s1, t.childElements[n - 1], map[], None, Some(root), None);
      assert forall i :: 0 <= i < |s1.elements| ==> s2.elements[i] == s1.elements[i] by {
        assert s2.elements[..|s1.elements|] == s1.elements;
      }
      AddChild(s2, root, c)
  }

  // ---------------------------------------------------------------------------
  // What a build promises

  /** A falsy template gives the placeholder and a bare string a text node:
      one new element, no recursion, nothing recorded in the accessors. */
  lemma BuildLeaf(products: Products, s: State, t: Template, variables: map<string, string>,
                  idPrefix: Option<string>, parent: Option<nat>, scriptContainer: Option<nat>)
    requires !t.Node?
    ensures var (r, e) := BuildTree(products, s, t, variables, idPrefix, parent, scriptContainer);
      && r.accessors == s.accessors
      && r.elements == s.elements + [r.elements[e]]
      && r.elements[e] == NewElement(if t.Text? && t.value != "" then TextNode(t.value) else Placeholder, None, None, None)
  {
  }

  /** The root of a structured template: an instance of the class named by
      `create` built from the template's id and name under `parent` (or the
      placeholder), carrying `idPrefix` only when that is truthy and the
      instance had no prefix, the script container and properties passed in,
      and `variables` inserted (none when the dictionary is empty). */
  lemma BuildRoot(products: Products, s: State, t: Template, variables: map<string, string>,
                  idPrefix: Option<string>, parent: Option<nat>, scriptContainer: Option<nat>)
    requires t.Node?
    ensures var (r, e) := BuildTree(products, s, t, variables, idPrefix, parent, scriptContainer);
      var root := r.elements[e];
      && root.kind == RootKind(products, t)
      && root.id == RootId(products, t)
      && root.name == (if root.kind.Product? then t.name else None)
      && root.parent == (if root.kind.Product? then parent else None)
      && root.prefix == (if Truthy(idPrefix) && InitialPrefix(root.kind) == "" then idPrefix.value else InitialPrefix(root.kind))
      && root.scriptContainer == scriptContainer
      && root.properties == t.properties
      && root.variables == variables
  {
    var root := |s.elements|;
    var configured := RootElement(products, t, idPrefix, parent, scriptContainer);
    var s1 := Opened(products, s, t, idPrefix, parent, scriptContainer);
    var s2 := Populated(products, s, t, idPrefix, parent, scriptContainer);
    assert s1.elements[root] == configured;
    assert s2.elements[root] == configured.(children := s2.elements[root].children);
  }

  /** A built child: parented to `root`, and of the kind and id its template names. */
  predicate ChildOf(el: Element, products: Products, t: Template, root: nat)
  {
    el.parent == Some(root) && el.kind == RootKind(products, t) && el.id == RootId(products, t)
  }

  /** The root of any build is of the kind and id its template names. */
  lemma RootShape(products: Products, s: State, t: Template, variables: map<string, string>,
                  idPrefix: Option<string>, parent: Option<nat>, scriptContainer: Option<nat>)
    ensures var r := BuildTree(products, s, t, variables, idPrefix, parent, scriptContainer);
      r.0.elements[r.1].kind == RootKind(products, t) && r.0.elements[r.1].id == RootId(products, t)
  {
    if t.Node? {
      BuildRoot(products, s, t, variables, idPrefix, parent, scriptContainer);
    } else {
      BuildLeaf(products, s, t, variables, idPrefix, parent, scriptContainer);
    }
  }

  /** What adding child `c` to `p` changes: `p`'s children and `c`'s parent. */
  lemma AddChildEffect(s: State, p: nat, c: nat)
    requires p < |s.elements| && c < |s.elements| && p != c
    ensures var r := AddChild(s, p, c);
      && |r.elements| == |s.elements| && r.accessors == s.accessors
      && r.elements[p] == s.elements[p].(children := s.elements[p].children + [c])
      && r.elements[c] == s.elements[c].(parent := Some(p))
      && forall i :: 0 <= i < |s.elements| && i != p && i != c ==> r.elements[i] == s.elements[i]
  {
  }

  /** The facts `ChildrenBuilt` states, for the children appended to `root`
      beyond its first `|before|`, against the first `n` child templates. */
  predicate ChildrenFrom(products: Products, t: Template, root: nat, lo: nat, r: State, before: seq<nat>, n: nat)
    requires t.Node? && n <= |t.childElements| && root < |r.elements|
  {
    var kids := r.elements[root].children;
    && |kids| == |before| + n && kids[..|before|] == before
    && var added := kids[|before|..];
    && (forall i :: 0 <= i < n ==> lo <= added[i] < |r.elements|)
    && (forall i :: 0 <= i < n ==> ChildOf(r.elements[added[i]], products, t.childElements[i], root))
    && (forall i, j :: 0 <= i < j < n ==> added[i] < added[j])
  }

  /** Appending one more built child keeps `ChildrenFrom`. */
  lemma ChildAppended(products: Products, t: Template, root: nat, lo: nat, s1: State, s2: State, c: nat,
                     before: seq<nat>, n: nat)
    requires t.Node? && 0 < n <= |t.childElements| && root < lo <= |s1.elements|
    requires ChildrenFrom(products, t, root, lo, s1, before, n - 1)
    requires c == |s1.elements| < |s2.elements|
    requires forall i :: 0 <= i < |s1.elements| ==> s2.elements[i] == s1.elements[i]
    requires s2.elements[c].kind == RootKind(products, t.childElements[n - 1])
    requires s2.elements[c].id == RootId(products, t.childElements[n - 1])
    ensures ChildrenFrom(products, t, root, lo, AddChild(s2, root, c), before, n)
  {
    var r := AddChild(s2, root, c);
    AddChildEffect(s2, root, c);
    var added1 := s1.elements[root].children[|before|..];
    assert r.elements[root].children == s1.elements[root].children + [c];
    var added := r.elements[root].children[|before|..];
    assert added == added1 + [c];
    forall i | 0 <= i < n
      ensures lo <= added[i] < |r.elements|
      ensures ChildOf(r.elements[added[i]], products, t.childElements[i], root)
    {
      if i < n - 1 {
        assert added[i] == added1[i];
        assert r.elements[added1[i]] == s1.elements[added1[i]];
      }
    }
  }

  /** Building the first `n` children appends, to the root's children, `n`
      new elements in template order, each the child its template describes. */
  lemma {:induction false} ChildrenBuilt(products: Products, s: State, t: Template, root: nat, n: nat)
    requires t.Node? && n <= |t.childElements| && root < |s.elements|
    ensures var r := BuildChildren(products, s, t, root, n);
      ChildrenFrom(products, t, root, |s.elements|, r, s.elements[root].children, n)
  {
    if n > 0 {
      ChildrenBuilt(products, s, t, root, n - 1);
      ChildrenStep(products, s, t, root, n);
    }
  }

  /** One more child keeps `ChildrenFrom`: the step of `ChildrenBuilt`. */
  lemma ChildrenStep(products: Products, s: State, t: Template, root: nat, n: nat)
    requires t.Node? && 0 < n <= |t.childElements| && root < |s.elements|
    requires ChildrenFrom(products, t, root, |s.elements|, BuildChildren(products, s, t, root, n - 1), s.elements[root].children, n - 1)
    ensures ChildrenFrom(products, t, root, |s.elements|, BuildChildren(products, s, t, root, n), s.elements[root].children, n)
  {
    var s1 := BuildChildren(products, s, t, root, n - 1);
    var child := t.childElements[n - 1];
    var (s2, c) := BuildTree(products, s1, child, map[], None, Some(root), None);
    assert forall i :: 0 <= i < |s1.elements| ==> s2.elements[i] == s1.elements[i] by {
      assert s2.elements[..|s1.elements|] == s1.elements;
    }
    RootShape(products, s1, child, map[], None, Some(root), None);
    ChildAppended(products, t, root, |s.elements|, s1, s2, c, s.elements[root].children, n);
  }

  /** `buildFromTemplate` adds the children of a node that accepts them in
      the order the template declares them; each is parented to the node and
      is the element its own template describes. A node that does not accept
      children gets none and nothing is built below it. */
  lemma BuildChildrenInOrder(products: Products, s: State, t: Template, variables: map<string, string>,
                             idPrefix: Option<string>, parent: Option<nat>, scriptContainer: Option<nat>)
    requires t.Node?
    ensures var (r, e) := BuildTree(products, s, t, variables, idPrefix, parent, scriptContainer);
      var kids := r.elements[e].children;
      && (!AcceptsChildren(RootKind(products, t)) ==> kids == [] && |r.elements| == |s.elements| + 1)
      && (AcceptsChildren(RootKind(products, t)) ==>
            && |kids| == |t.childElements|
            && (forall i :: 0 <= i < |kids| ==> e < kids[i] < |r.elements|)
            && (forall i :: 0 <= i < |kids| ==> ChildOf(r.elements[kids[i]], products, t.childElements[i], e))
            && (forall i, j :: 0 <= i < j < |kids| ==> kids[i] < kids[j]))
  {
    var root := |s.elements|;
    NodeBuilt(products, s, t, variables, idPrefix, parent, scriptContainer);
    var s1 := Opened(products, s, t, idPrefix, parent, scriptContainer);
    assert s1.elements[root].children == [];
    if AcceptsChildren(RootKind(products, t)) {
      ChildrenBuilt(products, s1, t, root, |t.childElements|);
      var s2 := BuildChildren(products, s1, t, root, |t.childElements|);
      assert s2.elements[root].children[0..] == s2.elements[root].children;
    }
  }

  // ---------------------------------------------------------------------------
  // Accessors

  /** The keys a build of `t` records in the accessor dictionary. */
  function AccessorKeys(products: Products, t: Template): set<string>
    decreases t, 1, 0
  {
    if !t.Node? then {}
    else
      (if AccessorKey(t).Some? then {AccessorKey(t).value} else {})
      + (if AcceptsChildren(RootKind(products, t)) then ChildAccessorKeys(products, t, |t.childElements|) else {})
  }

  /** The keys the builds of the first `n` children of `t` record. */
  function ChildAccessorKeys(products: Products, t: Template, n: nat): set<string>
    requires t.Node? && n <= |t.childElements|
    decreases t, 0, n
  {
    if n == 0 then {} else ChildAccessorKeys(products, t, n - 1) + AccessorKeys(products, t.childElements[n - 1])
  }

  /** `after` is `before` with exactly the keys `keys` written, each to an
      element in `[lo, hi)`. */
  predicate Covers(before: map<string, nat>, after: map<string, nat>, keys: set<string>, lo: nat, hi: nat)
  {
    && after.Keys == before.Keys + keys
    && (forall k :: k in before && k !in keys ==> after[k] == before[k])
    && (forall k :: k in keys ==> lo <= after[k] < hi)
  }

  lemma CoversThen(m0: map<string, nat>, m1: map<string, nat>, m2: map<string, nat>,
                   k1: set<string>, k2: set<string>, lo: nat, mid: nat, hi: nat)
    requires lo <= mid <= hi
    requires Covers(m0, m1, k1, lo, mid) && Covers(m1, m2, k2, mid, hi)
    ensures Covers(m0, m2, k1 + k2, lo, hi)
  {
  }

  /** With an accessor dictionary passed in, a build records every node of
      the tree that has a key, each under its key and pointing into the new
      subtree, and leaves every other entry as it was. */
  lemma {:induction false} AccessorsRecorded(products: Products, s: State, t: Template, variables: map<string, string>,
                                             idPrefix: Option<string>, parent: Option<nat>, scriptContainer: Option<nat>)
    requires s.accessors.Some?
    decreases t, 1, 0
    ensures var (r, e) := BuildTree(products, s, t, variables, idPrefix, parent, scriptContainer);
      r.accessors.Some? && Covers(s.accessors.value, r.accessors.value, AccessorKeys(products, t), |s.elements|, |r.elements|)
  {
    if t.Node? {
      NodeBuilt(products, s, t, variables, idPrefix, parent, scriptContainer);
      var s1 := Opened(products, s, t, idPrefix, parent, scriptContainer);
      var own := if AccessorKey(t).Some? then {AccessorKey(t).value} else {};
      OpenedRecords(products, s, t, idPrefix, parent, scriptContainer);
      if AcceptsChildren(RootKind(products, t)) {
        AccessorsRecordedChildren(products, s1, t, |s.elements|, |t.childElements|);
        var s2 := BuildChildren(products, s1, t, |s.elements|, |t.childElements|);
        CoversThen(s.accessors.value, s1.accessors.value, s2.accessors.value, own,
                   ChildAccessorKeys(products, t, |t.childElements|), |s.elements|, |s1.elements|, |s2.elements|);
      } else {
        assert AccessorKeys(products, t) == own;
      }
    }
  }

  /** Opening a node records it under its own key, if it has one. */
  lemma OpenedRecords(products: Products, s: State, t: Template, idPrefix: Option<string>, parent: Option<nat>,
                      scriptContainer: Option<nat>)
    requires t.Node? && s.accessors.Some?
    ensures var s1 := Opened(products, s, t, idPrefix, parent, scriptContainer);
      && s1.accessors.Some? && |s1.elements| == |s.elements| + 1
      && Covers(s.accessors.value, s1.accessors.value, if AccessorKey(t).Some? then {AccessorKey(t).value} else {},
                |s.elements|, |s1.elements|)
  {
  }

  lemma {:induction false} AccessorsRecordedChildren(products: Products, s: State, t: Template, root: nat, n: nat)
    requires t.Node? && n <= |t.childElements| && root < |s.elements| && s.accessors.Some?
    decreases t, 0, n
    ensures var r := BuildChildren(products, s, t, root, n);
      r.accessors.Some? && Covers(s.accessors.value, r.accessors.value, ChildAccessorKeys(products, t, n), |s.elements|, |r.elements|)
  {
    if n > 0 {
      AccessorsRecordedChildren(products, s, t, root, n - 1);
      var s1 := BuildChildren(products, s, t, root, n - 1);
      var child := t.childElements[n - 1];
      AccessorsRecorded(products, s1, child, map[], None, Some(root), None);
      var (s2, c) := BuildTree(products, s1, child, map[], None, Some(root), None);
      CoversThen(s.accessors.value, s1.accessors.value, s2.accessors.value, ChildAccessorKeys(products, t, n - 1),
                 AccessorKeys(products, child), |s.elements|, |s1.elements|, |s2.elements|);
    }
  }

  /** The keys the descendants of a node record (none when it takes no children). */
  function DescendantKeys(products: Products, t: Template): set<string>
    requires t.Node?
  {
    if AcceptsChildren(RootKind(products, t)) then ChildAccessorKeys(products, t, |t.childElements|) else {}
  }

  /** A node is recorded under its accessor if that is set, else under its id
      if that is set, else not at all. The parent is written before its
      children, so a descendant recorded under the same key wins. */
  lemma RootAccessor(products: Products, s: State, t: Template, variables: map<string, string>,
                     idPrefix: Option<string>, parent: Option<nat>, scriptContainer: Option<nat>)
    requires t.Node? && s.accessors.Some?
    requires forall k :: k in s.accessors.value ==> s.accessors.value[k] < |s.elements|
    ensures var (r, e) := BuildTree(products, s, t, variables, idPrefix, parent, scriptContainer);
      var m := r.accessors.value;
      var key := if Truthy(t.accessor) then t.accessor.value else if t.id.Some? then t.id.value else "";
      && (Truthy(t.accessor) || Truthy(t.id) ==>
            key in m && (key !in DescendantKeys(products, t) ==> m[key] == e)
                     && (key in DescendantKeys(products, t) ==> m[key] > e))
      && (!Truthy(t.accessor) && !Truthy(t.id) ==> forall k :: k in m ==> m[k] != e)
  {
    var root := |s.elements|;
    NodeBuilt(products, s, t, variables, idPrefix, parent, scriptContainer);
    OpenedRecords(products, s, t, idPrefix, parent, scriptContainer);
    var s1 := Opened(products, s, t, idPrefix, parent, scriptContainer);
    if AcceptsChildren(RootKind(products, t)) {
      AccessorsRecordedChildren(products, s1, t, root, |t.childElements|);
    }
  }

  // ---------------------------------------------------------------------------
  // What is forwarded to children

  /** An element the build left as constructed: no prefix applied, no script
      container, no variables inserted. */
  predicate AsConstructed(el: Element)
  {
    el.prefix == InitialPrefix(el.kind) && el.scriptContainer.None? && el.variables == map[]
  }

  /** Every element from index `lo` on is as constructed. */
  predicate AsConstructedFrom(els: seq<Element>, lo: nat)
  {
    forall i :: lo <= i < |els| ==> AsConstructed(els[i])
  }

  /** Children are built with only `parent` and `accessors`: the id prefix,
      the script container and the variables reach the root alone, and every
      other element of the new subtree stays as constructed. */
  lemma {:induction false} OnlyRootConfigured(products: Products, s: State, t: Template, variables: map<string, string>,
                                              idPrefix: Option<string>, parent: Option<nat>, scriptContainer: Option<nat>)
    decreases t, 1, 0
    ensures var r := BuildTree(products, s, t, variables, idPrefix, parent, scriptContainer);
      AsConstructedFrom(r.0.elements, r.1 + 1)
  {
    if t.Node? {
      var root := |s.elements|;
      var configured := RootElement(products, t, idPrefix, parent, scriptContainer);
      var s1 := Opened(products, s, t, idPrefix, parent, scriptContainer);
      if AcceptsChildren(configured.kind) {
        ChildrenAsConstructed(products, s1, t, root, |t.childElements|);
      }
    }
  }

  lemma {:induction false} ChildrenAsConstructed(products: Products, s: State, t: Template, root: nat, n: nat)
    requires t.Node? && n <= |t.childElements| && root < |s.elements|
    decreases t, 0, n
    ensures AsConstructedFrom(BuildChildren(products, s, t, root, n).elements, |s.elements|)
  {
    if n > 0 {
      ChildrenAsConstructed(products, s, t, root, n - 1);
      var s1 := BuildChildren(products, s, t, root, n - 1);
      var child := t.childElements[n - 1];
      OnlyRootConfigured(products, s1, child, map[], None, Some(root), None);
      var (s2, c) := BuildTree(products, s1, child, map[], None, Some(root), None);
      assert AsConstructed(s2.elements[c]) by {
        if child.Node? {
          BuildRoot(products, s1, child, map[], None, Some(root), None);
        } else {
          BuildLeaf(products, s1, child, map[], None, Some(root), None);
        }
      }
      assert forall i :: 0 <= i < |s1.elements| ==> s2.elements[i] == s1.elements[i] by {
        assert s2.elements[..|s1.elements|] == s1.elements;
      }
      AddChildEffect(s2, root, c);
      var r := AddChild(s2, root, c);
      forall i | |s.elements| <= i < |r.elements| ensures AsConstructed(r.elements[i]) {
        if i < |s1.elements| {
          assert r.elements[i] == s1.elements[i];
        } else if i > c {
          assert r.elements[i] == s2.elements[i];
        }
      }
    }
  }
}

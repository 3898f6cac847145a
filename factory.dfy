// The `Factory` and `Composite` classes of WebElements/Factory.py. A factory
// is an object whose `products` dictionary is updated in place; the tree
// build runs over an arena of element records and the caller's accessor
// dictionary, both updated in place, and is proved to compute
// `Templates.BuildTree`.

module Factory {
  import opened Common
  import opened Registry
  import opened Templates

  /** Every element instance built so far, addressed by index. */
  class Arena {
    var elements: seq<Element>

    constructor ()
      ensures elements == []
    {
      elements := [];
    }

    /** Allocate a new instance; its index is the arena's old size. */
    method Append(element: Element) returns (index: nat)
      modifies this
      ensures index == |old(elements)| && elements == old(elements) + [element]
    {
      index := |elements|;
      elements := elements + [element];
    }

    /** `addChildElement` on instance `p`: append `c` to its children and
        make `p` the parent of `c`. */
    method AddChildElement(p: nat, c: nat)
      requires p < |elements| && c < |elements|
      modifies this
      ensures State(elements, None) == AddChild(State(old(elements), None), p, c)
    {
      var parent := elements[p];
      elements := elements[p := parent.(children := parent.children + [c])];
      elements := elements[c := elements[c].(parent := Some(p))];
    }

    /** `insertVariables` on instance `e`. */
    method InsertVariables(e: nat, variables: map<string, string>)
      requires e < |elements|
      modifies this
      ensures elements == old(elements)[e := old(elements)[e].(variables := variables)]
    {
      elements := elements[e := elements[e].(variables := variables)];
    }
  }

  /** A caller's accessor dictionary: key to element index. */
  class Accessors {
    var entries: map<string, nat>

    constructor ()
      ensures entries == map[]
    {
      entries := map[];
    }
  }

  /** The accessor dictionary as a value, `None` when the caller passed none. */
  function View(a: Accessors?): Option<map<string, nat>>
    reads a
  {
    if a == null then None else Some(a.entries)
  }

  /** Record a structured node's element under its accessor, else under its
      id, when the caller passed a dictionary. */
  method RecordAccessor(accessors: Accessors?, template: Template, e: nat)
    requires template.Node?
    modifies accessors
    ensures View(accessors) == Record(old(View(accessors)), AccessorKey(template), e)
  {
    if accessors != null {
      if Truthy(template.accessor) {
        accessors.entries := accessors.entries[template.accessor.value := e];
      } else if Truthy(template.id) {
        accessors.entries := accessors.entries[template.id.value := e];
      }
    }
  }

  /** The state of a sequence of factories, as values. */
  function Snapshots(fs: seq<Factory>): (r: seq<Snapshot>)
    reads set f | f in fs
    ensures |r| == |fs|
    ensures forall i :: 0 <= i < |fs| ==> r[i] == Snapshot(fs[i].name, fs[i].products)
  {
    if fs == [] then [] else Snapshots(fs[..|fs| - 1]) + [Snapshot(fs[|fs| - 1].name, fs[|fs| - 1].products)]
  }

  /** Taking one key out of the keys still to visit. */
  lemma VisitKey(m: Products, rest: set<string>, k: string)
    requires k in rest && k in m
    ensures m - (rest - {k}) == (m - rest)[k := m[k]]
  {
  }

  /** Writing one more entry into the qualified part of a composite. */
  lemma MergeUpdate(before: Products, qualified: Products, key: string, p: ProductClass)
    ensures (before + qualified)[key := p] == before + qualified[key := p]
  {
  }

  /** The composite after one more factory. */
  lemma ComposeSnoc(all: seq<Snapshot>, i: nat)
    requires i < |all|
    ensures Compose(all[..i + 1]) == Compose(all[..i]) + Writes(all[i])
  {
    assert all[..i + 1][..i] == all[..i];
  }

  /** Merging is associative. */
  lemma MergeAssoc(a: Products, b: Products, c: Products)
    ensures (a + b) + c == a + (b + c)
  {
  }

  class Factory {
    var name: string
    var products: Products

    /** `Factory(name)`: an empty registry. */
    constructor (name: string)
      ensures this.name == name && products == map[]
    {
      this.name := name;
      products := map[];
    }

    /** `addProduct`: register a class under its lower-cased class name,
        replacing any class registered under that name. */
    method AddProduct(p: ProductClass)
      modifies this`products
      ensures products == old(products)[ProductKey(p) := p]
    {
      products := products[ProductKey(p) := p];
    }

    /** `Composite(factories)`: a nameless factory holding, in order, each
        factory's products under their own names and, for a named factory,
        under `name.lower() + "-"` followed by their names. */
    constructor Composite(factories: seq<Factory>)
      ensures name == ""
      ensures products == Compose(Snapshots(factories))
    {
      name := "";
      products := map[];
      new;
      MergeAll(factories);
    }

    /** The loop of `Composite` over its factories. */
    method MergeAll(factories: seq<Factory>)
      requires products == map[] && this !in factories
      modifies this`products
      ensures products == Compose(Snapshots(factories))
    {
      ghost var all := Snapshots(factories);
      var i := 0;
      while i < |factories|
        invariant 0 <= i <= |factories|
        invariant all == Snapshots(factories)
        invariant products == Compose(all[..i])
      {
        var f := factories[i];
        Merge(f.name, f.products);
        ComposeSnoc(all, i);
        i := i + 1;
      }
      assert all[..|factories|] == all;
    }

    /** One step of `Composite`: write a factory's products under their own
        names and, when the factory is named, again under qualified names. */
    method Merge(fname: string, fproducts: Products)
      modifies this`products
      ensures products == old(products) + Writes(Snapshot(fname, fproducts))
    {
      products := products + fproducts;
      if fname != "" {
        AddQualified(fname, fproducts);
        MergeAssoc(old(products), fproducts, Qualified(Snapshot(fname, fproducts)));
      }
    }

    /** The inner loop of `Composite`: write each product of a factory named
        `fname` again under its qualified name. */
    method AddQualified(fname: string, fproducts: Products)
      modifies this`products
      ensures products == old(products) + Qualified(Snapshot(fname, fproducts))
    {
      var rest := fproducts.Keys;
      ghost var qualified: Products := map[];
      assert fproducts - rest == map[];
      while rest != {}
        invariant rest <= fproducts.Keys
        invariant qualified == Qualified(Snapshot(fname, fproducts - rest))
        invariant products == old(products) + qualified
        decreases rest
      {
        var k :| k in rest;
        var key := Lower(fname) + "-" + k;
        QualifiedUpdate(Snapshot(fname, fproducts - rest), k, fproducts[k]);
        VisitKey(fproducts, rest, k);
        MergeUpdate(old(products), qualified, key, fproducts[k]);
        products := products[key := fproducts[k]];
        qualified := qualified[key := fproducts[k]];
        rest := rest - {k};
      }
      assert fproducts - rest == fproducts;
    }

    /** `buildFromTemplate`: build the element tree a template describes into
        `arena`, recording keyed nodes in `accessors` when one is passed, and
        return the root's index. */
    method BuildFromTemplate(arena: Arena, template: Template, variableDict: map<string, string>,
                             idPrefix: Option<string>, parent: Option<nat>, scriptContainer: Option<nat>,
                             accessors: Accessors?) returns (e: nat)
      modifies arena, accessors
      decreases template, 2
      ensures (State(arena.elements, View(accessors)), e)
           == BuildTree(products, old(State(arena.elements, View(accessors))), template, variableDict,
                        idPrefix, parent, scriptContainer)
    {
      ghost var s0 := State(arena.elements, View(accessors));
      if !template.Node? {
        e := AppendLeaf(arena, template);
        return;
      }
      var element;
      e, element := OpenNode(arena, template, idPrefix, parent, scriptContainer, accessors);
      if AcceptsChildren(element.kind) {
        AddChildren(arena, template, e, accessors);
      }
      ghost var s2 := State(arena.elements, View(accessors));
      assert s2 == Populated(products, s0, template, idPrefix, parent, scriptContainer);
      if variableDict != map[] {
        arena.InsertVariables(e, variableDict);
      }
      assert State(arena.elements, View(accessors)) == WithVariables(s2, e, variableDict);
      BuildNodeSteps(products, s0, template, variableDict, idPrefix, parent, scriptContainer);
    }

    /** `buildFromTemplate` on a missing template or a text node: a single
        placeholder or text element. */
    method AppendLeaf(arena: Arena, template: Template) returns (e: nat)
      requires !template.Node?
      modifies arena
      ensures forall variableDict, idPrefix, parent, scriptContainer, accessors: Option<map<string, nat>> ::
        (State(arena.elements, accessors), e)
        == BuildTree(products, State(old(arena.elements), accessors), template, variableDict, idPrefix, parent, scriptContainer)
    {
      var kind := if template.Absent? || template.value == "" then Placeholder else TextNode(template.value);
      e := arena.Append(NewElement(kind, None, None, None));
    }

    /** The first steps of `buildFromTemplate` on a structured node: build
        the instance, give it the id prefix, script container and
        properties, append it and record it under its key. */
    method OpenNode(arena: Arena, template: Template, idPrefix: Option<string>, parent: Option<nat>,
                    scriptContainer: Option<nat>, accessors: Accessors?) returns (e: nat, element: Element)
      requires template.Node?
      modifies arena, accessors
      ensures element == RootElement(products, template, idPrefix, parent, scriptContainer)
      ensures e == |old(arena.elements)|
      ensures State(arena.elements, View(accessors))
           == Opened(products, old(State(arena.elements, View(accessors))), template, idPrefix, parent, scriptContainer)
    {
      element := Instantiate(Build(products, template.create, template.id, template.name, parent));
      if Truthy(idPrefix) && element.prefix == "" {
        element := element.(prefix := idPrefix.value);
      }
      element := element.(scriptContainer := scriptContainer);
      element := element.(properties := template.properties);
      e := arena.Append(element);
      RecordAccessor(accessors, template, e);
    }

    /** The loop of `buildFromTemplate` over a node's children: build each
        with only the parent and the accessors passed on, and add it. */
    method AddChildren(arena: Arena, template: Template, root: nat, accessors: Accessors?)
      requires template.Node? && root < |arena.elements|
      modifies arena, accessors
      decreases template, 1
      ensures State(arena.elements, View(accessors))
           == BuildChildren(products, old(State(arena.elements, View(accessors))), template, root, |template.childElements|)
    {
      ghost var s0 := State(arena.elements, View(accessors));
      var i := 0;
      while i < |template.childElements|
        invariant 0 <= i <= |template.childElements|
        invariant root < |s0.elements|
        invariant State(arena.elements, View(accessors)) == BuildChildren(products, s0, template, root, i)
      {
        AddChildAt(arena, template, root, i, accessors, s0);
        i := i + 1;
      }
    }

    /** One round of that loop: build child `i` under `root` and add it. */
    method AddChildAt(arena: Arena, template: Template, root: nat, i: nat, accessors: Accessors?, ghost s0: State)
      requires template.Node? && i < |template.childElements| && root < |s0.elements|
      requires State(arena.elements, View(accessors)) == BuildChildren(products, s0, template, root, i)
      modifies arena, accessors
      decreases template, 0
      ensures State(arena.elements, View(accessors)) == BuildChildren(products, s0, template, root, i + 1)
    {
      var c := BuildFromTemplate(arena, template.childElements[i], map[], None, Some(root), None, accessors);
      arena.AddChildElement(root, c);
    }
  }
}

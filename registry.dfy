// The product registry of WebElements/Factory.py as values: the dictionary a
// factory keeps from lower-cased class name to product class, the lookup that
// `Factory.build` performs, and the fold that `Composite.__init__` performs over
// a sequence of factories.

module Registry {
  import opened Common

  /** An opaque constructor token: a registered product class.
      `allowsChildren` is its class attribute, and `initialPrefix` is the id
      prefix a freshly constructed instance carries (usually empty). */
  datatype ProductClass = ProductClass(className: string, allowsChildren: bool, initialPrefix: string)

  /** A factory's `products` dictionary. */
  type Products = map<string, ProductClass>

  /** The state of one factory: its `name` and its `products`. */
  datatype Snapshot = Snapshot(name: string, products: Products)

  /** The key `addProduct` stores a class under: its lower-cased class name. */
  function ProductKey(p: ProductClass): string
  {
    Lower(p.className)
  }

  /** The key `build` looks up: `className and className.lower() or ""`. */
  function LookupKey(className: Option<string>): string
  {
    if className.Some? then Lower(className.value) else ""
  }

  /** What `build` returns: an instance of a product constructed from exactly
      `(id, name, parent)`, or the inert `Invalid()` placeholder. */
  datatype Built =
    | Constructed(product: ProductClass, id: Option<string>, name: Option<string>, parent: Option<nat>)
    | Invalid

  /** `Factory.build`: a case-insensitive lookup that never fails. */
  function Build(products: Products, className: Option<string>, id: Option<string>,
                 name: Option<string>, parent: Option<nat>): (r: Built)
    ensures r.Constructed? <==> LookupKey(className) in products
    ensures r.Constructed? ==> r.product == products[LookupKey(className)]
    ensures r.Constructed? ==> r.id == id && r.name == name && r.parent == parent
  {
    var key := LookupKey(className);
    if key in products then Constructed(products[key], id, name, parent) else Invalid
  }

  /** Class names that differ only in letter case build the same thing, and a
      missing class name is looked up as the empty one. */
  lemma BuildCaseInsensitive(products: Products, a: string, b: string, id: Option<string>,
                             name: Option<string>, parent: Option<nat>)
    requires Lower(a) == Lower(b)
    ensures Build(products, Some(a), id, name, parent) == Build(products, Some(b), id, name, parent)
    ensures Build(products, None, id, name, parent) == Build(products, Some(""), id, name, parent)
  {
    assert Lower("") == "";
  }

  /** After `addProduct(p)`, every spelling of p's class name builds p, and
      every other name builds what it built before. */
  lemma BuildAfterAddProduct(products: Products, p: ProductClass, className: string,
                             id: Option<string>, name: Option<string>, parent: Option<nat>)
    ensures Lower(className) == ProductKey(p) ==>
      Build(products[ProductKey(p) := p], Some(className), id, name, parent) == Constructed(p, id, name, parent)
    ensures Lower(className) != ProductKey(p) ==>
      Build(products[ProductKey(p) := p], Some(className), id, name, parent) == Build(products, Some(className), id, name, parent)
    ensures Build(products[ProductKey(p) := p], Some(ProductKey(p)), id, name, parent) == Constructed(p, id, name, parent)
  {
    LowerIdempotent(p.className);
  }

  // ---------------------------------------------------------------------------
  // Composite

  /** The prefix a named factory's products get in a composite: `name.lower() + "-"`. */
  function QualifierOf(f: Snapshot): string
  {
    Lower(f.name) + "-"
  }

  /** The qualified entries a named factory adds to a composite. */
  function Qualified(f: Snapshot): (r: Products)
    ensures forall k :: k in r ==>
      |QualifierOf(f)| <= |k| && k[..|QualifierOf(f)|] == QualifierOf(f) && k[|QualifierOf(f)|..] in f.products
  {
    var pre := QualifierOf(f);
    assert forall a, b :: pre + a == pre + b ==> a == b by {
      forall a, b ensures pre + a == pre + b ==> a == b {
        PrefixCancel(pre, a, b);
      }
    }
    map p | p in f.products :: pre + p := f.products[p]
  }

  /** Every qualified key holds exactly the product it qualifies, and contains a dash. */
  lemma QualifiedAt(f: Snapshot, k: string)
    ensures k in f.products ==> QualifierOf(f) + k in Qualified(f) && Qualified(f)[QualifierOf(f) + k] == f.products[k]
    ensures k in Qualified(f) ==> '-' in k
  {
    var pre := QualifierOf(f);
    if k in f.products {
      forall p | p in f.products && pre + p == pre + k ensures f.products[p] == f.products[k] {
        PrefixCancel(pre, p, k);
      }
    }
    if k in Qualified(f) {
      var p :| p in f.products && k == pre + p;
      assert k[|pre| - 1] == '-';
    }
  }

  /** The qualified entries of a factory with a single product. */
  lemma QualifiedSingle(f: Snapshot, k: string, p: ProductClass)
    requires f.products == map[k := p]
    ensures Qualified(f) == map[QualifierOf(f) + k := p]
  {
    QualifiedAt(f, k);
    assert Qualified(f).Keys == {QualifierOf(f) + k};
  }

  /** Qualifying one more product of a factory adds exactly its qualified entry. */
  lemma QualifiedUpdate(f: Snapshot, k: string, v: ProductClass)
    ensures Qualified(f.(products := f.products[k := v])) == Qualified(f)[QualifierOf(f) + k := v]
  {
    var g := f.(products := f.products[k := v]);
    var pre := QualifierOf(f);
    assert QualifierOf(g) == pre;
    QualifiedAt(g, k);
    forall x | x in Qualified(g) ensures x in Qualified(f)[pre + k := v] && Qualified(g)[x] == Qualified(f)[pre + k := v][x] {
      var p :| p in g.products && x == pre + p;
      PrefixCancel(pre, p, k);
      if p != k {
        QualifiedAt(f, p);
        QualifiedAt(g, p);
      }
    }
    forall x | x in Qualified(f) ensures x in Qualified(g) {
      var p :| p in f.products && x == pre + p;
      QualifiedAt(g, p);
    }
  }

  /** All writes one factory makes into a composite, in their order: its
      products under their bare names, then (for a named factory) under
      qualified names. */
  function Writes(f: Snapshot): (r: Products)
    ensures r.Keys == f.products.Keys + (if f.name == "" then {} else Qualified(f).Keys)
    ensures f.name != "" ==> forall k :: k in Qualified(f) ==> r[k] == Qualified(f)[k]
    ensures forall k :: k in f.products && (f.name == "" || k !in Qualified(f)) ==> r[k] == f.products[k]
  {
    if f.name == "" then f.products else f.products + Qualified(f)
  }

  /** The products of `Composite(fs)`: the factories' writes applied in order. */
  function Compose(fs: seq<Snapshot>): (r: Products)
    ensures forall i, k :: 0 <= i < |fs| && k in Writes(fs[i]) ==> k in r
    ensures |fs| > 0 ==> forall k :: k in Writes(fs[|fs| - 1]) ==> r[k] == Writes(fs[|fs| - 1])[k]
  {
    if fs == [] then map[] else Compose(fs[..|fs| - 1]) + Writes(fs[|fs| - 1])
  }

  /** A key of a composite holds what the last factory that wrote it wrote. */
  lemma {:induction false} ComposeLastWriter(fs: seq<Snapshot>, i: nat, k: string)
    requires i < |fs| && k in Writes(fs[i])
    requires forall j :: i < j < |fs| ==> k !in Writes(fs[j])
    ensures k in Compose(fs) && Compose(fs)[k] == Writes(fs[i])[k]
  {
    if i < |fs| - 1 {
      var init := fs[..|fs| - 1];
      forall j | i < j < |init| ensures k !in Writes(init[j]) {
        assert init[j] == fs[j];
      }
      assert init[i] == fs[i];
      ComposeLastWriter(init, i, k);
    }
  }

  /** The keys of a composite are exactly the keys its factories wrote. */
  lemma {:induction false} ComposeKeys(fs: seq<Snapshot>, k: string)
    ensures k in Compose(fs) <==> exists i :: 0 <= i < |fs| && k in Writes(fs[i])
  {
    if fs != [] {
      var init := fs[..|fs| - 1];
      ComposeKeys(init, k);
      if k in Compose(fs) {
        if k !in Writes(fs[|fs| - 1]) {
          var i :| 0 <= i < |init| && k in Writes(init[i]);
          assert fs[i] == init[i];
        }
      } else {
        forall i | 0 <= i < |fs| ensures k !in Writes(fs[i]) {
          if i < |init| {
            assert fs[i] == init[i];
          }
        }
      }
    }
  }

  /** No product of any input factory is missing from the composite: each is
      there under its bare name and, for a named factory, under its qualified
      name. */
  lemma ComposeKeepsEveryKey(fs: seq<Snapshot>, i: nat, k: string)
    requires i < |fs| && k in fs[i].products
    ensures k in Compose(fs)
    ensures fs[i].name != "" ==> QualifierOf(fs[i]) + k in Compose(fs)
  {
    ComposeKeys(fs, k);
    if fs[i].name != "" {
      QualifiedAt(fs[i], k);
      ComposeKeys(fs, QualifierOf(fs[i]) + k);
    }
  }

  /** A bare class name (which never contains a dash) resolves to the product
      of the last factory in the sequence that has it. */
  lemma ComposeBareName(fs: seq<Snapshot>, i: nat, k: string)
    requires i < |fs| && k in fs[i].products && '-' !in k
    requires forall j :: i < j < |fs| ==> k !in fs[j].products
    ensures k in Compose(fs) && Compose(fs)[k] == fs[i].products[k]
  {
    QualifiedAt(fs[i], k);
    forall j | i < j < |fs| ensures k !in Writes(fs[j]) {
      QualifiedAt(fs[j], k);
    }
    ComposeLastWriter(fs, i, k);
  }

  /** A named factory's product stays reachable under its qualified name unless
      a later factory writes that exact key. */
  lemma ComposeQualifiedName(fs: seq<Snapshot>, i: nat, k: string)
    requires i < |fs| && k in fs[i].products && fs[i].name != ""
    requires forall j :: i < j < |fs| ==> QualifierOf(fs[i]) + k !in Writes(fs[j])
    ensures QualifierOf(fs[i]) + k in Compose(fs)
    ensures Compose(fs)[QualifierOf(fs[i]) + k] == fs[i].products[k]
  {
    QualifiedAt(fs[i], k);
    ComposeLastWriter(fs, i, QualifierOf(fs[i]) + k);
  }

  /** A composite has the empty name, so nesting one inside another adds its
      products under their own keys only, with no qualified keys of its own. */
  lemma ComposeNested(fs: seq<Snapshot>, inner: seq<Snapshot>)
    ensures Compose(fs + [Snapshot("", Compose(inner))]) == Compose(fs) + Compose(inner)
  {
    assert (fs + [Snapshot("", Compose(inner))])[..|fs|] == fs;
  }

  /** Composing factory "A" and factory "B", both with a `widget`: the bare
      name resolves to B's, and each stays reachable under its own qualified,
      lower-cased name. */
  lemma ComposeTwoNamedFactories(p1: ProductClass, p2: ProductClass)
    ensures Compose([Snapshot("A", map["widget" := p1]), Snapshot("B", map["widget" := p2])])
         == map["widget" := p2, "a-widget" := p1, "b-widget" := p2]
  {
    var r1 := Snapshot("A", map["widget" := p1]);
    var r2 := Snapshot("B", map["widget" := p2]);
    assert QualifierOf(r1) == "a-" by {
      assert Lower("A")[0] == 'a';
    }
    assert QualifierOf(r2) == "b-" by {
      assert Lower("B")[0] == 'b';
    }
    assert "a-" + "widget" == "a-widget" && "b-" + "widget" == "b-widget";
    WritesSingle(r1, "widget", p1);
    WritesSingle(r2, "widget", p2);
    ComposePair(r1, r2);
    assert |"widget"| != |"a-widget"| && "a-widget"[0] != "b-widget"[0];
    MergeTwo("widget", "a-widget", "b-widget", p1, p2);
  }

  /** The writes of a named factory with a single product. */
  lemma WritesSingle(f: Snapshot, k: string, p: ProductClass)
    requires f.name != "" && f.products == map[k := p]
    ensures Writes(f) == map[k := p, QualifierOf(f) + k := p]
  {
    QualifiedSingle(f, k, p);
  }

  /** The composite of two factories. */
  lemma ComposePair(f: Snapshot, g: Snapshot)
    ensures Compose([f, g]) == Writes(f) + Writes(g)
  {
    assert [f][..0] == [];
    assert Compose([f]) == map[] + Writes(f) == Writes(f);
    assert [f, g][..1] == [f];
  }

  /** Two single-product writes sharing a bare key: the later one wins it. */
  lemma MergeTwo(k: string, a: string, b: string, p1: ProductClass, p2: ProductClass)
    requires k != a && k != b && a != b
    ensures map[k := p1, a := p1] + map[k := p2, b := p2] == map[k := p2, a := p1, b := p2]
  {
  }
}

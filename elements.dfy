// The generic element the containers of thedom/containers.py are made of.
// The element classes themselves (Base, Layout, Display) are not part of this
// model; this class stands in for them with the state the containers read
// and write, and with the generic operations they call.

module Elements {

  /** One DOM element. `kind` is the name of its Python class ("Box",
      "Label", "Link", ...); `handlers` records, in order, the events a
      script handler was attached to (the script text itself is not kept). */
  class Element {
    const kind: string
    var id: string
    var classes: set<string>
    var hidden: bool
    var children: seq<Element>
    var parent: Element?
    var text: string
    var attributes: map<string, string>
    var handlers: seq<string>

    /** A fresh element with the given id, no parent and no children. */
    constructor (kind: string, id: string)
      ensures this.kind == kind && this.id == id
      ensures classes == {} && !hidden && children == [] && parent == null
      ensures text == "" && attributes == map[] && handlers == []
    {
      this.kind := kind;
      this.id := id;
      classes := {};
      hidden := false;
      children := [];
      parent := null;
      text := "";
      attributes := map[];
      handlers := [];
    }

    /** The generic `add` of a box or node: append the child, make this its
        parent, and hand the child back. */
    method Add(child: Element) returns (added: Element)
      requires child != this
      modifies this`children, child`parent
      ensures children == old(children) + [child] && child.parent == this
      ensures added == child
    {
      children := children + [child];
      child.parent := this;
      added := child;
    }

    /** `remove`: detach this element from its parent's children (its first
        occurrence there) and forget the parent. */
    method Remove()
      modifies this`parent, (if parent != null && parent != this then {parent} else {})`children
      ensures parent == null
      ensures old(parent) != null && old(parent) != this ==>
        old(parent).children == WithoutFirst(old(parent.children), this)
        && old(parent).parent == old(parent.parent)
    {
      var p := parent;
      if p != null && p != this {
        p.children := WithoutFirst(p.children, this);
      }
      parent := null;
    }

    method AddClass(c: string)
      modifies this`classes
      ensures classes == old(classes) + {c}
    {
      classes := classes + {c};
    }

    method RemoveClass(c: string)
      modifies this`classes
      ensures classes == old(classes) - {c}
    {
      classes := classes - {c};
    }

    method Hide()
      modifies this`hidden
      ensures hidden
    {
      hidden := true;
    }

    method Show()
      modifies this`hidden
      ensures !hidden
    {
      hidden := false;
    }

    method SetText(t: string)
      modifies this`text
      ensures text == t
    {
      text := t;
    }

    /** `setProperty` and writes to `attributes`. */
    method SetAttribute(key: string, value: string)
      modifies this`attributes
      ensures attributes == old(attributes)[key := value]
    {
      attributes := attributes[key := value];
    }

    /** `addJavascriptEvent`: only the event name is kept. */
    method AddJavascriptEvent(event: string)
      modifies this`handlers
      ensures handlers == old(handlers) + [event]
    {
      handlers := handlers + [event];
    }
  }

  /** `list.index(x)`: the position of the first occurrence of `x`. */
  function IndexOf(s: seq<Element>, x: Element): (i: nat)
    requires x in s
    ensures i < |s| && s[i] == x && x !in s[..i]
  {
    if s[0] == x then 0
    else
      var j := IndexOf(s[1..], x);
      assert s[..j + 1] == [s[0]] + s[1..][..j];
      j + 1
  }

  /** `list.remove(x)`: the sequence without its first occurrence of `x`.
      When `x` does not occur, the model removes nothing, where Python
      raises (`Tab.Remove` on a new tab reaches this: its label's parent is
      the tab, which does not list the label among its children). */
  function WithoutFirst(s: seq<Element>, x: Element): (r: seq<Element>)
    ensures x !in s ==> r == s
    ensures x in s ==> |r| == |s| - 1 && multiset(r) == multiset(s) - multiset{x}
  {
    if x in s then
      var i := IndexOf(s, x);
      assert s == s[..i] + [x] + s[i + 1..];
      s[..i] + s[i + 1..]
    else s
  }
}

// `Tab`, `TabContainer` and `VerticalTabContainer` of thedom/containers.py.
// The signal connection a container makes to each tab it adds ('selected'
// calls `selectTab(tab.id)` on the container) is a direct call from
// `Tab.Select` to `TabContainer.SelectTab`, so the two methods are mutually
// recursive; their `decreases` clauses show that the re-entrant call is a
// no-op and the recursion stops.

module Tabs {
  import opened Elements

  /** The signals a tab emits: 'selected' and 'unselected'. */
  datatype Signal = Selected | Unselected

  /** Tab `t` carries the selection flag exactly when it is `selected`. */
  ghost predicate Flagged(t: Tab, selected: Tab?)
    reads t`isSelected
  {
    t.isSelected <==> t == selected
  }

  /** The box and label of a tab, if any. */
  function ElemsOf(t: Tab?): set<Element>
  {
    if t != null then {t.box, t.tabLabel} else {}
  }

  /** Tab `t`'s box and label gained `WSelected` and no other class. */
  twostate predicate Marked(t: Tab)
    reads t.box, t.tabLabel
  {
    && t.box.classes == old(t.box.classes) + {"WSelected"}
    && t.tabLabel.classes == old(t.tabLabel.classes) + {"WSelected"}
  }

  /** Tab `t`'s box and label lost `WSelected` and no other class, except an
      element it shares with the tab `kept`. */
  twostate predicate Cleared(t: Tab, kept: Tab?)
    reads t.box, t.tabLabel
  {
    && (t.box !in ElemsOf(kept) ==> t.box.classes == old(t.box.classes) - {"WSelected"})
    && (t.tabLabel !in ElemsOf(kept) ==> t.tabLabel.classes == old(t.tabLabel.classes) - {"WSelected"})
  }

  /** A single tab: its own box (id, classes) and its label. `emitted` is
      the log of the signals it emitted; `listener` and `slotKey` are the
      connection a container made to it. */
  class Tab {
    const box: Element
    const tabLabel: Element
    var isSelected: bool
    var emitted: seq<Signal>
    var listener: TabContainer?
    var slotKey: string

    /** `Tab._create`: the label is `id + "Label"`, carries `WTabLabel`, and
        has the tab as its parent. */
    constructor (id: string)
      ensures box.kind == "Tab" && box.id == id && box.classes == {} && box.children == []
      ensures !box.hidden && box.parent == null && !tabLabel.hidden && tabLabel.children == []
      ensures tabLabel.kind == "TabLabel" && tabLabel.id == id + "Label"
      ensures tabLabel.classes == {"WTabLabel"} && tabLabel.parent == box
      ensures fresh(box) && fresh(tabLabel) && Wf()
      ensures !isSelected && emitted == [] && listener == null
    {
      box := new Element("Tab", id);
      tabLabel := new Element("TabLabel", id + "Label");
      isSelected := false;
      emitted := [];
      listener := null;
      slotKey := "";
      new;
      tabLabel.AddClass("WTabLabel");
      tabLabel.parent := box;
    }

    /** The tab's box and label are two objects. */
    ghost predicate Wf()
    {
      box != tabLabel
    }

    /** Connected to a container that holds this very tab under its key. */
    ghost predicate Registered()
      reads this`listener, this`slotKey, listener
    {
      listener != null && slotKey in listener.tabs && listener.tabs[slotKey] == this
    }

    /** The container this tab is connected to, as a frame. */
    function Container(): set<TabContainer>
      reads this
    {
      if listener != null then {listener} else {}
    }

    /** The tabs the connected container's `selectTab(slotKey)` may touch. */
    function Peers(): set<Tab>
      reads this, listener
    {
      if listener != null then listener.Touched(slotKey) else {}
    }

    /** Their boxes and labels. */
    function PeerElems(): set<Element>
      reads this, listener
    {
      if listener != null then listener.TouchedElems(slotKey) else {}
    }

    /** `Tab.select`: mark the tab and its label selected and emit
        'selected', which runs the connected container's `selectTab`. A tab
        already selected by its container gets one 'selected'; a registered
        tab its container had not selected gets two, because the container
        selects it again after unselecting the previous tab; a tab whose key
        now names another tab hands the selection to that tab. */
    method Select()
      requires Wf()
      requires listener != null ==> listener.Valid() && this in listener.Members
      modifies this`isSelected, this`emitted, box`classes, tabLabel`classes
      modifies Container()`selectedTab, Peers()`isSelected, Peers()`emitted, PeerElems()`classes
      decreases if listener != null && slotKey in listener.tabs && listener.tabs[slotKey] == listener.selectedTab then 2 else 8
      ensures listener == null ==> isSelected && emitted == old(emitted) + [Selected] && Marked(this)
      ensures listener == old(listener) && slotKey == old(slotKey)
      ensures listener != null ==> listener.Valid() && listener.selectedTab == listener.tabs[slotKey]
      ensures listener != null ==> listener.tabs == old(listener.tabs) && listener.Members == old(listener.Members)
      ensures Registered() && old(listener.selectedTab) == this ==>
        isSelected && emitted == old(emitted) + [Selected] && Marked(this)
      ensures Registered() && old(listener.selectedTab) != this ==>
        && isSelected && emitted == old(emitted) + [Selected, Selected] && Marked(this)
        && (old(listener.selectedTab) != null ==>
              && !old(listener.selectedTab).isSelected
              && old(listener.selectedTab).emitted == old(listener.selectedTab.emitted) + [Unselected]
              && Cleared(old(listener.selectedTab), this))
    {
      ghost var prev := if listener != null then listener.selectedTab else null;
      Mark();
      if listener != null {
        assert listener.Valid() && listener.selectedTab == prev;
        var _ := listener.SelectTab(slotKey);
      }
    }

    /** The part of `Tab.select` before the signal. */
    method Mark()
      modifies this`isSelected, this`emitted, box`classes, tabLabel`classes
      ensures isSelected && emitted == old(emitted) + [Selected]
      ensures Marked(this)
    {
      isSelected := true;
      tabLabel.AddClass("WSelected");
      box.AddClass("WSelected");
      emitted := emitted + [Selected];
    }

    /** `Tab.unselect`: clear the selection marks and emit 'unselected'
        (which no container listens to). */
    method Unselect()
      modifies this`isSelected, this`emitted, box`classes, tabLabel`classes
      ensures !isSelected && emitted == old(emitted) + [Unselected]
      ensures unchanged(this`listener, this`slotKey)
      ensures Cleared(this, null)
    {
      isSelected := false;
      tabLabel.RemoveClass("WSelected");
      box.RemoveClass("WSelected");
      emitted := emitted + [Unselected];
    }

    /** `Tab.remove`: detach the label, then the tab, from their parents. The
        tab stays in the `tabs` of any container it was added to. */
    method Remove()
      requires Wf()
      modifies tabLabel`parent, box`parent
      modifies (if tabLabel.parent != null && tabLabel.parent != tabLabel then {tabLabel.parent} else {})`children
      modifies (if box.parent != null && box.parent != box then {box.parent} else {})`children
      ensures tabLabel.parent == null && box.parent == null
      ensures old(tabLabel.parent) != null && old(tabLabel.parent) != tabLabel && old(tabLabel.parent) != old(box.parent) ==>
        old(tabLabel.parent).children == WithoutFirst(old(tabLabel.parent.children), tabLabel)
      ensures old(box.parent) != null && old(box.parent) != box && old(box.parent) != old(tabLabel.parent) ==>
        old(box.parent).children == WithoutFirst(old(box.parent.children), box)
      ensures old(box.parent) != null && old(box.parent) != box && old(box.parent) == old(tabLabel.parent) && old(box.parent) != tabLabel ==>
        old(box.parent).children == WithoutFirst(WithoutFirst(old(box.parent.children), tabLabel), box)
    {
      tabLabel.Remove();
      box.Remove();
    }
  }

  /** What `TabContainer.add` is given: a tab, or any other element. */
  datatype Addable = TabItem(tab: Tab) | Plain(element: Element)

  /** The tab an item is, if any, as a frame. */
  function TabOf(item: Addable): set<Tab>
  {
    if item.TabItem? then {item.tab} else {}
  }

  /** That tab's box, as a frame. */
  function BoxOf(item: Addable): set<Element>
  {
    if item.TabItem? then {item.tab.box} else {}
  }

  /** That tab's label, as a frame. */
  function LabelOf(item: Addable): set<Element>
  {
    if item.TabItem? then {item.tab.tabLabel} else {}
  }

  /** A tab container. `vertical` selects `VerticalTabContainer`, which only
      swaps the layout classes. `Members` are the tabs ever added (a tab
      overwritten in `tabs` by a later tab with the same id stays connected). */
  class TabContainer {
    const vertical: bool
    const node: Element
    const layout: Element
    const labels: Element
    const contents: Element
    var tabs: map<string, Tab>
    var selectedTab: Tab?
    ghost var Members: set<Tab>

    /** Every added tab is connected to this container under a key of
        `tabs`, each key holds a tab connected under that same key, and the
        selected tab is one of them. */
    ghost predicate Valid()
      reads this`tabs, this`selectedTab, this`Members, Members`listener, Members`slotKey
    {
      && (forall t :: t in Members ==> Joined(t))
      && (forall k :: k in tabs ==> tabs[k] in Members && tabs[k].slotKey == k)
      && (selectedTab != null ==> selectedTab in Members)
      && labels != contents
    }

    /** Tab `t` is connected to this container under a key of `tabs`. */
    ghost predicate Joined(t: Tab)
      reads this`tabs, t`listener, t`slotKey
    {
      t.Wf() && t.listener == this && t.slotKey in tabs
    }

    /** Exactly the selected tab carries the selection flag. */
    ghost predicate Exclusive()
      reads this`selectedTab, this`Members, Members`isSelected
    {
      forall t :: t in Members ==> Flagged(t, selectedTab)
    }

    /** Every tab but `tab` carries the selection flag exactly when selected. */
    ghost predicate ExclusiveBut(tab: Tab)
      reads this`selectedTab, this`Members, Members`isSelected
    {
      forall t :: t in Members && t != tab ==> Flagged(t, selectedTab)
    }

    /** A tab `add` accepts: not connected yet, and apart from the label
        strip and the content box. */
    ghost predicate Admissible(tab: Tab)
      reads this`Members, tab`listener
    {
      && tab.listener == null && tab.Wf() && tab !in Members
      && tab.box !in {labels, contents} && tab.tabLabel !in {labels, contents}
    }

    /** The selected tab, as a frame. */
    function Current(): set<Tab>
      reads this`selectedTab
    {
      if selectedTab != null then {selectedTab} else {}
    }

    /** The tabs `selectTab(n)` may touch: the selected one and the one
        under `n`. */
    function Touched(n: string): set<Tab>
      reads this`selectedTab, this`tabs
    {
      Current() + (if n in tabs then {tabs[n]} else {})
    }

    /** Their boxes and labels. */
    function TouchedElems(n: string): set<Element>
      reads this`selectedTab, this`tabs
    {
      ElemsOf(selectedTab) + (if n in tabs then ElemsOf(tabs[n]) else {})
    }

    /** `TabContainer._create`: a layout with the container's id and class
        `W` + the class name, holding a label strip and a content box. */
    constructor (id: string, vertical: bool)
      ensures Valid() && Exclusive() && tabs == map[] && selectedTab == null
      ensures node.kind == (if vertical then "VerticalTabContainer" else "TabContainer")
      ensures node.id == id && node.children == [layout]
      ensures layout.id == id && layout.kind == (if vertical then "Horizontal" else "Vertical")
      ensures layout.classes == {ContainerClass(vertical)} && layout.children == [labels, contents]
      ensures labels.kind == (if vertical then "Vertical" else "Horizontal") && labels.classes == {"WTabLabels"}
      ensures contents.classes == {"WTabContents"} && labels.children == [] && contents.children == []
      ensures layout.parent == node && labels.parent == layout && contents.parent == layout
      ensures fresh(node) && fresh(layout) && fresh(labels) && fresh(contents)
    {
      var node := new Element(if vertical then "VerticalTabContainer" else "TabContainer", id);
      var layout := new Element(if vertical then "Horizontal" else "Vertical", id);
      var _ := node.Add(layout);
      layout.AddClass(ContainerClass(vertical));
      var labels := new Element(if vertical then "Vertical" else "Horizontal", "");
      var _ := layout.Add(labels);
      labels.AddClass("WTabLabels");
      var contents := new Element("Box", "");
      var _ := layout.Add(contents);
      contents.AddClass("WTabContents");
      this.vertical := vertical;
      this.node, this.layout, this.labels, this.contents := node, layout, labels, contents;
      tabs := map[];
      selectedTab := null;
      Members := {};
    }

    /** `selectTab(n)`: `found` is false where the source raises `KeyError`,
        and then nothing changes. Selecting the selected tab changes nothing
        and emits nothing. Otherwise the previously selected tab is
        unselected first, the container records the new tab, and the tab is
        selected and emits 'selected' once; the re-entrant call this makes
        finds the tab already recorded. No other tab is touched. */
    method SelectTab(n: string) returns (found: bool)
      requires Valid()
      modifies this`selectedTab, Touched(n)`isSelected, Touched(n)`emitted, TouchedElems(n)`classes
      decreases if n in tabs && tabs[n] == selectedTab then 0 else 6
      ensures Valid()
      ensures found <==> n in tabs
      ensures !found || old(selectedTab) == tabs[n] ==>
        selectedTab == old(selectedTab) && unchanged(Touched(n)) && unchanged(TouchedElems(n))
      ensures found ==> selectedTab == tabs[n]
      ensures found && old(selectedTab) != tabs[n] ==>
        && tabs[n].isSelected && tabs[n].emitted == old(tabs[n].emitted) + [Selected] && Marked(tabs[n])
        && (old(selectedTab) != null ==>
              && !old(selectedTab).isSelected && old(selectedTab).emitted == old(selectedTab.emitted) + [Unselected]
              && Cleared(old(selectedTab), tabs[n]))
      ensures old(Exclusive()) ==> Exclusive()
    {
      if n !in tabs {
        return false;
      }
      found := true;
      var tab := tabs[n];
      if tab == selectedTab {
        return;
      }
      Switch(tab);
    }

    /** The selection change of `selectTab`: unselect the selected tab, if
        any, record `tab` and select it. */
    method Switch(tab: Tab)
      requires Valid() && tab.Registered() && tab.listener == this && tab != selectedTab
      modifies this`selectedTab, Current()`isSelected, Current()`emitted, ElemsOf(selectedTab)`classes
      modifies tab`isSelected, tab`emitted, tab.box`classes, tab.tabLabel`classes
      decreases 5
      ensures Valid() && tabs == old(tabs) && Members == old(Members) && selectedTab == tab
      ensures tab.isSelected && tab.emitted == old(tab.emitted) + [Selected] && Marked(tab)
      ensures old(selectedTab) != null ==>
        && !old(selectedTab).isSelected && old(selectedTab).emitted == old(selectedTab.emitted) + [Unselected]
        && Cleared(old(selectedTab), tab)
      ensures old(Exclusive()) ==> Exclusive()
    {
      Release(tab);
      Take(tab, old(selectedTab));
    }

    /** No tab carries the selection flag. */
    ghost predicate Clear()
      reads this`Members, Members`isSelected
    {
      forall t :: t in Members ==> !t.isSelected
    }

    /** The first half of a selection change: unselect the selected tab,
        which is not the tab `next` to be selected. */
    method Release(next: Tab)
      requires Valid() && next != selectedTab
      modifies Current()`isSelected, Current()`emitted, ElemsOf(selectedTab)`classes
      ensures Valid() && tabs == old(tabs) && Members == old(Members) && selectedTab == old(selectedTab)
      ensures selectedTab != null ==>
        !selectedTab.isSelected && selectedTab.emitted == old(selectedTab.emitted) + [Unselected] && Cleared(selectedTab, null)
      ensures old(Exclusive()) ==> Clear()
      ensures unchanged(next`isSelected, next`emitted)
      ensures next.box.classes + {"WSelected"} == old(next.box.classes) + {"WSelected"}
      ensures next.tabLabel.classes + {"WSelected"} == old(next.tabLabel.classes) + {"WSelected"}
    {
      if selectedTab != null {
        selectedTab.Unselect();
      }
      if old(Exclusive()) {
        forall t | t in Members ensures !t.isSelected {
          if t != selectedTab {
            assert old(Flagged(t, selectedTab));
          }
        }
      }
    }

    /** The second half: record `tab` and select it; its signal reaches
        this container, which finds it already selected. No other tab, such
        as the previously selected `prev`, changes. */
    method Take(tab: Tab, ghost prev: Tab?)
      requires Valid() && tab.Registered() && tab.listener == this
      modifies this`selectedTab, tab`isSelected, tab`emitted, tab.box`classes, tab.tabLabel`classes
      decreases 4
      ensures Valid() && tabs == old(tabs) && Members == old(Members) && selectedTab == tab
      ensures tab.isSelected && tab.emitted == old(tab.emitted) + [Selected] && Marked(tab)
      ensures old(Clear()) ==> Exclusive()
      ensures prev != null && prev != tab ==> unchanged(prev`isSelected, prev`emitted)
    {
      selectedTab := tab;
      assert tab.Peers() == {tab} && tab.PeerElems() == {tab.box, tab.tabLabel};
      assert tab.Registered() && selectedTab == tab;
      tab.Select();
      if old(Clear()) {
        forall t | t in Members ensures Flagged(t, selectedTab) {
          if t != tab {
            assert t.isSelected == old(t.isSelected) && old(!t.isSelected);
          }
        }
      }
    }

    /** `TabContainer.add`. A tab is registered under its id, its label gets
        id `id + "Label"` and goes to the label strip, the container
        connects to it, and it is selected when no tab is selected yet or it
        was marked selected before; it then joins the content box with class
        `WTab`. Any other element is added to the container node itself.
        Only the new tab and the previously selected tab change state. */
    method Add(item: Addable) returns (r: Element)
      requires Valid()
      requires item.TabItem? ==> Admissible(item.tab)
      requires item.Plain? ==> item.element != node
      modifies this`tabs, this`selectedTab, this`Members, labels`children, contents`children, node`children
      modifies Current()`isSelected, Current()`emitted, ElemsOf(selectedTab)`classes
      modifies TabOf(item)`listener, TabOf(item)`slotKey, TabOf(item)`isSelected, TabOf(item)`emitted
      modifies BoxOf(item)`classes, BoxOf(item)`parent
      modifies LabelOf(item)`id, LabelOf(item)`handlers, LabelOf(item)`classes, LabelOf(item)`parent
      modifies (if item.Plain? then {item.element} else {})`parent
      ensures Valid()
      ensures item.Plain? ==>
        && r == item.element && node.children == old(node.children) + [r] && r.parent == node
        && tabs == old(tabs) && selectedTab == old(selectedTab) && Members == old(Members)
        && unchanged(Current()`isSelected, Current()`emitted, ElemsOf(selectedTab)`classes)
      ensures item.TabItem? ==> var tab := item.tab;
        && r == tab.box && tab.box.id == old(tab.box.id)
        && tabs == old(tabs)[tab.box.id := tab] && Members == old(Members) + {tab}
        && tab.listener == this && tab.slotKey == tab.box.id && tab.tabLabel.id == tab.box.id + "Label"
        && labels.children == old(labels.children) + [tab.tabLabel] && tab.tabLabel.parent == labels
        && contents.children == old(contents.children) + [tab.box] && tab.box.parent == contents
        && tab.tabLabel.handlers == old(tab.tabLabel.handlers) + ["onclick"]
      ensures item.TabItem? && (old(selectedTab) == null || old(item.tab.isSelected)) ==> var tab := item.tab;
        && selectedTab == tab && tab.isSelected && tab.emitted == old(tab.emitted) + [Selected, Selected]
        && tab.box.classes == old(tab.box.classes) + {"WSelected"} + {"WTab"}
        && tab.tabLabel.classes == old(tab.tabLabel.classes) + {"WSelected"}
        && (old(selectedTab) != null ==>
              && !old(selectedTab).isSelected && old(selectedTab).emitted == old(selectedTab.emitted) + [Unselected]
              && Cleared(old(selectedTab), tab))
      ensures item.TabItem? && old(selectedTab) != null && !old(item.tab.isSelected) ==>
        && selectedTab == old(selectedTab) && !item.tab.isSelected && item.tab.emitted == old(item.tab.emitted)
        && item.tab.box.classes == old(item.tab.box.classes) + {"WTab"}
        && item.tab.tabLabel.classes == old(item.tab.tabLabel.classes)
        && selectedTab.isSelected == old(selectedTab.isSelected) && selectedTab.emitted == old(selectedTab.emitted)
        && (selectedTab.box != item.tab.box ==> selectedTab.box.classes == old(selectedTab.box.classes))
        && (selectedTab.tabLabel != item.tab.box ==> selectedTab.tabLabel.classes == old(selectedTab.tabLabel.classes))
      ensures old(Exclusive()) ==> Exclusive()
    {
      match item
      case Plain(element) =>
        r := node.Add(element);
      case TabItem(tab) =>
        AddTab(tab);
        r := tab.box;
    }

    /** The tab branch of `add`. */
    method AddTab(tab: Tab)
      requires Valid() && Admissible(tab)
      modifies this`tabs, this`selectedTab, this`Members, labels`children, contents`children
      modifies Current()`isSelected, Current()`emitted, ElemsOf(selectedTab)`classes
      modifies tab`listener, tab`slotKey, tab`isSelected, tab`emitted, tab.box`classes, tab.box`parent
      modifies tab.tabLabel`id, tab.tabLabel`handlers, tab.tabLabel`classes, tab.tabLabel`parent
      ensures Valid()
      ensures tabs == old(tabs)[tab.box.id := tab] && Members == old(Members) + {tab}
      ensures tab.listener == this && tab.slotKey == tab.box.id && tab.tabLabel.id == tab.box.id + "Label"
      ensures labels.children == old(labels.children) + [tab.tabLabel] && tab.tabLabel.parent == labels
      ensures contents.children == old(contents.children) + [tab.box] && tab.box.parent == contents
      ensures tab.tabLabel.handlers == old(tab.tabLabel.handlers) + ["onclick"]
      ensures old(selectedTab) == null || old(tab.isSelected) ==>
        && selectedTab == tab && tab.isSelected && tab.emitted == old(tab.emitted) + [Selected, Selected]
        && tab.box.classes == old(tab.box.classes) + {"WSelected"} + {"WTab"}
        && tab.tabLabel.classes == old(tab.tabLabel.classes) + {"WSelected"}
        && (old(selectedTab) != null ==>
              && !old(selectedTab).isSelected && old(selectedTab).emitted == old(selectedTab.emitted) + [Unselected]
              && Cleared(old(selectedTab), tab))
      ensures old(selectedTab) != null && !old(tab.isSelected) ==>
        && selectedTab == old(selectedTab) && !tab.isSelected && tab.emitted == old(tab.emitted)
        && tab.box.classes == old(tab.box.classes) + {"WTab"} && tab.tabLabel.classes == old(tab.tabLabel.classes)
        && selectedTab.isSelected == old(selectedTab.isSelected) && selectedTab.emitted == old(selectedTab.emitted)
        && (selectedTab.box != tab.box ==> selectedTab.box.classes == old(selectedTab.box.classes))
        && (selectedTab.tabLabel != tab.box ==> selectedTab.tabLabel.classes == old(selectedTab.tabLabel.classes))
      ensures old(Exclusive()) ==> Exclusive()
    {
      Enlist(tab);
      Place(tab, old(selectedTab));
    }

    /** The steps of `add` before the tab is placed: registration, then
        selection when no tab is selected yet or the tab was marked
        selected before. */
    method Enlist(tab: Tab)
      requires Valid() && Admissible(tab)
      modifies this`tabs, this`selectedTab, this`Members
      modifies Current()`isSelected, Current()`emitted, ElemsOf(selectedTab)`classes
      modifies tab`listener, tab`slotKey, tab`isSelected, tab`emitted, tab.box`classes
      modifies tab.tabLabel`id, tab.tabLabel`handlers, tab.tabLabel`classes
      ensures Valid()
      ensures tabs == old(tabs)[tab.box.id := tab] && Members == old(Members) + {tab}
      ensures tab.listener == this && tab.slotKey == tab.box.id && tab.tabLabel.id == tab.box.id + "Label"
      ensures tab.tabLabel.handlers == old(tab.tabLabel.handlers) + ["onclick"]
      ensures old(selectedTab) == null || old(tab.isSelected) ==>
        && selectedTab == tab && tab.isSelected && tab.emitted == old(tab.emitted) + [Selected, Selected] && Marked(tab)
        && (old(selectedTab) != null ==>
              && !old(selectedTab).isSelected && old(selectedTab).emitted == old(selectedTab.emitted) + [Unselected]
              && Cleared(old(selectedTab), tab))
      ensures old(selectedTab) != null && !old(tab.isSelected) ==>
        && selectedTab == old(selectedTab) && !tab.isSelected && tab.emitted == old(tab.emitted)
        && tab.box.classes == old(tab.box.classes) && tab.tabLabel.classes == old(tab.tabLabel.classes)
        && selectedTab.isSelected == old(selectedTab.isSelected) && selectedTab.emitted == old(selectedTab.emitted)
        && selectedTab.box.classes == old(selectedTab.box.classes)
        && selectedTab.tabLabel.classes == old(selectedTab.tabLabel.classes)
      ensures old(Exclusive()) ==> Exclusive()
    {
      Register(tab);
      SelectIfFirst(tab);
    }

    /** The selection step of `add`: select the new tab when no tab is
        selected yet or it was marked selected before. */
    method SelectIfFirst(tab: Tab)
      requires Valid() && tab.Registered() && tab in Members && selectedTab != tab
      modifies this`selectedTab, Current()`isSelected, Current()`emitted, ElemsOf(selectedTab)`classes
      modifies tab`isSelected, tab`emitted, tab.box`classes, tab.tabLabel`classes
      ensures Valid()
      ensures old(selectedTab) == null || old(tab.isSelected) ==>
        && selectedTab == tab && tab.isSelected && tab.emitted == old(tab.emitted) + [Selected, Selected] && Marked(tab)
        && (old(selectedTab) != null ==>
              && !old(selectedTab).isSelected && old(selectedTab).emitted == old(selectedTab.emitted) + [Unselected]
              && Cleared(old(selectedTab), tab))
      ensures old(selectedTab) != null && !old(tab.isSelected) ==>
        && selectedTab == old(selectedTab) && !tab.isSelected && tab.emitted == old(tab.emitted)
        && tab.box.classes == old(tab.box.classes) && tab.tabLabel.classes == old(tab.tabLabel.classes)
        && selectedTab.isSelected == old(selectedTab.isSelected) && selectedTab.emitted == old(selectedTab.emitted)
        && selectedTab.box.classes == old(selectedTab.box.classes)
        && selectedTab.tabLabel.classes == old(selectedTab.tabLabel.classes)
      ensures old(ExclusiveBut(tab)) ==> Exclusive()
      ensures tabs == old(tabs) && Members == old(Members)
      ensures unchanged(tab`listener, tab`slotKey, tab.tabLabel`id, tab.tabLabel`handlers, tab.box`id)
      ensures unchanged(labels`children, contents`children, tab.box`parent, tab.tabLabel`parent)
    {
      if selectedTab == null || tab.isSelected {
        tab.Select();
      }
    }

    /** The registration steps of `add`: the label's click handler, the entry
        in `tabs`, the label's id and the connection. */
    method Register(tab: Tab)
      requires Valid() && Admissible(tab)
      modifies this`tabs, this`Members, tab`listener, tab`slotKey, tab.tabLabel`id, tab.tabLabel`handlers
      ensures Valid() && tab.Registered() && selectedTab != tab
      ensures tabs == old(tabs)[tab.box.id := tab] && Members == old(Members) + {tab}
      ensures tab.slotKey == tab.box.id && tab.tabLabel.id == tab.box.id + "Label"
      ensures tab.tabLabel.handlers == old(tab.tabLabel.handlers) + ["onclick"]
      ensures old(Exclusive()) ==> ExclusiveBut(tab)
      ensures selectedTab == old(selectedTab)
      ensures tab.isSelected == old(tab.isSelected) && tab.emitted == old(tab.emitted)
      ensures selectedTab != null ==>
        && selectedTab.isSelected == old(selectedTab.isSelected) && selectedTab.emitted == old(selectedTab.emitted)
        && selectedTab.box.classes == old(selectedTab.box.classes)
        && selectedTab.tabLabel.classes == old(selectedTab.tabLabel.classes)
    {
      Label(tab);
      assert old(Exclusive()) ==> Exclusive();
      Enroll(tab);
    }

    /** The label steps of `add`: the click handler and the id
        `id + "Label"`. */
    method Label(tab: Tab)
      requires tab.Wf()
      modifies tab.tabLabel`id, tab.tabLabel`handlers
      ensures tab.tabLabel.id == tab.box.id + "Label"
      ensures tab.tabLabel.handlers == old(tab.tabLabel.handlers) + ["onclick"]
      ensures selectedTab != null ==>
        && selectedTab.isSelected == old(selectedTab.isSelected) && selectedTab.emitted == old(selectedTab.emitted)
        && selectedTab.box.classes == old(selectedTab.box.classes)
        && selectedTab.tabLabel.classes == old(selectedTab.tabLabel.classes)
    {
      tab.tabLabel.AddJavascriptEvent("onclick");
      tab.tabLabel.id := tab.box.id + "Label";
    }

    /** The entry in `tabs` and the connection: the tab's 'selected' signal
        now calls `selectTab` with the tab's id. */
    method Enroll(tab: Tab)
      requires Valid() && Admissible(tab)
      modifies this`tabs, this`Members, tab`listener, tab`slotKey
      ensures Valid() && tab.Registered() && selectedTab != tab
      ensures tabs == old(tabs)[tab.box.id := tab] && Members == old(Members) + {tab}
      ensures tab.slotKey == tab.box.id
      ensures old(Exclusive()) ==> ExclusiveBut(tab)
      ensures selectedTab == old(selectedTab)
      ensures tab.isSelected == old(tab.isSelected) && tab.emitted == old(tab.emitted)
      ensures unchanged(tab.tabLabel`id, tab.tabLabel`handlers, tab.box`id)
    {
      var key := tab.box.id;
      tabs := tabs[key := tab];
      tab.listener := this;
      tab.slotKey := key;
      Members := Members + {tab};
      assert selectedTab == old(selectedTab) && tab.isSelected == old(tab.isSelected) && tab.emitted == old(tab.emitted);
      assert unchanged(tab.tabLabel`id, tab.tabLabel`handlers, tab.box`id);
      forall t | t in Members ensures Joined(t) {
        if t != tab {
          assert old(Joined(t));
        }
      }
      forall k | k in tabs ensures tabs[k] in Members && tabs[k].slotKey == k {
        if k != key {
          assert old(k in tabs && tabs[k] in Members);
        }
      }
      if old(Exclusive()) {
        forall t | t in Members && t != tab ensures Flagged(t, selectedTab) {
          assert t in old(Members);
        }
      }
    }

    /** The placement steps of `add`: the label into the label strip, the
        tab, with class `WTab`, into the content box. Another tab `prev`
        keeps its state, unless it shares the new tab's box. */
    method Place(tab: Tab, ghost prev: Tab?)
      requires Valid() && tab.Wf()
      requires tab.box !in {labels, contents} && tab.tabLabel !in {labels, contents}
      modifies labels`children, contents`children, tab.tabLabel`parent, tab.box`parent, tab.box`classes
      ensures Valid() && (old(Exclusive()) ==> Exclusive())
      ensures labels.children == old(labels.children) + [tab.tabLabel] && tab.tabLabel.parent == labels
      ensures contents.children == old(contents.children) + [tab.box] && tab.box.parent == contents
      ensures tab.box.classes == old(tab.box.classes) + {"WTab"} && tab.tabLabel.classes == old(tab.tabLabel.classes)
      ensures tabs == old(tabs) && Members == old(Members) && selectedTab == old(selectedTab)
      ensures unchanged(tab`listener, tab`slotKey, tab`isSelected, tab`emitted, tab.tabLabel`id, tab.tabLabel`handlers, tab.box`id)
      ensures unchanged(Members`isSelected, Members`emitted)
      ensures prev != null ==>
        && prev.isSelected == old(prev.isSelected) && prev.emitted == old(prev.emitted)
        && (prev.box != tab.box ==> prev.box.classes == old(prev.box.classes))
        && (prev.tabLabel != tab.box ==> prev.tabLabel.classes == old(prev.tabLabel.classes))
    {
      var _ := labels.Add(tab.tabLabel);
      tab.box.AddClass("WTab");
      var _ := contents.Add(tab.box);
    }
  }

  /** The class `TabContainer._create` gives its layout: `W` + the class name. */
  function ContainerClass(vertical: bool): string
  {
    if vertical then "WVerticalTabContainer" else "WTabContainer"
  }
}

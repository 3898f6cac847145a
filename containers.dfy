// The composite containers of thedom/containers.py other than the tabs:
// `DropDownMenu` and its subclasses `Help` and `CollapsedText`,
// `Autocomplete`, `Accordion` with its hidden open/closed value, `ActionBox`
// and `PageControlPlacement`. Each container owns the element that is its
// own node (`box`); a subclass holds the container it extends. Script and
// style payloads are not kept: an attached handler is recorded by its event
// name only.

module Containers {
  import opened Common
  import opened Elements

  // ---------------------------------------------------------------------------
  // Ids and labels

  /** The id a drop-down menu gives its own box: `id + "Container"`, or the
      empty id when none (or the empty one) is given. */
  function ContainerId(id: Option<string>): (r: string)
    ensures r == "" <==> !Truthy(id)
    ensures r != "" ==> EndsWith(r, "Container") && r[..|r| - |"Container"|] == id.value
  {
    if Truthy(id) then id.value + "Container" else ""
  }

  /** The id a part of a drop-down menu gets from a box with id `boxId`: the
      box's id followed by `suffix` (`-Toggle` for the toggle button,
      `:Content` for the menu), or the part's own id when the box has none. */
  function RenamedId(boxId: string, suffix: string, own: string): (r: string)
    ensures boxId == "" ==> r == own
    ensures boxId != "" ==> |r| == |boxId| + |suffix| && r[..|boxId|] == boxId && r[|boxId|..] == suffix
  {
    if boxId != "" then boxId + suffix else own
  }

  /** The text `CollapsedText` shows: the text itself when it fits in
      `limit` characters, otherwise Python's `text[:limit - 3] + "..."`. */
  function CollapsedLabel(text: string, limit: int): (r: string)
    ensures |text| <= limit ==> r == text
    ensures |text| > limit ==> EndsWith(r, "...") && |r| <= |text| + 3
  {
    if |text| > limit then PySliceTo(text, limit - 3) + "..." else text
  }

  /** A text that fits is shown unchanged; with a limit of at least three, a
      text that does not is cut to exactly `limit` characters, the last three
      of them the ellipsis. */
  lemma CollapsedLabelFits(text: string, limit: int)
    ensures |text| <= limit ==> CollapsedLabel(text, limit) == text
    ensures |text| > limit >= 3 ==>
      var r := CollapsedLabel(text, limit);
      |r| == limit && r[..limit - 3] == text[..limit - 3] && EndsWith(r, "...")
  {
    if |text| > limit >= 3 {
      var r := CollapsedLabel(text, limit);
      assert r == text[..limit - 3] + "...";
      assert r[..limit - 3] == text[..limit - 3];
    }
  }

  /** With a limit below three the slice bound is negative and counts from
      the end of the text: an overflowing text keeps all but `3 - limit` of
      its characters, so the label is `limit` characters longer than the
      text, not shorter. */
  lemma CollapsedLabelSmallLimit(text: string, limit: int)
    requires 0 <= limit < 3 && 3 - limit <= |text| && |text| > limit
    ensures |CollapsedLabel(text, limit)| == |text| + limit
    ensures CollapsedLabel(text, limit) == text[..|text| + limit - 3] + "..."
  {
  }

  /** The label `PageControlPlacement` renders: the control's name followed
      by " go here..." when the name ends in an `s` of either case, and by
      " goes here..." otherwise. */
  function PlacementLabel(control: string): (r: string)
    ensures |control| < |r| && r[..|control|] == control && EndsWith(r, " here...")
  {
    if EndsWith(Lower(control), "s") then control + " go here..." else control + " goes here..."
  }

  /** The plural form is chosen exactly when the last character is `s` or `S`. */
  lemma PlacementPlural(control: string)
    ensures PlacementLabel(control) == control + " go here..."
        <==> |control| > 0 && (control[|control| - 1] == 's' || control[|control| - 1] == 'S')
    ensures PlacementLabel(control) == control + " goes here..."
        <==> !(|control| > 0 && (control[|control| - 1] == 's' || control[|control| - 1] == 'S'))
  {
    var suffix1 := " go here...";
    var suffix2 := " goes here...";
    assert (control + suffix1)[|control| + 3] == ' ' && (control + suffix2)[|control| + 3] == 'e';
    if |control| > 0 {
      var c := control[|control| - 1];
      assert Lower(control)[|control| - 1] == LowerChar(c);
      assert EndsWith(Lower(control), "s") <==> LowerChar(c) == 's';
    }
  }

  /** The conditions the script `jsShowIfActive` returns tests, once the key
      is not ENTER, before it shows the menu: the input has a value and, when
      `blockTab` is set, the key is not TAB. */
  function ShowConditions(blockTab: bool): (r: seq<string>)
    ensures "this.value" in r
    ensures "event.keyCode != TAB" in r <==> blockTab
  {
    ["this.value"] + (if blockTab then ["event.keyCode != TAB"] else [])
  }

  // ---------------------------------------------------------------------------
  // DropDownMenu, Help, CollapsedText

  /** `DropDownMenu`: the first element added becomes the toggle button, the
      second the (hidden) menu, and any later one is added to the box. */
  class DropDownMenu {
    const box: Element
    var toggle: Element?
    var menu: Element?
    var openOnly: bool
    var parentElement: Option<string>

    /** `DropDownMenu._create`. */
    constructor (id: Option<string>)
      ensures box.kind == "Box" && box.id == ContainerId(id) && box.children == [] && box.parent == null
      ensures box.classes == {} && !box.hidden && box.handlers == []
      ensures toggle == null && menu == null && !openOnly && parentElement == None
      ensures fresh(box)
    {
      box := new Element("Box", ContainerId(id));
      toggle := null;
      menu := null;
      openOnly := false;
      parentElement := None;
    }

    /** `setToggleButton`: make `button` the toggle, rename it after the box
        when the box has an id, attach its click handler and mark it `WToggle`. */
    method SetToggleButton(button: Element) returns (r: Element)
      modifies this`toggle, button`id, button`handlers, button`classes
      ensures r == button && toggle == button && menu == old(menu)
      ensures button.id == RenamedId(old(box.id), "-Toggle", old(button.id))
      ensures button.handlers == old(button.handlers) + ["onclick"]
      ensures button.classes == old(button.classes) + {"WToggle"}
    {
      toggle := button;
      if box.id != "" {
        button.id := box.id + "-Toggle";
      }
      button.AddJavascriptEvent("onclick");
      button.AddClass("WToggle");
      r := button;
    }

    /** `DropDownMenu.add`. */
    method Add(child: Element) returns (r: Element)
      requires child != box
      modifies this`toggle, this`menu, box`children, child`parent, child`id, child`handlers, child`classes, child`hidden
      ensures r == child && child.parent == box && box.children == old(box.children) + [child]
      ensures old(toggle) == null ==>
        && toggle == child && menu == old(menu)
        && child.id == RenamedId(box.id, "-Toggle", old(child.id)) && child.handlers == old(child.handlers) + ["onclick"]
        && child.classes == old(child.classes) + {"WToggle"} && child.hidden == old(child.hidden)
      ensures old(toggle) != null && old(menu) == null ==>
        && toggle == old(toggle) && menu == child
        && child.id == RenamedId(box.id, ":Content", old(child.id)) && child.handlers == old(child.handlers) + ["onclick"]
        && child.classes == old(child.classes) + {"WMenu"} && child.hidden
      ensures old(toggle) != null && old(menu) != null ==>
        && toggle == old(toggle) && menu == old(menu)
        && unchanged(child`id, child`handlers, child`classes, child`hidden)
    {
      if toggle == null {
        r := AddToggle(child);
      } else if menu == null {
        r := AddMenu(child);
      } else {
        r := box.Add(child);
      }
    }

    /** The first add: the child goes into the box and becomes the toggle. */
    method AddToggle(child: Element) returns (r: Element)
      requires child != box
      modifies this`toggle, box`children, child`parent, child`id, child`handlers, child`classes
      ensures r == child && child.parent == box && box.children == old(box.children) + [child]
      ensures toggle == child && menu == old(menu)
      ensures child.id == RenamedId(box.id, "-Toggle", old(child.id)) && child.handlers == old(child.handlers) + ["onclick"]
      ensures child.classes == old(child.classes) + {"WToggle"}
    {
      var added := box.Add(child);
      r := SetToggleButton(added);
    }

    /** The second add: the child goes into the box and becomes the hidden menu. */
    method AddMenu(child: Element) returns (r: Element)
      requires child != box
      modifies this`menu, box`children, child`parent, child`id, child`handlers, child`classes, child`hidden
      ensures r == child && child.parent == box && box.children == old(box.children) + [child]
      ensures menu == child
      ensures child.id == RenamedId(box.id, ":Content", old(child.id)) && child.handlers == old(child.handlers) + ["onclick"]
      ensures child.classes == old(child.classes) + {"WMenu"} && child.hidden
    {
      var added := box.Add(child);
      menu := added;
      if box.id != "" {
        added.id := box.id + ":Content";
      }
      added.AddClass("WMenu");
      added.AddJavascriptEvent("onclick");
      added.Hide();
      r := added;
    }
  }

  /** `Help`: a drop-down menu whose toggle is a clickable help image and
      whose menu is a vertical layout holding the help label. */
  class Help {
    const dropDown: DropDownMenu
    const textLabel: Element
    var addsTo: Element

    /** `Help._create`. */
    constructor (id: Option<string>)
      ensures fresh(dropDown) && fresh(dropDown.box) && dropDown.box.id == ContainerId(id)
      ensures dropDown.toggle != null && dropDown.menu != null
      ensures fresh(dropDown.toggle) && fresh(dropDown.menu) && fresh(textLabel)
      ensures dropDown.box.children == [dropDown.toggle, dropDown.menu]
      ensures dropDown.toggle.kind == "Image" && dropDown.toggle.id == RenamedId(ContainerId(id), "-Toggle", "")
      ensures dropDown.toggle.classes == {"WToggle", "Clickable"}
      ensures dropDown.toggle.attributes == map["src" := "images/help.png"]
      ensures dropDown.menu.kind == "Vertical" && dropDown.menu.id == RenamedId(ContainerId(id), ":Content", "")
      ensures dropDown.menu.hidden && dropDown.menu.classes == {"WMenu"}
      ensures textLabel.kind == "Label" && textLabel.parent == dropDown.menu && dropDown.menu.children == [textLabel]
      ensures addsTo == dropDown.menu
    {
      var d := new DropDownMenu(id);
      var image := new Element("Image", "");
      image.SetAttribute("src", "images/help.png");
      var toggle := d.Add(image);
      toggle.AddClass("Clickable");
      var layout, l := NewHelpLayout();
      var menu := d.Add(layout);
      dropDown := d;
      textLabel := l;
      addsTo := layout;
    }
  }

  /** The vertical layout that becomes a help menu, holding its label. */
  method NewHelpLayout() returns (layout: Element, helpLabel: Element)
    ensures fresh(layout) && fresh(helpLabel)
    ensures layout.kind == "Vertical" && layout.id == "" && layout.classes == {} && !layout.hidden
    ensures layout.children == [helpLabel] && helpLabel.kind == "Label" && helpLabel.parent == layout
  {
    layout := new Element("Vertical", "");
    helpLabel := new Element("Label", "");
    helpLabel := layout.Add(helpLabel);
  }

  /** `CollapsedText`: a drop-down menu whose toggle is a label showing the
      text cut to `lengthLimit` characters, and whose menu, added when the
      text is too long, shows it in full. */
  class CollapsedText {
    const dropDown: DropDownMenu
    const textLabel: Element
    var lengthLimit: int
    var text: string
    var completeText: Element?

    /** The label is the toggle, inside the menu's box. */
    ghost predicate Valid()
      reads this, dropDown, textLabel
    {
      textLabel != dropDown.box && textLabel.parent == dropDown.box && dropDown.toggle == textLabel
    }

    /** `CollapsedText._create`: a 40-character limit and no text yet. */
    constructor (id: Option<string>)
      ensures Valid() && fresh(dropDown) && fresh(dropDown.box) && fresh(textLabel)
      ensures dropDown.box.id == ContainerId(id) && dropDown.box.children == [textLabel]
      ensures dropDown.toggle == textLabel && dropDown.menu == null
      ensures textLabel.kind == "Label" && textLabel.id == RenamedId(ContainerId(id), "-Toggle", "") && textLabel.classes == {"WToggle"}
      ensures lengthLimit == 40 && text == "" && completeText == null
    {
      var d := new DropDownMenu(id);
      var l := new Element("Label", "");
      l := d.Add(l);
      dropDown := d;
      textLabel := l;
      lengthLimit := 40;
      text := "";
      completeText := null;
    }

    /** `setText`: only stores the text; it is shown at render time. */
    method SetText(t: string)
      modifies this`text
      ensures text == t
    {
      text := t;
    }

    /** `CollapsedText._render`. A text longer than the limit gets the
        hover handlers on the box, the shortened label, and one more element
        added to the menu holding it in full; the first such element becomes
        the menu. */
    method Render()
      requires Valid()
      modifies textLabel`text, dropDown.box`handlers, dropDown.box`children, dropDown`toggle, dropDown`menu, this`completeText
      ensures Valid()
      ensures textLabel.text == CollapsedLabel(text, lengthLimit)
      ensures |text| <= lengthLimit ==>
        unchanged(dropDown.box`handlers, dropDown.box`children, dropDown`toggle, dropDown`menu, this`completeText)
      ensures |text| > lengthLimit ==>
        && completeText != null && fresh(completeText) && completeText.text == text
        && dropDown.box.handlers == old(dropDown.box.handlers) + ["onmouseover", "onmouseout"]
        && dropDown.box.children == old(dropDown.box.children) + [completeText]
        && dropDown.toggle == old(dropDown.toggle)
        && (old(dropDown.menu) == null ==>
              dropDown.menu == completeText && completeText.hidden && "WMenu" in completeText.classes)
        && (old(dropDown.menu) != null ==> dropDown.menu == old(dropDown.menu))
    {
      if |text| > lengthLimit {
        var holder := textLabel.parent;
        holder.AddJavascriptEvent("onmouseover");
        holder.AddJavascriptEvent("onmouseout");
        textLabel.SetText(CollapsedLabel(text, lengthLimit));
        var full := new Element("Label", "");
        full := dropDown.Add(full);
        completeText := full;
        full.SetText(text);
      } else {
        textLabel.SetText(text);
      }
    }
  }

  // ---------------------------------------------------------------------------
  // Autocomplete

  /** `Autocomplete`: a text box whose first external add becomes the menu
      of suggestions; the box's own constructor makes the text box its first
      add. */
  class Autocomplete {
    const box: Element
    var blockTab: bool
    var menu: Element?
    var userInput: Element?

    /** `Autocomplete._create`: the box is `id + "Container"`; the text box
        `id` is added as the user input, with autocompletion off, the
        key-down and key-up handlers, and class `WToggle`. */
    constructor (id: string)
      ensures fresh(box) && box.id == id + "Container"
      ensures blockTab && menu == null && userInput != null && fresh(userInput)
      ensures box.children == [userInput] && userInput.parent == box
      ensures userInput.kind == "TextBox" && userInput.id == id
      ensures userInput.attributes == map["autocomplete" := "off"]
      ensures userInput.handlers == ["onkeydown", "onkeyup"] && userInput.classes == {"WToggle"}
    {
      box := new Element("Box", id + "Container");
      blockTab := true;
      menu := null;
      userInput := null;
      new;
      var input := new Element("TextBox", id);
      input := Add(input);
      input.SetAttribute("autocomplete", "off");
      input.AddJavascriptEvent("onkeydown");
      input.AddJavascriptEvent("onkeyup");
      input.AddClass("WToggle");
    }

    /** `Autocomplete.add`. Unlike the drop-down menu, the menu is renamed
        after the box unconditionally. */
    method Add(child: Element) returns (r: Element)
      requires child != box
      modifies this`userInput, this`menu, box`children, child`parent, child`id, child`classes, child`hidden
      ensures r == child && child.parent == box && box.children == old(box.children) + [child]
      ensures old(userInput) == null ==>
        userInput == child && menu == old(menu) && unchanged(child`id, child`classes, child`hidden)
      ensures old(userInput) != null && old(menu) == null ==>
        && userInput == old(userInput) && menu == child
        && child.id == box.id + ":Content" && child.classes == old(child.classes) + {"WMenu"} && child.hidden
      ensures old(userInput) != null && old(menu) != null ==>
        userInput == old(userInput) && menu == old(menu) && unchanged(child`id, child`classes, child`hidden)
    {
      if userInput == null {
        r := box.Add(child);
        userInput := r;
      } else if menu == null {
        r := AddMenu(child);
      } else {
        r := box.Add(child);
      }
    }

    /** The first external add: the child becomes the hidden menu. */
    method AddMenu(child: Element) returns (r: Element)
      requires child != box
      modifies this`menu, box`children, child`parent, child`id, child`classes, child`hidden
      ensures r == child && child.parent == box && box.children == old(box.children) + [child]
      ensures menu == child && child.id == box.id + ":Content"
      ensures child.classes == old(child.classes) + {"WMenu"} && child.hidden
    {
      r := box.Add(child);
      menu := r;
      r.id := box.id + ":Content";
      r.AddClass("WMenu");
      r.Hide();
    }

    /** `jsShowIfActive`, as the conditions its script tests. */
    function JsShowIfActive(): (r: seq<string>)
      reads this`blockTab
      ensures "event.keyCode != TAB" in r <==> blockTab
    {
      ShowConditions(blockTab)
    }
  }

  // ---------------------------------------------------------------------------
  // Accordion

  /** The image the toggle shows: "hide" while open, "show" while closed. */
  function ToggleImage(open: bool): string
  {
    if open then "images/hide.gif" else "images/show.gif"
  }

  /** The hidden boolean input that mirrors an accordion's state. Its
      'valueChanged' signal is connected to the accordion's `open` (on True)
      and `close` (on False); it fires only when the value changes. */
  class HiddenBooleanValue {
    const input: Element
    var value: bool
    var listener: Accordion?

    constructor (id: string)
      ensures fresh(input) && input.kind == "HiddenBooleanValue" && input.id == id
      ensures !value && listener == null
    {
      input := new Element("HiddenBooleanValue", id);
      value := false;
      listener := null;
    }

    /** The toggle image of the connected accordion, as a frame. */
    function Images(): set<Element>
      reads this`listener
    {
      if listener != null then {listener.toggleImage} else {}
    }

    /** Its content element, as a frame. */
    function Contents(): set<Element>
      reads this`listener
    {
      if listener != null then {listener.contentElement} else {}
    }

    /** `setValue`: store the value and, when it changed, emit
        'valueChanged', which opens or closes the connected accordion. */
    method SetValue(v: bool)
      requires listener != null ==> listener.Valid() && listener.isOpen == this
      modifies this`value, Images()`attributes, Contents()`hidden
      decreases if value == v then 0 else 2
      ensures value == v && listener == old(listener)
      ensures listener == null || old(value) == v ==> unchanged(Images()`attributes, Contents()`hidden)
      ensures listener != null && old(value) != v ==>
        && listener.toggleImage.attributes == old(listener.toggleImage.attributes)["src" := ToggleImage(v)]
        && listener.contentElement.hidden == !v
    {
      if value != v {
        value := v;
        if listener != null {
          if v {
            listener.Open();
          } else {
            listener.Close();
          }
        }
      }
    }
  }

  /** The toggle bar `Accordion._create` builds: a box holding the toggle
      image, the label and the hidden open/closed value. */
  method NewToggleBar(id: string) returns (bar: Element, image: Element, freeText: Element, value: HiddenBooleanValue)
    ensures fresh(bar) && fresh(image) && fresh(freeText) && fresh(value) && fresh(value.input)
    ensures bar.kind == "Box" && bar.parent == null && bar.classes == {"WAccordionToggle"} && bar.handlers == []
    ensures bar.children == [image, freeText, value.input]
    ensures image.kind == "Image" && image.id == id + "Image" && image.classes == {"WLeft"}
    ensures image.parent == bar && freeText.parent == bar && value.input.parent == bar
    ensures freeText.kind == "FreeText" && value.input.id == id + "Value"
    ensures !value.value && value.listener == null
  {
    bar := new Element("Box", "");
    bar.AddClass("WAccordionToggle");
    image := new Element("Image", id + "Image");
    image := bar.Add(image);
    image.AddClass("WLeft");
    freeText := new Element("FreeText", "");
    freeText := bar.Add(freeText);
    value := new HiddenBooleanValue(id + "Value");
    var input := bar.Add(value.input);
  }

  /** The elements `Accordion._create` builds: the accordion's own box
      holding the toggle bar and the content box. */
  method NewAccordionTree(id: string)
    returns (b: Element, bar: Element, image: Element, freeText: Element, value: HiddenBooleanValue, content: Element)
    ensures fresh(b) && fresh(bar) && fresh(image) && fresh(freeText) && fresh(value) && fresh(value.input) && fresh(content)
    ensures b.kind == "Vertical" && b.id == id && b.classes == {"WAccordion"}
    ensures b.children == [bar, content] && bar.parent == b && content.parent == b
    ensures bar.classes == {"WAccordionToggle"} && bar.handlers == []
    ensures bar.children == [image, freeText, value.input]
    ensures image.id == id + "Image" && image.classes == {"WLeft"} && image != content
    ensures value.input.id == id + "Value" && !value.value && value.listener == null
    ensures content.id == id + "Content" && content.classes == {"WContent"}
  {
    b := new Element("Vertical", id);
    b.AddClass("WAccordion");
    bar, image, freeText, value := NewToggleBar(id);
    bar := b.Add(bar);
    content := new Element("Box", id + "Content");
    content.AddClass("WContent");
    content := b.Add(content);
  }

  /** `Accordion`: a toggle bar (image, label, hidden value) above a content
      box that the toggle opens and closes. */
  class Accordion {
    const box: Element
    const toggle: Element
    const toggleImage: Element
    const toggleLabel: Element
    const isOpen: HiddenBooleanValue
    const contentElement: Element
    var addsTo: Element
    var scriptAdded: bool

    /** The hidden value is connected to this accordion, and the image and
        the content are two elements. */
    ghost predicate Valid()
      reads isOpen`listener
    {
      isOpen.listener == this && toggleImage != contentElement
    }

    /** The state `open` or `close` leaves: content shown exactly when open,
        the matching image, and the hidden value equal to `open`. */
    ghost predicate Shows(open: bool)
      reads contentElement`hidden, toggleImage`attributes, isOpen`value
    {
      && contentElement.hidden == !open
      && "src" in toggleImage.attributes && toggleImage.attributes["src"] == ToggleImage(open)
      && isOpen.value == open
    }

    /** `Accordion._create`: built closed, with the click handler not yet
        attached. */
    constructor (id: string)
      ensures Valid() && Shows(false) && !scriptAdded
      ensures box.kind == "Vertical" && box.id == id && box.classes == {"WAccordion"}
      ensures box.children == [toggle, contentElement] && toggle.parent == box && contentElement.parent == box
      ensures toggle.classes == {"WAccordionToggle"} && toggle.handlers == []
      ensures toggle.children == [toggleImage, toggleLabel, isOpen.input]
      ensures toggleImage.id == id + "Image" && toggleImage.classes == {"WLeft"}
      ensures isOpen.input.id == id + "Value"
      ensures contentElement.id == id + "Content" && contentElement.classes == {"WContent"}
      ensures addsTo == contentElement
      ensures fresh(box) && fresh(toggle) && fresh(toggleImage) && fresh(toggleLabel)
      ensures fresh(isOpen) && fresh(isOpen.input) && fresh(contentElement)
    {
      var b, t, image, freeText, value, content := NewAccordionTree(id);
      box := b;
      toggle := t;
      toggleImage := image;
      toggleLabel := freeText;
      isOpen := value;
      contentElement := content;
      addsTo := content;
      scriptAdded := false;
      new;
      value.listener := this;
      Close();
    }

    /** `Accordion.open`. Setting the hidden value re-enters `open` once
        through the connection; that second call changes nothing. */
    method Open()
      requires Valid()
      modifies toggleImage`attributes, contentElement`hidden, isOpen`value
      decreases if isOpen.value then 1 else 3
      ensures Shows(true)
      ensures toggleImage.attributes == old(toggleImage.attributes)["src" := ToggleImage(true)]
    {
      toggleImage.SetAttribute("src", ToggleImage(true));
      contentElement.Show();
      isOpen.SetValue(true);
    }

    /** `Accordion.close`: the exact inverse of `open`. */
    method Close()
      requires Valid()
      modifies toggleImage`attributes, contentElement`hidden, isOpen`value
      decreases if isOpen.value then 3 else 1
      ensures Shows(false)
      ensures toggleImage.attributes == old(toggleImage.attributes)["src" := ToggleImage(false)]
    {
      toggleImage.SetAttribute("src", ToggleImage(false));
      contentElement.Hide();
      isOpen.SetValue(false);
    }

    /** `Accordion._render`: attach the toggle's click handler the first time only. */
    method Render()
      modifies toggle`handlers, this`scriptAdded
      ensures scriptAdded
      ensures toggle.handlers == old(toggle.handlers) + (if old(scriptAdded) then [] else ["onclick"])
    {
      if !scriptAdded {
        toggle.AddJavascriptEvent("onclick");
        scriptAdded := true;
      }
    }

    /** Rendering twice attaches the handler at most once. */
    method RenderTwice()
      modifies toggle`handlers, this`scriptAdded
      ensures toggle.handlers == old(toggle.handlers) + (if old(scriptAdded) then [] else ["onclick"])
    {
      Render();
      Render();
    }

    /** Opening then closing lands in the closed state, with the image
        attribute map as closing alone would leave it; opening twice is
        opening once. */
    method OpenThenClose()
      requires Valid()
      modifies toggleImage`attributes, contentElement`hidden, isOpen`value
      ensures Shows(false)
      ensures toggleImage.attributes == old(toggleImage.attributes)["src" := ToggleImage(false)]
    {
      Open();
      Close();
    }

    method OpenTwice()
      requires Valid()
      modifies toggleImage`attributes, contentElement`hidden, isOpen`value
      ensures Shows(true)
      ensures toggleImage.attributes == old(toggleImage.attributes)["src" := ToggleImage(true)]
    {
      Open();
      Open();
    }
  }

  // ---------------------------------------------------------------------------
  // ActionBox, PageControlPlacement

  /** `ActionBox`: a header label over a list of actions; links added to the
      box go into the list. */
  class ActionBox {
    const box: Element
    const header: Element
    const actions: Element

    /** The box and its action list are two elements, the list a `List`. */
    ghost predicate Valid()
    {
      box != actions && actions.kind == "List"
    }

    /** `ActionBox._create`. */
    constructor (id: string)
      ensures Valid() && fresh(box) && fresh(header) && fresh(actions)
      ensures box.kind == "Vertical" && box.id == id && box.classes == {"WActionBox"}
      ensures box.children == [header, actions] && header.parent == box && actions.parent == box
      ensures header.kind == "Label" && header.classes == {"WActionBoxHeader"}
      ensures actions.kind == "List" && actions.children == []
    {
      var b := new Element("Vertical", id);
      b.AddClass("WActionBox");
      var h := new Element("Label", "");
      h := b.Add(h);
      h.AddClass("WActionBoxHeader");
      var a := new Element("List", "");
      a := b.Add(a);
      box := b;
      header := h;
      actions := a;
    }

    /** `ActionBox.add`: an element whose class is exactly `Link` (not a
        subclass) goes into the action list; anything else into the box. */
    method Add(child: Element) returns (r: Element)
      requires Valid() && child != box
      modifies box`children, actions`children, child`parent
      ensures r == child
      ensures child.kind == "Link" ==>
        actions.children == old(actions.children) + [child] && child.parent == actions && unchanged(box`children)
      ensures child.kind != "Link" ==>
        box.children == old(box.children) + [child] && child.parent == box && unchanged(actions`children)
    {
      if child.kind == "Link" {
        r := actions.Add(child);
      } else {
        r := box.Add(child);
      }
    }
  }

  /** `PageControlPlacement`: where a page control is to be placed; the
      control is named by the element's id. */
  class PageControlPlacement {
    const box: Element
    var control: Option<string>

    /** `PageControlPlacement._create`. */
    constructor (id: Option<string>)
      ensures fresh(box) && box.id == (if id.Some? then id.value else "") && box.children == []
      ensures control == id
    {
      box := new Element("Box", if id.Some? then id.value else "");
      control := id;
    }

    /** `PageControlPlacement._render`: add a `WLoading` row holding the
        throbber image and the placement label. Without a control name the
        label step raises, after the row and image are added; `ok` is false
        then. */
    method Render() returns (ok: bool, row: Element)
      modifies box`children
      ensures ok <==> control.Some?
      ensures fresh(row) && row.parent == box && box.children == old(box.children) + [row]
      ensures row.kind == "Horizontal" && row.classes == {"WLoading"}
      ensures |row.children| == (if ok then 2 else 1) && row.children[0].kind == "Image"
      ensures row.children[0].attributes == map["src" := "images/throbber.gif"]
      ensures ok ==> row.children[1].kind == "Label" && row.children[1].text == PlacementLabel(control.value)
    {
      row := new Element("Horizontal", "");
      row.AddClass("WLoading");
      row := box.Add(row);
      var image := new Element("Image", "");
      image.SetAttribute("src", "images/throbber.gif");
      image := row.Add(image);
      if control.None? {
        return false, row;
      }
      var caption := new Element("Label", "");
      caption.SetText(PlacementLabel(control.value));
      caption := row.Add(caption);
      ok := true;
    }
  }
}

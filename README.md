# Widget factory and composite containers, modelled in Dafny

This project models two cooperating parts of a Python widget engine.

**The product registry and template builder** (`WebElements/Factory.py`).
- A `Factory` keeps a dictionary from lower-cased class name to product class.
  - `addProduct` writes into it, and the last write of a name wins.
  - `build` looks a class name up case-insensitively. A miss yields the inert `Invalid()` placeholder instead of an error.
- `Composite` folds a sequence of factories into one dictionary. A named factory also contributes each product under `name.lower() + "-" + key`.
- `buildFromTemplate` walks a template tree and builds the element tree it describes. Along the way it fills the caller's accessor dictionary.

**The composite containers** (`thedom/containers.py`). These override the generic `add` of a box to give roles to the elements added to them:
- the drop-down menu's toggle and menu, and the same in `Help`, `CollapsedText` and `Autocomplete`;
- `TabContainer`'s tabs with their selection;
- `Accordion`'s open/closed state, mirrored in a hidden boolean input;
- `ActionBox`'s list of links.

It also models three small string rules: the collapsed-text label, the placement label and the auto-complete key check.

The model has seven modules:
- `Common`: None, string truthiness, `lower()`, `endswith` and Python slicing.
- `Registry`: product classes as opaque tokens, the lookup, and the composite fold as pure functions.
- `Templates`: the tree build as a pure recursive function over an arena of element records.
- `Factory`: the `Factory` class, whose `products` map is updated in place.
  - The `Composite` constructor runs the source's nested loops.
  - `BuildFromTemplate` is a recursive method that appends to an `Arena` and writes an `Accessors` dictionary in place. It is proved to compute `Templates.BuildTree`.
- `Elements`: an `Element` class that stands in for the engine's element classes. Those classes are not part of this model. It keeps id, classes, hidden flag, children, parent, text, attributes and the names of the events that have handlers.
- `Tabs` and `Containers`: one Dafny class per container. Each method updates the container's fields and its elements step by step, as the Python does.

Signal connections are direct calls:
- a tab's `'selected'` signal calls its container's `SelectTab`;
- the accordion's hidden value calls `Open` or `Close` when it changes.

These calls make the methods mutually recursive. Their `decreases` clauses show that each re-entrant call does nothing further and the recursion stops.

The model follows the code in these cases:
- **Qualified keys are lower-cased.** Composing factory "A" with a `widget` gives `a-widget`, not `A-widget` (`WebElements/Factory.py:103`, `Registry.ComposeTwoNamedFactories`).
- **A third element added to a drop-down menu goes into the drop-down's own box.** It is not placed inside the menu body (`thedom/containers.py:84`).
- **`Autocomplete`'s own constructor makes the first add.** It adds the text box, so the first external add becomes the menu (`thedom/containers.py:168`).

## Model

| member | source | states |
|---|---|---|
| Registry.Build | WebElements/Factory.py:27-41 | A build constructs a product exactly when the lower-cased class name (or `""` for a missing one) is registered. The product is the one registered under that key, built from exactly the given id, name and parent. Otherwise it is `Invalid`. |
| Registry.BuildCaseInsensitive | WebElements/Factory.py:35-36 | Names equal up to case build the same thing; a missing class name builds what `""` builds |
| Registry.BuildAfterAddProduct | WebElements/Factory.py:25 | After adding a product, every spelling of its class name builds it, and every other name builds what it built before |
| Registry.QualifiedAt | WebElements/Factory.py:101-103 | Each product of a named factory appears under `name.lower() + "-" + key` with the same class; every qualified key contains a dash |
| Registry.QualifiedUpdate | WebElements/Factory.py:102-103 | Qualifying one more product adds exactly its qualified entry |
| Registry.Qualified | WebElements/Factory.py:101-103 | Every qualified key is `name.lower() + "-"` followed by a key of the factory's products |
| Registry.Writes | WebElements/Factory.py:100-103 | One factory writes its products' keys and, when named, their qualified keys; a qualified entry overrides a bare key equal to it, because it is written after `update` |
| Registry.Compose | WebElements/Factory.py:99-103 | Every key any factory writes is in the composite, and the last factory's writes win |
| Registry.ComposeLastWriter | WebElements/Factory.py:99-103 | A composite key holds what the last factory writing it wrote |
| Registry.ComposeKeys | WebElements/Factory.py:99-103 | The composite's keys are exactly the keys written by some factory |
| Registry.ComposeKeepsEveryKey | WebElements/Factory.py:99-103 | No product key of any input factory is missing from the composite, nor is its qualified key for a named factory |
| Registry.ComposeBareName | WebElements/Factory.py:99-100 | A bare class name resolves to the product of the last factory that has it |
| Registry.ComposeQualifiedName | WebElements/Factory.py:101-103 | A named factory's product stays under its qualified name unless a later factory writes that exact key |
| Registry.ComposeNested | WebElements/Factory.py:96-97 | A composite has the empty name, so nesting it adds its products under their own keys only |
| Registry.ComposeTwoNamedFactories | WebElements/Factory.py:96-103 | Composing "A" and "B", both with `widget`, gives `widget` from B, `a-widget` from A and `b-widget` from B |
| Factory.Factory.constructor | WebElements/Factory.py:16-18 | A new factory has its name and no products |
| Factory.Factory.AddProduct | WebElements/Factory.py:20-25 | The class is stored under its lower-cased name, replacing an earlier entry; other keys are unchanged |
| Factory.Factory.Composite | WebElements/Factory.py:96-103 | The composite has the empty name and the products of the factories' writes applied in order (`Registry.Compose`) |
| Factory.Factory.MergeAll | WebElements/Factory.py:99-103 | The loop over the factories computes `Compose` of their snapshots |
| Factory.Factory.Merge | WebElements/Factory.py:100-103 | One factory's step adds its products, then, when it is named, its qualified products |
| Factory.Factory.AddQualified | WebElements/Factory.py:101-103 | The inner loop adds exactly the qualified entries of the factory |
| Factory.Factory.BuildFromTemplate | WebElements/Factory.py:43-87 | The new arena, the new accessors and the returned root are exactly `Templates.BuildTree` of the old ones |
| Factory.Factory.AppendLeaf | WebElements/Factory.py:57-61 | A falsy or string template appends a single placeholder or text node, whatever the other arguments |
| Factory.Factory.OpenNode | WebElements/Factory.py:63-75 | The root is built, prefixed only when it has no prefix, given the script container and properties, appended and recorded under its key |
| Factory.Factory.AddChildren | WebElements/Factory.py:77-83 | The child loop computes `Templates.BuildChildren` over all child templates |
| Factory.Factory.AddChildAt | WebElements/Factory.py:81-83 | One round builds child `i` with only parent and accessors, then adds it to the root |
| Factory.RecordAccessor | WebElements/Factory.py:71-75 | With a dictionary passed, the node is recorded under its accessor, else its id, else not at all |
| Factory.Arena.AddChildElement | WebElements/Factory.py:83 | Appends the child to the parent's children and makes the parent its parent |
| Factory.Arena.InsertVariables | WebElements/Factory.py:84-85 | Only the root's variables change |
| Templates.BuildTree | WebElements/Factory.py:43-87 | A build only appends to the arena; the root is the first new element; an accessor dictionary is present after exactly when before |
| Templates.BuildChildren | WebElements/Factory.py:77-83 | Building children changes no earlier element except the root's children list |
| Templates.BuildLeaf | WebElements/Factory.py:57-61 | A falsy template yields the placeholder and a non-empty string a text node, with no recursion and no accessor written |
| Templates.BuildRoot | WebElements/Factory.py:63-70 | The root's kind, id, name, parent, prefix, script container, properties and variables follow the described rules. The prefix is set only when `idPrefix` is truthy and the instance has none. Variables are set only when the dictionary is non-empty. |
| Templates.RootShape | WebElements/Factory.py:57-66 | Any build's root is of the kind and id its template names |
| Templates.ChildrenBuilt | WebElements/Factory.py:81-83 | Building `n` children appends `n` new elements, in template order, each parented to the root and of its template's kind and id |
| Templates.BuildChildrenInOrder | WebElements/Factory.py:77-83 | A node that accepts children gets one per child template, in declared order, each the element its template describes; one that does not gets none and nothing below it is built |
| Templates.AccessorsRecorded | WebElements/Factory.py:71-75 | With a dictionary, a build writes exactly the keys of its keyed nodes, each to an element of the new subtree, and keeps every other entry |
| Templates.AccessorsRecordedChildren | WebElements/Factory.py:81-82 | The children's builds write exactly their subtrees' keys |
| Templates.RootAccessor | WebElements/Factory.py:71-75 | A node is recorded under its accessor, else its id, else not at all. A descendant with the same key overwrites it, because the parent is written first. |
| Templates.OnlyRootConfigured | WebElements/Factory.py:82 | Id prefix, script container and variables reach the root only; every other new element is as constructed |
| Templates.ChildrenAsConstructed | WebElements/Factory.py:81-83 | Every element built below a node is as constructed |
| Tabs.Tab.constructor | thedom/containers.py:270-275 | A tab's label has id `id + "Label"`, class `WTabLabel`, the tab as parent; the tab is unselected |
| Tabs.Tab.Select | thedom/containers.py:302-309 | 'selected' is emitted, running the connected container's `selectTab`, which afterwards has the tab under this tab's key selected. For an unconnected tab, or one registered under its key, the tab and label gain exactly the class `WSelected`. Such a tab that was already selected emits once. A newly selected one emits twice, after the previous one is unselected and its box and label lose exactly `WSelected`. A tab whose key now names another tab hands the selection to that tab. |
| Tabs.Tab.Mark | thedom/containers.py:306-308 | The selection flag is set, the box and label gain exactly `WSelected`, and 'selected' is logged |
| Tabs.Tab.Unselect | thedom/containers.py:311-318 | The flag is cleared, the box and label lose exactly `WSelected`, and 'unselected' is emitted |
| Tabs.Tab.Remove | thedom/containers.py:289-291 | The label and then the tab are removed from their parents' children (first occurrence) and lose their parent; no other field changes |
| Tabs.TabContainer.constructor | thedom/containers.py:332-344 | No tabs and nothing selected. The layout carries the id and `W` + class name and holds the `WTabLabels` strip and the `WTabContents` box. The vertical variant swaps the layout kinds. |
| Tabs.TabContainer.SelectTab | thedom/containers.py:346-357 | A missing key reports not found and changes nothing. Re-selecting the selected tab changes and emits nothing. Otherwise the previous tab is unselected before the new one is selected: its box and label lose exactly `WSelected`, and the new tab's gain it. Exactly the selected tab stays flagged. |
| Tabs.TabContainer.Switch | thedom/containers.py:353-357 | The old tab is unselected and loses `WSelected`; the new one is recorded, then selected and gains it; exclusivity is kept |
| Tabs.TabContainer.Release | thedom/containers.py:353-354 | The selected tab, if any, is unselected and its box and label lose exactly `WSelected`; nothing else changes |
| Tabs.TabContainer.Take | thedom/containers.py:356-357 | `selectedTab` is assigned before the tab's signal, so the re-entrant `selectTab` is a no-op; the tab emits once and gains exactly `WSelected` |
| Tabs.TabContainer.Add | thedom/containers.py:359-375 | A tab is registered under its id, gets the label id and click handler, is connected, and goes to the strips with class `WTab`. It is selected when none was selected or it was pre-marked: its box then gains exactly `WSelected` and `WTab`, its label `WSelected`, and the previous tab loses `WSelected`. Otherwise the tab's box gains only `WTab`, its label keeps its classes, and the selected tab keeps its flag, signal log and classes. Any other element goes to the node and no selection state changes. Only the fields `add` sets are changed. Exclusivity is kept. |
| Tabs.TabContainer.AddTab | thedom/containers.py:363-373 | The tab branch of `add`, as above |
| Tabs.TabContainer.Enlist | thedom/containers.py:364-369 | Registration, then selection in the two cases where `add` selects, with the classes moving as in `selectTab`; otherwise neither tab's classes change |
| Tabs.TabContainer.SelectIfFirst | thedom/containers.py:368-369 | Selects the tab when no tab is selected or it was pre-marked, with the classes moving as in `selectTab`; otherwise neither tab's flag, signal log or classes change |
| Tabs.TabContainer.Register | thedom/containers.py:364-367 | The handler, the `tabs` entry, the label id and the connection; selection untouched |
| Tabs.TabContainer.Label | thedom/containers.py:364-366 | The label gets the click handler and id `id + "Label"` |
| Tabs.TabContainer.Enroll | thedom/containers.py:365-367 | The tab is stored under its id and connected under that key |
| Tabs.TabContainer.Place | thedom/containers.py:371-373 | The label goes to the strip; the tab gets `WTab` and goes to the content box; selection state unchanged |
| Containers.ContainerId | thedom/containers.py:43 | The drop-down box id is empty exactly when no truthy id is given, else the id followed by `Container` |
| Containers.RenamedId | thedom/containers.py:58-78 | A toggle or menu is renamed only when the box has an id, and then to exactly the box's id followed by `-Toggle` or `:Content` |
| Containers.CollapsedLabel | thedom/containers.py:134-143 | A text within the limit is shown as it is; a longer one ends in `...` |
| Containers.PlacementLabel | thedom/containers.py:553-556 | The label is the control's name followed by a text ending in " here..." |
| Containers.CollapsedLabelFits | thedom/containers.py:133-143 | A text within the limit is shown unchanged. With a limit of at least 3, a longer text becomes exactly `limit` characters: its prefix, then `...`. |
| Containers.CollapsedLabelSmallLimit | thedom/containers.py:134-138 | With a limit below 3, Python's negative slice makes the label `limit` characters longer than the text |
| Containers.PlacementPlural | thedom/containers.py:553-556 | The label says "go here..." exactly when the name ends in `s` or `S`, else "goes here..." |
| Containers.ShowConditions | thedom/containers.py:212-214 | The script tests that the input has a value, and tests for TAB exactly when `blockTab` is set |
| Containers.Autocomplete.JsShowIfActive | thedom/containers.py:208-214 | The TAB check is present exactly when the autocomplete's `blockTab` is set |
| Containers.DropDownMenu.constructor | thedom/containers.py:42-47 | Box id per `ContainerId`; no toggle or menu; `openOnly` false and no parent element |
| Containers.DropDownMenu.SetToggleButton | thedom/containers.py:49-66 | The button becomes the toggle, is renamed after the box if it has an id, gets the click handler and `WToggle` |
| Containers.DropDownMenu.Add | thedom/containers.py:68-84 | The 1st add becomes the toggle and the 2nd the hidden `WMenu` menu, each renamed after the box. Later adds leave both roles and the child's state unchanged. Every add appends to the box. |
| Containers.DropDownMenu.AddToggle | thedom/containers.py:73-74 | The first add: appended and made the toggle |
| Containers.DropDownMenu.AddMenu | thedom/containers.py:75-82 | The second add: appended, renamed, `WMenu`, click handler, hidden |
| Containers.Help.constructor | thedom/containers.py:97-102 | The help image, with src `images/help.png`, is the clickable toggle. The menu is a hidden vertical layout holding the label, and `addsTo` is that layout. The drop-down, its box, the image, the layout and the label are all new objects. |
| Containers.CollapsedText.constructor | thedom/containers.py:117-122 | The label is the toggle; limit 40; empty text |
| Containers.CollapsedText.SetText | thedom/containers.py:124-128 | Only stores the text |
| Containers.CollapsedText.Render | thedom/containers.py:130-143 | The label shows `CollapsedLabel`. An overflowing text also adds the hover handlers and a new element holding the full text. On the first render that element becomes the hidden menu; a menu set earlier stays the menu, and the label stays the toggle. A text that fits changes nothing else. |
| Containers.Autocomplete.constructor | thedom/containers.py:161-172 | The box is `id + "Container"`. The text box `id` is its first add: the user input, with autocompletion off, both key handlers and `WToggle`. `blockTab` is set and there is no menu yet. |
| Containers.Autocomplete.Add | thedom/containers.py:190-206 | Without a user input the child becomes it. Otherwise the first add becomes the hidden `WMenu` menu, renamed unconditionally. Later adds only append. |
| Containers.Autocomplete.AddMenu | thedom/containers.py:199-204 | The menu step of `add` |
| Containers.NewHelpLayout | thedom/containers.py:100-101 | A fresh vertical layout holding a fresh label as its only child |
| Containers.HiddenBooleanValue.constructor | thedom/containers.py:423 | The hidden input has id `id + "Value"`, the value starts False and no accordion is connected yet |
| Containers.HiddenBooleanValue.SetValue | thedom/containers.py:428-429 | A change of value opens (True) or closes (False) the connected accordion; no change touches nothing |
| Containers.NewToggleBar | thedom/containers.py:418-423 | The toggle bar holds the `WLeft` image `id + "Image"`, the label and the hidden value `id + "Value"`, in that order |
| Containers.NewAccordionTree | thedom/containers.py:414-426 | The accordion box `WAccordion` holds the toggle bar and the `WContent` box `id + "Content"` |
| Containers.Accordion.constructor | thedom/containers.py:414-431 | Built connected and closed, with the click handler not yet attached, out of fresh elements |
| Containers.Accordion.Open | thedom/containers.py:450-456 | The content is shown, the image src is `images/hide.gif` and the value is True. Only the src entry of the image's attributes changes. |
| Containers.Accordion.Close | thedom/containers.py:458-464 | The exact inverse: content hidden, `images/show.gif`, value False |
| Containers.Accordion.Render | thedom/containers.py:433-436 | The click handler is attached only when not yet added, then the flag is set |
| Containers.Accordion.RenderTwice | thedom/containers.py:433-436 | Two renders attach the handler at most once |
| Containers.Accordion.OpenThenClose | thedom/containers.py:450-464 | Close undoes Open: the closed state, as closing alone would leave it |
| Containers.Accordion.OpenTwice | thedom/containers.py:450-456 | Opening twice leaves the state opening once leaves |
| Containers.ActionBox.constructor | thedom/containers.py:507-514 | The `WActionBox` box holds the `WActionBoxHeader` label and the action list |
| Containers.ActionBox.Add | thedom/containers.py:516-523 | An element whose class is exactly `Link` goes into the action list; any other, the action list itself included, into the box |
| Containers.PageControlPlacement.constructor | thedom/containers.py:545-547 | The control is the element's id |
| Containers.PageControlPlacement.Render | thedom/containers.py:549-556 | A `WLoading` row with the throbber image (src `images/throbber.gif`) is added. Its label is `PlacementLabel(control)`. Without a control name the source raises after the image; `ok` is false then. |

## Left out

- Script, HTML and style payloads are not kept. An attached handler is recorded by its event name only (`thedom/containers.py:61-64, 80, 135-137, 170-171, 364, 435`). This also covers `Autocomplete`'s `addScript` text, the `ClientSide` classes and the style entries set in `_render`.
- The element classes (`Base`, `Layout`, `Display`, `Inputs`, `HiddenInputs`, `Buttons`) are not part of this model. `Elements.Element` stands in for them:
  - `add` appends the child and makes the box its parent; `ensureUnique` and the child's old parent's list are not modelled;
  - `remove` drops the first occurrence from the parent's children;
  - an element is taken to be truthy whenever it is present.
- `DropDownMenu._render` and `Layout.Box._render`, which `CollapsedText._render` calls first, are not part of this model.
- Product classes are opaque tokens. An instance records only its kind, id, name, parent, prefix, script container, properties, children and variables. `setProperties` and `insertVariables` record their dictionaries.
- The placeholder and text nodes are taken to have no prefix and not to accept children. `addChildElementsTo` is taken to be the element itself.
- `build` prints a diagnostic on a miss; the print is not modelled. The Python 2 string-type test is the `Text` case of the template datatype. A template's missing `childElements` is the empty sequence.
- `Elements.WithoutFirst`: when the element is not among the parent's children, the model removes nothing, where Python's `list.remove` raises `ValueError`. `Tabs.Tab.Remove` on a tab never added anywhere reaches this case, because the label's parent is the tab but the tab's children do not list the label. Whether `Base.remove` lets that error through is not known here, since `Base` is not part of this model.
- `Tabs.Cleared`: when the previously selected tab shares its box or label with the newly selected tab, the contracts say nothing about the classes of that shared element. In the source a tab is its own element and creates its own label, so two tabs cannot share one.
- `Tabs.TabContainer.Add`: requires the added tab to be unconnected and not already a member. Re-adding a tab, or adding one connected to another container, is not modelled.
- `Tabs.TabContainer.SelectTab`: the `KeyError` the source raises for a missing key is returned as `found == false`, and nothing changes.
- `Containers.HiddenBooleanValue.SetValue`: fires its change signal only when the value changes, and a new hidden value starts as False. Both are assumptions, since the hidden input class is not part of this model.
- `Containers.Autocomplete.constructor`, `Containers.Accordion.constructor`, `Containers.ActionBox.constructor`, `Tabs.Tab.constructor` and `Tabs.TabContainer.constructor` take the id as a string. The source also accepts `None` here. It raises on a missing id for the first two. For the tab classes, what happens then depends on how `Base` stores a `None` id, and `Base` is not part of this model.
- `Common.Lower` lower-cases ASCII letters only, where Python's unicode `lower()` also maps other letters (such as `É` to `é`). `Registry.LookupKey`, `Registry.ProductKey` and `Registry.QualifierOf` inherit this, so a class name containing a non-ASCII capital is not matched case-insensitively by the model.
- `Containers.DropDownMenu.Add`, `Containers.Autocomplete.Add`, `Containers.ActionBox.Add` and `Tabs.TabContainer.Add` require that a box is never added to itself.
- `FormContainer.validators` and `Tab._render` (tab images) are not modelled, nor are the `Accordion` label accessors and `Tab` text accessors; they only forward to element classes that are not part of this model.
- The printing test only builds classes that are not part of this model.

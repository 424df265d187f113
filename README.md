# gpylint core, modelled in Dafny

gpylint is a GTK front end for pylint. It shows a project's classes as
boxes on a gaphas canvas, laid out by graphviz and joined by association
lines. It opens source files in editor windows and marks pylint messages on
their lines. It keeps its settings, such as the message types and checker
messages that are switched on, in a `ConfigParser` file. This project
models the core of that program and proves properties of the model:

- **Geometry of associations** (`constraints.dfy`, `handles_constraint.dfy`).
  `get_cross_point` and the `HandlesConstraint` solver step move the two
  hidden end handles of an association to where the line between the box
  centres leaves each box.
- **Canvas items** (`items.dfy`, `association.dfy`). `ClassBox` and its
  handles and ports, `AssociationLine`, `set_association`, and the parts of
  the gaphas canvas they use: items, solver constraints and connections.
- **Writers** (`canvas_writer.dfy`, `dot_writer.dfy`).
  `CanvasBackend.generate` turns a laid-out graphviz graph into registered
  boxes and associations. `CanvasWriter.get_values` and
  `DotWriter.get_values` build node attributes.
- **Settings** (`config_parser.dfy`, `settings.dfy`, `general_settings.dfy`,
  `pylint_messages.dfy`). The parts of `SafeConfigParser` the managers use,
  `SettingsManager`, `GeneralSettingsManager` and `PylintMessagesManager`.
- **Windows and editor** (`windows.dfy`, `editor.dfy`, `reporters.dfy`).
  The `WindowManager` registry, `Editor.add_message` with its colour
  dispatch, and `EditorReporter.add_message`.
- **Small helpers** (`helpers.dfy`, `runtime.dfy`). `get_pretty_name`, and
  the Python built-ins the core relies on, with their exceptions as values.

Each Python exception becomes an `Err`, or an `Option<PyError>` for
operations that return nothing. A singleton (`WindowManager`, the shared
parser) is one object the caller passes in. Classes whose fields the
source mutates (`ClassBox`, `AssociationLine`, the canvas, the parser, the
window registry, the editor buffer) are Dafny classes. Their methods are
proved against specification functions (`Merge`, `WithOption`,
`WithTypesOn`, `Registered`, `Wiring`, `FirstHit`, `MethodLines`).

Behaviours of the code that the model keeps:

- `get_cross_point` tests its second parameter against the wrong segment
  for some segment orientations (see Findings).
- A handle made by `_create_handle_and_port` starts at the box origin
  `(0, 0)`. `set_association` connects each line end to a sink box through
  the port that `add_moveable_handle` appended to the *other* box.
- `Box.__init__` and `AssociationLine.__init__` write `moveable`, which is
  not gaphas' `movable` flag, so their handles stay movable.
- The head-style table of `AssociationLine.draw` has two entries,
  `diamond` and `empty`. Any other `arrowhead` raises KeyError.
- A failed lookup in the `generate` registry, in
  `WindowManager.unregister` or in the editor's dispatch dictionary raises
  KeyError.
- `generate` reads node positions from the `pos` strings of graphviz's
  `dot` layout.
- `int()` skips whitespace around a number and between its sign and its
  digits, as Python 2 does.

## Model

| member | source | states |
|---|---|---|
| `PyRuntime.Split` | gpylint/writer.py:45 | `str.split` for one separator: the pieces are joined back by it, each piece is separator-free, and there is one more piece than there are separators |
| `PyRuntime.ParseInt` | gpylint/writer.py:48 | `int(s)`: ValueError is the only error it raises |
| `PyRuntime.ParseIntAccepts` | gpylint/writer.py:48 | an optionally signed run of decimal digits, with whitespace around it and after the sign, parses to the digits' value, negated after `-` |
| `PyRuntime.ParseIntOnly` | gpylint/writer.py:48 | every string `int` accepts has that shape and that value |
| `PyRuntime.ParseIntOfString` | gpylint/writer.py:48 | `int(str(n)) == n` for every integer |
| `Constraints.Det` | gpylint/canvas/constraints.py:61-63 | the determinant is zero exactly when the parallel test of the source holds |
| `Constraints.Crossing` | gpylint/canvas/constraints.py:61-67 | two non-parallel lines meet at the Cramer parameters |
| `Constraints.CrossingUnique` | gpylint/canvas/constraints.py:61-67 | they meet at no other pair of parameters |
| `Constraints.SolveCharacterized` | gpylint/canvas/constraints.py:66-79 | the computed `(x, y)` is the true crossing; `ty` is the first segment's parameter unless that segment is horizontal, and `tx` the second's unless that one is vertical |
| `Constraints.CrossPoint` | gpylint/canvas/constraints.py:44-89 | None for parallel input; otherwise a point exactly when `tx` and `ty` lie in [0,1]; a returned point lies on both lines |
| `Constraints.DegenerateSegmentNoCross` | gpylint/canvas/constraints.py:61-63 | a zero-length segment never yields a point |
| `Constraints.CrossPointSoundWhenSplit` | gpylint/canvas/constraints.py:68-87 | when one parameter belongs to each segment, the function is the true segment intersection |
| `Constraints.CrossPointVerticalSecond` | gpylint/canvas/constraints.py:68-87 | against a vertical second segment only the first segment's parameter is range-checked |
| `Constraints.CrossPointHorizontalFirst` | gpylint/canvas/constraints.py:68-87 | for a horizontal first segment only the second segment's parameter is range-checked |
| `Constraints.CrossPointAcceptsPointOffSegment` | gpylint/canvas/constraints.py:68-87 | as written, (0,0)-(1,1) against (0.5,5)-(0.5,6) returns (0.5,0.5), which is off the second segment |
| `Constraints.CrossPointAcceptsPointOffFirstSegment` | gpylint/canvas/constraints.py:68-87 | as written, (0,0)-(1,0) against (5,-1)-(6,1) returns (5.5,0), which is off the first segment |
| `Constraints.SegmentCrossPoint` | gpylint/canvas/constraints.py:44-51 | the intersection the docstring promises: a returned point is on both segments, and any common point of non-parallel segments is returned |
| `Constraints.SegmentCrossPointRejectsOffSegment` | gpylint/canvas/constraints.py:44-51 | the corrected intersection returns nothing for the pair of the finding |
| `Constraints.OrElse` | gpylint/canvas/constraints.py:35-38 | Python's `or` on two results: the first point if there is one, else the second result |
| `Constraints.FirstHitCorrected` | gpylint/canvas/constraints.py:35-38 | the edge search over true intersections returns a point on the centre line and on one of the four edges |
| `Constraints.HorizontalEdgeAgrees` | gpylint/canvas/constraints.py:35-36 | against the top or bottom edge, get_cross_point equals the true intersection |
| `Constraints.VerticalEdgeAgrees` | gpylint/canvas/constraints.py:37-38 | against a side edge, with the centre line starting inside the box and missing top and bottom, get_cross_point equals the true intersection |
| `Constraints.FirstHitAgrees` | gpylint/canvas/constraints.py:26-42 | for a centre line with one end inside the box, the as-written edge search returns the same point as the corrected one |
| `Constraints.FirstHitOnPerimeter` | gpylint/canvas/constraints.py:26-42 | the point `_solve_for` finds is on the centre line and on an edge of the box |
| `Constraints.FirstHitCorrectedFinds` | gpylint/canvas/constraints.py:35-42 | a piece of the centre line from strictly inside the box to outside the closed box crosses one of the four edges, so the corrected search finds a point |
| `Constraints.FirstHitFinds` | gpylint/canvas/constraints.py:26-42 | the same for the as-written search: when the centre line leaves the box, `_solve_for` finds a point |
| `HandlesConstraintSolver.CentreLine` | gpylint/canvas/constraints.py:27-28 | the segment between the two boxes' central handles in canvas coordinates; AttributeError when either box has not been drawn yet |
| `HandlesConstraintSolver.Hit` | gpylint/canvas/constraints.py:26-38 | the first edge crossing, in the source's edge order; AttributeError exactly when one of the three boxes lacks a central handle |
| `HandlesConstraintSolver.HitByView` | gpylint/canvas/constraints.py:26-38 | the hit depends only on the central-handle and corner positions of the boxes |
| `HandlesConstraintSolver.Moved` | gpylint/canvas/constraints.py:40-42 | only the updated handle changes, and its canvas position becomes the hit |
| `HandlesConstraintSolver.MovedKeepsView` | gpylint/canvas/constraints.py:40-42 | moving a handle that is neither a corner nor the centre leaves the view of the box unchanged |
| `HandlesConstraintSolver.SolveOne` | gpylint/canvas/constraints.py:26-42 | `_solve_for`: the projected handle moves to the hit, stays put when there is none, or nothing changes on AttributeError |
| `HandlesConstraintSolver.SolveFor` | gpylint/canvas/constraints.py:22-24 | `solve_for`: both end handles move to the hits computed on the state before the call, whatever variable is passed |
| `HandlesConstraintSolver.SelfAssociationNoHit` | gpylint/canvas/constraints.py:26-38 | a box associated with itself never moves its handles |
| `HandlesConstraintSolver.HitOnPerimeter` | gpylint/canvas/constraints.py:26-42 | a moved handle lands on its own box's perimeter, where the centre line crosses it |
| `HandlesConstraintSolver.HitWhenLeaving` | gpylint/canvas/constraints.py:26-42 | when the other box's central handle lies outside this box, `_solve_for` does find a point to move the handle to |
| `Items.Resized` | gpylint/canvas/items.py:232-237 | a resize moves the four corners to the new size and no other handle |
| `Items.Hide` | gpylint/canvas/items.py:20-22 | every handle becomes invisible and nothing else changes, movability included: the `moveable` write is not gaphas' `movable` flag (the same loop hides a line's handles in `set_association`) |
| `Items.HandleIndex` | gpylint/canvas/items.py:39-47 | exactly the five names are accepted, each naming its handle |
| `Items.HeadDrawer` | gpylint/canvas/items.py:79-85 | `diamond` draws the composite head and `empty` the none head; a missing or other `arrowhead` is a KeyError |
| `Items.HeadDrawerIgnoresTail` | gpylint/canvas/items.py:82-85 | `arrowtail` never affects the head drawing |
| `Items.NewHandlesConstraint` | gpylint/canvas/constraints.py:15-20 | the constraint keeps both boxes and the projections; IndexError for fewer than two projections |
| `Items.ClassBox.constructor` | gpylint/canvas/items.py:17-22 | four corner handles at the corners of the given size, all invisible and still movable, and the given properties |
| `CanvasWriter.MadeForProperties` | gpylint/canvas/items.py:226-228 | a box made for a node answers `filepath`, `title` and `lineno` with the node's attributes, so its registry key is its own `(filepath, title)` |
| `Items.ClassBox.CanvasHandle` | gpylint/canvas/items.py:31-49 | AttributeError before the first draw; then, for each of the five names, the canvas position it stands for (the centre handle, or the corner at the origin offset by none, one or both of width and height), with an AssertionError for any other name |
| `Items.ClassBox.Translate` | gpylint/writer.py:50 | the item origin moves by `(x, y)`; handles, ports and size are unchanged |
| `Items.ClassBox.AddCentralHandle` | gpylint/canvas/items.py:24-29 | one strong hidden handle at the middle, a point port on it, and `_central_handle` naming it |
| `Items.ClassBox.Draw` | gpylint/canvas/items.py:230-245 | the size becomes the text extents plus 50, the corners follow, and one more central handle is added on every call |
| `Items.ClassBox.AttachMoveable` | gpylint/canvas/items.py:247-263 | one hidden handle at the origin, a point port on it, and their projection and port |
| `Items.ClassBox.AttachPair` | gpylint/canvas/items.py:257-263 | one handle and port per visit, both on `self` when `snd_obj` is `self` |
| `Items.ClassBox.AddMoveableHandle` | gpylint/canvas/items.py:254-270 | the handles and ports appended, the two ports returned with `self`'s first, and one constraint over the two new handles |
| `Items.AssociationLine.constructor` | gpylint/canvas/items.py:68-77 | the properties and gaphas' two line handles, invisible and still movable |
| `Items.AssociationLine.HideHandles` | gpylint/canvas/__init__.py:21-22 | each of the line's handles becomes invisible; nothing else changes |
| `Items.Canvas.AddBox` | gpylint/writer.py:51 | the box is appended; nothing else on the canvas changes |
| `Items.Canvas.AddLine` | gpylint/canvas/__init__.py:24 | the line is appended; nothing else on the canvas changes |
| `Items.Canvas.AddConstraint` | gpylint/canvas/items.py:268 | the constraint is appended; nothing else on the canvas changes |
| `Items.Canvas.Connect` | gpylint/canvas/__init__.py:29-33 | one connection of a line handle to a sink and port is appended |
| `Association.Wiring` | gpylint/canvas/__init__.py:29-33 | line handle 0 goes to sink `o1` through a port of `o2`, and handle 1 to sink `o2` through a port of `o1` |
| `Association.WiringCrossesPorts` | gpylint/canvas/__init__.py:26-33 | for two distinct boxes, each line end's sink differs from the owner of its port |
| `Association.WiringSwap` | gpylint/canvas/__init__.py:26-33 | swapping the boxes swaps the two ends |
| `Association.PairConstraints` | gpylint/canvas/__init__.py:26-27 | the two constraints, one with each box first, over that box's new handle and the other's |
| `Association.AttachEnds` | gpylint/canvas/__init__.py:26-27 | both calls' handles, ports and constraints, with each call's second port returned |
| `Association.SetAssociation` | gpylint/canvas/__init__.py:10-33 | one new line with the properties, two connections, two constraints, two handles per box (four for a self-association), and nothing else changed |
| `CanvasWriter.ParsePos` | gpylint/writer.py:45-48 | the only error is ValueError |
| `CanvasWriter.ParsePosAccepts` | gpylint/writer.py:45-48 | accepted exactly when there is one comma and both pieces are integers, and then it denotes them |
| `CanvasWriter.ParsePosRoundTrip` | gpylint/writer.py:45-48 | the position `"x,y"` that graphviz writes parses back to `(x, y)` |
| `CanvasWriter.FirstUnparsable` | gpylint/writer.py:38-53 | the nodes before it parse and the node at it does not |
| `CanvasWriter.RegisteredKeys` | gpylint/writer.py:52 | the registry gains exactly the nodes' keys |
| `CanvasWriter.RegisteredLookup` | gpylint/writer.py:52 | last write wins: a key maps to the box of the last node with that key; other keys keep their earlier box |
| `CanvasWriter.RegisteredValues` | gpylint/writer.py:52 | every registered box was there before or is a new box |
| `CanvasWriter.PlaceBox` | gpylint/writer.py:45-50 | a fresh, undrawn box with the node's properties and size, translated to its position |
| `CanvasWriter.AddNode` | gpylint/writer.py:45-51 | that box appended to the canvas and nothing else changed |
| `CanvasWriter.PlaceNodes` | gpylint/writer.py:38-53 | boxes placed and registered in order until the first bad position, where ValueError stops the loop |
| `CanvasWriter.ValidAfterPlacing` | gpylint/writer.py:38-53 | after the node loop every registered box is well formed |
| `CanvasWriter.FirstUnresolved` | gpylint/writer.py:55-71 | every edge before it has registered ends, and the edge at it does not |
| `CanvasWriter.Associate` | gpylint/writer.py:70-71 | one line with the edge's properties, its handle 0 attached to the head box and handle 1 to the tail box; the two constraints of `set_association` appended; each box grown by its moveable handles and their ports (four for a self-association); no box moved or resized |
| `CanvasWriter.ConnectEdges` | gpylint/writer.py:55-71 | one association per edge in order, each attached to the registered boxes of its ends; KeyError and a stop at the first unregistered end; no box moved or resized |
| `CanvasWriter.Generate` | gpylint/writer.py:23-71 | succeeds exactly when every position parses and every edge resolves; the new boxes, one per node up to the first bad position, are appended to the canvas, each with its node's properties and size at its node's position, and registered under their keys; a bad position stops before any line is made; otherwise each edge up to the first unresolved one makes its association between the registered boxes of its ends |
| `CanvasWriter.StylesDrawable` | gpylint/writer.py:80-84 | of the four edge styles, only the first (`open` head) cannot be drawn |
| `CanvasWriter.GetValues` | gpylint/writer.py:97-109 | always a label; `filepath` and `lineno` together, exactly for classes whose parent has a file |
| `DotWriter.AppendMethodLines` | writer.py:44-45 | one `name()\l` line per method, in order, appended to the text |
| `DotWriter.GetValues` | writer.py:34-49 | a record-shaped node whose label is the title or the braced record; red font exactly for exceptions |
| `DotWriter.LabelBraces` | writer.py:39-46 | no braces with only class names, otherwise a braced label |
| `DotWriter.MethodLinesLength` | writer.py:44-45 | the methods' compartment is the names' length plus four characters per method |
| `DotWriter.RecordCompartments` | writer.py:42-46 | splitting the record on its bar separators gives back the heading, the attributes and the methods |
| `Helpers.ReplaceChar` | gpylint/helpers.py:10 | the same length, with each occurrence replaced and every other character kept |
| `Helpers.Capitalize` | gpylint/helpers.py:11 | first character upper-cased, the rest lower-cased, same length |
| `Helpers.PrettyNameShape` | gpylint/helpers.py:6-11 | a space for every underscore, no underscore left, and no capital after the first character |
| `Helpers.PrettyNameKeepsLetters` | gpylint/helpers.py:6-11 | apart from the underscores, the name is kept up to case |
| `Helpers.PrettyNameIdempotent` | gpylint/helpers.py:6-11 | prettifying a pretty name changes nothing |
| `ConfigParser.Get` | gpylint/settings/GeneralSettingsManager.py:69-70 | NoSectionError exactly for an unknown section other than DEFAULT; otherwise a value or NoOptionError |
| `ConfigParser.BooleanOf` | gpylint/settings/__init__.py:13-14 | `1/yes/true/on` read as true and `0/no/false/off` as false, case-insensitively; anything else is a ValueError |
| `ConfigParser.WithSection` | gpylint/settings/GeneralSettingsManager.py:45-47 | a new empty section; ValueError for `default` in any case, DuplicateSectionError for an existing section |
| `ConfigParser.WithOption` | gpylint/settings/GeneralSettingsManager.py:63-65 | NoSectionError exactly for a missing section that does not name DEFAULT |
| `ConfigParser.GetAfterSet` | gpylint/settings/GeneralSettingsManager.py:63-72 | a value written to a section is then present and read back |
| `ConfigParser.SetKeepsOthers` | gpylint/settings/GeneralSettingsManager.py:63-65 | writing one option changes no other option of any section |
| `ConfigParser.HasOptionGets` | gpylint/settings/GeneralSettingsManager.py:67-72 | an option `has_option` reports can be read with `get` (except through the empty section name) |
| `ConfigParser.WithSectionGrows` | gpylint/settings/PylintMessagesManager.py:57-58 | adding a section adds nothing else |
| `ConfigParser.SetMissingGrows` | gpylint/settings/PylintMessagesManager.py:67-68 | writing a missing option only adds it |
| `ConfigParser.Config.AddSection` | gpylint/settings/GeneralSettingsManager.py:47 | the parser's content becomes `WithSection`, or stays put with its error |
| `ConfigParser.Config.Set` | gpylint/settings/__init__.py:11 | the parser's content becomes `WithOption`, or stays put with its error |
| `Settings.OnOff` | gpylint/settings/__init__.py:7-10 | True and 1 map to `on`, False and 0 to `off`; any other value is a KeyError |
| `Settings.SaveBoolean` | gpylint/settings/__init__.py:6-11 | KeyError before anything is written, or the write of `on`/`off` |
| `Settings.SaveThenGet` | gpylint/settings/__init__.py:6-14 | `get_boolean` returns the saved flag |
| `GeneralSettings.MsgTypeNamesAreValues` | gpylint/settings/GeneralSettingsManager.py:51 | the iterated names are exactly the values of `MSG_TYPES`, with none repeated |
| `GeneralSettings.TypeNamesApart` | gpylint/settings/GeneralSettingsManager.py:51-54 | two message types never fold to the same option name |
| `GeneralSettings.Init` | gpylint/settings/GeneralSettingsManager.py:39-47 | both sections exist afterwards, existing content is unchanged, and added sections are empty |
| `GeneralSettings.WithTypesOn` | gpylint/settings/GeneralSettingsManager.py:49-55 | the `pylint` section stays present |
| `GeneralSettings.GetPylintMsgsTypes` | gpylint/settings/GeneralSettingsManager.py:49-55 | succeeds exactly when the section exists and every flag reads; then `on` is written for each missing type and every type maps to its flag. A missing section leaves the parser unchanged; at the first unreadable flag the types before it and that one have had their `on` written |
| `GeneralSettings.OtherTypesKept` | gpylint/settings/GeneralSettingsManager.py:49-55 | the writes leave every type the loop has not reached alone |
| `GeneralSettings.TypesSwitched` | gpylint/settings/GeneralSettingsManager.py:49-55 | afterwards each type is present, with its old value or `on` |
| `GeneralSettings.CodeIsIgnored` | gpylint/settings/GeneralSettingsManager.py:57-61 | ignored exactly when the type's switch is present and off; IndexError for an empty code and KeyError for an unknown letter |
| `GeneralSettings.IgnoredAfterTypes` | gpylint/settings/GeneralSettingsManager.py:49-61 | after `get_pylint_msgs_types`, a code is ignored exactly when its type's returned flag is off |
| `GeneralSettings.SetSetting` | gpylint/settings/GeneralSettingsManager.py:63-65 | writes the setting's option in its section |
| `GeneralSettings.GetSetting` | gpylint/settings/GeneralSettingsManager.py:67-72 | the stored value when present, otherwise the default |
| `GeneralSettings.SetThenGetSetting` | gpylint/settings/GeneralSettingsManager.py:63-72 | a setting reads back as written, and settings with other options are unchanged |
| `PylintMessages.MergeKeys` | gpylint/settings/PylintMessagesManager.py:60-63 | merging adds exactly the checkers' names and codes and removes none |
| `PylintMessages.MergeLastWins` | gpylint/settings/PylintMessagesManager.py:60-63 | a code's message is that of the last checker of that name defining it |
| `PylintMessages.MergeKeepsOld` | gpylint/settings/PylintMessagesManager.py:60-63 | a code no checker of the name defines keeps its message |
| `PylintMessages.PylintMessages.constructor` | gpylint/settings/PylintMessagesManager.py:41 | the registry starts empty |
| `PylintMessages.PylintMessages.AddGroup` | gpylint/settings/PylintMessagesManager.py:54-63 | ValueError exactly when a checker name is refused by `add_section`; otherwise an empty section is added for each new name and the messages are merged; on either path the parser gains only empty sections for the list's names |
| `PylintMessages.PylintMessages.AddCheckers` | gpylint/settings/PylintMessagesManager.py:53-63 | the same over all checker lists in order: ValueError exactly when some name is refused; otherwise the registry is the merge of all checkers; only empty sections for checker names are ever added |
| `PylintMessages.PylintMessages.SwitchSection` | gpylint/settings/PylintMessagesManager.py:66-68 | NoSectionError, with the parser unchanged, exactly when there are codes and the section cannot be written; otherwise every code has a switch; existing options keep their values, and every option added is `on` under the lower-cased name of one of the codes, in the section or in DEFAULT for the names that denote it |
| `PylintMessages.PylintMessages.FillSwitches` | gpylint/settings/PylintMessagesManager.py:65-68 | NoSectionError exactly when a checker with messages has no writable section; otherwise every code of the registry has a switch in its section; on either path existing options keep their values and every option added is the `on` switch of a registry code, in its checker's section or in DEFAULT for a name that denotes it |
| `PylintMessages.PylintMessages.Init` | gpylint/settings/PylintMessagesManager.py:43-68 | ValueError for a checker name `add_section` refuses; NoSectionError when a code's section cannot be written; otherwise the registry is the merge of all checkers, every name has a section and every code a switch. Whatever the outcome, existing options keep their values, the only sections added are for checker names, and the only options added are `on` switches of registry codes in their checkers' sections (or DEFAULT) |
| `PylintMessages.RefusedSame` | gpylint/settings/PylintMessagesManager.py:57-58 | adding the unrefused sections refuses no further name |
| `Windows.WindowManager.constructor` | gpylint/windows.py:174 | the registry starts empty |
| `Windows.WindowManager.GetWindow` | gpylint/windows.py:176-179 | the registered window for the path, or a new one registered under it |
| `Windows.WindowManager.Unregister` | gpylint/windows.py:181-182 | the path is removed; KeyError and no change when it is not registered |
| `Windows.CodeWindow.Exit` | gpylint/windows.py:59-64 | the window's own path is unregistered from the shared manager |
| `Windows.OneWindowPerPath` | gpylint/windows.py:155-179 | distinct paths never share a window |
| `Editor.Dispatch` | gpylint/editor.py:28-35 | the letter table the dictionary encodes: exactly the six letters name a method, any other code is a KeyError |
| `Editor.DispatchTable` | gpylint/editor.py:28-35 | building the dictionary fails, with AttributeError, exactly when the editor lacks one of the entries' `*_line` methods |
| `Editor.DispatchTableContents` | gpylint/editor.py:28-35 | a dictionary built without error maps exactly the display's codes, each to the method of its last entry |
| `Editor.MissingMethodFails` | gpylint/editor.py:28-35 | an editor lacking any one of the six methods fails every message with AttributeError, before the code is looked up |
| `Editor.GeditDispatch` | gpylint/editor.py:71-87 | a `GeditEditor` defines all six methods, so its dispatch is the letter table |
| `Editor.LineColours` | gpylint/editor.py:71-87 | E and F are red, W, C, I and R orange, and anything else is a KeyError |
| `Editor.GeditEditor.TagLine` | gpylint/editor.py:89-99 | one tag with the colour, from the start of the line to the start of the next |
| `Editor.GeditEditor.AddMessage` | gpylint/editor.py:18-35 | the line is tagged with its code's colour; KeyError and no tag for an unknown code |
| `Editor.VimDispatch` | gpylint/editor.py:37-47 | a `VimEditor` defines none of the six methods, so every message raises AttributeError, whatever the code |
| `Reporters.Forward` | gpylint/reporters.py:18-26 | ValueError unless the location has five entries; the code is the whole id with ids shown, else its first character, an IndexError for an empty id |
| `Reporters.ColourOfId` | gpylint/reporters.py:21-26 | without ids the colour is the first letter's; with ids any id longer than one character is a KeyError |
| `Reporters.Report` | gpylint/reporters.py:18-26 | the forwarded message tags its line, or the error of the forward, the dispatch or a non-numeric line leaves the buffer unchanged |

## Findings

| source | as written | input that shows it | evidently intended | confidence | as-written member | corrected member |
|---|---|---|---|---|---|---|
| gpylint/canvas/constraints.py:68-87 | `ty` comes from the first segment unless it is horizontal, and `tx` from the second unless it is vertical, so for some orientations both range checks test the same segment | the segment (0,0)-(1,1) and the vertical segment (0.5,5)-(0.5,6) give (0.5,0.5), which is off the second segment; likewise (0,0)-(1,0) against (5,-1)-(6,1) gives (5.5,0), off the first | the crossing of two line segments, as the docstring says: `None` unless the point is on both | not executed | `Constraints.CrossPointAcceptsPointOffSegment`, `Constraints.CrossPointAcceptsPointOffFirstSegment` | `Constraints.SegmentCrossPoint`, `Constraints.SegmentCrossPointRejectsOffSegment` |

The defect does no harm where the program uses the function.
`Constraints.FirstHitAgrees` proves that, for a centre line that starts
inside the box, `_solve_for`'s edge search over `get_cross_point` returns
the same point as the search over `SegmentCrossPoint`
(`Constraints.FirstHitCorrected`). So the solver model keeps the code's
function, and `HandlesConstraintSolver.HitOnPerimeter` and
`HandlesConstraintSolver.HitWhenLeaving` hold for it.

## Left out

- Cairo drawing and the hover colours of `Box.draw` are left out. Only the size, handle and head-style decisions of `draw` are modelled.
- The gaphas solver is not part of this model. `solve_for` is modelled as one call on a constraint, not as the solver's fixed-point iteration, and variable strengths have no effect.
- Coordinates are exact reals. The model has no floating-point rounding, so the parallel test and the divisions are exact.
- `text_extents` of the title is a parameter of `ClassBox.Draw`, because it comes from cairo.
- Graphviz is not part of this model. The laid-out graph arrives as its node and edge records in graphviz's iteration order, and node width and height are given as numbers rather than attribute strings.
- `CanvasContext` is not part of this model. `gpylint/canvas/__init__.py` defines only `set_association`, so the import at `gpylint/writer.py:11` fails with ImportError and `generate` cannot run as the code stands. The model assumes the name exists and provides a dictionary, a map that the caller passes to `Generate`.
- Python's `str` and pylint's `is_exception` are not modelled. The diagram object's title, parent file and exception flag are given.
- `ConfigParser.Get`: `%`-interpolation of `SafeConfigParser` is not modelled, because no value the managers write contains `%`.
- `ConfigParser.Config.Set`: the `%`-syntax check on values is not modelled, for the same reason.
- Reading the settings file and `SettingsManager.save` are file I/O and are left out.
- `GeneralSettings.GetPylintMsgsTypes` walks `MSG_TYPES.values()` in one fixed order. Python 2 dictionary order is unspecified, and the result does not depend on it.
- `PylintMessages.PylintMessages.FillSwitches` visits sections in an unspecified order (a choice from the remaining set), as `iteritems` does.
- `PyLinter` loading, plugin loading and `linter._checkers` are not part of this model. The checker lists are a parameter of `Init`.
- `get_pylint_msgs` is the `msgs` field of the manager, read directly.
- Both writers' `get_title` return the title unchanged. They are plain functions with no contract.
- `Editor.GeditEditor.TagLine` does not model GTK's clamping of out-of-range line numbers. A tag records the line numbers it was given.
- Tag text and colours are character strings. Text-buffer encodings are not modelled.
- `Reporters.Report`: a line that is not a number raises TypeError, standing for the GTK iterator call's failure. The column and object passed on are stand-ins, because the editor ignores them.
- Widget setup of `VimEditor` and `GeditEditor` (terminals, views, reading the file into the buffer), and every other GTK window, are left out.
- The scanner, `lint.py`, `main.py`, filters, tools and the settings window are outside the modelled core.
- `editor.py` at the top level, `gpylint/canvas.py` and `gpylint/settings.py` are older copies that the packages shadow. They are not modelled.

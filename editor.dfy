/** `Editor.add_message` and `GeditEditor` (gpylint/editor.py): a lint
    message marks its line in the source buffer with a background colour
    picked by the message's letter code. */
module Editor {
  import opened PyRuntime

  /** The `*_line` methods `add_message` dispatches to. */
  datatype LineMethod = ErrorLine | WarningLine | ConventionLine | InfoLine | RefactorLine | FatalLine

  /** The method each letter code stands for; KeyError for any other code. */
  function Dispatch(sigle: string): (r: Result<LineMethod>)
    ensures r.Ok? <==> sigle in {"E", "W", "C", "I", "R", "F"}
    ensures r.Err? ==> r.error == KeyError
  {
    if sigle == "E" then Ok(ErrorLine)
    else if sigle == "W" then Ok(WarningLine)
    else if sigle == "C" then Ok(ConventionLine)
    else if sigle == "I" then Ok(InfoLine)
    else if sigle == "R" then Ok(RefactorLine)
    else if sigle == "F" then Ok(FatalLine)
    else Err(KeyError)
  }

  /** The entries of `add_message`'s dictionary display, in order: a code
      and the bound method `self.<name>_line` it evaluates. */
  const Display: seq<(string, LineMethod)> :=
    [("E", ErrorLine), ("W", WarningLine), ("C", ConventionLine), ("I", InfoLine), ("R", RefactorLine), ("F", FatalLine)]

  /** The `*_line` methods each editor class defines. */
  const GeditMethods: set<LineMethod> := {ErrorLine, WarningLine, ConventionLine, InfoLine, RefactorLine, FatalLine}
  const VimMethods: set<LineMethod> := {}

  /** A dictionary display evaluated against an editor defining the
      methods `defined`: the entries are evaluated in order, and the first
      method the editor lacks raises AttributeError; otherwise a later
      entry overrides an earlier one with the same code. */
  function DispatchTable(defined: set<LineMethod>, entries: seq<(string, LineMethod)>): (r: Result<map<string, LineMethod>>)
    ensures r.Ok? <==> forall i | 0 <= i < |entries| :: entries[i].1 in defined
    ensures r.Err? ==> r.error == AttributeError
  {
    if entries == [] then Ok(map[])
    else
      var front, e := entries[..|entries| - 1], entries[|entries| - 1];
      var t := DispatchTable(defined, front);
      if t.Err? then t
      else if e.1 !in defined then Err(AttributeError)
      else
        assert forall i | 0 <= i < |front| :: front[i] == entries[i];
        Ok(t.value[e.0 := e.1])
  }

  /** A display built without error maps exactly its codes, each to the
      method of its last entry. */
  lemma DispatchTableContents(defined: set<LineMethod>, entries: seq<(string, LineMethod)>)
    requires DispatchTable(defined, entries).Ok?
    ensures var t := DispatchTable(defined, entries).value;
            && t.Keys == (set i | 0 <= i < |entries| :: entries[i].0)
            && forall i | 0 <= i < |entries| && (forall j | i < j < |entries| :: entries[j].0 != entries[i].0) ::
                 t[entries[i].0] == entries[i].1
  {
    DispatchTableKeys(defined, entries);
    DispatchTableValues(defined, entries);
  }

  lemma {:induction false} DispatchTableKeys(defined: set<LineMethod>, entries: seq<(string, LineMethod)>)
    requires DispatchTable(defined, entries).Ok?
    ensures DispatchTable(defined, entries).value.Keys == (set i | 0 <= i < |entries| :: entries[i].0)
  {
    if entries != [] {
      var n := |entries| - 1;
      var front, e := entries[..n], entries[n];
      assert forall i | 0 <= i < n :: front[i] == entries[i];
      DispatchTableKeys(defined, front);
      assert DispatchTable(defined, entries).value == DispatchTable(defined, front).value[e.0 := e.1];
      assert (set i | 0 <= i < |entries| :: entries[i].0) == (set i | 0 <= i < n :: front[i].0) + {e.0};
    }
  }

  lemma {:induction false} DispatchTableValues(defined: set<LineMethod>, entries: seq<(string, LineMethod)>)
    requires DispatchTable(defined, entries).Ok?
    ensures var t := DispatchTable(defined, entries).value;
            forall i | 0 <= i < |entries| && (forall j | i < j < |entries| :: entries[j].0 != entries[i].0) ::
              entries[i].0 in t && t[entries[i].0] == entries[i].1
  {
    if entries != [] {
      var n := |entries| - 1;
      var front, e := entries[..n], entries[n];
      assert forall i | 0 <= i < n :: front[i] == entries[i];
      DispatchTableValues(defined, front);
      var t0 := DispatchTable(defined, front).value;
      var t := DispatchTable(defined, entries).value;
      assert t == t0[e.0 := e.1];
      forall i | 0 <= i < |entries| && (forall j | i < j < |entries| :: entries[j].0 != entries[i].0)
        ensures entries[i].0 in t && t[entries[i].0] == entries[i].1
      {
        if i < n {
          assert e.0 != entries[i].0;
          assert forall j | i < j < n :: front[j].0 != front[i].0;
        }
      }
    }
  }

  /** `add_message`'s dispatch for an editor defining `defined`: the
      dictionary is built, then looked up with the code. */
  function Target(defined: set<LineMethod>, sigle: string): Result<LineMethod>
  {
    var t := DispatchTable(defined, Display);
    if t.Err? then Err(t.error)
    else if sigle in t.value then Ok(t.value[sigle])
    else Err(KeyError)
  }

  /** An editor that lacks any one of the six methods fails every message
      with AttributeError, whatever the code. */
  lemma MissingMethodFails(defined: set<LineMethod>, sigle: string)
    requires exists m :: m !in defined
    ensures Target(defined, sigle) == Err(AttributeError)
  {
    var m :| m !in defined;
    var i := match m
      case ErrorLine => 0 case WarningLine => 1 case ConventionLine => 2
      case InfoLine => 3 case RefactorLine => 4 case FatalLine => 5;
    assert Display[i].1 == m;
  }

  /** A `GeditEditor` defines all six, so its dispatch is the letter table:
      each letter's method, and KeyError for any other code. */
  lemma GeditDispatch(sigle: string)
    ensures Target(GeditMethods, sigle) == Dispatch(sigle)
  {
    GeditTable();
  }

  lemma GeditTable()
    ensures DispatchTable(GeditMethods, Display) ==
            Ok(map["E" := ErrorLine, "W" := WarningLine, "C" := ConventionLine, "I" := InfoLine, "R" := RefactorLine, "F" := FatalLine])
  {
    var g := GeditMethods;
    var t0 := map[];
    TableSnoc(g, [], ("E", ErrorLine), t0);
    var t1 := t0["E" := ErrorLine];
    assert Display[..1] == [] + [("E", ErrorLine)];
    TableSnoc(g, Display[..1], ("W", WarningLine), t1);
    var t2 := t1["W" := WarningLine];
    assert Display[..2] == Display[..1] + [("W", WarningLine)];
    TableSnoc(g, Display[..2], ("C", ConventionLine), t2);
    var t3 := t2["C" := ConventionLine];
    assert Display[..3] == Display[..2] + [("C", ConventionLine)];
    TableSnoc(g, Display[..3], ("I", InfoLine), t3);
    var t4 := t3["I" := InfoLine];
    assert Display[..4] == Display[..3] + [("I", InfoLine)];
    TableSnoc(g, Display[..4], ("R", RefactorLine), t4);
    var t5 := t4["R" := RefactorLine];
    assert Display[..5] == Display[..4] + [("R", RefactorLine)];
    TableSnoc(g, Display[..5], ("F", FatalLine), t5);
    assert Display[..5] + [("F", FatalLine)] == Display;
  }

  /** One more entry of a display whose method is defined. */
  lemma TableSnoc(defined: set<LineMethod>, entries: seq<(string, LineMethod)>, e: (string, LineMethod), t: map<string, LineMethod>)
    requires DispatchTable(defined, entries) == Ok(t) && e.1 in defined
    ensures DispatchTable(defined, entries + [e]) == Ok(t[e.0 := e.1])
  {
    assert (entries + [e])[..|entries|] == entries;
  }

  /** `VimEditor.add_message`: a Vim editor defines none of the `*_line`
      methods, so every message raises AttributeError. */
  lemma VimDispatch(sigle: string)
    ensures Target(VimMethods, sigle) == Err(AttributeError)
  {
    assert ErrorLine !in VimMethods;
    MissingMethodFails(VimMethods, sigle);
  }

  /** The background each of `GeditEditor`'s `*_line` methods tags with. */
  function Background(m: LineMethod): string
  {
    match m
    case ErrorLine => "red"
    case FatalLine => "red"
    case _ => "orange"
  }

  /** The colour `add_message` marks a line with, or the KeyError of an
      unknown code. */
  function LineColour(sigle: string): (r: Result<string>)
  {
    var m := Dispatch(sigle);
    if m.Err? then Err(m.error) else Ok(Background(m.value))
  }

  /** Errors and fatal errors are red, the four other letters orange, and
      every other code, a full message id such as `E1205` included, is a
      KeyError. */
  lemma LineColours(sigle: string)
    ensures LineColour(sigle) == Ok("red") <==> sigle == "E" || sigle == "F"
    ensures LineColour(sigle) == Ok("orange") <==> sigle in {"W", "C", "I", "R"}
    ensures LineColour(sigle).Err? <==> sigle !in {"E", "W", "C", "I", "R", "F"}
    ensures LineColour(sigle).Err? ==> LineColour(sigle).error == KeyError
  {
  }

  /** A text tag: its background and the lines it spans, from the start of
      `start` to the start of `end`. */
  datatype Tag = Tag(background: string, start: int, end: int)

  /** The tag table of the editor's buffer. */
  class Buffer {
    var tags: seq<Tag>

    constructor()
      ensures tags == []
    {
      tags := [];
    }
  }

  /** The GtkSourceView editor: the buffer it tags. */
  class GeditEditor {
    const buffer: Buffer

    constructor(buffer: Buffer)
      ensures this.buffer == buffer
    {
      this.buffer := buffer;
    }

    /** `tag(line, msg, bc_color)`: one new tag with that background, from
        the start of `line` to the start of the next line. */
    method TagLine(line: int, msg: string, colour: string)
      modifies buffer
      ensures buffer.tags == old(buffer.tags) + [Tag(colour, line, line + 1)]
    {
      var start, end := line, line;
      end := end + 1;
      buffer.tags := buffer.tags + [Tag(colour, start, end)];
    }

    /** `add_message(sigle, line, col_offset, obj, msg)`: the dispatch,
        then the chosen `*_line` method; nothing is tagged for an unknown
        code, and neither the column nor the object matters. */
    method AddMessage(sigle: string, line: int, colOffset: int, obj: string, msg: string) returns (err: Option<PyError>)
      modifies buffer
      ensures LineColour(sigle).Err? ==> err == Some(KeyError) && buffer.tags == old(buffer.tags)
      ensures LineColour(sigle).Ok? ==> err == None && buffer.tags == old(buffer.tags) + [Tag(LineColour(sigle).value, line, line + 1)]
    {
      GeditDispatch(sigle);
      var target := Target(GeditMethods, sigle);
      if target.Err? {
        return Some(target.error);
      }
      TagLine(line, msg, Background(target.value));
      return None;
    }
  }
}

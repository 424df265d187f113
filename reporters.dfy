/** `EditorReporter.add_message` (gpylint/reporters.py): a pylint message
    is passed on to the editor with the code shown for it. */
module Reporters {
  import opened PyRuntime
  import opened Editor

  /** An entry of pylint's location tuple. */
  datatype Field = Text(s: string) | Number(n: int)

  /** The arguments of the `editor.add_message` call. */
  datatype EditorCall = EditorCall(sigle: string, line: Field, colOffset: Field, obj: Field, msg: string)

  /** The call `add_message(msg_id, location, msg)` makes: `location[1:]`
      must unpack into four entries; the code is the whole id when ids are
      shown, else its first character. */
  function Forward(includeIds: bool, msgId: string, location: seq<Field>, msg: string): (r: Result<EditorCall>)
    ensures r.Ok? <==> |location| == 5 && (includeIds || msgId != "")
    ensures |location| != 5 ==> r == Err(ValueError)
    ensures |location| == 5 && !includeIds && msgId == "" ==> r == Err(IndexError)
    ensures r.Ok? ==> && r.value.line == location[3] && r.value.colOffset == location[4] && r.value.obj == location[2]
                      && r.value.msg == msg
                      && r.value.sigle == (if includeIds then msgId else msgId[..1])
  {
    if |location| != 5 then Err(ValueError)
    else
      var line, colOffset, obj := location[3], location[4], location[2];
      if includeIds then Ok(EditorCall(msgId, line, colOffset, obj, msg))
      else if msgId == "" then Err(IndexError)
      else Ok(EditorCall([msgId[0]], line, colOffset, obj, msg))
  }

  /** Without ids, a message is coloured by its first letter: an id such
      as `E1205` marks its line red. With ids the whole id reaches the
      dispatch, which knows only single letters, so any id longer than one
      character is a KeyError. */
  lemma ColourOfId(msgId: string, location: seq<Field>, msg: string)
    requires |location| == 5 && |msgId| >= 1
    ensures LineColour(Forward(false, msgId, location, msg).value.sigle) == LineColour([msgId[0]])
    ensures |msgId| > 1 ==> LineColour(Forward(true, msgId, location, msg).value.sigle) == Err(KeyError)
  {
    if |msgId| > 1 {
      LineColours(msgId);
    }
  }

  /** `add_message` on a reporter whose editor is `editor`: the forwarded
      call, whose line must be a number for the buffer to be tagged. */
  method Report(editor: GeditEditor, includeIds: bool, msgId: string, location: seq<Field>, msg: string) returns (err: Option<PyError>)
    modifies editor.buffer
    ensures var call := Forward(includeIds, msgId, location, msg);
            && (call.Err? ==> err == Some(call.error) && editor.buffer.tags == old(editor.buffer.tags))
            && (call.Ok? && LineColour(call.value.sigle).Err? ==> err == Some(KeyError) && editor.buffer.tags == old(editor.buffer.tags))
            && (call.Ok? && LineColour(call.value.sigle).Ok? && !call.value.line.Number? ==>
                  err == Some(TypeError) && editor.buffer.tags == old(editor.buffer.tags))
            && (call.Ok? && LineColour(call.value.sigle).Ok? && call.value.line.Number? ==>
                  err == None
                  && editor.buffer.tags == old(editor.buffer.tags) + [Tag(LineColour(call.value.sigle).value, call.value.line.n, call.value.line.n + 1)])
  {
    var call := Forward(includeIds, msgId, location, msg);
    if call.Err? {
      return Some(call.error);
    }
    var c := call.value;
    if LineColour(c.sigle).Err? {
      return Some(KeyError);
    }
    if !c.line.Number? {
      return Some(TypeError);
    }
    // the editor ignores the column and the object; any stand-in will do
    var col := if c.colOffset.Number? then c.colOffset.n else 0;
    var obj := if c.obj.Text? then c.obj.s else "";
    err := editor.AddMessage(c.sigle, c.line.n, col, obj, c.msg);
  }
}

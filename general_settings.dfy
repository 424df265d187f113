/** `GeneralSettingsManager` (gpylint/settings/GeneralSettingsManager.py):
    the `pylint` and `general` sections of the application's settings, the
    on/off switch of each pylint message type, and named settings with
    defaults. The manager keeps no state of its own: everything lives in the
    module's parser, passed here as `config`. */
module GeneralSettings {
  import opened PyRuntime
  import opened ConfigParser

  const PylintSection: string := "pylint"
  const GeneralSection: string := "general"

  /** `SECTIONS`, in order. */
  const SectionNames: seq<string> := [PylintSection, GeneralSection]

  /** A named setting: the `(name, section, default)` triple. */
  datatype Setting = Setting(name: string, section: string, default: string)

  /** `EDITOR`: the editor setting, `visual` unless set. */
  const EditorSetting: Setting := Setting("editor", GeneralSection, "visual")

  /** pylint's `MSG_TYPES`: the message-type letter to the type's name. */
  const MsgTypes: map<char, string> :=
    map['I' := "info", 'C' := "convention", 'R' := "refactor", 'W' := "warning", 'E' := "error", 'F' := "fatal"]

  /** The values of `MSG_TYPES`, in the order the model iterates them. */
  const MsgTypeNames: seq<string> := ["info", "convention", "refactor", "warning", "error", "fatal"]

  lemma MsgTypeNamesAreValues()
    ensures forall c | c in MsgTypes :: MsgTypes[c] in MsgTypeNames
    ensures forall i | 0 <= i < |MsgTypeNames| :: MsgTypeNames[i] in MsgTypes.Values
    ensures forall i, j | 0 <= i < j < |MsgTypeNames| :: MsgTypeNames[i] != MsgTypeNames[j]
  {
    assert MsgTypes['I'] == "info" && MsgTypes['C'] == "convention" && MsgTypes['R'] == "refactor";
    assert MsgTypes['W'] == "warning" && MsgTypes['E'] == "error" && MsgTypes['F'] == "fatal";
  }

  /** Two message types never name the same option: their names differ
      in the first letter, which `optionxform` leaves alone. */
  lemma TypeNamesApart(i: nat, j: nat)
    requires i < |MsgTypeNames| && j < |MsgTypeNames| && i != j
    ensures LowerStr(MsgTypeNames[i]) != LowerStr(MsgTypeNames[j])
  {
    var a, b := MsgTypeNames[i], MsgTypeNames[j];
    assert a[0] != b[0] && !IsUpper(a[0]) && !IsUpper(b[0]);
    assert LowerStr(a)[0] == a[0] && LowerStr(b)[0] == b[0];
  }

  /** `__init__`: each of the two sections is added unless present. */
  method Init(config: Config)
    modifies config
    ensures config.data.defaults == old(config.data.defaults)
    ensures config.data.sections.Keys == old(config.data.sections.Keys) + {PylintSection, GeneralSection}
    ensures forall s | s in old(config.data.sections) :: config.data.sections[s] == old(config.data.sections[s])
    ensures forall s | s in config.data.sections && s !in old(config.data.sections) :: config.data.sections[s] == map[]
  {
    for i := 0 to |SectionNames|
      invariant config.data.defaults == old(config.data.defaults)
      invariant config.data.sections.Keys == old(config.data.sections.Keys) + set j | 0 <= j < i :: SectionNames[j]
      invariant forall s | s in old(config.data.sections) :: config.data.sections[s] == old(config.data.sections[s])
      invariant forall s | s in config.data.sections && s !in old(config.data.sections) :: config.data.sections[s] == map[]
    {
      var section := SectionNames[i];
      if !HasSection(config.data, section) {
        assert LowerStr(section) != "default" by {
          assert LowerStr(section)[0] != 'd';
        }
        var _ := config.AddSection(section);
      }
    }
    assert (set j | 0 <= j < 2 :: SectionNames[j]) == {PylintSection, GeneralSection} by {
      assert SectionNames[0] == PylintSection && SectionNames[1] == GeneralSection;
    }
  }

  /** The switch of message type `name`: its stored flag if present, else
      `on`. */
  function TypeFlag(c: ConfigData, name: string): Result<bool>
  {
    if HasOption(c, PylintSection, name) then GetBoolean(c, PylintSection, name) else Ok(true)
  }

  /** `get_pylint_msgs_types` succeeds: the section exists and every flag
      present reads as a boolean. */
  predicate TypesReadable(c: ConfigData)
  {
    PylintSection in c.sections && forall i | 0 <= i < |MsgTypeNames| :: TypeFlag(c, MsgTypeNames[i]).Ok?
  }

  /** The `pylint` section with `on` written for each of the first `n`
      message types it lacks. */
  function WithTypesOn(c: ConfigData, n: nat): (d: ConfigData)
    requires PylintSection in c.sections && n <= |MsgTypeNames|
    ensures PylintSection in d.sections
  {
    if n == 0 then c
    else
      var d := WithTypesOn(c, n - 1);
      var m := MsgTypeNames[n - 1];
      if HasOption(c, PylintSection, m) then d else WithOption(d, PylintSection, m, "on").value
  }

  /** `code_is_ignored(code)`: the type's switch is present and off. The
      type is looked up by the code's first character. */
  function CodeIsIgnored(c: ConfigData, code: string): (r: Result<bool>)
    ensures r.Ok? <==> code != "" && code[0] in MsgTypes && TypeFlag(c, MsgTypes[code[0]]).Ok?
    ensures r == Ok(true) <==> code != "" && code[0] in MsgTypes && HasOption(c, PylintSection, MsgTypes[code[0]])
                                 && GetBoolean(c, PylintSection, MsgTypes[code[0]]) == Ok(false)
    ensures code == "" ==> r == Err(IndexError)
    ensures code != "" && code[0] !in MsgTypes ==> r == Err(KeyError)
  {
    if code == [] then Err(IndexError)
    else if code[0] !in MsgTypes then Err(KeyError)
    else
      var t := MsgTypes[code[0]];
      if HasOption(c, PylintSection, t) then
        var b := GetBoolean(c, PylintSection, t);
        if b.Err? then Err(b.error) else Ok(!b.value)
      else Ok(false)
  }

  /** `get_pylint_msgs_types()`: `on` is written for every message type the
      `pylint` section lacks, and the result maps each type to its switch. */
  method GetPylintMsgsTypes(config: Config) returns (msgs: map<string, bool>, err: Option<PyError>)
    modifies config
    ensures err.None? <==> TypesReadable(old(config.data))
    ensures err.Some? ==> err == Some(if PylintSection in old(config.data.sections) then ValueError else NoSectionError)
    ensures err.None? ==>
              && config.data == WithTypesOn(old(config.data), |MsgTypeNames|)
              && msgs.Keys == (set i | 0 <= i < |MsgTypeNames| :: MsgTypeNames[i])
              && (forall m | m in msgs :: msgs[m] == TypeFlag(old(config.data), m).value)
    ensures err == Some(NoSectionError) ==> config.data == old(config.data)
    ensures err == Some(ValueError) ==>
              exists i | 0 <= i < |MsgTypeNames| ::
                && PylintSection in old(config.data.sections)
                && (forall j | 0 <= j < i :: TypeFlag(old(config.data), MsgTypeNames[j]).Ok?)
                && TypeFlag(old(config.data), MsgTypeNames[i]).Err?
                && config.data == WithTypesOn(old(config.data), i + 1)
  {
    ghost var c0 := config.data;
    msgs, err := map[], None;
    for i := 0 to |MsgTypeNames|
      invariant i > 0 ==> PylintSection in c0.sections && config.data == WithTypesOn(c0, i)
      invariant i == 0 ==> config.data == c0
      invariant FlagsRead(c0, msgs, i)
      invariant err == None
    {
      var m := MsgTypeNames[i];
      if !HasOption(config.data, PylintSection, m) {
        var e := config.Set(PylintSection, m, "on");
        if e.Some? {
          return msgs, e;
        }
      }
      StepFlag(c0, i);
      var b := GetBoolean(config.data, PylintSection, m);
      if b.Err? {
        assert PylintSection in c0.sections && TypeFlag(c0, MsgTypeNames[i]).Err?;
        return msgs, Some(b.error);
      }
      FlagsStep(c0, msgs, i, b.value);
      msgs := msgs[m := b.value];
    }
  }

  /** The switches the first `i` steps of the loop have read. */
  ghost predicate FlagsRead(c: ConfigData, msgs: map<string, bool>, i: nat)
    requires i <= |MsgTypeNames|
  {
    && msgs.Keys == (set j | 0 <= j < i :: MsgTypeNames[j])
    && (forall j | 0 <= j < i :: TypeFlag(c, MsgTypeNames[j]).Ok?)
    && (forall m | m in msgs :: TypeFlag(c, m).Ok? && msgs[m] == TypeFlag(c, m).value)
  }

  lemma FlagsStep(c: ConfigData, msgs: map<string, bool>, i: nat, b: bool)
    requires i < |MsgTypeNames| && FlagsRead(c, msgs, i) && TypeFlag(c, MsgTypeNames[i]) == Ok(b)
    ensures FlagsRead(c, msgs[MsgTypeNames[i] := b], i + 1)
  {
  }

  /** Step `i` of the loop: the content after it, and the flag it reads. */
  lemma StepFlag(c: ConfigData, i: nat)
    requires i < |MsgTypeNames|
    requires i > 0 ==> PylintSection in c.sections
    ensures var m := MsgTypeNames[i];
            PylintSection !in c.sections ==> !HasOption(c, PylintSection, m)
    ensures PylintSection in c.sections ==>
              var d, m := WithTypesOn(c, i), MsgTypeNames[i];
              && HasOption(d, PylintSection, m) == HasOption(c, PylintSection, m)
              && (HasOption(d, PylintSection, m) ==> WithTypesOn(c, i + 1) == d)
              && (!HasOption(d, PylintSection, m) ==> WithTypesOn(c, i + 1) == WithOption(d, PylintSection, m, "on").value)
              && GetBoolean(WithTypesOn(c, i + 1), PylintSection, m) == TypeFlag(c, m)
    ensures TypeFlag(c, MsgTypeNames[i]).Err? ==> TypeFlag(c, MsgTypeNames[i]).error == ValueError
  {
    var m := MsgTypeNames[i];
    if PylintSection in c.sections {
      OtherTypesKept(c, i, i);
      TypesSwitched(c, i + 1, i);
      TypeFlagKept(c, WithTypesOn(c, i + 1), m);
    }
    if HasOption(c, PylintSection, m) {
      HasOptionGets(c, PylintSection, m);
    }
  }

  /** The first `n` steps leave alone every message type they do not
      handle. */
  lemma {:induction false} OtherTypesKept(c: ConfigData, n: nat, i: nat)
    requires PylintSection in c.sections && n <= i < |MsgTypeNames|
    ensures var d := WithTypesOn(c, n); var m := MsgTypeNames[i];
            HasOption(d, PylintSection, m) == HasOption(c, PylintSection, m)
            && Get(d, PylintSection, m) == Get(c, PylintSection, m)
  {
    if n > 0 {
      var k, m := MsgTypeNames[n - 1], MsgTypeNames[i];
      OtherTypesKept(c, n - 1, i);
      if !HasOption(c, PylintSection, k) {
        TypeNamesApart(n - 1, i);
        SetKeepsOthers(WithTypesOn(c, n - 1), PylintSection, k, "on", PylintSection, m);
      }
    }
  }

  /** After `n` steps each of the first `n` message types is present,
      with its old value or with `on`. */
  lemma {:induction false} TypesSwitched(c: ConfigData, n: nat, j: nat)
    requires PylintSection in c.sections && j < n <= |MsgTypeNames|
    ensures var d, m := WithTypesOn(c, n), MsgTypeNames[j];
            HasOption(d, PylintSection, m)
            && Get(d, PylintSection, m) == if HasOption(c, PylintSection, m) then Get(c, PylintSection, m) else Ok("on")
  {
    var k, m := MsgTypeNames[n - 1], MsgTypeNames[j];
    var d := WithTypesOn(c, n - 1);
    if j == n - 1 {
      OtherTypesKept(c, n - 1, j);
      if !HasOption(c, PylintSection, m) {
        GetAfterSet(d, PylintSection, m, "on");
      }
    } else {
      TypesSwitched(c, n - 1, j);
      if !HasOption(c, PylintSection, k) {
        TypeNamesApart(n - 1, j);
        SetKeepsOthers(d, PylintSection, k, "on", PylintSection, m);
      }
    }
  }

  /** A switch that reads as before, or that was absent and is now `on`,
      keeps its flag. */
  lemma TypeFlagKept(c: ConfigData, d: ConfigData, m: string)
    requires HasOption(d, PylintSection, m)
    requires Get(d, PylintSection, m) == if HasOption(c, PylintSection, m) then Get(c, PylintSection, m) else Ok("on")
    ensures TypeFlag(d, m) == TypeFlag(c, m)
  {
    if !HasOption(c, PylintSection, m) {
      assert LowerStr("on") == "on";
    }
  }

  /** `set(cname, value)`. */
  method SetSetting(config: Config, cname: Setting, value: string) returns (err: Option<PyError>)
    modifies config
    ensures var r := WithOption(old(config.data), cname.section, cname.name, value);
            && (r.Ok? ==> err == None && config.data == r.value)
            && (r.Err? ==> err == Some(r.error) && config.data == old(config.data))
  {
    err := config.Set(cname.section, cname.name, value);
  }

  /** `get(cname)`: the stored value if the option exists, else the
      setting's default. */
  function GetSetting(c: ConfigData, cname: Setting): (r: Result<string>)
    ensures !HasOption(c, cname.section, cname.name) ==> r == Ok(cname.default)
    ensures HasOption(c, cname.section, cname.name) && cname.section != "" ==> r == Get(c, cname.section, cname.name) && r.Ok?
  {
    if HasOption(c, cname.section, cname.name) then Get(c, cname.section, cname.name) else Ok(cname.default)
  }

  /** A setting read back after `set` is the value written, and no other
      setting of any section changes. */
  lemma SetThenGetSetting(c: ConfigData, cname: Setting, value: string, other: Setting)
    requires !NamesDefaults(cname.section) && cname.section in c.sections
    requires other.section != cname.section || LowerStr(other.name) != LowerStr(cname.name)
    ensures WithOption(c, cname.section, cname.name, value).Ok?
    ensures var d := WithOption(c, cname.section, cname.name, value).value;
            GetSetting(d, cname) == Ok(value) && GetSetting(d, other) == GetSetting(c, other)
  {
    GetAfterSet(c, cname.section, cname.name, value);
    SetKeepsOthers(c, cname.section, cname.name, value, other.section, other.name);
  }

  /** After `get_pylint_msgs_types`, `code_is_ignored` agrees with the
      switches it returned: a code is ignored exactly when its type is off. */
  lemma IgnoredAfterTypes(c: ConfigData, code: string)
    requires TypesReadable(c)
    requires code != "" && code[0] in MsgTypes
    ensures TypeFlag(c, MsgTypes[code[0]]).Ok?
    ensures CodeIsIgnored(WithTypesOn(c, |MsgTypeNames|), code) == Ok(!TypeFlag(c, MsgTypes[code[0]]).value)
  {
    MsgTypeNamesAreValues();
    var t := MsgTypes[code[0]];
    var j :| 0 <= j < |MsgTypeNames| && MsgTypeNames[j] == t;
    TypesSwitched(c, |MsgTypeNames|, j);
    TypeFlagKept(c, WithTypesOn(c, |MsgTypeNames|), t);
  }
}

/** `SettingsManager` (gpylint/settings/__init__.py): booleans stored in a
    parser as `on` and `off`. */
module Settings {
  import opened PyRuntime
  import opened ConfigParser

  /** The Python values a caller may pass as a flag. `1 == True` and
      `0 == False` in Python, so those integers are keys of a dictionary
      keyed by the two booleans too. */
  datatype PyValue = PyBool(b: bool) | PyInt(i: int) | PyStr(s: string) | PyNone

  /** `{True: 'on', False: 'off'}[value]`. */
  function OnOff(value: PyValue): (r: Result<string>)
    ensures r.Ok? <==> value.PyBool? || value == PyInt(0) || value == PyInt(1)
    ensures r.Err? ==> r.error == KeyError
    ensures r.Ok? ==> r.value == (if value == PyBool(true) || value == PyInt(1) then "on" else "off")
  {
    match value
    case PyBool(b) => Ok(if b then "on" else "off")
    case PyInt(i) => if i == 1 then Ok("on") else if i == 0 then Ok("off") else Err(KeyError)
    case _ => Err(KeyError)
  }

  /** `save_boolean(section, option, value)`: the lookup first, so a value
      that is not a flag raises KeyError before anything is written. */
  method SaveBoolean(config: Config, section: string, option: string, value: PyValue) returns (err: Option<PyError>)
    modifies config
    ensures OnOff(value).Err? ==> err == Some(KeyError) && config.data == old(config.data)
    ensures OnOff(value).Ok? ==>
              var r := WithOption(old(config.data), section, option, OnOff(value).value);
              && (r.Ok? ==> err == None && config.data == r.value)
              && (r.Err? ==> err == Some(r.error) && config.data == old(config.data))
  {
    var text := OnOff(value);
    if text.Err? {
      return Some(text.error);
    }
    err := config.Set(section, option, text.value);
  }

  /** `get_boolean(section, option)`. */
  function GetBooleanSetting(config: Config, section: string, option: string): Result<bool>
    reads config
  {
    GetBoolean(config.data, section, option)
  }

  /** Reading back a saved flag of a named section gives the flag:
      `getboolean` reads `on` as true and `off` as false. */
  lemma SaveThenGet(c: ConfigData, section: string, option: string, value: PyValue)
    requires !NamesDefaults(section) && section in c.sections && OnOff(value).Ok?
    ensures var d := WithOption(c, section, option, OnOff(value).value).value;
            GetBoolean(d, section, option) == Ok(value == PyBool(true) || value == PyInt(1))
  {
    var text := OnOff(value).value;
    GetAfterSet(c, section, option, text);
    assert LowerStr(text) == text;
  }
}

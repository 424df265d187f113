/** The part of Python 2's `ConfigParser.SafeConfigParser` the settings
    managers use: sections of options, the DEFAULT section, option names
    folded to lower case, and `getboolean`'s reading of a value. */
module ConfigParser {
  import opened PyRuntime

  type Options = map<string, string>

  /** A parser's content: its named sections and the options of its
      DEFAULT section, which every named section falls back to. Option
      names are stored lower-cased. */
  datatype ConfigData = ConfigData(sections: map<string, Options>, defaults: Options)

  const DefaultSection: string := "DEFAULT"

  /** The section names `has_option` and `set` take to mean the DEFAULT
      section: the empty name and `DEFAULT`. */
  predicate NamesDefaults(section: string)
  {
    section == "" || section == DefaultSection
  }

  /** `has_section(section)`. */
  predicate HasSection(c: ConfigData, section: string)
  {
    section in c.sections
  }

  /** `has_option(section, option)`. */
  predicate HasOption(c: ConfigData, section: string, option: string)
  {
    var k := LowerStr(option);
    if NamesDefaults(section) then k in c.defaults
    else section in c.sections && (k in c.sections[section] || k in c.defaults)
  }

  /** `get(section, option)`, without `%`-interpolation. */
  function Get(c: ConfigData, section: string, option: string): (r: Result<string>)
    ensures r.Err? ==> r.error == NoSectionError || r.error == NoOptionError
    ensures r.Err? && r.error == NoSectionError <==> section !in c.sections && section != DefaultSection
  {
    var k := LowerStr(option);
    if section !in c.sections then
      if section != DefaultSection then Err(NoSectionError)
      else if k in c.defaults then Ok(c.defaults[k])
      else Err(NoOptionError)
    else if k in c.sections[section] then Ok(c.sections[section][k])
    else if k in c.defaults then Ok(c.defaults[k])
    else Err(NoOptionError)
  }

  /** `getboolean`'s table `_boolean_states`, applied to the lower-cased
      value; anything else raises ValueError. */
  function BooleanOf(v: string): (r: Result<bool>)
    ensures r == Ok(true) <==> LowerStr(v) in {"1", "yes", "true", "on"}
    ensures r == Ok(false) <==> LowerStr(v) in {"0", "no", "false", "off"}
    ensures r.Err? ==> r.error == ValueError
  {
    var l := LowerStr(v);
    if l == "1" || l == "yes" || l == "true" || l == "on" then Ok(true)
    else if l == "0" || l == "no" || l == "false" || l == "off" then Ok(false)
    else Err(ValueError)
  }

  /** `getboolean(section, option)`. */
  function GetBoolean(c: ConfigData, section: string, option: string): Result<bool>
  {
    var v := Get(c, section, option);
    if v.Err? then Err(v.error) else BooleanOf(v.value)
  }

  /** `add_section(section)`: the content with a new empty section, or the
      error it raises. */
  function WithSection(c: ConfigData, section: string): (r: Result<ConfigData>)
    ensures r.Err? <==> LowerStr(section) == "default" || section in c.sections
    ensures r.Err? ==> r.error == (if LowerStr(section) == "default" then ValueError else DuplicateSectionError)
    ensures r.Ok? ==> r.value.sections.Keys == c.sections.Keys + {section} && r.value.sections[section] == map[]
  {
    if LowerStr(section) == "default" then Err(ValueError)
    else if section in c.sections then Err(DuplicateSectionError)
    else Ok(c.(sections := c.sections[section := map[]]))
  }

  /** `set(section, option, value)`: the content with the option written
      into the named section, or into the DEFAULT section for the names
      that denote it; NoSectionError for any other missing section. */
  function WithOption(c: ConfigData, section: string, option: string, value: string): (r: Result<ConfigData>)
    ensures r.Err? <==> !NamesDefaults(section) && section !in c.sections
    ensures r.Err? ==> r.error == NoSectionError
  {
    var k := LowerStr(option);
    if NamesDefaults(section) then Ok(c.(defaults := c.defaults[k := value]))
    else if section !in c.sections then Err(NoSectionError)
    else Ok(c.(sections := c.sections[section := c.sections[section][k := value]]))
  }

  /** A value written to a named section is what `get` then reads there,
      and the option is then present. */
  lemma GetAfterSet(c: ConfigData, section: string, option: string, value: string)
    requires !NamesDefaults(section) && section in c.sections
    ensures WithOption(c, section, option, value).Ok?
    ensures var d := WithOption(c, section, option, value).value;
            Get(d, section, option) == Ok(value) && HasOption(d, section, option)
  {
  }

  /** Writing one option changes what `get` and `has_option` report for no
      other option of any section. */
  lemma SetKeepsOthers(c: ConfigData, section: string, option: string, value: string, s2: string, o2: string)
    requires !NamesDefaults(section) && section in c.sections
    requires s2 != section || LowerStr(o2) != LowerStr(option)
    ensures var d := WithOption(c, section, option, value).value;
            Get(d, s2, o2) == Get(c, s2, o2) && HasOption(d, s2, o2) == HasOption(c, s2, o2)
  {
  }

  /** An option `has_option` reports is one `get` can read, except through
      the empty section name, which `has_option` takes for DEFAULT and
      `get` does not. */
  lemma HasOptionGets(c: ConfigData, section: string, option: string)
    requires section != "" && HasOption(c, section, option)
    ensures Get(c, section, option).Ok?
  {
  }

  /** `d` holds every section and option of `c` with its value, and every
      option it adds holds `v`. */
  ghost predicate GrowsBy(c: ConfigData, d: ConfigData, v: string)
  {
    && c.sections.Keys <= d.sections.Keys
    && (forall s, k | s in c.sections && k in c.sections[s] :: k in d.sections[s] && d.sections[s][k] == c.sections[s][k])
    && (forall k | k in c.defaults :: k in d.defaults && d.defaults[k] == c.defaults[k])
    && (forall s, k | s in d.sections && k in d.sections[s] :: (s in c.sections && k in c.sections[s]) || d.sections[s][k] == v)
    && (forall k | k in d.defaults :: k in c.defaults || d.defaults[k] == v)
  }

  lemma GrowsByRefl(c: ConfigData, v: string)
    ensures GrowsBy(c, c, v)
  {
  }

  lemma GrowsByTrans(c: ConfigData, d: ConfigData, e: ConfigData, v: string)
    requires GrowsBy(c, d, v) && GrowsBy(d, e, v)
    ensures GrowsBy(c, e, v)
  {
  }

  /** Adding a section adds nothing else. */
  lemma WithSectionGrows(c: ConfigData, section: string, v: string)
    requires WithSection(c, section).Ok?
    ensures GrowsBy(c, WithSection(c, section).value, v)
  {
  }

  /** Writing `v` to an option that is not yet present only adds it. */
  lemma SetMissingGrows(c: ConfigData, section: string, option: string, v: string)
    requires !HasOption(c, section, option) && WithOption(c, section, option, v).Ok?
    ensures GrowsBy(c, WithOption(c, section, option, v).value, v)
    ensures HasOption(WithOption(c, section, option, v).value, section, option)
  {
  }

  /** Options present stay present as the content grows. */
  lemma GrowsKeepsOptions(c: ConfigData, d: ConfigData, v: string, section: string, option: string)
    requires GrowsBy(c, d, v) && HasOption(c, section, option)
    ensures HasOption(d, section, option)
  {
  }

  /** The parser object the settings managers share. */
  class Config {
    var data: ConfigData

    constructor(data: ConfigData)
      ensures this.data == data
    {
      this.data := data;
    }

    /** `add_section(section)`. */
    method AddSection(section: string) returns (err: Option<PyError>)
      modifies this
      ensures var r := WithSection(old(data), section);
              && (r.Ok? ==> err == None && data == r.value)
              && (r.Err? ==> err == Some(r.error) && data == old(data))
    {
      var r := WithSection(data, section);
      if r.Err? {
        return Some(r.error);
      }
      data := r.value;
      return None;
    }

    /** `set(section, option, value)`. */
    method Set(section: string, option: string, value: string) returns (err: Option<PyError>)
      modifies this
      ensures var r := WithOption(old(data), section, option, value);
              && (r.Ok? ==> err == None && data == r.value)
              && (r.Err? ==> err == Some(r.error) && data == old(data))
    {
      var r := WithOption(data, section, option, value);
      if r.Err? {
        return Some(r.error);
      }
      data := r.value;
      return None;
    }
  }
}

/**
 * The part of Python 2's `ConfigParser.RawConfigParser` that the monitor
 * uses: a store of named sections, each a map from option name to string,
 * plus the values of the file's `[DEFAULT]` section, which every section
 * falls back on.  Option names are case-folded on the way in (`optionxform`).
 */
module ConfigParser {
  import opened Wrappers
  import opened Ascii

  /** The name of the defaults section; it is never one of `sections`. */
  const DefaultSection: string := "DEFAULT"

  type Section = map<string, string>

  datatype ConfigError =
    | NoSectionError(section: string)
    | NoOptionError(option: string, section: string)
    | DuplicateSectionError(section: string)
    | InvalidSectionName(section: string)
    | NotABoolean(value: string)

  /** The spellings `getboolean` accepts, after case folding. */
  const BooleanStates: map<string, bool> :=
    map["1" := true, "yes" := true, "true" := true, "on" := true,
        "0" := false, "no" := false, "false" := false, "off" := false]

  /** `optionxform`: option names are stored and looked up case-folded. */
  function OptionXform(option: string): (key: string)
    ensures Lower(key) == key
    ensures |key| == |option|
  {
    LowerIdempotent(option);
    Lower(option)
  }

  /** The boolean parse behind `getboolean`: `None` where it raises ValueError. */
  function ParseBoolean(v: string): (r: Option<bool>)
    ensures r == Some(true) <==> Lower(v) in {"1", "yes", "true", "on"}
    ensures r == Some(false) <==> Lower(v) in {"0", "no", "false", "off"}
  {
    var k := Lower(v);
    if k in BooleanStates then Some(BooleanStates[k]) else None
  }

  /**
   * `get(section, option)` on a store: the section's own value shadows the
   * default one; the defaults section itself may be read by name.
   */
  function Get(sections: map<string, Section>, defaults: Section, section: string, option: string)
    : (r: Result<string, ConfigError>)
    ensures section in sections && OptionXform(option) in sections[section] ==>
                  r == Ok(sections[section][OptionXform(option)])
    ensures (section in sections ==> OptionXform(option) !in sections[section])
              && (section in sections || section == DefaultSection)
              && OptionXform(option) in defaults ==>
                  r == Ok(defaults[OptionXform(option)])
    ensures r.Err? <==> (section !in sections && section != DefaultSection)
                        || ((section in sections ==> OptionXform(option) !in sections[section])
                            && OptionXform(option) !in defaults)
  {
    var opt := OptionXform(option);
    if section !in sections then
      if section != DefaultSection then Err(NoSectionError(section))
      else if opt in defaults then Ok(defaults[opt])
      else Err(NoOptionError(option, section))
    else if opt in sections[section] then Ok(sections[section][opt])
    else if opt in defaults then Ok(defaults[opt])
    else Err(NoOptionError(option, section))
  }

  /** `getboolean(section, option)`: `get`, then the boolean parse. */
  function GetBoolean(sections: map<string, Section>, defaults: Section, section: string, option: string)
    : (r: Result<bool, ConfigError>)
    ensures r.Ok? <==> Get(sections, defaults, section, option).Ok?
                       && ParseBoolean(Get(sections, defaults, section, option).value).Some?
    ensures r.Ok? ==> Some(r.value) == ParseBoolean(Get(sections, defaults, section, option).value)
  {
    match Get(sections, defaults, section, option)
    case Err(e) => Err(e)
    case Ok(v) =>
      match ParseBoolean(v)
      case Some(b) => Ok(b)
      case None => Err(NotABoolean(v))
  }

  /** Every spelling `add_section` refuses folds to the same word as the defaults section. */
  lemma DefaultSectionFolds()
    ensures Lower(DefaultSection) == "default"
  {
  }

  /** The words written for a boolean flag. */
  function Flag(b: bool): string {
    if b then "yes" else "no"
  }

  /** What is written parses back as what was meant. */
  lemma {:induction false} FlagRoundTrip(b: bool)
    ensures ParseBoolean(Flag(b)) == Some(b)
  {
    LowerOfLower(Flag(b));
  }

  /** Case does not matter to `getboolean`. */
  lemma ParseBooleanCaseInsensitive(v: string)
    ensures ParseBoolean(Lower(v)) == ParseBoolean(v)
  {
    LowerIdempotent(v);
  }

  /** A `getboolean` of what `set` just stored yields the stored flag. */
  lemma GetBooleanAfterSet(sections: map<string, Section>, defaults: Section, section: string, option: string, b: bool)
    requires section in sections
    ensures GetBoolean(sections[section := sections[section][OptionXform(option) := Flag(b)]],
                       defaults, section, option) == Ok(b)
  {
    FlagRoundTrip(b);
  }

  class RawConfigParser {
    var sections: map<string, Section>
    var defaults: Section

    /** The reader files `[DEFAULT]` under `defaults` and `add_section` refuses it. */
    ghost predicate Valid()
      reads this
    {
      DefaultSection !in sections
    }

    /** A parser holding what `read` found in the configuration file. */
    constructor (sections0: map<string, Section>, defaults0: Section)
      requires DefaultSection !in sections0
      ensures Valid()
      ensures sections == sections0 && defaults == defaults0
    {
      sections := sections0;
      defaults := defaults0;
    }

    /** `add_section`: refuses any spelling of "default" and an existing name. */
    method AddSection(section: string) returns (err: Option<ConfigError>)
      requires Valid()
      modifies this
      ensures Valid()
      ensures defaults == old(defaults)
      ensures Lower(section) == "default" ==> err == Some(InvalidSectionName(section)) && sections == old(sections)
      ensures Lower(section) != "default" && section in old(sections) ==>
                    err == Some(DuplicateSectionError(section)) && sections == old(sections)
      ensures Lower(section) != "default" && section !in old(sections) ==>
                    err == None && sections == old(sections)[section := map[]]
    {
      if Lower(section) == "default" {
        return Some(InvalidSectionName(section));
      }
      if section in sections {
        return Some(DuplicateSectionError(section));
      }
      DefaultSectionFolds();
      sections := sections[section := map[]];
      err := None;
    }

    /** `set`: an empty or "DEFAULT" section name writes the defaults. */
    method Set(section: string, option: string, value: string) returns (err: Option<ConfigError>)
      requires Valid()
      modifies this
      ensures Valid()
      ensures section == "" || section == DefaultSection ==>
                    err == None && sections == old(sections)
                    && defaults == old(defaults)[OptionXform(option) := value]
      ensures section != "" && section != DefaultSection && section in old(sections) ==>
                    err == None && defaults == old(defaults)
                    && sections == old(sections)[section := old(sections)[section][OptionXform(option) := value]]
      ensures section != "" && section != DefaultSection && section !in old(sections) ==>
                    err == Some(NoSectionError(section))
                    && sections == old(sections) && defaults == old(defaults)
    {
      var key := OptionXform(option);
      if section == "" || section == DefaultSection {
        defaults := defaults[key := value];
        err := None;
      } else if section in sections {
        sections := sections[section := sections[section][key := value]];
        err := None;
      } else {
        err := Some(NoSectionError(section));
      }
    }
  }
}

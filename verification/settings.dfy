/** The settings file as `ConfigParser` presents it once read: named sections,
    each mapping option names to string values. */
module Settings {
  import opened Basics
  import PyInt

  type Config = map<string, map<string, string>>

  /** The `configparser.Error` subclasses a lookup raises. */
  datatype LookupError =
    | NoSectionError(section: string)
    | NoOptionError(section: string, option: string)

  /** Why `getint` failed: the lookup itself, or a value `int()` rejects
      (a `ValueError`, which is not a `configparser.Error`). */
  datatype GetIntError =
    | LookupFailed(cause: LookupError)
    | NotAnInteger(text: string)

  predicate Has(config: Config, section: string, option: string)
  {
    section in config && option in config[section]
  }

  /** `config.get(section, option)`. */
  function Get(config: Config, section: string, option: string): (r: Result<string, LookupError>)
    ensures r.Ok? <==> Has(config, section, option)
    ensures r.Ok? ==> r.value == config[section][option]
    ensures section !in config ==> r == Err(NoSectionError(section))
    ensures section in config && option !in config[section] ==> r == Err(NoOptionError(section, option))
  {
    if section !in config then Err(NoSectionError(section))
    else if option !in config[section] then Err(NoOptionError(section, option))
    else Ok(config[section][option])
  }

  /** `config.getint(section, option)`: the looked-up value through `int()`. */
  function GetInt(config: Config, section: string, option: string): (r: Result<int, GetIntError>)
    ensures r.Ok? <==> Has(config, section, option) && PyInt.ParseInt(config[section][option]).Some?
    ensures r.Ok? ==> r.value == PyInt.ParseInt(config[section][option]).value
    ensures !Has(config, section, option) ==> r == Err(LookupFailed(Get(config, section, option).error))
    ensures Has(config, section, option) && PyInt.ParseInt(config[section][option]).None? ==>
              r == Err(NotAnInteger(config[section][option]))
  {
    match Get(config, section, option)
    case Err(e) => Err(LookupFailed(e))
    case Ok(text) =>
      match PyInt.ParseInt(text)
      case None => Err(NotAnInteger(text))
      case Some(n) => Ok(n)
  }
}

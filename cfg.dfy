/**
 * The persisted configuration of the controller (src/cfg.cpp): the record of
 * recognised options, the compiled-in defaults, the derivation of the settings
 * file path on Linux and on Windows, and the decisions `save` and `read` take
 * over the outcomes of the file operations they perform.
 */
module Cfg {
  import opened Wrappers

  /** The four values `temp_state` takes: HIGH, INCREASING, LOWERING, LOW, in that order. */
  datatype TempState = High | Increasing | Lowering | Low

  /** A JSON number keeps whether it was stored as an integer or as a float. */
  datatype Number = Int(i: int) | Float(f: real)

  /** The recognised configuration options (`cfg`), one field per key. */
  datatype Config = Config(
    brightness: int,
    minBr: int,
    maxBr: int,
    offset: int,
    speed: int,
    tempSpeed: Number,
    threshold: int,
    pollingRate: int,
    tempStep: int,
    tempHigh: int,
    tempLow: int,
    tempState: TempState,
    timeStart: string,
    timeEnd: string,
    autoBr: bool,
    autoTemp: bool,
    extendBr: bool,
    logLvl: int)

  /** plog's `warning` severity, the default `log_lvl`. */
  const PlogWarning := 3

  /**
   * `setDefault`: the compiled-in configuration. `brtSliderSteps` and
   * `maxTempKelvin` are the constants of the same names from defs.h.
   */
  function Default(brtSliderSteps: nat, maxTempKelvin: int): (c: Config)
    ensures c.minBr == brtSliderSteps / 2 <= c.maxBr == brtSliderSteps
    ensures c.brightness == c.maxBr
    ensures c.offset == brtSliderSteps / 3 && c.offset <= c.minBr
    ensures c.tempStep == 0 && c.tempState == High
    ensures c.tempHigh == maxTempKelvin && c.tempLow == 3400
    ensures c.tempSpeed == Float(30.0) && c.speed == 5
    ensures c.threshold == 36 && c.pollingRate == 100
    ensures c.timeStart == "17:00:00" && c.timeEnd == "06:00:00"
    ensures c.autoBr && !c.autoTemp && !c.extendBr
    ensures c.logLvl == PlogWarning
  {
    Config(
      brightness := brtSliderSteps,
      minBr := brtSliderSteps / 2,
      maxBr := brtSliderSteps,
      offset := brtSliderSteps / 3,
      speed := 5,
      tempSpeed := Float(30.0),
      threshold := 36,
      pollingRate := 100,
      tempStep := 0,
      tempHigh := maxTempKelvin,
      tempLow := 3400,
      tempState := High,
      timeStart := "17:00:00",
      timeEnd := "06:00:00",
      autoBr := true,
      autoTemp := false,
      extendBr := false,
      logLvl := PlogWarning)
  }

  predicate EndsWith(s: string, suffix: string) {
    |suffix| <= |s| && s[|s| - |suffix|..] == suffix
  }

  /**
   * `getConfigPath`: the settings file is "gammy" inside `$XDG_CONFIG_HOME`
   * when that variable is set, otherwise inside `$HOME/.config`; with neither
   * variable set there is no path. An unset variable is `None`.
   */
  function ConfigPath(xdgConfigHome: Option<string>, home: Option<string>): (path: string)
    ensures path == "" <==> xdgConfigHome.None? && home.None?
    ensures path != "" ==> EndsWith(path, "/gammy")
    ensures xdgConfigHome.Some? ==> path[..|path| - 6] == xdgConfigHome.value
    ensures xdgConfigHome.None? && home.Some? ==>
      path[..|path| - 6] == home.value + "/.config"
  {
    if xdgConfigHome.Some? then
      var dir := xdgConfigHome.value + "/";
      dir + "gammy"
    else if home.None? then
      ""
    else
      var dir := home.value + "/.config/";
      dir + "gammy"
  }

  /** `pat` occurs in `s` starting at index `i`. */
  predicate OccursAt(s: string, pat: string, i: nat) {
    i + |pat| <= |s| && s[i..i + |pat|] == pat
  }

  /** `std::wstring::find`: the first index at or after `from` where `pat` occurs. */
  function Find(s: string, pat: string, from: nat): (r: Option<nat>)
    ensures r.Some? ==> from <= r.value && OccursAt(s, pat, r.value)
    ensures r.Some? ==> forall j :: from <= j < r.value ==> !OccursAt(s, pat, j)
    ensures r.None? ==> forall j :: from <= j ==> !OccursAt(s, pat, j)
    decreases |s| - from
  {
    if from + |pat| > |s| then None
    else if OccursAt(s, pat, from) then Some(from)
    else Find(s, pat, from + 1)
  }

  const AppName := "gammy.exe"
  const SettingsName := "gammysettings.cfg"

  /**
   * `getExecutablePath` on the module path reported by the system: the first
   * "gammy.exe" is erased and "gammysettings.cfg" appended. When the name
   * does not occur, `erase(npos, …)` throws, which is `None` here.
   */
  method ExecutablePath(modulePath: string) returns (r: Option<string>)
    ensures r.None? <==> forall j: nat :: !OccursAt(modulePath, AppName, j)
    ensures r.Some? ==> EndsWith(r.value, SettingsName)
    ensures r.Some? ==>
      var i := Find(modulePath, AppName, 0).value;
      OccursAt(modulePath, AppName, i) &&
      (forall j: nat :: j < i ==> !OccursAt(modulePath, AppName, j)) &&
      r.value == modulePath[..i] + modulePath[i + |AppName|..] + SettingsName
  {
    var path := modulePath;
    var found := Find(path, AppName, 0);
    if found.None? {
      return None;
    }
    var i := found.value;
    path := path[..i] + path[i + |AppName|..];
    path := path + SettingsName;
    assert path[|path| - |SettingsName|..] == SettingsName;
    r := Some(path);
  }

  /** What the settings file holds, as far as this process has written it. */
  datatype FileContent = Untouched | Partial | Holds(cfg: Config)

  /** The outcome of opening the file for writing and serialising into it. */
  datatype WriteOutcome = CannotOpen | DumpThrows | Written

  /** The outcome of opening the file for reading and parsing it. */
  datatype ReadOutcome = OpenFails | EmptyFile | Parses(cfg: Config) | Malformed

  /** The global `cfg` together with the settings file at `path`. */
  class Store {
    const path: string
    const brtSliderSteps: nat
    const maxTempKelvin: int
    var cfg: Config
    var file: FileContent

    /** `json cfg = setDefault();` with the path fixed at start-up. */
    constructor(path: string, brtSliderSteps: nat, maxTempKelvin: int)
      ensures this.path == path && this.brtSliderSteps == brtSliderSteps
      ensures this.maxTempKelvin == maxTempKelvin
      ensures cfg == Default(brtSliderSteps, maxTempKelvin) && file == Untouched
    {
      this.path := path;
      this.brtSliderSteps := brtSliderSteps;
      this.maxTempKelvin := maxTempKelvin;
      cfg := Default(brtSliderSteps, maxTempKelvin);
      file := Untouched;
    }

    /**
     * `save`: nothing is written without a path or when the file cannot be
     * opened; an opened file is truncated, so a serialisation error leaves it
     * partly written.
     */
    method Save(w: WriteOutcome)
      modifies this`file
      ensures path == "" || w == CannotOpen ==> file == old(file)
      ensures path != "" && w == DumpThrows ==> file == Partial
      ensures path != "" && w == Written ==> file == Holds(cfg)
    {
      if path == "" {
        return;
      }
      match w
      case CannotOpen =>
        return;
      case DumpThrows =>
        file := Partial;
      case Written =>
        file := Holds(cfg);
    }

    /**
     * `read`: an empty file keeps `cfg` and saves it; a parsed file replaces
     * `cfg`; a malformed one resets `cfg` to exactly the defaults and saves
     * them. `w` is the outcome of the save that may follow.
     */
    method Read(r: ReadOutcome, w: WriteOutcome)
      modifies this
      ensures r.OpenFails? ==> cfg == old(cfg) && file == old(file)
      ensures r.EmptyFile? ==> cfg == old(cfg)
      ensures r.Parses? ==> cfg == r.cfg && file == old(file)
      ensures r.Malformed? ==> cfg == Default(brtSliderSteps, maxTempKelvin)
      ensures r.EmptyFile? || r.Malformed? ==>
        file == (if path == "" || w == CannotOpen then old(file)
                 else if w == DumpThrows then Partial
                 else Holds(cfg))
    {
      match r
      case OpenFails =>
        return;
      case EmptyFile =>
        Save(w);
      case Parses(c) =>
        cfg := c;
      case Malformed =>
        cfg := Default(brtSliderSteps, maxTempKelvin);
        Save(w);
    }
  }
}

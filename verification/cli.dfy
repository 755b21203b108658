/** Turning the option values of the command line into a launch configuration. */
module Cli {
  import opened Wrappers
  import opened Seqs
  import opened Strings
  import opened ChromeConfig

  /** A value the argument tokenizer produced for one option. Tokenizing is lenient, so any option may
      come out as a boolean, a string, or a list. */
  datatype ArgValue = Absent | Flag(on: bool) | Text(text: string) | Many(values: seq<ArgValue>)

  /** The tokenizer's record of option values, one field per recognised option. */
  datatype ParsedValues = ParsedValues(
    headless: ArgValue,
    noHeadless: ArgValue,
    userDataDir: ArgValue,
    profileDirectory: ArgValue,
    profilePath: ArgValue,
    chromePort: ArgValue,
    remoteDebuggingPort: ArgValue,
    chromeFlag: ArgValue)

  /** JavaScript truthiness of an option value. */
  predicate Truthy(v: ArgValue) {
    match v
    case Absent => false
    case Flag(on) => on
    case Text(s) => s != ""
    case Many(_) => true
  }

  /** Index of the last '/' in `path`, if any. */
  function LastSlash(path: string): (r: Option<nat>)
    ensures r.Some? ==> r.value < |path| && path[r.value] == '/'
    ensures r.Some? ==> forall j :: r.value < j < |path| ==> path[j] != '/'
    ensures r.None? ==> forall j :: 0 <= j < |path| ==> path[j] != '/'
  {
    if path == [] then None
    else if path[|path| - 1] == '/' then Some(|path| - 1)
    else LastSlash(path[..|path| - 1])
  }

  /** The directory part of a path: everything before the last '/'. */
  function Dirname(path: string): string {
    match LastSlash(path)
    case None => "."
    case Some(i) => if i == 0 then "/" else path[..i]
  }

  /** The last component of a path: everything after the last '/'. */
  function Basename(path: string): (name: string)
    ensures forall j :: 0 <= j < |name| ==> name[j] != '/'
  {
    match LastSlash(path)
    case None => path
    case Some(i) => path[i + 1..]
  }

  /** A relative or absolute path below some directory is its directory part, a '/', and its last
      component; a path without '/' is its own last component, in the current directory. */
  lemma PathSplitRoundTrip(path: string)
    ensures LastSlash(path).Some? && LastSlash(path).value > 0 ==> Dirname(path) + "/" + Basename(path) == path
    ensures LastSlash(path).None? ==> Dirname(path) == "." && Basename(path) == path
  {
    if LastSlash(path).Some? && LastSlash(path).value > 0 {
      var i := LastSlash(path).value;
      assert path == path[..i] + [path[i]] + path[i + 1..];
    }
  }

  /** `parsePort`: a positive decimal port given as a string; anything else gives nothing. */
  function ParsePort(value: ArgValue): (port: Option<int>)
    ensures port.Some? ==> port.value > 0
    ensures port.Some? ==> value.Text? && IsDecimal(value.text)
  {
    if !value.Text? || !IsDecimal(value.text) then None
    else
      var n := DecimalValue(value.text);
      if n <= 0 then None else Some(n)
  }

  /** Every positive number, written in decimal, is read back as that port; zero and non-strings are
      rejected. */
  lemma ParsePortRoundTrip(n: nat)
    ensures n > 0 ==> ParsePort(Text(DecimalString(n))) == Some(n)
    ensures ParsePort(Text("0")) == None && ParsePort(Text("")) == None
    ensures ParsePort(Absent) == None && ParsePort(Flag(true)) == None
  {
    DecimalRoundTrip(n);
    assert DecimalValue("0") == 0 by { assert "0"[..0] == ""; }
  }

  predicate IsText(v: ArgValue) {
    v.Text?
  }

  function AsText(t: string): ArgValue {
    Text(t)
  }

  /** The string items of a list value, in order (the `filter` on `typeof flag === "string"`). */
  function TextValues(values: seq<ArgValue>): (texts: seq<string>)
    ensures |texts| <= |values|
    ensures forall t :: t in texts <==> Text(t) in values
    ensures Map(texts, AsText) == Filter(values, IsText)
  {
    if values == [] then []
    else
      var pre := values[..|values| - 1];
      var last := values[|values| - 1];
      var tail := if last.Text? then [last.text] else [];
      MapAppend(TextValues(pre), tail, AsText);
      TextValues(pre) + tail
  }

  /** The extra Chrome flags given with `--chrome-flag`, in order. */
  function ChromeFlagValues(value: ArgValue): seq<string> {
    match value
    case Many(values) => TextValues(values)
    case Text(s) => [s]
    case _ => []
  }

  /** The headless options: `--headless` when given as a boolean, then `--no-headless`, which wins. */
  method ApplyHeadless(values: ParsedValues, config: LaunchConfig) returns (c: LaunchConfig)
    ensures c == config.(headless :=
      if Truthy(values.noHeadless) then Some(false)
      else if values.headless.Flag? then Some(values.headless.on)
      else config.headless)
  {
    c := config;
    if values.headless.Flag? {
      c := c.(headless := Some(values.headless.on));
    }
    if Truthy(values.noHeadless) {
      c := c.(headless := Some(false));
    }
  }

  /** The profile options: `--user-data-dir` and `--profile-directory`, then `--profile-path`, whose
      directory part and last component replace both. */
  method ApplyProfile(values: ParsedValues, config: LaunchConfig) returns (c: LaunchConfig)
    ensures values.profilePath.Text? ==>
      c == config.(userDataDir := Some(Dirname(values.profilePath.text)),
                   profileDirectory := Some(Basename(values.profilePath.text)))
    ensures !values.profilePath.Text? ==>
      c == config.(userDataDir := if values.userDataDir.Text? then Some(values.userDataDir.text) else config.userDataDir,
                   profileDirectory :=
                     if values.profileDirectory.Text? then Some(values.profileDirectory.text) else config.profileDirectory)
  {
    c := config;
    if values.userDataDir.Text? {
      c := c.(userDataDir := Some(values.userDataDir.text));
    }
    if values.profileDirectory.Text? {
      c := c.(profileDirectory := Some(values.profileDirectory.text));
    }
    if values.profilePath.Text? {
      c := c.(userDataDir := Some(Dirname(values.profilePath.text)));
      c := c.(profileDirectory := Some(Basename(values.profilePath.text)));
    }
  }

  /** The port options: a valid `--remote-debugging-port`, else a valid `--chrome-port`. */
  method ApplyPort(values: ParsedValues, config: LaunchConfig) returns (c: LaunchConfig)
    ensures ParsePort(values.remoteDebuggingPort).Some? ==>
      c == config.(remoteDebuggingPort := ParsePort(values.remoteDebuggingPort))
    ensures ParsePort(values.remoteDebuggingPort).None? && ParsePort(values.chromePort).Some? ==>
      c == config.(remoteDebuggingPort := ParsePort(values.chromePort))
    ensures ParsePort(values.remoteDebuggingPort).None? && ParsePort(values.chromePort).None? ==> c == config
  {
    c := config;
    var chromePort := ParsePort(values.chromePort);
    var remoteDebuggingPort := ParsePort(values.remoteDebuggingPort);
    var resolvedPort := if remoteDebuggingPort.Some? then remoteDebuggingPort else chromePort;
    if resolvedPort.Some? && resolvedPort.value != 0 {
      c := c.(remoteDebuggingPort := resolvedPort);
    }
  }

  /** The `--chrome-flag` option: a list keeps its string items, a single string becomes a list of one,
      anything else leaves the flags as they were. */
  method ApplyChromeFlags(values: ParsedValues, config: LaunchConfig) returns (c: LaunchConfig)
    ensures values.chromeFlag.Many? || values.chromeFlag.Text? ==>
      c == config.(extraChromeFlags := Some(ChromeFlagValues(values.chromeFlag)))
    ensures !(values.chromeFlag.Many? || values.chromeFlag.Text?) ==> c == config
  {
    c := config;
    match values.chromeFlag {
      case Many(flags) =>
        c := c.(extraChromeFlags := Some(TextValues(flags)));
      case Text(flag) =>
        c := c.(extraChromeFlags := Some([flag]));
      case _ =>
    }
  }

  /** `parseCliArgs`: applies the options one after the other; later assignments win, which gives
      `--no-headless` precedence over `--headless`, `--profile-path` over `--user-data-dir` and
      `--profile-directory`, and a valid `--remote-debugging-port` over `--chrome-port`. */
  method ParseCliArgs(values: ParsedValues) returns (config: LaunchConfig)
    ensures Truthy(values.noHeadless) ==> config.headless == Some(false)
    ensures !Truthy(values.noHeadless) && values.headless.Flag? ==> config.headless == Some(values.headless.on)
    ensures !Truthy(values.noHeadless) && !values.headless.Flag? ==> config.headless == None
    ensures values.profilePath.Text? ==>
      config.userDataDir == Some(Dirname(values.profilePath.text)) &&
      config.profileDirectory == Some(Basename(values.profilePath.text))
    ensures !values.profilePath.Text? ==>
      config.userDataDir == (if values.userDataDir.Text? then Some(values.userDataDir.text) else None) &&
      config.profileDirectory == (if values.profileDirectory.Text? then Some(values.profileDirectory.text) else None)
    ensures ParsePort(values.remoteDebuggingPort).Some? ==> config.remoteDebuggingPort == ParsePort(values.remoteDebuggingPort)
    ensures ParsePort(values.remoteDebuggingPort).None? ==> config.remoteDebuggingPort == ParsePort(values.chromePort)
    ensures config.remoteDebuggingPort.Some? ==> config.remoteDebuggingPort.value > 0
    ensures config.extraChromeFlags == Some(ChromeFlagValues(values.chromeFlag))
  {
    config := LaunchConfig(None, None, None, None, Some([]));
    config := ApplyHeadless(values, config);
    config := ApplyProfile(values, config);
    config := ApplyPort(values, config);
    config := ApplyChromeFlags(values, config);
  }
}

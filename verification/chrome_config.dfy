/** The process-wide Chrome launch configuration and the composition of Chrome's command-line flags. */
module ChromeConfig {
  import opened Wrappers
  import opened Seqs
  import opened Strings
  import opened LighthouseConstants

  /** `ChromeLaunchConfig`: every field is optional; `None` is an absent (undefined) field. */
  datatype LaunchConfig = LaunchConfig(
    headless: Option<bool>,
    userDataDir: Option<string>,
    profileDirectory: Option<string>,
    remoteDebuggingPort: Option<int>,
    extraChromeFlags: Option<seq<string>>)

  /** What is handed to the Chrome launcher. */
  datatype LaunchOptions = LaunchOptions(chromeFlags: seq<string>, userDataDir: Option<string>)

  /** JavaScript truthiness of an optional string: present and non-empty. */
  predicate IsSet(s: Option<string>) {
    s.Some? && s.value != ""
  }

  const DEFAULT_CONFIG: LaunchConfig := LaunchConfig(Some(true), None, None, None, Some([]))

  const PROFILE_DIRECTORY_PREFIX: string := "--profile-directory"
  const USER_DATA_DIR_PREFIX: string := "--user-data-dir"

  /** The holder of the process-wide configuration (`runtimeConfig`). */
  class LaunchConfigStore {
    var runtimeConfig: LaunchConfig

    /** What every stored configuration satisfies: the defaulted fields are present. */
    predicate Valid()
      reads this
    {
      runtimeConfig.headless.Some? && runtimeConfig.extraChromeFlags.Some?
    }

    constructor ()
      ensures Valid() && runtimeConfig == DEFAULT_CONFIG
    {
      runtimeConfig := DEFAULT_CONFIG;
    }

    /** Stores the defaults overlaid by `config`; the extra flags are replaced wholesale, never appended. */
    method SetChromeLaunchConfig(config: LaunchConfig)
      modifies this
      ensures Valid()
      ensures runtimeConfig.headless == Some(config.headless.GetOr(true))
      ensures runtimeConfig.userDataDir == config.userDataDir
      ensures runtimeConfig.profileDirectory == config.profileDirectory
      ensures runtimeConfig.remoteDebuggingPort == config.remoteDebuggingPort
      ensures runtimeConfig.extraChromeFlags == Some(config.extraChromeFlags.GetOr([]))
    {
      var headless := if config.headless.Some? then config.headless else DEFAULT_CONFIG.headless;
      runtimeConfig := LaunchConfig(
        headless,
        config.userDataDir,
        config.profileDirectory,
        config.remoteDebuggingPort,
        Some(config.extraChromeFlags.GetOr(DEFAULT_CONFIG.extraChromeFlags.value)));
    }

    /** A copy of the stored configuration, equal to it, with the flag list always present. */
    method GetChromeLaunchConfig() returns (config: LaunchConfig)
      ensures config.extraChromeFlags.Some?
      ensures Valid() ==> config == runtimeConfig
      ensures config.headless == runtimeConfig.headless
      ensures config.userDataDir == runtimeConfig.userDataDir
      ensures config.profileDirectory == runtimeConfig.profileDirectory
      ensures config.remoteDebuggingPort == runtimeConfig.remoteDebuggingPort
      ensures config.extraChromeFlags.value == runtimeConfig.extraChromeFlags.GetOr([])
    {
      config := runtimeConfig.(extraChromeFlags := Some(runtimeConfig.extraChromeFlags.GetOr([])));
    }

    /** `getChromeLaunchOptions` without the directory creation: the launch options of the stored configuration. */
    method GetChromeLaunchOptions() returns (options: LaunchOptions)
      requires Valid()
      ensures options == BuildChromeLaunchOptions(runtimeConfig)
    {
      var config := GetChromeLaunchConfig();
      options := BuildChromeLaunchOptions(config);
    }
  }

  predicate IsHeadlessFlag(flag: string) {
    StartsWith(flag, HEADLESS_PREFIX)
  }

  /** Some extra flag selects a headless mode itself. */
  predicate HasHeadlessOverride(extraFlags: seq<string>) {
    exists flag :: flag in extraFlags && IsHeadlessFlag(flag)
  }

  /** The flags of `flags` that survive when headless flags are (dis)allowed, in order. */
  function KeepFlags(flags: seq<string>, allowHeadless: bool): (r: seq<string>)
  {
    if flags == [] then []
    else
      var last := flags[|flags| - 1];
      KeepFlags(flags[..|flags| - 1], allowHeadless) + (if allowHeadless || !IsHeadlessFlag(last) then [last] else [])
  }

  lemma {:induction false} KeepFlagsMembers(flags: seq<string>, allowHeadless: bool)
    ensures forall f :: f in KeepFlags(flags, allowHeadless) <==> f in flags && (allowHeadless || !IsHeadlessFlag(f))
  {
    if flags != [] {
      KeepFlagsMembers(flags[..|flags| - 1], allowHeadless);
      assert flags == flags[..|flags| - 1] + [flags[|flags| - 1]];
    }
  }

  /** The default flags, without the headless one when an extra flag overrides it. */
  function BaseFlags(hasHeadlessOverride: bool): seq<string> {
    if hasHeadlessOverride then KeepFlags(CHROME_FLAGS, false) else CHROME_FLAGS
  }

  function ProfileFlag(profileDirectory: string): string {
    PROFILE_DIRECTORY_PREFIX + "=" + profileDirectory
  }

  /** The profile-directory flag, when a profile directory is set. */
  function ProfileFlags(config: LaunchConfig): seq<string> {
    if IsSet(config.profileDirectory) then [ProfileFlag(config.profileDirectory.value)] else []
  }

  /** Whether headless flags may appear in the output at all. */
  predicate AllowHeadlessFlags(config: LaunchConfig) {
    config.headless.GetOr(true) || HasHeadlessOverride(config.extraChromeFlags.GetOr([]))
  }

  /** The list `buildChromeFlags` assembles before de-duplication: defaults, profile flag, extra flags. */
  function CombinedFlags(config: LaunchConfig): seq<string> {
    var extraFlags := config.extraChromeFlags.GetOr([]);
    var allow := AllowHeadlessFlags(config);
    KeepFlags(BaseFlags(HasHeadlessOverride(extraFlags)), allow) + ProfileFlags(config) + KeepFlags(extraFlags, allow)
  }

  /** The final flag list: the combined list without repetitions, in first-occurrence order. */
  function ChromeFlags(config: LaunchConfig): seq<string> {
    DedupeFlags(CombinedFlags(config))
  }

  /** `dedupeFlags`: `[...new Set(flags)]`. */
  function DedupeFlags(flags: seq<string>): (r: seq<string>)
    ensures Distinct(r)
    ensures forall f :: f in r <==> f in flags
  {
    Dedupe(flags)
  }

  /** One `for ... of` loop of `buildChromeFlags`: pushes onto `combined` each flag of `flags` that survives. */
  method PushKeptFlags(combined: seq<string>, flags: seq<string>, allowHeadless: bool) returns (r: seq<string>)
    ensures r == combined + KeepFlags(flags, allowHeadless)
  {
    r := combined;
    for i := 0 to |flags|
      invariant r == combined + KeepFlags(flags[..i], allowHeadless)
    {
      assert flags[..i + 1][..i] == flags[..i];
      if allowHeadless || !IsHeadlessFlag(flags[i]) {
        r := r + [flags[i]];
      }
    }
    assert flags[..|flags|] == flags;
  }

  /** `buildChromeFlags`: pushes the surviving default flags, the profile flag and the surviving
      extra flags, then removes repetitions. */
  method BuildChromeFlags(config: LaunchConfig) returns (flags: seq<string>)
    ensures flags == ChromeFlags(config)
  {
    var headless := config.headless.GetOr(true);
    var extraFlags := config.extraChromeFlags.GetOr([]);
    var hasHeadlessOverride := HasHeadlessOverride(extraFlags);
    var allowHeadlessFlags := headless || hasHeadlessOverride;
    var baseFlags := if hasHeadlessOverride then KeepFlags(CHROME_FLAGS, false) else CHROME_FLAGS;
    assert baseFlags == BaseFlags(hasHeadlessOverride) && allowHeadlessFlags == AllowHeadlessFlags(config);
    var combined := PushKeptFlags([], baseFlags, allowHeadlessFlags);
    assert combined == KeepFlags(baseFlags, allowHeadlessFlags);
    if IsSet(config.profileDirectory) {
      combined := combined + [ProfileFlag(config.profileDirectory.value)];
    }
    assert combined == KeepFlags(baseFlags, allowHeadlessFlags) + ProfileFlags(config);
    combined := PushKeptFlags(combined, extraFlags, allowHeadlessFlags);
    flags := DedupeFlags(combined);
  }

  /** Which flags the combined list holds. */
  lemma CombinedFlagsMembers(config: LaunchConfig)
    ensures forall f :: f in ChromeFlags(config) <==> f in CombinedFlags(config)
    ensures forall f :: f in CombinedFlags(config) <==>
      (f in BaseFlags(HasHeadlessOverride(config.extraChromeFlags.GetOr([]))) && (AllowHeadlessFlags(config) || !IsHeadlessFlag(f))) ||
      f in ProfileFlags(config) ||
      (f in config.extraChromeFlags.GetOr([]) && (AllowHeadlessFlags(config) || !IsHeadlessFlag(f)))
  {
    var extra := config.extraChromeFlags.GetOr([]);
    KeepFlagsMembers(BaseFlags(HasHeadlessOverride(extra)), AllowHeadlessFlags(config));
    KeepFlagsMembers(extra, AllowHeadlessFlags(config));
  }

  /** With headless on (or unset) and no override among the extra flags, every default flag is passed. */
  lemma DefaultFlagsKeptWhenHeadless(config: LaunchConfig)
    requires config.headless != Some(false)
    requires !HasHeadlessOverride(config.extraChromeFlags.GetOr([]))
    ensures forall f :: f in CHROME_FLAGS ==> f in ChromeFlags(config)
  {
    CombinedFlagsMembers(config);
  }

  /** With headless off and no override, no flag selects headless mode. */
  lemma NoHeadlessFlagWhenDisabled(config: LaunchConfig)
    requires config.headless == Some(false)
    requires !HasHeadlessOverride(config.extraChromeFlags.GetOr([]))
    ensures forall f :: f in ChromeFlags(config) ==> !IsHeadlessFlag(f)
  {
    CombinedFlagsMembers(config);
    ProfileFlagIsNotHeadless(config);
  }

  lemma ProfileFlagIsNotHeadless(config: LaunchConfig)
    ensures forall f :: f in ProfileFlags(config) ==> !IsHeadlessFlag(f)
  {
    if IsSet(config.profileDirectory) {
      var f := ProfileFlag(config.profileDirectory.value);
      assert f[2] == 'p';
    }
  }

  /** A headless override in the extra flags wins whatever `headless` says: the headless flags passed
      are exactly the headless extra flags. */
  lemma HeadlessOverrideWins(config: LaunchConfig)
    requires HasHeadlessOverride(config.extraChromeFlags.GetOr([]))
    ensures forall f :: f in ChromeFlags(config) && IsHeadlessFlag(f) <==>
      f in config.extraChromeFlags.GetOr([]) && IsHeadlessFlag(f)
  {
    CombinedFlagsMembers(config);
    KeepFlagsMembers(CHROME_FLAGS, false);
    ProfileFlagIsNotHeadless(config);
  }

  /** A set profile directory is passed as `--profile-directory=<value>`. */
  lemma ProfileDirectoryFlagAdded(config: LaunchConfig)
    requires IsSet(config.profileDirectory)
    ensures ProfileFlag(config.profileDirectory.value) in ChromeFlags(config)
    ensures StartsWith(ProfileFlag(config.profileDirectory.value), PROFILE_DIRECTORY_PREFIX)
  {
    CombinedFlagsMembers(config);
  }

  /** Every extra flag that does not select headless mode is passed. */
  lemma ExtraFlagsKept(config: LaunchConfig)
    ensures forall f :: f in config.extraChromeFlags.GetOr([]) && !IsHeadlessFlag(f) ==> f in ChromeFlags(config)
  {
    CombinedFlagsMembers(config);
  }

  /** The output has no repetitions, holds only default, profile or extra flags, and lists them in the
      order they were first pushed: defaults, then the profile flag, then the extra flags. */
  lemma ChromeFlagsShape(config: LaunchConfig)
    ensures Distinct(ChromeFlags(config))
    ensures forall f :: f in ChromeFlags(config) ==>
      f in CHROME_FLAGS || f in ProfileFlags(config) || f in config.extraChromeFlags.GetOr([])
    ensures forall i, j :: 0 <= i < j < |ChromeFlags(config)| ==>
      FirstIndex(CombinedFlags(config), ChromeFlags(config)[i]) < FirstIndex(CombinedFlags(config), ChromeFlags(config)[j])
  {
    var combined := CombinedFlags(config);
    CombinedFlagsMembers(config);
    KeepFlagsMembers(CHROME_FLAGS, false);
    DedupeKeepsFirstOccurrenceOrder(combined);
  }

  predicate IsProfileFlag(flag: string) {
    StartsWith(flag, USER_DATA_DIR_PREFIX) || StartsWith(flag, PROFILE_DIRECTORY_PREFIX)
  }

  /** `isProfileConfig`: the configuration targets a named, persistent browser profile. */
  predicate IsProfileConfig(config: LaunchConfig) {
    if IsSet(config.userDataDir) || IsSet(config.profileDirectory) then true
    else exists flag :: flag in config.extraChromeFlags.GetOr([]) && IsProfileFlag(flag)
  }

  /** A configuration that only names a debugging port is not a profile configuration. */
  lemma PortOnlyConfigIsNotProfile(port: int)
    ensures !IsProfileConfig(LaunchConfig(None, None, None, Some(port), None))
    ensures !IsProfileConfig(LaunchConfig(None, None, None, None, None))
  {
  }

  /** No default flag selects a profile. */
  lemma DefaultFlagsAreNotProfileFlags()
    ensures forall f :: f in CHROME_FLAGS ==> !IsProfileFlag(f)
  {
    forall f | f in CHROME_FLAGS ensures !IsProfileFlag(f) {
      assert f[2] == 'h' || f[2] == 'n' || f[2] == 'd';
    }
  }

  lemma ProfileFlagsAreNotHeadless()
    ensures forall f :: IsProfileFlag(f) ==> !IsHeadlessFlag(f)
  {
    forall f | IsProfileFlag(f) ensures !IsHeadlessFlag(f) {
      assert f[2] == 'u' || f[2] == 'p';
    }
  }

  /** A configuration is a profile configuration exactly when the browser would be launched on a
      named profile: the launch options carry a user-data directory, or some launch flag selects a
      user-data directory or a profile directory. */
  lemma {:induction false} ProfileConfigIffProfileLaunch(config: LaunchConfig)
    ensures IsProfileConfig(config) <==>
      BuildChromeLaunchOptions(config).userDataDir.Some? ||
      exists f :: f in BuildChromeLaunchOptions(config).chromeFlags && IsProfileFlag(f)
  {
    var flags := ChromeFlags(config);
    var extra := config.extraChromeFlags.GetOr([]);
    CombinedFlagsMembers(config);
    KeepFlagsMembers(CHROME_FLAGS, false);
    DefaultFlagsAreNotProfileFlags();
    ProfileFlagsAreNotHeadless();
    if IsProfileConfig(config) && !IsSet(config.userDataDir) {
      if IsSet(config.profileDirectory) {
        var p := ProfileFlag(config.profileDirectory.value);
        assert p in ProfileFlags(config);
        assert p[..|PROFILE_DIRECTORY_PREFIX|] == PROFILE_DIRECTORY_PREFIX;
        assert p in flags && IsProfileFlag(p);
      } else {
        var f :| f in extra && IsProfileFlag(f);
        assert f in flags;
      }
    }
    if exists f :: f in flags && IsProfileFlag(f) {
      var f :| f in flags && IsProfileFlag(f);
      assert f in CombinedFlags(config);
      if !IsSet(config.profileDirectory) {
        assert f !in ProfileFlags(config);
        assert f !in CHROME_FLAGS;
        assert f in extra;
      }
    }
  }

  /** `buildChromeLaunchOptions`: the composed flags, and the user-data directory exactly when it is set. */
  function BuildChromeLaunchOptions(config: LaunchConfig): (options: LaunchOptions)
    ensures options.chromeFlags == ChromeFlags(config)
    ensures options.userDataDir.Some? <==> IsSet(config.userDataDir)
    ensures options.userDataDir.Some? ==> options.userDataDir == config.userDataDir
  {
    LaunchOptions(ChromeFlags(config), if IsSet(config.userDataDir) then config.userDataDir else None)
  }
}

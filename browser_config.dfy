/** Browser set-up rules: where Firefox is looked for on each operating system,
    which options a launch sets from its mode, proxy and mobile flag, and the
    window width below which a page is considered to be shown on a mobile. */
module BrowserConfig {
  import opened Common

  // ---------------------------------------------------------------------------
  // `find_firefox_path`

  /** `ntpath.join(dir, name)`: a backslash is inserted unless `dir` is empty,
      already ends with a separator, or is a bare drive such as `C:`. */
  function WinJoin(dir: string, name: string): (path: string)
    ensures |path| >= |dir| + |name|
    ensures path[..|dir|] == dir && path[|path| - |name|..] == name
  {
    if dir == "" || Last(dir) == '\\' || Last(dir) == '/' || (|dir| == 2 && dir[1] == ':') then
      dir + name
    else
      dir + "\\" + name
  }

  /** The Windows candidate under the directory named by environment variable
      `variable`; `os.getenv` yields `None` for an unset variable, on which
      `os.path.join` raises `TypeError`. */
  function WindowsCandidate(env: map<string, string>, variable: string): (candidate: Result<string>)
  {
    match Lookup(env, variable)
    case None => Failure(TypeError)
    case Some(dir) => Success(WinJoin(WinJoin(dir, "Mozilla Firefox"), "firefox.exe"))
  }

  /** The candidate paths for the operating system `system`
      (`platform.system()`), in the order they are tried. */
  function Candidates(system: string, env: map<string, string>): (paths: Result<seq<string>>)
    ensures paths.Failure? ==> system == "Windows" && paths.error == TypeError
    ensures paths.Failure? <==>
      system == "Windows" && !("PROGRAMFILES" in env && "PROGRAMFILES(X86)" in env && "LOCALAPPDATA" in env)
    ensures system !in {"Windows", "Darwin", "Linux"} ==> paths == Success([])
  {
    if system == "Windows" then
      match (WindowsCandidate(env, "PROGRAMFILES"),
             WindowsCandidate(env, "PROGRAMFILES(X86)"),
             WindowsCandidate(env, "LOCALAPPDATA"))
      case (Success(a), Success(b), Success(c)) => Success([a, b, c])
      case _ => Failure(TypeError)
    else if system == "Darwin" then
      Success(["/Applications/Firefox.app/Contents/MacOS/firefox", "/usr/local/bin/firefox"])
    else if system == "Linux" then
      Success(["/usr/bin/firefox", "/snap/bin/firefox", "/usr/local/bin/firefox"])
    else
      Success([])
  }

  /** The first of `paths` that exists (`existing` is the set of paths for which
      `os.path.exists` holds). */
  function FirstExisting(paths: seq<string>, existing: set<string>): (found: Option<nat>)
    ensures found.Some? ==> found.value < |paths| && paths[found.value] in existing
    ensures found.Some? ==> forall j :: 0 <= j < found.value ==> paths[j] !in existing
    ensures found.None? ==> forall j :: 0 <= j < |paths| ==> paths[j] !in existing
    decreases |paths|
  {
    if paths == [] then None
    else if paths[0] in existing then Some(0)
    else match FirstExisting(paths[1..], existing)
      case None => None
      case Some(i) => Some(i + 1)
  }

  const NotFoundMessage := "Firefox n'a pas été trouvé sur ce système."

  /** `find_firefox_path()` on operating system `system` with environment `env`,
      where exactly the paths in `existing` exist. */
  method FindFirefoxPath(system: string, env: map<string, string>, existing: set<string>)
    returns (path: Result<string>)
    ensures Candidates(system, env).Failure? ==> path == Failure(TypeError)
    ensures Candidates(system, env).Success? ==>
      var paths := Candidates(system, env).value;
      match FirstExisting(paths, existing)
      case Some(i) => path == (if paths[i] != "" then Success(paths[i]) else Failure(FileNotFound(NotFoundMessage)))
      case None => path == Failure(FileNotFound(NotFoundMessage))
  {
    var candidates := Candidates(system, env);
    if candidates.Failure? {
      return Failure(TypeError);
    }
    var paths := candidates.value;
    var firefoxPath: Option<string> := None;
    var i := 0;
    FirstExistingFromStart(paths, existing);
    while i < |paths|
      invariant i <= |paths|
      invariant firefoxPath.None?
      invariant FirstExisting(paths, existing) == FirstExistingFrom(paths, existing, i)
    {
      if paths[i] in existing {
        FirstExistingFromHere(paths, existing, i);
        firefoxPath := Some(paths[i]);
        break;
      }
      FirstExistingFromSkip(paths, existing, i);
      i := i + 1;
    }
    if firefoxPath.None? {
      FirstExistingFromEnd(paths, existing);
    }
    if firefoxPath.Some? && firefoxPath.value != "" && firefoxPath.value in existing {
      path := Success(firefoxPath.value);
    } else {
      path := Failure(FileNotFound(NotFoundMessage));
    }
  }

  /** The first existing path among `paths[i..]`, as an index into `paths`. */
  function FirstExistingFrom(paths: seq<string>, existing: set<string>, i: nat): (index: Option<nat>)
    requires i <= |paths|
  {
    match FirstExisting(paths[i..], existing)
    case None => None
    case Some(k) => Some(i + k)
  }

  lemma FirstExistingFromStart(paths: seq<string>, existing: set<string>)
    ensures FirstExisting(paths, existing) == FirstExistingFrom(paths, existing, 0)
  {
    assert paths[0..] == paths;
  }

  lemma FirstExistingFromHere(paths: seq<string>, existing: set<string>, i: nat)
    requires i < |paths| && paths[i] in existing
    ensures FirstExistingFrom(paths, existing, i) == Some(i)
  {
  }

  lemma FirstExistingFromSkip(paths: seq<string>, existing: set<string>, i: nat)
    requires i < |paths| && paths[i] !in existing
    ensures FirstExistingFrom(paths, existing, i) == FirstExistingFrom(paths, existing, i + 1)
  {
    assert paths[i..][1..] == paths[i + 1..];
  }

  lemma FirstExistingFromEnd(paths: seq<string>, existing: set<string>)
    ensures FirstExistingFrom(paths, existing, |paths|) == None
  {
  }

  /** The search returns a path exactly when some candidate exists, and then it
      is the first existing candidate in list order. */
  lemma FoundIsFirstExisting(system: string, env: map<string, string>, existing: set<string>)
    requires Candidates(system, env).Success?
    ensures var paths := Candidates(system, env).value;
      FirstExisting(paths, existing).Some? <==> exists j :: 0 <= j < |paths| && paths[j] in existing
  {
    var paths := Candidates(system, env).value;
    if FirstExisting(paths, existing).Some? {
      assert paths[FirstExisting(paths, existing).value] in existing;
    }
  }

  /** On an operating system other than Windows, macOS and Linux there is no
      candidate, so the search fails with `FileNotFoundError`. */
  lemma UnknownSystemNotFound(system: string, env: map<string, string>, existing: set<string>)
    requires system !in {"Windows", "Darwin", "Linux"}
    ensures Candidates(system, env) == Success([])
    ensures FirstExisting(Candidates(system, env).value, existing) == None
  {
  }

  /** A Windows candidate ends in `Mozilla Firefox\firefox.exe` below the
      directory named by its environment variable. */
  lemma WindowsCandidateShape(env: map<string, string>, variable: string)
    requires variable in env && env[variable] != "" && Last(env[variable]) != '\\'
    requires Last(env[variable]) != '/' && !(|env[variable]| == 2 && env[variable][1] == ':')
    ensures WindowsCandidate(env, variable) == Success(env[variable] + "\\Mozilla Firefox\\firefox.exe")
  {
    var dir := env[variable];
    var folder := dir + "\\" + "Mozilla Firefox";
    assert WinJoin(dir, "Mozilla Firefox") == folder;
    assert Last(folder) == 'x';
    assert WinJoin(folder, "firefox.exe") == folder + "\\" + "firefox.exe";
    assert folder + "\\" + "firefox.exe" == dir + "\\Mozilla Firefox\\firefox.exe";
  }

  // ---------------------------------------------------------------------------
  // `launch_selenium_browser`: the option decisions

  /** A Firefox preference value. */
  datatype Pref = IntPref(i: int) | StrPref(s: string)

  /** `FirefoxOptions`: the headless flag, the preferences and the command-line
      arguments, set one call at a time. */
  class FirefoxOptions {
    var headless: bool
    var preferences: map<string, Pref>
    var arguments: seq<string>

    constructor ()
      ensures !headless && preferences == map[] && arguments == []
    {
      headless := false;
      preferences := map[];
      arguments := [];
    }

    method SetHeadless(on: bool)
      modifies this
      ensures headless == on
      ensures preferences == old(preferences) && arguments == old(arguments)
    {
      headless := on;
    }

    /** `options.set_preference(name, value)`. */
    method SetPreference(name: string, value: Pref)
      modifies this
      ensures preferences == old(preferences)[name := value]
      ensures headless == old(headless) && arguments == old(arguments)
    {
      preferences := preferences[name := value];
    }

    /** `options.add_argument(arg)`. */
    method AddArgument(arg: string)
      modifies this
      ensures arguments == old(arguments) + [arg]
      ensures headless == old(headless) && preferences == old(preferences)
    {
      arguments := arguments + [arg];
    }
  }

  /** What a successful launch configured: the options the driver was created
      with and the window size set afterwards, if any. */
  datatype Launch = Launch(
    headless: bool,
    preferences: map<string, Pref>,
    arguments: seq<string>,
    windowSize: Option<(int, int)>)

  const MobileWidth := 375
  const MobileHeight := 667
  const BrowserMessage := "Navigateur non supporté. Choisissez 'firefox'."
  const ModeMessage := "Mode non supporté. Choisissez 'automatique' ou 'manuel'."

  /** The preferences a proxy address sets: manual proxy configuration, with the
      same address for HTTP and for SSL. */
  function ProxyPreferences(proxy: string): (prefs: map<string, Pref>)
  {
    map["network.proxy.type" := IntPref(1),
        "network.proxy.http" := StrPref(proxy),
        "network.proxy.ssl" := StrPref(proxy)]
  }

  /** `launch_selenium_browser(browser_name, mode, proxy, mobile)`, up to the
      creation of the driver, which is taken to succeed. */
  method LaunchSeleniumBrowser(browserName: string, mode: string, proxy: Option<string>, mobile: bool)
    returns (launch: Result<Launch>)
    ensures Lower(browserName) != "firefox" ==> launch == Failure(ValueError(BrowserMessage))
    ensures Lower(browserName) == "firefox" && mode != "automatique" && mode != "manuel" ==>
      launch == Failure(ValueError(ModeMessage))
    ensures launch.Success? <==> Lower(browserName) == "firefox" && (mode == "automatique" || mode == "manuel")
    ensures launch.Success? ==> launch.value.headless == (mode == "automatique")
    ensures launch.Success? ==>
      launch.value.preferences == (if proxy.Some? && proxy.value != "" then ProxyPreferences(proxy.value) else map[])
    ensures launch.Success? ==>
      launch.value.arguments == (if mobile then ["--width=375", "--height=667"] else [])
    ensures launch.Success? ==>
      launch.value.windowSize == (if mobile then Some((MobileWidth, MobileHeight)) else None)
    ensures launch.Success? && mobile ==> DetectMobileVersion(launch.value.windowSize.value.0)
  {
    if Lower(browserName) != "firefox" {
      return Failure(ValueError(BrowserMessage));
    }
    var options := new FirefoxOptions();
    if mode == "automatique" {
      options.SetHeadless(true);
    } else if mode == "manuel" {
      options.SetHeadless(false);
    } else {
      return Failure(ValueError(ModeMessage));
    }
    if proxy.Some? && proxy.value != "" {
      options.SetPreference("network.proxy.type", IntPref(1));
      options.SetPreference("network.proxy.http", StrPref(proxy.value));
      options.SetPreference("network.proxy.ssl", StrPref(proxy.value));
    }
    if mobile {
      options.AddArgument("--width=375");
      options.AddArgument("--height=667");
    }
    var windowSize: Option<(int, int)> := None;
    if mobile {
      windowSize := Some((MobileWidth, MobileHeight));
    }
    launch := Success(Launch(options.headless, options.preferences, options.arguments, windowSize));
  }

  // ---------------------------------------------------------------------------
  // `detect_mobile_version_selenium`

  const MobileThreshold := 800

  /** `detect_mobile_version_selenium`: a window narrower than 800 pixels is a
      mobile one. */
  function DetectMobileVersion(width: int): (mobile: bool)
  {
    width < MobileThreshold
  }
}

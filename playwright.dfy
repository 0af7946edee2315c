/** The Playwright binary provider: finds the Chromium build that `playwright install`
    placed in its browsers cache, installs it when asked, and remembers the paths it
    found in a name -> path cache. No entry is ever removed; a lookup only adds entries,
    while a successful install may replace the entry it installed.

    Everything the provider asks of the host (environment, operating system, directory
    listings, file tests, child processes) arrives through a `Host` value. */
module PlaywrightProvider {
  import opened Wrappers
  import opened Seqs
  import opened Text
  import opened Subprocess

  /** Default browsers cache locations, relative to the user's home directory. */
  const MacosCacheDir: string := "/Library/Caches/ms-playwright"
  const LinuxCacheDir: string := "/.cache/ms-playwright"

  /** Browser layouts inside the cache: an app bundle on macOS, a plain binary elsewhere. */
  const MacosBinGlob: string := "-*/*-mac*/*.app/Contents/MacOS/*"
  const LinuxBinGlob: string := "-*/*-linux/*"

  /** The only package override the provider declares. */
  const PackagesHandler: map<string, seq<string>> := map["chrome" := ["chromium"]]

  /** What the provider reads from the machine it runs on. */
  datatype Host = Host(
    system: string,                             // platform.system()
    home: string,                               // the directory `~` expands to
    browsersPathEnv: Option<string>,            // $PLAYWRIGHT_BROWSERS_PATH
    isDir: string -> bool,                      // os.path.isdir
    sortedGlob: (string, string) -> seq<string>, // sorted(Path(dir).glob(pattern)), as strings
    isExecutableFile: string -> bool,           // os.path.isfile(p) and os.access(p, os.X_OK)
    chromeStableOnPath: Option<string>,         // bin_abspath('google-chrome-stable', PATH=env.PATH)
    installerAbspath: Option<string>,           // where the `playwright` executable was found
    pipInstallerAbspath: Option<string>,        // where the system pip provider found pip
    libDir: string,                             // the configured library directory
    run: (string, seq<string>) -> Completed     // exec(bin_name=..., cmd=...)
  )

  /** Failures the provider raises. */
  datatype ProviderError =
    | UnsupportedBinary(binName: string)        // only "chrome" is handled
    | PipNotInitialized                         // setup found no pip installer
    | InstallerMissing                          // no `playwright` executable on this host
    | InstallFailed(returncode: int, packages: seq<string>)

  predicate IsDarwin(h: Host) {
    Lower(h.system) == "darwin"
  }

  /** `os.path.expanduser` applied to `~` followed by `rest`. */
  function ExpandHome(home: string, rest: string): (r: string)
    requires |rest| > 0 && rest[0] == '/'
    ensures |r| > 0
  {
    var trimmed := RStripSlashes(home);
    trimmed + rest
  }

  /** `s.rstrip('/')` */
  function RStripSlashes(s: string): (r: string)
    ensures r <= s && (r == [] || r[|r| - 1] != '/')
    ensures forall i :: |r| <= i < |s| ==> s[i] == '/'
  {
    if |s| > 0 && s[|s| - 1] == '/' then
      var r := RStripSlashes(s[..|s| - 1]);
      assert forall i :: |r| <= i < |s| - 1 ==> s[i] == s[..|s| - 1][i];
      r
    else
      s
  }

  /** Where Playwright keeps its browsers: `$PLAYWRIGHT_BROWSERS_PATH` when it names an
      existing directory, otherwise the per-OS cache under the home directory. */
  function BrowsersDir(h: Host): (d: string)
    ensures |d| > 0
    ensures (h.browsersPathEnv.Some? && h.browsersPathEnv.value != "" && h.isDir(h.browsersPathEnv.value))
      ==> d == h.browsersPathEnv.value
    ensures !(h.browsersPathEnv.Some? && h.browsersPathEnv.value != "" && h.isDir(h.browsersPathEnv.value))
      ==> d == RStripSlashes(h.home) + (if IsDarwin(h) then MacosCacheDir else LinuxCacheDir)
  {
    match h.browsersPathEnv
    case Some(p) =>
      if p != "" && h.isDir(p) then p
      else ExpandHome(h.home, if IsDarwin(h) then MacosCacheDir else LinuxCacheDir)
    case None =>
      ExpandHome(h.home, if IsDarwin(h) then MacosCacheDir else LinuxCacheDir)
  }

  /** The browser name used in the glob: `chrome` builds are stored as `chromium-<build>`. */
  function GlobBrowserName(browserName: string): (n: string)
    ensures browserName == "chrome" ==> n == "chromium"
    ensures browserName != "chrome" ==> n == browserName
  {
    if browserName == "chrome" then "chromium" else browserName
  }

  /** The directory pattern searched for `browserName` on this host. */
  function BinGlob(h: Host, browserName: string): (g: string)
    ensures var n := GlobBrowserName(browserName);
      |g| > |n| && g[..|n|] == n
      && g[|n|..] == (if IsDarwin(h) then MacosBinGlob else LinuxBinGlob)
  {
    GlobBrowserName(browserName) + (if IsDarwin(h) then MacosBinGlob else LinuxBinGlob)
  }

  /** A path, or a line of installer output, that names a Chromium executable rather than
      one of the helper programs shipped next to it. */
  predicate LooksLikeChromium(s: string) {
    !Contains(s, "xdg-settings") && !Contains(s, "ffmpeg")
    && Contains(s, "/chrom") && Contains(Lower(BaseName(s)), "chrom")
  }

  /** The value `installed_browser_bins(browserName)` returns. */
  function BrowserBins(h: Host, browserName: string): seq<string> {
    var candidates := h.sortedGlob(BrowsersDir(h), BinGlob(h, browserName));
    if IsDarwin(h) then candidates else Filter(candidates, LooksLikeChromium)
  }

  /** On macOS the sorted candidates come back unfiltered; elsewhere the result keeps,
      in sorted order, exactly the candidates that look like a Chromium executable. */
  lemma BrowserBinsFilter(h: Host, browserName: string)
    ensures var candidates := h.sortedGlob(BrowsersDir(h), BinGlob(h, browserName));
      && (IsDarwin(h) ==> BrowserBins(h, browserName) == candidates)
      && IsSubsequence(BrowserBins(h, browserName), candidates)
      && (!IsDarwin(h) ==> forall p :: p in BrowserBins(h, browserName) <==> p in candidates && LooksLikeChromium(p))
  {
    var candidates := h.sortedGlob(BrowsersDir(h), BinGlob(h, browserName));
    if IsDarwin(h) {
      FilterKeepsPassing(candidates, (_: string) => true);
      FilterIsSubsequence(candidates, (_: string) => true);
    } else {
      FilterIsSubsequence(candidates, LooksLikeChromium);
      forall p ensures p in BrowserBins(h, browserName) <==> p in candidates && LooksLikeChromium(p) {
        FilterMembers(candidates, LooksLikeChromium, p);
      }
    }
  }

  /** Every path returned off macOS names neither `xdg-settings` nor `ffmpeg`, contains
      `/chrom`, and has a final component whose lower-case form contains `chrom`. */
  lemma BrowserBinsLookLikeChromium(h: Host, browserName: string, p: string)
    requires !IsDarwin(h) && p in BrowserBins(h, browserName)
    ensures !Contains(p, "xdg-settings") && !Contains(p, "ffmpeg")
    ensures Contains(p, "/chrom") && Contains(Lower(BaseName(p)), "chrom")
  {
    BrowserBinsFilter(h, browserName);
  }

  /** The paths among `bins` whose text contains `binName`, in order. */
  function MatchingBins(bins: seq<string>, binName: string): seq<string> {
    Filter(bins, (p: string) => Contains(p, binName))
  }

  /** `packages or self.get_packages(bin_name)`: an absent or empty list falls back to the
      provider's override for the name, and to the name itself without one. */
  function Packages(binName: string, packages: Option<seq<string>>): (r: seq<string>)
    ensures packages.Some? && packages.value != [] ==> r == packages.value
    ensures binName == "chrome" && (packages.None? || packages.value == []) ==> r == ["chromium"]
  {
    if packages.Some? && packages.value != [] then packages.value
    else if binName in PackagesHandler then PackagesHandler[binName]
    else [binName]
  }

  /** The lines of the installer's output that name a Chromium executable, in order. */
  function BrowserLines(stdout: string): (r: seq<string>)
    ensures forall l :: l in r <==> l in Split(Strip(stdout), "\n") && LooksLikeChromium(l)
    ensures IsSubsequence(r, Split(Strip(stdout), "\n"))
  {
    var lines := Split(Strip(stdout), "\n");
    FilterIsSubsequence(lines, LooksLikeChromium);
    forall l ensures l in Filter(lines, LooksLikeChromium) <==> l in lines && LooksLikeChromium(l) {
      FilterMembers(lines, LooksLikeChromium, l);
    }
    Filter(lines, LooksLikeChromium)
  }

  /** The executable path read off the first Chromium line of the installer's output: the
      text after the last occurrence of the browsers directory, joined onto that directory.
      None when no line qualifies. */
  function ReportedPath(stdout: string, dir: string): (r: Option<string>)
    requires |dir| > 0
    ensures r.Some? <==> BrowserLines(stdout) != []
    ensures r.Some? ==> var rel := LastPiece(BrowserLines(stdout)[0], dir);
      && !Contains(rel, dir)
      && (|rel| > 0 && rel[0] == '/' ==> r.value == rel)
      && (!(|rel| > 0 && rel[0] == '/') ==> dir <= r.value && EndsWith(r.value, rel))
      && (!(|rel| > 0 && rel[0] == '/') && (rel == [] || dir[|dir| - 1] == '/') ==>
            |r.value| == |dir| + |rel|)
      && (!(|rel| > 0 && rel[0] == '/') && rel != [] && dir[|dir| - 1] != '/' ==>
            |r.value| == |dir| + |rel| + 1 && r.value[|dir|] == '/')
  {
    var lines := BrowserLines(stdout);
    if lines == [] then None else Some(PathJoin(dir, LastPiece(lines[0], dir)))
  }

  /** The path comes from the first output line that names a Chromium executable. */
  lemma ReportedPathFirstLine(stdout: string, dir: string, i: nat)
    requires |dir| > 0
    requires var lines := Split(Strip(stdout), "\n");
      i < |lines| && LooksLikeChromium(lines[i])
      && forall j :: 0 <= j < i ==> !LooksLikeChromium(lines[j])
    ensures ReportedPath(stdout, dir)
      == Some(PathJoin(dir, LastPiece(Split(Strip(stdout), "\n")[i], dir)))
  {
    FilterFirst(Split(Strip(stdout), "\n"), LooksLikeChromium, i);
  }

  /** The text the install handler returns: stderr, then stdout, each stripped, joined by a
      newline, the whole stripped again. */
  function InstallReport(proc: Completed): string {
    Strip(Strip(proc.stderr) + "\n" + Strip(proc.stdout))
  }

  /** The report is the stripped stderr and stdout joined by a newline, except that an
      empty one contributes neither itself nor the newline. */
  lemma InstallReportCases(proc: Completed)
    ensures var e, o := Strip(proc.stderr), Strip(proc.stdout);
      InstallReport(proc) == if e == "" then o else if o == "" then e else e + "\n" + o
  {
    StripAroundNewline(Strip(proc.stderr), Strip(proc.stdout));
  }

  /** Stripping two stripped reports joined by a newline drops the newline exactly when
      one of them is empty. */
  lemma StripAroundNewline(e: string, o: string)
    requires Stripped(e) && Stripped(o)
    ensures Strip(e + "\n" + o) == if e == "" then o else if o == "" then e else e + "\n" + o
  {
    var s := e + "\n" + o;
    if e == "" {
      assert s[1..] == o;
      assert LStrip(s) == LStrip(o) == o;
      StripOfStripped(o);
    } else if o == "" {
      assert s[..|s| - 1] == e;
      assert LStrip(s) == s;
      assert RStrip(s) == RStrip(e) == e;
    } else {
      assert s[0] == e[0] && s[|s| - 1] == o[|o| - 1];
      StripOfStripped(s);
    }
  }

  /** The PATH the provider searches: the `bin` directory of `libDir`, then the default
      search path. */
  function ProviderPath(libDir: string, defaultEnvPath: string): (r: string)
    ensures var p := PathJoin(libDir, "bin");
      |r| == |p| + 1 + |defaultEnvPath|
      && r[..|p|] == p && r[|p|] == ':' && r[|p| + 1..] == defaultEnvPath
  {
    PathJoin(libDir, "bin") + ":" + defaultEnvPath
  }

  class PlaywrightBinProvider {
    const name: string
    const playwrightInstallArgs: seq<string>
    const defaultLibDir: string
    const defaultEnvPath: string

    var PATH: string

    /** Browser name -> resolved executable path. Entries are added, never removed. */
    var browserAbspaths: map<string, string>

    constructor (defaultLibDir: string, defaultEnvPath: string)
      ensures name == "playwright" && playwrightInstallArgs == ["install"]
      ensures this.defaultLibDir == defaultLibDir && this.defaultEnvPath == defaultEnvPath
      ensures PATH == ProviderPath(defaultLibDir, defaultEnvPath)
      ensures browserAbspaths == map[]
    {
      name := "playwright";
      playwrightInstallArgs := ["install"];
      this.defaultLibDir := defaultLibDir;
      this.defaultEnvPath := defaultEnvPath;
      PATH := ProviderPath(defaultLibDir, defaultEnvPath);
      browserAbspaths := map[];
    }

    /** Points PATH at a library directory that differs from the default, then insists
        that the pip provider found its installer. Running it again changes nothing more. */
    method Setup(h: Host) returns (r: Outcome<ProviderError>)
      modifies this`PATH
      ensures PATH == if h.libDir != defaultLibDir then ProviderPath(h.libDir, defaultEnvPath) else old(PATH)
      ensures r == if h.pipInstallerAbspath.None? then Fail(PipNotInitialized) else Pass
    {
      if h.libDir != defaultLibDir {
        PATH := ProviderPath(h.libDir, defaultEnvPath);
      }
      if h.pipInstallerAbspath.None? {
        return Fail(PipNotInitialized);
      }
      return Pass;
    }

    /** The candidate executables for `browserName` under the browsers directory, in sorted
        order; off macOS, helper programs and non-Chromium files are skipped. */
    method InstalledBrowserBins(browserName: string, h: Host) returns (paths: seq<string>)
      ensures paths == BrowserBins(h, browserName)
    {
      var name := if browserName == "chrome" then "chromium" else browserName;
      var dir := BrowsersDir(h);
      if IsDarwin(h) {
        return h.sortedGlob(dir, name + MacosBinGlob);
      }
      var candidates := h.sortedGlob(dir, name + LinuxBinGlob);
      paths := [];
      for i := 0 to |candidates|
        invariant paths == Filter(candidates[..i], LooksLikeChromium)
      {
        var path := candidates[i];
        FilterAppend(candidates[..i], path, LooksLikeChromium);
        assert candidates[..i + 1] == candidates[..i] + [path];
        if Contains(path, "xdg-settings") {
          continue;
        }
        if Contains(path, "ffmpeg") {
          continue;
        }
        if Contains(path, "/chrom") && Contains(Lower(BaseName(path)), "chrom") {
          paths := paths + [path];
        }
      }
      assert candidates[..|candidates|] == candidates;
    }

    /** Resolves `binName` (only "chrome" is supported): from the cache when present;
        otherwise the last matching browser build in sorted order, or else
        `google-chrome-stable` on the search path. A path found is cached; when nothing is
        found the result is None and the cache is unchanged. */
    method DefaultAbspathHandler(binName: string, h: Host) returns (r: Result<Option<string>, ProviderError>)
      modifies this`browserAbspaths
      ensures binName != "chrome" ==> r == Err(UnsupportedBinary(binName)) && browserAbspaths == old(browserAbspaths)
      ensures binName == "chrome" && binName in old(browserAbspaths) ==>
        r == Ok(Some(old(browserAbspaths)[binName])) && browserAbspaths == old(browserAbspaths)
      ensures binName == "chrome" && binName !in old(browserAbspaths) ==>
        var found := MatchingBins(BrowserBins(h, "*"), binName);
        if found != [] then
          r == Ok(Some(found[|found| - 1])) && browserAbspaths == old(browserAbspaths)[binName := found[|found| - 1]]
        else if h.chromeStableOnPath.Some? then
          r == Ok(h.chromeStableOnPath) && browserAbspaths == old(browserAbspaths)[binName := h.chromeStableOnPath.value]
        else
          r == Ok(None) && browserAbspaths == old(browserAbspaths)
      ensures r.Ok? && r.value.Some? ==> binName in browserAbspaths && browserAbspaths[binName] == r.value.value
      ensures old(browserAbspaths).Keys <= browserAbspaths.Keys
      ensures forall k :: k in old(browserAbspaths) ==> browserAbspaths[k] == old(browserAbspaths)[k]
    {
      if binName != "chrome" {
        return Err(UnsupportedBinary(binName));
      }
      if binName in browserAbspaths {
        return Ok(Some(browserAbspaths[binName]));
      }
      var bins := InstalledBrowserBins("*", h);
      var matching := MatchingBins(bins, binName);
      if matching != [] {
        var newest := matching[|matching| - 1];
        browserAbspaths := browserAbspaths[binName := newest];
        return Ok(Some(browserAbspaths[binName]));
      }
      if h.chromeStableOnPath.Some? {
        browserAbspaths := browserAbspaths[binName := h.chromeStableOnPath.value];
        return Ok(Some(browserAbspaths[binName]));
      }
      return Ok(None);
    }

    /** Runs `playwright install-deps` (off macOS, its failure tolerated) and
        `playwright install <packages>`, then caches the executable the installer reported
        if it is an executable file. Returns the installer's stderr and stdout; raises when
        setup fails, for a name other than "chrome", without an installer, or when the
        install step exits non-zero. The ghost `commands` records the installer invocations
        made. */
    method DefaultInstallHandler(binName: string, packages: Option<seq<string>>, h: Host)
      returns (r: Result<string, ProviderError>, ghost commands: seq<seq<string>>)
      modifies this
      ensures PATH == if h.libDir != defaultLibDir then ProviderPath(h.libDir, defaultEnvPath) else old(PATH)
      ensures h.pipInstallerAbspath.None? ==> r == Err(PipNotInitialized)
      ensures h.pipInstallerAbspath.Some? && binName != "chrome" ==> r == Err(UnsupportedBinary(binName))
      ensures h.pipInstallerAbspath.Some? && binName == "chrome" && h.installerAbspath.None? ==> r == Err(InstallerMissing)
      ensures h.pipInstallerAbspath.None? || binName != "chrome" || h.installerAbspath.None? ==>
        commands == [] && browserAbspaths == old(browserAbspaths)
      ensures h.pipInstallerAbspath.Some? && binName == "chrome" && h.installerAbspath.Some? ==>
        var pkgs := Packages(binName, packages);
        var proc := h.run(h.installerAbspath.value, ["install"] + pkgs);
        var found := ReportedPath(proc.stdout, BrowsersDir(h));
        && commands == (if IsDarwin(h) then [] else [["install-deps"]]) + [["install"] + pkgs]
        && (proc.returncode != 0 ==> r == Err(InstallFailed(proc.returncode, pkgs)) && browserAbspaths == old(browserAbspaths))
        && (proc.returncode == 0 ==> r == Ok(InstallReport(proc)))
        && (proc.returncode == 0 && found.Some? && h.isExecutableFile(found.value) ==>
              browserAbspaths == old(browserAbspaths)[binName := found.value])
        && (proc.returncode == 0 && !(found.Some? && h.isExecutableFile(found.value)) ==>
              browserAbspaths == old(browserAbspaths))
    {
      commands := [];
      var ok := Setup(h);
      if ok.Fail? {
        return Err(ok.error), commands;
      }
      if binName != "chrome" {
        return Err(UnsupportedBinary(binName)), commands;
      }
      if h.installerAbspath.None? {
        return Err(InstallerMissing), commands;
      }
      var installer := h.installerAbspath.value;
      var pkgs := Packages(binName, packages);
      r, commands := RunInstaller(binName, installer, pkgs, h);
    }

    /** The install steps proper: `install-deps` off macOS, whose outcome is ignored, then
        `install <pkgs>`. A non-zero exit of the latter is an error and leaves the cache
        alone; otherwise the reported path is cached and the combined report returned. */
    method RunInstaller(binName: string, installer: string, pkgs: seq<string>, h: Host)
      returns (r: Result<string, ProviderError>, ghost commands: seq<seq<string>>)
      modifies this`browserAbspaths
      ensures var proc := h.run(installer, ["install"] + pkgs);
        var found := ReportedPath(proc.stdout, BrowsersDir(h));
        && commands == (if IsDarwin(h) then [] else [["install-deps"]]) + [["install"] + pkgs]
        && (proc.returncode != 0 ==> r == Err(InstallFailed(proc.returncode, pkgs)) && browserAbspaths == old(browserAbspaths))
        && (proc.returncode == 0 ==> r == Ok(InstallReport(proc)))
        && (proc.returncode == 0 && found.Some? && h.isExecutableFile(found.value) ==>
              browserAbspaths == old(browserAbspaths)[binName := found.value])
        && (proc.returncode == 0 && !(found.Some? && h.isExecutableFile(found.value)) ==>
              browserAbspaths == old(browserAbspaths))
    {
      ghost var depsCommands: seq<seq<string>> := [];
      if !IsDarwin(h) {
        var deps := h.run(installer, ["install-deps"]);
        depsCommands := [["install-deps"]];
      }

      var proc := h.run(installer, ["install"] + pkgs);
      commands := depsCommands + [["install"] + pkgs];
      if proc.returncode != 0 {
        return Err(InstallFailed(proc.returncode, pkgs)), commands;
      }

      CacheReportedPath(binName, proc.stdout, h);
      return Ok(InstallReport(proc)), commands;
    }

    /** The tail of the install handler: the first line of the installer's output that
        names a Chromium executable gives the path, which is cached under `binName` when
        it is an executable file; otherwise the cache is left alone. */
    method CacheReportedPath(binName: string, stdout: string, h: Host)
      modifies this`browserAbspaths
      ensures var found := ReportedPath(stdout, BrowsersDir(h));
        browserAbspaths ==
          if found.Some? && h.isExecutableFile(found.value) then old(browserAbspaths)[binName := found.value]
          else old(browserAbspaths)
    {
      var dir := BrowsersDir(h);
      var outputLines := BrowserLines(stdout);
      if outputLines != [] {
        var relpath := LastPiece(outputLines[0], dir);
        var abspath := PathJoin(dir, relpath);
        assert ReportedPath(stdout, dir) == Some(abspath);
        if h.isExecutableFile(abspath) {
          browserAbspaths := browserAbspaths[binName := abspath];
        }
      } else {
        assert ReportedPath(stdout, dir) == None;
      }
    }
  }

  /** Resolution is idempotent: once a path has been resolved, asking again (even on a
      host that has since changed) returns the same path from the cache and leaves the
      cache as the first call left it. */
  method ResolveTwice(p: PlaywrightBinProvider, h1: Host, h2: Host)
    returns (first: Result<Option<string>, ProviderError>, second: Result<Option<string>, ProviderError>,
             ghost cacheAfterFirst: map<string, string>)
    modifies p
    ensures first.Ok? && first.value.Some? ==> second == first && p.browserAbspaths == cacheAfterFirst
  {
    first := p.DefaultAbspathHandler("chrome", h1);
    cacheAfterFirst := p.browserAbspaths;
    second := p.DefaultAbspathHandler("chrome", h2);
  }
}

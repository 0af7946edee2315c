# ArchiveBox binary providers, extractors and LDAP settings in Dafny

This project models three small pieces of ArchiveBox, the web-archiving tool:

- **The Playwright binary provider.** It locates the Chromium build that
  `playwright install` placed in its browsers cache (`installed_browser_bins`,
  `default_abspath_handler`). It installs Chromium and reads the executable's path back
  out of the installer's output (`default_install_handler`). It keeps every path it
  found in a name -> path cache. No entry is ever removed. A lookup only adds entries,
  while a successful install may replace the entry it installed. The class is
  `PlaywrightProvider.PlaywrightBinProvider`: the cache and `PATH` are fields its
  methods update.
- **The base extractor.** It validates its argument lists (`no_empty_args`) and
  materialises `args` once (`validate_model`). It registers itself by name and builds
  the command `[url, *args]`. It classifies a finished process into a result record.
  The class is `Extractors.BaseExtractor`; the registry is a map field of
  `Extractors.Settings`.
- **The LDAP configuration group.** It has defaults and a post-construction check:
  without the LDAP library, an enabled LDAP is switched off; with the library, an
  enabled LDAP missing a connection setting is refused. It also derives the attribute
  map, the backend list and the user search filter. The class is
  `LdapSettings.LdapConfig`.

Python's string operations are modelled once, in module `Text`: `strip()` with Python's
white-space set, `split(sep)` as a left-to-right scan, `sep.join`, `in`, `lower()`, the
final path component, and `Path / str`. Module `Seqs` holds the order-preserving filter
that every list comprehension here uses.

Everything the code asks of the machine is a parameter:

- A `PlaywrightProvider.Host` value carries the environment variable, the operating
  system and the home directory.
- It also carries `sorted(Path(dir).glob(pattern))`, the executable-file test and the
  result of looking up `google-chrome-stable` on the search path.
- It also carries the installer locations and a `run` function that stands for
  executing the installer.
- Extractors receive the binaries registry as a map from binary name to a runner
  function, and a directory lister for `glob('*.*')`.

The join on `binproviders.py` line 171 is modelled as written, with pathlib's rule: an
absolute right-hand side replaces the left. The relative path cut out of the installer's
line usually starts with `/`. The joined path then loses the browsers directory, and
`ReportedPath` states exactly that.

Three rules one might expect of this code do not hold in it, and the model follows the
code in each case:

- An install whose output names no executable is not an error: `binproviders.py`
  lines 169-175 return the report without raising.
- A cached path is not kept for the process lifetime: line 173 stores the freshly
  installed path under `chrome` even when one is already cached. That reads as a
  deliberate refresh after a reinstall, so it is modelled as written and not listed
  as a finding.
- A misconfigured optional integration is not switched off with a warning: LDAP is
  switched off only when its library is missing (`settings.py` lines 44-48). With the
  library present, an enabled LDAP with a connection setting unset or empty fails
  validation outright through the `assert` on lines 50-57.

## Model

| member | source | states |
|---|---|---|
| `PlaywrightProvider.BrowsersDir` | archivebox/plugins_pkg/playwright/binproviders.py:56-72 | `$PLAYWRIGHT_BROWSERS_PATH` is used when non-empty and an existing directory; otherwise the macOS or Linux cache under the home directory; never empty |
| `PlaywrightProvider.GlobBrowserName` | archivebox/plugins_pkg/playwright/binproviders.py:85-87 | `chrome` is searched for as `chromium`; every other name passes through unchanged |
| `PlaywrightProvider.BinGlob` | archivebox/plugins_pkg/playwright/binproviders.py:90-100 | the searched pattern is the (rewritten) browser name followed by the macOS app-bundle pattern on macOS and the Linux pattern elsewhere, each at a fixed position |
| `PlaywrightProvider.PlaywrightBinProvider.InstalledBrowserBins` | archivebox/plugins_pkg/playwright/binproviders.py:85-107 | the loop returns exactly the specified candidate list: the sorted glob on macOS, the filtered sorted glob elsewhere |
| `PlaywrightProvider.BrowserBinsFilter` | archivebox/plugins_pkg/playwright/binproviders.py:90-107 | on macOS the result is the sorted candidate list unfiltered; always an order-preserving subsequence of the candidates; off macOS a candidate is returned iff it passes the Chromium test |
| `PlaywrightProvider.BrowserBinsLookLikeChromium` | archivebox/plugins_pkg/playwright/binproviders.py:99-107 | off macOS every returned path lacks `xdg-settings` and `ffmpeg`, contains `/chrom`, and its lower-cased final component contains `chrom` |
| `PlaywrightProvider.PlaywrightBinProvider.DefaultAbspathHandler` | archivebox/plugins_pkg/playwright/binproviders.py:109-129 | any name but `chrome` is refused; a cache hit returns the cached path and leaves the cache alone; otherwise the last matching build is returned and cached, else `google-chrome-stable` is, else None with the cache unchanged; existing entries are never altered |
| `PlaywrightProvider.ResolveTwice` | archivebox/plugins_pkg/playwright/binproviders.py:112-121 | after a path has been resolved, a second resolution returns the same path, even on a changed host, and leaves the cache as the first one left it |
| `PlaywrightProvider.Packages` | archivebox/plugins_pkg/playwright/binproviders.py:140 | a non-empty package list is used as given; for `chrome` an absent or empty list becomes `["chromium"]` |
| `PlaywrightProvider.BrowserLines` | archivebox/plugins_pkg/playwright/binproviders.py:162-168 | a line of the stripped output is kept iff it passes the Chromium test; kept lines stay in output order |
| `PlaywrightProvider.ReportedPath` | archivebox/plugins_pkg/playwright/binproviders.py:169-171 | a path is reported iff some line qualifies; the cut-out part holds no further copy of the browsers directory; an absolute cut-out part becomes the whole path; any other cut-out part follows the browsers directory, directly after a trailing `/` of it or else after one inserted `/`, and an empty one gives the directory itself |
| `PlaywrightProvider.ReportedPathFirstLine` | archivebox/plugins_pkg/playwright/binproviders.py:162-171 | the path comes from the first output line that passes the Chromium test, whatever the lines after it hold |
| `PlaywrightProvider.InstallReportCases` | archivebox/plugins_pkg/playwright/binproviders.py:175 | with blank stderr the text is the stripped stdout; with blank stdout it is the stripped stderr; otherwise the two are joined by one newline |
| `PlaywrightProvider.PlaywrightBinProvider.RunInstaller` | archivebox/plugins_pkg/playwright/binproviders.py:146-175 | `install-deps` runs only off macOS and its outcome is ignored; a non-zero `install` exit is an error naming the exit code and packages, with the cache unchanged; otherwise the combined report is returned and the reported path stored under the name only when it is an executable file |
| `PlaywrightProvider.PlaywrightBinProvider.CacheReportedPath` | archivebox/plugins_pkg/playwright/binproviders.py:162-173 | the path read off the first Chromium line of the output is stored under the binary's name when it is an executable file, replacing any earlier entry for that name; otherwise the cache is unchanged |
| `PlaywrightProvider.ProviderPath` | archivebox/plugins_pkg/playwright/binproviders.py:38 | the search path is the library's `bin` directory, a colon, and the default search path, each at a fixed position |
| `PlaywrightProvider.PlaywrightBinProvider.constructor` | archivebox/plugins_pkg/playwright/binproviders.py:34-46 | provider name `playwright`, install arguments `["install"]`, default search path, empty cache |
| `PlaywrightProvider.PlaywrightBinProvider.Setup` | archivebox/plugins_pkg/playwright/binproviders.py:74-83 | PATH follows a non-default library directory and is otherwise unchanged; the call fails iff pip's installer is missing, after PATH was updated |
| `PlaywrightProvider.PlaywrightBinProvider.DefaultInstallHandler` | archivebox/plugins_pkg/playwright/binproviders.py:131-175 | raises when setup fails, for a name other than `chrome`, without an installer, or on a non-zero install exit, leaving the cache alone; a failing `install-deps` (run only off macOS) is tolerated; on success returns the combined report and stores the reported path under the name, replacing an earlier entry, only when it is an executable file |
| `Text.PathJoin` | archivebox/plugins_pkg/playwright/binproviders.py:171 | an absolute right-hand side replaces the directory; an empty one leaves it; a relative one joined onto an empty directory stands alone; otherwise it follows the whole directory, directly after a trailing `/` or else after one inserted `/` |
| `Text.BaseName` | archivebox/plugins_pkg/playwright/binproviders.py:165 | the final path component is a suffix of the path that contains no `/` and is either the whole path or preceded by a `/` |
| `Extractors.CheckArgs` | archivebox/plugantic/base_extractor.py:31-33 | a list is accepted exactly when no element is empty, and is then returned unchanged |
| `Extractors.NoEmptyArgsConcat` | archivebox/plugantic/base_extractor.py:50-58 | concatenating two validated lists gives a list without empty arguments |
| `Extractors.BaseExtractor.constructor` | archivebox/plugantic/base_extractor.py:41-52 | the fields hold the given values and every argument list is free of empty strings |
| `Extractors.BaseExtractor.ValidateModel` | archivebox/plugantic/base_extractor.py:54-58 | caller-supplied `args` are left unchanged; absent `args` become `default_args ++ extra_args`; no list gains an empty argument |
| `Extractors.NewExtractor` | archivebox/plugantic/base_extractor.py:38-58 | construction succeeds iff every given list is free of empty strings; a failure names each offending field; a success has materialised `args` |
| `Extractors.BaseExtractor.Register` | archivebox/plugantic/base_extractor.py:60-66 | the registry maps the extractor's name to it, replacing an earlier entry of that name, and keeps every other entry |
| `Extractors.OutputPathOnlyByName` | archivebox/plugantic/base_extractor.py:68-69 | two extractors with the same name give the same output directory for any snapshots |
| `Extractors.BaseExtractor.ShouldExtract` | archivebox/plugantic/base_extractor.py:71-75 | as written, the answer is false for every snapshot and directory listing |
| `Extractors.BaseExtractor.ShouldExtractIntended` | archivebox/plugantic/base_extractor.py:71-75 | extract exactly when the output directory holds no file with an extension |
| `Extractors.ShouldExtractDeclinesEmptyDirectory` | archivebox/plugantic/base_extractor.py:73 | on an empty output directory the shipped check declines while the intended one extracts |
| `Extractors.BaseExtractor.Command` | archivebox/plugantic/base_extractor.py:81 | the URL comes first, followed in order by the materialised arguments (or `default_args ++ extra_args` when `args` is absent) |
| `Extractors.BaseExtractor.Exec` | archivebox/plugantic/base_extractor.py:94-101 | fails exactly when the binary is not registered; otherwise runs the registered binary in the given directory, or `.` when none is given |
| `Text.Strip` | archivebox/plugantic/base_extractor.py:86-90 | the result is a slice of the input with only white space cut off before and after it; it has no white space at either end and is empty exactly when the input is all white space |
| `Text.StripIdempotent` | archivebox/plugins_pkg/playwright/binproviders.py:175 | stripping an already stripped text changes nothing |
| `Text.JoinSplit` | archivebox/plugantic/base_extractor.py:86 | joining the pieces of `split('\n')` with a newline gives back the text: the split loses nothing |
| `Text.LastPiece` | archivebox/plugantic/base_extractor.py:86 | the last piece of a split contains no separator, is a suffix of the input, and is either the whole input or directly preceded by the separator |
| `Extractors.ResultRecord` | archivebox/plugantic/base_extractor.py:84-92 | `succeeded` iff the exit code is 0; the exit code passes through; stdout and stderr are stripped; `output` is the last line of the stripped stdout: a suffix with no newline that is the whole text or follows a newline, and empty exactly when stdout is blank |
| `Extractors.BaseExtractor.Extract` | archivebox/plugantic/base_extractor.py:78-92 | the only error is an unregistered binary; otherwise the record of the command run in the output directory, with that directory's `*.*` entries as output files |
| `LdapSettings.LdapConfig.Default` | archivebox/plugins_auth/ldap/settings.py:28-40 | LDAP and superuser creation are off and every string setting is None |
| `LdapSettings.LdapConfig.constructor` | archivebox/plugins_auth/ldap/settings.py:28-40 | every field holds the given value |
| `LdapSettings.LdapConfig.ValidateLdapConfig` | archivebox/plugins_auth/ldap/settings.py:42-58 | LDAP stays enabled iff it was enabled and the library is present; the check fails iff LDAP is still enabled and one of the five connection settings is unset or empty; no other field changes |
| `LdapSettings.RevalidateIsStable` | archivebox/plugins_auth/ldap/settings.py:42-58 | validating a second time changes nothing and gives the same verdict |
| `LdapSettings.LdapConfig.UserAttrMap` | archivebox/plugins_auth/ldap/settings.py:60-67 | exactly the keys username, first_name, last_name and email, each mapped to its attribute setting |
| `LdapSettings.LdapConfig.AuthenticationBackends` | archivebox/plugins_auth/ldap/settings.py:69-74 | two backends, Django's model backend first and the LDAP backend second |
| `LdapSettings.LdapConfig.AuthLdapUserSearch` | archivebox/plugins_auth/ldap/settings.py:76-82 | None without the library; an error when the username attribute or the user filter is None; otherwise a search under the user base with the built filter |
| `LdapSettings.SearchFilter` | archivebox/plugins_auth/ldap/settings.py:81 | the filter is `(&(`, the username attribute, `=%(user)s)`, the user filter, and `)`, each at a fixed position |

## Left out

- Subprocesses, globbing, `isdir`, `isfile`/`os.access`, `bin_abspath`, environment
  variables and `platform.system()` are parameters, as described above. The `mkdir` of
  the browsers directory in `setup` is not modelled.
- The ordering `sorted()` gives `Path` values is
  part of the `sortedGlob` parameter, not modelled. That the last path in that order is the newest
  build is a heuristic, and nothing here claims it.
- `platform.system().lower()` and pydantic_pkgr's `OPERATING_SYSTEM` are taken to be
  the same value.
- `PlaywrightProvider.Packages`: `get_packages` lives in a base class that is not part
  of this model. It is modelled as a lookup in `packages_handler`, falling back to the
  name itself.
- `INSTALLER_BIN_ABSPATH` (which calls `PLAYWRIGHT_BINARY.load()`), the pip provider's
  installer, `STORAGE_CONFIG.LIB_DIR` and `DEFAULT_ENV_PATH` are inputs. `INSTALLER_BIN`
  appears only in an error message and is not modelled.
- The browser-path cache is a class variable shared by all instances. It is modelled as
  a field of the one provider object. Concurrent access is not modelled.
- `Text.PathJoin`: pathlib's collapsing of repeated or trailing slashes and `.`
  segments is not modelled. Neither is the normalisation `Path(...)` applies to
  `$PLAYWRIGHT_BROWSERS_PATH` and to the extractor's name.
- `Text.Lower`: only ASCII letters are lower-cased.
- `Text.LastPiece`: the ensures single out Python's last piece only for a separator that
  cannot overlap itself, such as the newline and `/` used here. For a separator like
  `"XX"` or a browsers directory like `/a/a`, the body still computes Python's
  left-to-right split, but the ensures also admit other suffixes.
- Process output is taken as already-decoded text. The UTF-8 decoding of
  `proc.stdout`/`proc.stderr` is not modelled.
- The runner receives `[url, *args]` and the directory. Prefixing the binary's own path
  happens inside `Binary.exec`, which is not part of this model.
- `print` and `sys.stderr.write` diagnostics are output only and are left out.
- `HandlerFuncStr` fields (`output_path_func` and the others) are left out. They select
  methods by name at run time.
- `Extractors.BaseExtractor.Extract`: only the call without keyword arguments is
  modelled. `extract` passes its `**kwargs` on to `get_output_path(snapshot)`, which
  accepts none, so any keyword argument makes the call raise `TypeError`.
- The debug-only `_plugin` attribute set in `register` is left out.
- The Django-settings fallback in `register` and `exec` is left out. The registry and the
  binaries map are passed explicitly.
- pydantic's validation of `binary` as a `BinName` is not modelled.
- The `LDAP` alias and the loading of fields from the environment are not modelled.
  The string settings declared `str` but defaulting to None are `Option<string>`.
- `LDAPSearch` itself and `SCOPE_SUBTREE` belong to the LDAP library. The search is
  modelled as its base and filter; the library's presence is a boolean.
- archivebox/plugins_pkg/puppeteer/config.py declares only the constant default
  `'puppeteer'` and has no behaviour to model.

## Findings

| source | as written | input that shows it | evidently intended | confidence | as-written member | corrected member |
|---|---|---|---|---|---|---|
| archivebox/plugantic/base_extractor.py:73 | `if output_dir.glob('*.*')` tests the generator object, which is always true, so `should_extract` returns False for every snapshot | an output directory with no entries: the method answers False | answer False only when the glob yields at least one entry, True otherwise | high; not executed | `Extractors.BaseExtractor.ShouldExtract` (exhibited by `Extractors.ShouldExtractDeclinesEmptyDirectory`) | `Extractors.BaseExtractor.ShouldExtractIntended` |

# Platform cookie extractor: a Dafny model of its core

The system is an Electron desktop tool. It opens a Playwright-driven browser on
one of fourteen web platforms and lets the user log in by hand. It then harvests
the cookies, local storage and session storage of that browsing context,
keeps the captured sessions in a newest-first list, and exports a session as
JSON, a Netscape `cookies.txt`, an EditThisCookie array or a JavaScript module.

This project models the logic of that core in Dafny, as immutable datatypes and
pure functions:

- `netscape.dfy` (`Netscape`): the `cookies.txt` encoder, written as the source's
  append loop and as a reference layout. It comes with a reader and a proved
  round trip.
- `export.dfy` (`Export`): the `export-session` format switch, the file name, and
  the order of its error, cancel and write outcomes.
- `session_store.dfy` (`SessionStore`): `get-sessions`, `save-session` and
  `delete-session` over the stored list.
- `browser.dfy` (`Browser`): the `BrowserManager` class. It has three nullable
  handles and the operations `launch`, `isLoggedIn`, `extractData`, `close` and
  `getState`.
- `ipc.dfy` (`Ipc`): the single `browserManager` slot as changed by
  `open-browser`, `extract-cookies` and `close-browser`.
- `platforms.dfy` (`Platforms`): the registry of fourteen platforms. Each has
  its login check and its instruction list.
- `validation.dfy` (`Validation`): the account-name and proxy-URL validators and
  the "Open Browser" handler of the main form.
- `display.dfy` (`Display`): the relative-date label and the platform icon of
  the recent-sessions list.
- `text.dfy`, `wrappers.dfy`, `session_data.dfy`: shared helpers (split/join,
  decimal text, case folding), `Option`/`Outcome`, and the cookie and bundle
  records.

Everything the code hands to the browser engine, the clock, the save dialog or
the file system becomes an input:

- a `LaunchFault` names the launch step that throws;
- a set of `CloseStep`s names the `close()` calls that throw;
- an `Engine` record holds the engine's answers (connected, page closed,
  current URL, cookie jar, storages, user agent), each read as a value or a
  thrown message;
- `serialize` stands for `JSON.stringify(…, null, 2)`;
- `parses` stands for `new URL(…)`;
- times come in as integers, and locale renderings come in as text.

Each handler in `Ipc` returns the new slot, the response, and the manager it
dropped from the slot in the state its last `close()` left it. That last part
makes leaked browser processes visible.

## Behaviour worth knowing

- `close()` wraps its three steps in one `try`. A fault closing the page
  skips the context and the browser, so both stay held
  (`Browser.PageFaultKeepsBrowser`, `Ipc.CloseBrowserCanDropLiveBrowser`).
- `extractData()` on a manager without a page or context throws; it does
  not return a failure. The `extract-cookies` handler turns the throw into an
  error response. After a passed login check that throw cannot happen.
- `open-browser` puts a fresh, unlaunched manager in the slot before it
  looks the platform up. After an unknown platform, `extract-cookies`
  therefore answers "No cookies found…" and not "No browser instance
  running…" (`Ipc.UnknownPlatformKeepsFreshManager`). A failed launch also
  stays in the slot, holding whatever its clean-up could not close
  (`Ipc.FailedOpenKeepsLeakedBrowser`).
- Platforms added from the sidebar get the id `custom-` plus the clock
  reading. No such id is in the registry, so `open-browser` answers "Unknown
  platform" for them (`Ipc.CustomPlatformCannotOpen`).
- The Netscape expiry column is `cookie.expires || '0'`. The engine reports -1
  for a session-only cookie, and -1 is truthy, so such a cookie gets `-1`, not
  `0`.
- The `json` export serialises all of `session.data`, not only the cookies.
- The per-platform login checks of the registry are never called. The
  `extract-cookies` handler uses the manager's "any cookie with a non-empty
  value" test (`Ipc.RegistryCheckUnused`).
- A saved session's id is `Date.now().toString()`. Two saves in the same
  millisecond get the same id, and one `delete-session` then removes both
  (`SessionStore.SameMillisecondSavesShareId`).
- The Close Browser button reports `null` as extraction result, and the
  renderer saves it. `save-session` then stores a bare record holding only
  the clock id and `createdAt` (`SessionStore.CloseButtonSavesBareRecord`).
  Exporting it names the file `undefined_unnamed_<time>`. It fails on the
  missing cookies in every format but json; in json the dialog opens and a
  confirmed write fails.
- `extract-cookies` awaits the login check and the extraction separately.
  The page can close, or the jar can change, in between
  (`Ipc.ChangeBetweenReadsReachesResponse`).
- When a launch step throws, `launch` closes what it has assigned so far. A
  throw inside that clean-up is swallowed and leaves the rest held
  (`Browser.FailedCleanupKeepsBrowser`).

## Model

| member | source | states |
|---|---|---|
| Netscape.ConvertToNetscape | src/main/index.js:170-187 | the text built by appending the header and one tab-separated line per cookie is exactly the header lines, a blank line, and the cookie lines in input order, each ended by a newline |
| Netscape.EntryOf | src/main/index.js:175-181 | the include-subdomains flag is TRUE iff the domain starts with "."; secure mirrors the cookie; a missing path becomes "/"; missing domain, name or value become ""; the expiry is the integer when truthy, else "0" |
| Netscape.LineFields | src/main/index.js:183 | for a cookie without tabs or newlines, splitting its line on tabs gives back the seven columns, with domain, path, name and value in positions 1, 3, 6 and 7 |
| Netscape.NetscapeLineStructure | src/main/index.js:170-186 | for cookies whose text fields hold no tab or newline, the file splits on newlines into the two header lines, a blank line, one line per cookie and an empty remainder, so it holds 3 + N newlines |
| Netscape.NetscapeRoundTrip | src/main/index.js:170-186 | for cookies whose text fields hold no tab or newline, reading the file back yields N entries in input order, matching each cookie's domain, path, secure bit, name and value |
| Export.ParseFormat | src/main/index.js:124-147 | a format exactly for the ids json, netscape, editthiscookie and javascript, and the format found has that id |
| Export.Extension | src/main/index.js:124-143 | json and editthiscookie files end in .json, netscape files in .txt, javascript files in .js |
| Export.Content | src/main/index.js:124-147 | a netscape file of clean cookies reads back as one entry per cookie in order; the javascript module is the serialised cookie list between `const cookies = ` and `;` plus the default export |
| Export.FormatIds | src/main/index.js:124-147 | exactly the ids json, netscape, editthiscookie and javascript are accepted, each naming a different format |
| Export.FormatPayloads | src/main/index.js:124-144 | json serialises the whole session data; editthiscookie serialises only the cookie list; javascript wraps that same array in `const cookies = …;` and a default export; netscape is the cookies.txt text |
| Export.CookieFormatsReadOnlyCookies | src/main/index.js:130-143 | two sessions with the same cookies export identically in every format but json |
| Export.FileName | src/main/index.js:122-143 | the suggested file name starts with the platform ("undefined" for a bare record) and an underscore and ends with the format's extension (.json, .txt, .json, .js) |
| Export.FileNameRoundTrip | src/main/index.js:122 | when platform and account hold no underscore, the name without its extension splits on underscores into the platform, the account name or "unnamed" when it is empty or missing, and the clock reading, which parses back to the export time |
| Export.ExportSession | src/main/index.js:112-167 | a missing session gives "Session not found" and an unknown format "Unknown format", both before the dialog opens and with nothing written; a cancelled dialog or empty path gives the cancel answer, distinct from errors; a confirmed dialog writes the format's content at the chosen path and answers success, unless the write throws, which answers that error and counts as written nothing; a file is written exactly when the answer is success; a bare record fails on its missing cookies before the dialog in every format but json, and in json the dialog opens and a confirmed write fails |
| SessionStore.GetSessions | src/main/index.js:85-88 | the stored list is answered unchanged, so it is newest first as saved |
| SessionStore.SaveSession | src/main/index.js:91-101 | exactly one record is put in front and the rest are unchanged and in order; a caller-supplied id overrides the clock id; createdAt is always the current time; a `null` input stores a bare record holding only the clock id and the time |
| SessionStore.DeleteSession | src/main/index.js:104-109 | the answer is always true; a record survives iff it was present and has another id; the list shrinks by the number of records with the id |
| SessionStore.FindSession | src/main/index.js:115 | gives the first record with the id, and nothing exactly when no record has it |
| SessionStore.WithoutAppend | src/main/index.js:106 | filtering distributes over concatenation, so the kept records keep their relative order |
| SessionStore.DeleteMissing | src/main/index.js:104-109 | deleting an id no record carries leaves the list unchanged and still acknowledges |
| SessionStore.DeleteIdempotent | src/main/index.js:104-109 | deleting the same id twice equals deleting it once |
| SessionStore.SaveThenDelete | src/main/index.js:91-109 | deleting the id of a just-saved record, unique in the list, restores the previous list |
| SessionStore.CloseButtonSavesBareRecord | src/main/index.js:91-101 | saving `null`, as the close-browser button does, puts a bare record with the clock id and the time in front, and a lookup of that id finds it |
| SessionStore.SaveTwiceNewestFirst | src/main/index.js:85-101 | two saves at different times without caller ids list the newer first, with distinct ids, above the older records |
| SessionStore.SameMillisecondSavesShareId | src/main/index.js:91-109 | two saves in the same millisecond without caller ids get the same id, and one delete of it removes both, leaving the older list filtered |
| Browser.NewManager | src/automation/BrowserManager.js:4-8 | a new manager holds no browser, context or page |
| Browser.FreshManager | src/automation/BrowserManager.js:262-268 | a new manager reports not running, no page and no URL; it is not logged in; close leaves it as it is; extractData throws "Browser not initialized" |
| Browser.Close | src/automation/BrowserManager.js:240-257 | tears down page, then context, then browser, each nulled only after its own close succeeds; the first fault leaves that handle and the later ones held and is swallowed; with no fault all three end null; an idle manager is unchanged |
| Browser.CloseOnlyReleases | src/automation/BrowserManager.js:240-257 | after close every handle is either gone or the one held before; close never acquires anything |
| Browser.CloseIdempotent | src/automation/BrowserManager.js:240-257 | closing again under the same faults changes nothing more |
| Browser.PageFaultKeepsBrowser | src/automation/BrowserManager.js:241-256 | a fault closing the page of a running manager leaves all three handles, the browser process included, in place |
| Browser.CleanCloseStopsEverything | src/automation/BrowserManager.js:240-268 | after a close without faults the state reports not running and no page |
| Browser.SelectEngine | src/automation/BrowserManager.js:46-57 | firefox and webkit select their engines; any other or missing type selects chromium |
| Browser.Launch | src/automation/BrowserManager.js:18-95 | succeeds iff no step throws (navigation only runs for a truthy url); on success all three handles are held; headless defaults to false; the proxy is configured iff truthy; the user agent falls back to the default; the viewport is 1280x720; the page is navigated iff the url is truthy; the engine is the one the browser type selects; on failure the error message is returned and the manager is what `close()` under the clean-up faults leaves of the handles assigned before the failing step, so nothing is held when clean-up does not throw |
| Browser.AssignedBefore | src/automation/BrowserManager.js:59-72 | when a step throws, the browser is assigned unless starting it failed, the context only when the page or navigation failed, and the page only when navigation failed |
| Browser.FailedCleanupKeepsBrowser | src/automation/BrowserManager.js:70-89 | a failed context whose clean-up cannot close the browser leaves the started browser held |
| Browser.FailedLaunchReportsIdle | src/automation/BrowserManager.js:87-94 | a failed launch of a new manager whose clean-up succeeds reports not running and no page |
| Browser.LaunchReportsRunning | src/automation/BrowserManager.js:59-86 | a launch in which nothing throws reports running with a page |
| Browser.IsLoggedIn | src/automation/BrowserManager.js:201-235 | true iff all three handles are held, the browser is connected, the page is open, the jar can be read and some cookie has a non-empty value; false, never a throw, otherwise |
| Browser.AnyValued | src/automation/BrowserManager.js:225-227 | true iff some cookie of the list has a non-empty value |
| Browser.ExtractData | src/automation/BrowserManager.js:100-169 | throws iff page or context is missing; fails with "Browser page was closed" on a closed page; fails with the message of the first read that throws, in the order jar, local storage, session storage, user agent; otherwise returns the jar unchanged with both storages, the URL, the user agent and the time stamp; no handle is reassigned |
| Browser.LoggedInExtractionProceeds | src/automation/BrowserManager.js:103-116 | once the login check passes, extraction does not throw, and when the storage reads succeed it returns a non-empty jar |
| Browser.GetState | src/automation/BrowserManager.js:262-268 | running iff a browser is held, has-page iff a page is held, and a URL exactly when a page is held |
| Ipc.OpenBrowser | src/main/index.js:190-226 | a held manager is always closed and replaced; an unknown platform answers "Unknown platform" with a fresh, unlaunched manager in the slot; success iff the platform is known and the launch does not throw, and then the browser is running on chromium, navigated to the platform URL, with headless and proxy taken from the options, and the answer carries the platform name and "Browser opened for <name>. Please complete login manually."; a failed launch answers its error and leaves in the slot the new manager's handles assigned before the failing step, after the clean-up close |
| Ipc.ExtractCookies | src/main/index.js:229-289 | an empty slot is refused with "No browser instance running…"; the login check and the extraction read the engine at two moments; a failed login check or a failed extraction keeps the slot, and the extraction's own error message is passed through; only a successful extraction closes the manager, empties the slot and returns extractData's bundle whole with the "Extracted N cookies successfully!" message; the jar is non-empty when it did not change between the two reads |
| Ipc.FailedOpenKeepsLeakedBrowser | src/main/index.js:207-221 | from an empty slot, a launch failing at the context step whose clean-up cannot close the browser answers the error and leaves a manager holding the started browser in the slot; a later clean close-browser releases it |
| Ipc.ChangeBetweenReadsReachesResponse | src/main/index.js:244-262 | after a passed login check, a page closed or a jar read failing before the extraction reaches the answer as "Browser page was closed" or the jar's error, and the manager stays |
| Ipc.LaunchOptionsFor | src/main/index.js:207-211 | the launch gets the platform URL, headless exactly when the option is true, the proxy exactly when it is a non-empty string, and no user agent or engine type |
| Ipc.CloseBrowser | src/main/index.js:292-309 | an empty slot is refused with "No browser instance running"; otherwise the manager is closed and the slot is emptied |
| Ipc.UnknownPlatformKeepsFreshManager | src/main/index.js:193-204 | after an unknown platform the slot holds a manager that is not running, so extract-cookies reports a missing login |
| Ipc.OpenExtractClose | src/main/index.js:190-282 | opening a known platform and extracting from a logged-in engine succeeds, returns the jar, releases an idle manager, and leaves no browser for close-browser |
| Ipc.CloseBrowserCanDropLiveBrowser | src/main/index.js:295-304 | when closing the page throws, close-browser still empties the slot and drops a manager that holds its browser |
| Ipc.CustomPlatformCannotOpen | src/main/index.js:197-202 | an id `custom-` plus digits, as the sidebar makes for added platforms, is not in the registry, so open-browser answers "Unknown platform" with a fresh manager in the slot |
| Ipc.RegistryCheckUnused | src/main/index.js:244 | a Facebook c_user cookie with an empty value passes the registry's Facebook check but extract-cookies refuses |
| Platforms.GetPlatform | src/automation/platforms/index.js:503-505 | a record exactly for the fourteen keys, whose id equals its key; nothing for any other id |
| Platforms.GetAllPlatforms | src/automation/platforms/index.js:510-512 | the fourteen records in declaration order, their ids listed in that order from facebook to google, each the table's record for its id, and every table record listed |
| Platforms.GetInstructions | src/automation/platforms/index.js:6-497 | the list of every registered record has at least four steps and ends with the return step |
| Platforms.PlatformLoggedIn | src/automation/platforms/index.js:17-35 | false when the jar cannot be read; true when some cookie carries one of the platform's names; true when the jar is readable and the account element is found; with no element found it is true exactly when such a cookie exists |
| Platforms.InstructionsEndWithReturnStep | src/automation/platforms/index.js:6-497 | every registered id has a record whose instruction list has at least four steps and ends with `Return here and click "Extract Cookies"`, a step that appears nowhere earlier in the list |
| Platforms.AuthCookieSuffices | src/automation/platforms/index.js:21-27 | a cookie with one of the platform's authentication names makes the check true, whatever its value and whatever the page shows |
| Platforms.ElementDecidesOtherwise | src/automation/platforms/index.js:29-31 | without an authentication cookie the check equals the element lookup; a failed lookup counts as absent |
| Platforms.JarFaultIsFalse | src/automation/platforms/index.js:32-34 | a fault reading the cookies makes the check false, not a throw |
| Platforms.LoginCheckMonotone | src/automation/platforms/index.js:21-23 | adding cookies never turns a positive check negative |
| Platforms.AuthCookieExamples | src/automation/platforms/index.js:20-23 | facebook uses c_user/xs, twitter auth_token, tiktok sessionid/sid_tt |
| Platforms.UnknownIdsFindNothing | src/automation/platforms/index.js:503-505 | ids outside the table, such as "myspace", the capitalised "Facebook" or the empty id, have no record |
| Validation.ContainsForbidden | src/renderer/components/MainArea.jsx:36-37 | true iff some character of the name is one of < > " ' ` |
| Validation.ValidateAccountName | src/renderer/components/MainArea.jsx:28-42 | valid iff at most 50 characters and free of < > " ' `, so the empty name is valid; longer than 50 gives the length error first; otherwise a forbidden character gives the invalid-characters error |
| Validation.ValidateProxyUrl | src/renderer/components/MainArea.jsx:4-25 | "" gives the required error; without an http://, https://, socks4:// or socks5:// prefix (any case) the protocol error; after that valid iff the URL parses, else the format error |
| Validation.ProtocolCheckIgnoresCase | src/renderer/components/MainArea.jsx:8-9 | the protocol check gives the same answer for a URL and its lower-cased form; HTTP:// and Socks5:// pass, ftp:// and socks:// do not |
| Validation.HandleOpenBrowser | src/renderer/components/MainArea.jsx:59-87 | nothing without a platform; the account is checked first and the proxy only when enabled; a request is sent iff all checks pass; it carries the account name or "Unnamed Account", the proxy only when enabled, and the headless toggle |
| Validation.FormReachesBrowser | src/renderer/components/MainArea.jsx:80-86 | a request that passes validation and launches cleanly configures the browser with exactly the typed proxy (none when off) and the headless toggle |
| Display.DiffDays | src/renderer/components/RecentSessions.jsx:7-8 | the day count is the floor of the absolute millisecond difference over 86 400 000 |
| Display.FormatDate | src/renderer/components/RecentSessions.jsx:4-19 | 0 days gives "Today " and the time; 1 gives "Yesterday"; 2 to 6 give a one-digit count that reads back as the day count, followed by " days ago"; 7 or more gives the locale date |
| Display.FormatDateSymmetric | src/renderer/components/RecentSessions.jsx:7-8 | a date the same distance in the past or future gets the same label |
| Display.DayBoundaries | src/renderer/components/RecentSessions.jsx:8-17 | just under a day is today, one day up to just under two is yesterday, a full week gives the locale date |
| Display.PlatformIcon | src/renderer/components/RecentSessions.jsx:21-30 | facebook, twitter, instagram, linkedin and tiktok have their own icons, and every other id gets the globe |
| Display.CustomPlatformsGetGlobe | src/renderer/components/RecentSessions.jsx:21-30 | a session whose platform id is `custom-` plus the clock reading, as the sidebar names added platforms, is shown with the globe |

## Left out

- The Playwright engine itself (`chromium.launch`, `newContext`, `goto`, `context.cookies`, `page.evaluate`, `page.$`, `isConnected`, `isClosed`): their answers and faults are inputs. `isConnected` and `isClosed` are taken as never throwing.
- `waitForLogin` (BrowserManager.js:175-196): it only waits for network idle and no handler calls it.
- Window creation, dev-server port probing, `before-quit` and `src/main/preload.js`: Electron plumbing with no logic of the core.
- `dialog.showSaveDialog` and `fs.writeFile`: the dialog's answer and the write fault are inputs. The default directory (`exportPath` or the downloads folder joined with the file name) is not modelled; only the file name is.
- electron-store persistence: the `sessions` key is an in-memory list, and a missing key reads as the empty list.
- `JSON.stringify` pretty-printing: it is the `serialize` parameter. The order of JavaScript object keys in the storage objects is not modelled.
- `new URL(…)`, `Date`, `toISOString` and `toLocaleTimeString`/`toLocaleDateString`: foreign code, so parse answers, times and locale text are inputs. An invalid date (NaN) is not modelled.
- Floating-point cookie expiry: `expires` is a whole number. Numbers of 10^21 and above, which JavaScript prints in exponent form, are not modelled.
- Asynchronous interleaving: handler calls are taken one at a time. `extract-cookies` reads the engine at two moments (login check, extraction); every other call, and each of those two, sees one engine snapshot.
- Errors the handlers' `catch` blocks would turn into messages and that the typed model cannot produce: a missing `options` object, a failing store. The engine's TypeError texts for a bare record's export are inputs (`BareFaults`).
- `getPlatform` and `getPlatformIcon` lookups of inherited JavaScript properties such as `toString` or `constructor`: the registry and the icon table are maps over their own keys, so such ids get no record and the globe.
- String length: it counts Dafny characters, not JavaScript UTF-16 code units.
- `App.jsx`, `ExportDialog.jsx`, `Sidebar.jsx`, `vite.config.js` and all JSX markup: UI rendering and build configuration. Only the `custom-` id the sidebar gives added platforms is used, in two lemmas.
- ValidateProxyUrl: lower-casing covers ASCII capitals and the Kelvin sign, the only characters whose lower case is a character of a proxy prefix. Other Unicode case mappings are not modelled.
- IsLoggedIn: a fault in `isConnected()` or `isClosed()` is not modelled; only a failing cookie read stands for the swallowed errors.

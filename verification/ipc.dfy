/** The main process's browser handlers: `open-browser`, `extract-cookies` and
    `close-browser` acting on the single `browserManager` slot. Calls are taken
    one at a time. Each handler yields the new slot, the manager it dropped
    from the slot (in the state its last `close()` left it), and its response. */
module Ipc {
  import opened Wrappers
  import opened Text
  import opened SessionData
  import opened Browser
  import opened Platforms

  /** `browserManager`: null or a manager. */
  type Slot = Option<Manager>

  /** The `options` object the renderer sends with `open-browser`. */
  datatype OpenOptions = OpenOptions(accountName: string, proxy: Option<string>, headless: Option<bool>)

  datatype OpenResponse = Opened(platformName: string, message: string) | OpenFailed(error: string)
  datatype ExtractResponse = CookiesExtracted(data: Bundle, message: string) | ExtractRefused(error: string)
  datatype CloseResponse = BrowserClosed(message: string) | CloseRefused(error: string)

  datatype Step<R> = Step(slot: Slot, released: Option<Manager>, response: R)

  const NoBrowserForExtract := "No browser instance running. Please open the browser first."
  const NotLoggedIn := "No cookies found. Please make sure you are fully logged in to the platform."
  const NoBrowserForClose := "No browser instance running"

  /** The options `open-browser` passes to `launch` for a platform. */
  function LaunchOptionsFor(p: Platform, options: OpenOptions): (opts: LaunchOptions)
    ensures opts.url == Some(p.url)
    ensures opts.headless.Some? && (opts.headless.value <==> options.headless == Some(true))
    ensures opts.proxy.Some? <==> Truthy(options.proxy)
    ensures opts.proxy.Some? ==> opts.proxy == options.proxy
    ensures opts.userAgent.None? && opts.browserType.None?
  {
    LaunchOptions(Some(p.url), Some(options.headless == Some(true)),
                  if Truthy(options.proxy) then options.proxy else None, None, None)
  }

  /** `open-browser`. A held manager is closed first (`oldFaults`), then the
      slot receives a new manager before the platform is looked up, so an
      unknown platform leaves a fresh, unlaunched manager in the slot. A
      failed launch also stays in the slot. */
  function OpenBrowser(slot: Slot, platformId: string, options: OpenOptions, oldFaults: set<CloseStep>,
                       launchFault: Option<LaunchFault>, cleanupFaults: set<CloseStep>): (r: Step<OpenResponse>)
    ensures r.slot.Some?
    ensures r.released == (if slot.Some? then Some(Close(slot.value, oldFaults)) else None)
    ensures GetPlatform(platformId).None? ==>
      r.slot == Some(NewManager()) && r.response == OpenFailed("Unknown platform")
    ensures r.response.Opened? <==> GetPlatform(platformId).Some? && launchFault.None?
    ensures r.response.Opened? ==> Running(r.slot.value)
    ensures r.response.Opened? ==>
      var p := GetPlatform(platformId).value;
      var b := r.slot.value.browser.value;
      && r.response.platformName == p.name
      && r.response.message == "Browser opened for " + p.name + ". Please complete login manually."
      && r.slot.value.page.value.navigatedTo == Some(p.url)
      && b.kind == Chromium
      && (b.headless <==> options.headless == Some(true))
      && b.proxy == (if Truthy(options.proxy) then options.proxy else None)
    ensures GetPlatform(platformId).Some? && launchFault.Some? ==>
      r.response == OpenFailed(launchFault.value.message)
    ensures GetPlatform(platformId).Some? && launchFault.Some? ==>
      r.slot == Some(Close(AssignedBefore(NewManager(), LaunchOptionsFor(GetPlatform(platformId).value, options),
                                          launchFault.value.step), cleanupFaults))
    ensures GetPlatform(platformId).Some? && launchFault.Some? && cleanupFaults == {} ==>
      Idle(r.slot.value)
  {
    var released := if slot.Some? then Some(Close(slot.value, oldFaults)) else None;
    var created := NewManager();
    match GetPlatform(platformId)
    case None => Step(Some(created), released, OpenFailed("Unknown platform"))
    case Some(p) =>
      PlatformUrls(p);
      var launched := Launch(created, LaunchOptionsFor(p, options), launchFault, cleanupFaults);
      match launched.result
      case LaunchOk =>
        Step(Some(launched.manager), released,
             Opened(p.name, "Browser opened for " + p.name + ". Please complete login manually."))
      case LaunchFailed(error) => Step(Some(launched.manager), released, OpenFailed(error))
  }

  /** Every platform's entry URL is a non-empty string, so the launch always navigates. */
  lemma PlatformUrls(p: Platform)
    requires p in Declared
    ensures p.url != ""
  {
  }

  /** `extract-cookies`. Without a manager it refuses at once. The login
      check and the extraction are two awaited calls, so they read the engine
      at two moments: `atCheck` and `atExtract`. A failed login check and an
      extraction failure keep the manager in the slot. Only a successful
      extraction closes the browser (`closeFaults`) and empties the slot. */
  function ExtractCookies(slot: Slot, atCheck: Engine, atExtract: Engine, nowIso: string,
                          closeFaults: set<CloseStep>): (r: Step<ExtractResponse>)
    ensures slot.None? ==> r == Step(None, None, ExtractRefused(NoBrowserForExtract))
    ensures slot.Some? && !IsLoggedIn(slot.value, atCheck) ==> r == Step(slot, None, ExtractRefused(NotLoggedIn))
    ensures r.response.CookiesExtracted? <==>
      slot.Some? && IsLoggedIn(slot.value, atCheck) && ExtractData(slot.value, atExtract, nowIso).Returned?
      && ExtractData(slot.value, atExtract, nowIso).result.Extracted?
    ensures r.response.ExtractRefused? ==> r.slot == slot && r.released.None?
    ensures r.response.CookiesExtracted? ==>
      && r.slot.None?
      && r.released == Some(Close(slot.value, closeFaults))
      && r.response.data == ExtractData(slot.value, atExtract, nowIso).result.data
      && r.response.data.cookies == atExtract.jar.value
      && r.response.message == "Extracted " + NatToString(|atExtract.jar.value|) + " cookies successfully!"
    ensures r.response.CookiesExtracted? && atCheck.jar == atExtract.jar ==> |r.response.data.cookies| > 0
    ensures (slot.Some? && IsLoggedIn(slot.value, atCheck) && ExtractData(slot.value, atExtract, nowIso).Returned?
             && ExtractData(slot.value, atExtract, nowIso).result.ExtractFailed?) ==>
      r == Step(slot, None, ExtractRefused(ExtractData(slot.value, atExtract, nowIso).result.error))
  {
    match slot
    case None => Step(None, None, ExtractRefused(NoBrowserForExtract))
    case Some(m) =>
      if !IsLoggedIn(m, atCheck) then Step(slot, None, ExtractRefused(NotLoggedIn))
      else
        match ExtractData(m, atExtract, nowIso)
        case Thrown(message) => Step(slot, None, ExtractRefused(message))
        case Returned(ExtractFailed(error)) => Step(slot, None, ExtractRefused(error))
        case Returned(Extracted(data)) =>
          Step(None, Some(Close(m, closeFaults)),
               CookiesExtracted(data, "Extracted " + NatToString(|data.cookies|) + " cookies successfully!"))
  }

  /** `close-browser`: refuses on an empty slot; otherwise closes the manager
      and empties the slot, whatever the close left behind. */
  function CloseBrowser(slot: Slot, faults: set<CloseStep>): (r: Step<CloseResponse>)
    ensures r.slot.None?
    ensures slot.None? <==> r.response == CloseRefused(NoBrowserForClose)
    ensures slot.None? ==> r.released.None?
    ensures slot.Some? ==> r.released == Some(Close(slot.value, faults))
    ensures slot.Some? ==> r.response == BrowserClosed("Browser closed successfully")
  {
    match slot
    case None => Step(None, None, CloseRefused(NoBrowserForClose))
    case Some(m) => Step(None, Some(Close(m, faults)), BrowserClosed("Browser closed successfully"))
  }

  /** After an unknown platform the slot is not empty, so a following
      `extract-cookies` reports a missing login rather than a missing browser. */
  lemma UnknownPlatformKeepsFreshManager(slot: Slot, platformId: string, options: OpenOptions,
                                         oldFaults: set<CloseStep>, launchFault: Option<LaunchFault>,
                                         cleanupFaults: set<CloseStep>, e: Engine, nowIso: string,
                                         closeFaults: set<CloseStep>)
    requires platformId !in Table
    ensures var afterOpen := OpenBrowser(slot, platformId, options, oldFaults, launchFault, cleanupFaults);
      && !GetState(afterOpen.slot.value, e).isRunning
      && ExtractCookies(afterOpen.slot, e, e, nowIso, closeFaults).response == ExtractRefused(NotLoggedIn)
  {
  }

  /** The whole happy path: open a known platform, extract from a logged-in
      engine, and the slot ends empty, so a later `close-browser` refuses. */
  lemma OpenExtractClose(slot: Slot, platformId: string, options: OpenOptions, e: Engine, nowIso: string)
    requires platformId in Table
    requires e.connected && !e.pageClosed && e.jar.Done? && AnyValued(e.jar.value)
    requires e.localStorage.Done? && e.sessionStorage.Done? && e.userAgent.Done?
    ensures var afterOpen := OpenBrowser(slot, platformId, options, {}, None, {});
      var extracted := ExtractCookies(afterOpen.slot, e, e, nowIso, {});
      && afterOpen.response.Opened?
      && extracted.response.CookiesExtracted?
      && extracted.response.data.cookies == e.jar.value
      && Idle(extracted.released.value)
      && CloseBrowser(extracted.slot, {}).response == CloseRefused(NoBrowserForClose)
  {
  }

  /** `close-browser` empties the slot even when closing the page throws, so
      the dropped manager still holds a connected browser process. */
  lemma CloseBrowserCanDropLiveBrowser(m: Manager)
    requires Running(m)
    ensures var r := CloseBrowser(Some(m), {ClosePage});
      r.slot.None? && r.released == Some(m) && r.released.value.browser.Some?
  {
  }

  /** The handler uses the default heuristic, not the platform's own check:
      a Facebook `c_user` cookie with an empty value satisfies the registry's
      Facebook check but does not let `extract-cookies` proceed. */
  lemma RegistryCheckUnused(m: Manager, e: Engine, lookup: string -> Lookup, nowIso: string, closeFaults: set<CloseStep>)
    requires Running(m) && e.connected && !e.pageClosed
    requires e.jar == Done([Cookie(Some("c_user"), Some(""), Some(".facebook.com"), Some("/"), None, true, true, None)])
    ensures PlatformLoggedIn(Facebook, e.jar, lookup)
    ensures ExtractCookies(Some(m), e, e, nowIso, closeFaults).response == ExtractRefused(NotLoggedIn)
  {
    assert IsAuthCookie(Facebook, e.jar.value[0]);
    assert !HasValue(e.jar.value[0]);
  }

  /** A platform added from the sidebar (`custom-` followed by the clock
      reading) is not in the registry, so `open-browser` answers "Unknown
      platform" for it and no browser is launched. */
  lemma CustomPlatformCannotOpen(slot: Slot, nowMs: nat, options: OpenOptions, oldFaults: set<CloseStep>,
                                 launchFault: Option<LaunchFault>, cleanupFaults: set<CloseStep>)
    ensures var r := OpenBrowser(slot, "custom-" + NatToString(nowMs), options, oldFaults, launchFault, cleanupFaults);
      r.response == OpenFailed("Unknown platform") && r.slot == Some(NewManager())
  {
    var id := "custom-" + NatToString(nowMs);
    assert id[0] == 'c';
    NoKeyStartsWithC(id);
  }

  /** A launch that fails after starting the browser, whose clean-up cannot
      close that browser, leaves it held by the manager in the slot; only a
      later `close-browser` (or `open-browser`) drops it. */
  lemma FailedOpenKeepsLeakedBrowser(platformId: string, options: OpenOptions, oldFaults: set<CloseStep>,
                                     message: string)
    requires GetPlatform(platformId).Some?
    ensures var p := GetPlatform(platformId).value;
      var r := OpenBrowser(None, platformId, options, oldFaults, Some(LaunchFault(OpenContext, message)),
                           {CloseStep.CloseBrowser});
      && r.response == OpenFailed(message)
      && r.slot == Some(Manager(Some(BrowserFor(LaunchOptionsFor(p, options))), None, None))
      && CloseBrowser(r.slot, {}).released == Some(NewManager())
  {
  }

  /** The page can close or the jar can fail between the login check and the
      extraction; the handler then answers with the extraction's own error
      and keeps the manager. */
  lemma ChangeBetweenReadsReachesResponse(m: Manager, atCheck: Engine, atExtract: Engine, nowIso: string,
                                          closeFaults: set<CloseStep>)
    requires IsLoggedIn(m, atCheck)
    ensures atExtract.pageClosed ==>
      ExtractCookies(Some(m), atCheck, atExtract, nowIso, closeFaults)
        == Step(Some(m), None, ExtractRefused("Browser page was closed"))
    ensures !atExtract.pageClosed && atExtract.jar.Threw? ==>
      ExtractCookies(Some(m), atCheck, atExtract, nowIso, closeFaults)
        == Step(Some(m), None, ExtractRefused(atExtract.jar.message))
  {
  }
}

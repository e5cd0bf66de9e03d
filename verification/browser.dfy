/** The browser manager: three nullable handles (browser, context, page) and
    the operations on them. Every call into the automation engine is an input:
    a `LaunchFault` says which launch step throws, a set of `CloseStep`s says
    which `close()` calls throw, and an `Engine` snapshot gives the engine's
    answers (connection, page state, cookie jar, storage, URL, user agent). */
module Browser {
  import opened Wrappers
  import opened SessionData

  datatype EngineKind = Chromium | Firefox | WebKit

  const DefaultUserAgent := "Mozilla/5.0 (Macintosh; Intel Mac OS X 10_15_7) AppleWebKit/537.36 (KHTML, like Gecko) Chrome/120.0.0.0 Safari/537.36"
  const LaunchArgs: seq<string> := ["--no-sandbox", "--disable-setuid-sandbox", "--disable-dev-shm-usage",
    "--disable-blink-features=AutomationControlled"]
  const ViewportWidth: nat := 1280
  const ViewportHeight: nat := 720

  /** The launched browser process, with the launch options it was given. */
  datatype BrowserHandle = BrowserHandle(kind: EngineKind, headless: bool, proxy: Option<string>, args: seq<string>)
  /** The browsing context, with its viewport and user agent. */
  datatype ContextHandle = ContextHandle(viewportWidth: nat, viewportHeight: nat, userAgent: string)
  /** The page, with the URL the launch navigated it to, if any. */
  datatype PageHandle = PageHandle(navigatedTo: Option<string>)

  datatype Manager = Manager(browser: Option<BrowserHandle>, context: Option<ContextHandle>, page: Option<PageHandle>)

  /** No handle is held. */
  predicate Idle(m: Manager)
  {
    m.browser.None? && m.context.None? && m.page.None?
  }

  /** All three handles are held. */
  predicate Running(m: Manager)
  {
    m.browser.Some? && m.context.Some? && m.page.Some?
  }

  /** `new BrowserManager()`. */
  function NewManager(): (m: Manager)
    ensures Idle(m)
  {
    Manager(None, None, None)
  }

  /** What the engine answers while a call runs. */
  datatype Engine = Engine(
    connected: bool,
    pageClosed: bool,
    pageUrl: string,
    jar: Outcome<seq<Cookie>>,
    localStorage: Outcome<seq<StorageEntry>>,
    sessionStorage: Outcome<seq<StorageEntry>>,
    userAgent: Outcome<string>)

  /** The options object of `launch`; a missing field takes its default. */
  datatype LaunchOptions = LaunchOptions(
    url: Option<string>,
    headless: Option<bool>,
    proxy: Option<string>,
    userAgent: Option<string>,
    browserType: Option<string>)

  /** JavaScript truthiness of an optional string. */
  predicate Truthy(s: Option<string>)
  {
    s.Some? && s.value != ""
  }

  /** The `switch (browserType)` with `browserType = 'chromium'` as default. */
  function SelectEngine(browserType: Option<string>): (k: EngineKind)
    ensures k == Firefox <==> browserType == Some("firefox")
    ensures k == WebKit <==> browserType == Some("webkit")
    ensures browserType.None? ==> k == Chromium
  {
    match browserType
    case Some("firefox") => Firefox
    case Some("webkit") => WebKit
    case _ => Chromium
  }

  /** The four awaited steps of `launch`, in order. */
  datatype LaunchStep = StartEngine | OpenContext | OpenPage | Navigate
  datatype LaunchFault = LaunchFault(step: LaunchStep, message: string)
  /** The three awaited steps of `close`, in order. */
  datatype CloseStep = ClosePage | CloseContext | CloseBrowser

  datatype LaunchResult = LaunchOk | LaunchFailed(error: string)
  datatype Launched = Launched(manager: Manager, result: LaunchResult)

  /** The close call of `step` happens (its handle is held) and throws. */
  predicate Throws(m: Manager, faulty: set<CloseStep>, step: CloseStep)
  {
    step in faulty &&
    match step
    case ClosePage => m.page.Some?
    case CloseContext => m.context.Some?
    case CloseBrowser => m.browser.Some?
  }

  /** `close()`: one `try` around closing the page, then the context, then the
      browser, each handle set to null right after its own close returns. The
      first close that throws ends the sequence, leaving that handle and the
      later ones set; the error is swallowed. */
  function Close(m: Manager, faulty: set<CloseStep>): (r: Manager)
    ensures faulty == {} ==> Idle(r)
    ensures Idle(m) ==> r == m
    ensures Throws(m, faulty, ClosePage) ==> r == m
    ensures !Throws(m, faulty, ClosePage) && Throws(m, faulty, CloseContext) ==> r == m.(page := None)
    ensures !Throws(m, faulty, ClosePage) && !Throws(m, faulty, CloseContext) && Throws(m, faulty, CloseBrowser) ==>
      r == m.(page := None, context := None)
    ensures !Throws(m, faulty, ClosePage) && !Throws(m, faulty, CloseContext) && !Throws(m, faulty, CloseBrowser) ==>
      Idle(r)
  {
    if m.page.Some? && ClosePage in faulty then m
    else
      var m1 := m.(page := None);
      if m1.context.Some? && CloseContext in faulty then m1
      else
        var m2 := m1.(context := None);
        if m2.browser.Some? && CloseBrowser in faulty then m2
        else m2.(browser := None)
  }

  /** `close` never acquires anything: each handle afterwards is either gone
      or the one held before. */
  lemma CloseOnlyReleases(m: Manager, faulty: set<CloseStep>)
    ensures var r := Close(m, faulty);
      && (r.browser.None? || r.browser == m.browser)
      && (r.context.None? || r.context == m.context)
      && (r.page.None? || r.page == m.page)
  {
  }

  /** Closing again with the same faults changes nothing more. */
  lemma CloseIdempotent(m: Manager, faulty: set<CloseStep>)
    ensures Close(Close(m, faulty), faulty) == Close(m, faulty)
  {
  }

  /** The browser `launch` starts for `opts`. */
  function BrowserFor(opts: LaunchOptions): BrowserHandle
  {
    BrowserHandle(
      SelectEngine(opts.browserType),
      match opts.headless case Some(h) => h case None => false,
      if Truthy(opts.proxy) then opts.proxy else None,
      LaunchArgs)
  }

  /** The context `launch` opens for `opts`. */
  function ContextFor(opts: LaunchOptions): ContextHandle
  {
    ContextHandle(ViewportWidth, ViewportHeight,
      if Truthy(opts.userAgent) then opts.userAgent.value else DefaultUserAgent)
  }

  /** The page `launch` opens for `opts`. */
  function PageFor(opts: LaunchOptions): PageHandle
  {
    PageHandle(if Truthy(opts.url) then opts.url else None)
  }

  /** The manager as it stands when `step` throws: every handle whose step
      completed before it has been assigned, the others are as they were. */
  function AssignedBefore(m: Manager, opts: LaunchOptions, step: LaunchStep): (a: Manager)
    ensures a.browser == (if step == StartEngine then m.browser else Some(BrowserFor(opts)))
    ensures a.context == (if step in {StartEngine, OpenContext} then m.context else Some(ContextFor(opts)))
    ensures a.page == (if step == Navigate then Some(PageFor(opts)) else m.page)
  {
    match step
    case StartEngine => m
    case OpenContext => m.(browser := Some(BrowserFor(opts)))
    case OpenPage => m.(browser := Some(BrowserFor(opts)), context := Some(ContextFor(opts)))
    case Navigate => Manager(Some(BrowserFor(opts)), Some(ContextFor(opts)), Some(PageFor(opts)))
  }

  /** `launch(options)`. The browser, context and page are assigned as each
      step completes; a step that throws makes `launch` call `close()` on the
      handles assigned so far (with `cleanupFaults` as that call's faults) and
      report the error. Navigation happens only for a truthy `url`. */
  function Launch(m: Manager, opts: LaunchOptions, fault: Option<LaunchFault>, cleanupFaults: set<CloseStep>): (r: Launched)
    ensures r.result.LaunchOk? <==> fault.None? || (fault.value.step == Navigate && !Truthy(opts.url))
    ensures r.result.LaunchFailed? ==> r.result.error == fault.value.message
    ensures r.result.LaunchFailed? ==>
      r.manager == Close(AssignedBefore(m, opts, fault.value.step), cleanupFaults)
    ensures r.result.LaunchFailed? && cleanupFaults == {} ==> Idle(r.manager)
    ensures r.result.LaunchOk? ==> Running(r.manager)
    ensures r.result.LaunchOk? ==>
      var b := r.manager.browser.value;
      && b.kind == SelectEngine(opts.browserType)
      && (b.kind == Chromium <==> opts.browserType != Some("firefox") && opts.browserType != Some("webkit"))
      && (b.headless <==> opts.headless == Some(true))
      && (b.proxy.Some? <==> Truthy(opts.proxy))
      && (b.proxy.Some? ==> b.proxy == opts.proxy)
      && b.args == LaunchArgs
    ensures r.result.LaunchOk? ==>
      var c := r.manager.context.value;
      && c.viewportWidth == ViewportWidth && c.viewportHeight == ViewportHeight
      && (Truthy(opts.userAgent) ==> c.userAgent == opts.userAgent.value)
      && (!Truthy(opts.userAgent) ==> c.userAgent == DefaultUserAgent)
    ensures r.result.LaunchOk? ==>
      r.manager.page.value.navigatedTo == (if Truthy(opts.url) then opts.url else None)
  {
    var launched := Manager(Some(BrowserFor(opts)), Some(ContextFor(opts)), Some(PageFor(opts)));
    match fault
    case None => Launched(launched, LaunchOk)
    case Some(LaunchFault(step, message)) =>
      if step == Navigate && !Truthy(opts.url) then Launched(launched, LaunchOk)
      else Launched(Close(AssignedBefore(m, opts, step), cleanupFaults), LaunchFailed(message))
  }

  /** When the context cannot be opened and closing the browser in the
      clean-up throws too, the failed launch leaves a started browser held. */
  lemma FailedCleanupKeepsBrowser(m: Manager, opts: LaunchOptions, message: string)
    requires m.page.None? && m.context.None?
    ensures var r := Launch(m, opts, Some(LaunchFault(OpenContext, message)), {CloseBrowser});
      && r.result == LaunchFailed(message)
      && r.manager == Manager(Some(BrowserFor(opts)), None, None)
  {
  }

  /** `isLoggedIn()` with the default heuristic: false unless all three
      handles are held, the browser is connected, the page is open and the
      jar can be read; then true exactly when some cookie has a non-empty
      value. It never throws. */
  function IsLoggedIn(m: Manager, e: Engine): (r: bool)
    ensures r <==> (Running(m) && e.connected && !e.pageClosed && e.jar.Done?
                    && exists i :: 0 <= i < |e.jar.value| && HasValue(e.jar.value[i]))
  {
    if m.page.None? || m.context.None? || m.browser.None? then false
    else if !e.connected then false
    else if e.pageClosed then false
    else
      match e.jar
      case Threw(_) => false
      case Done(cookies) => AnyValued(cookies)
  }

  /** `cookies.some(cookie => cookie.value && cookie.value.length > 0)`. */
  function AnyValued(cookies: seq<Cookie>): (r: bool)
    ensures r <==> exists i :: 0 <= i < |cookies| && HasValue(cookies[i])
  {
    if |cookies| == 0 then false
    else if HasValue(cookies[0]) then true
    else
      var r := AnyValued(cookies[1..]);
      assert r ==> exists i :: 0 <= i < |cookies| && HasValue(cookies[i]) by {
        if r {
          var i :| 0 <= i < |cookies[1..]| && HasValue(cookies[1..][i]);
          assert HasValue(cookies[i + 1]);
        }
      }
      assert (exists i :: 0 <= i < |cookies| && HasValue(cookies[i])) ==> r by {
        if exists i :: 0 <= i < |cookies| && HasValue(cookies[i]) {
          var i :| 0 <= i < |cookies| && HasValue(cookies[i]);
          assert i > 0 && HasValue(cookies[1..][i - 1]);
        }
      }
      r
  }

  datatype ExtractResult = Extracted(data: Bundle) | ExtractFailed(error: string)
  /** `extractData()` either throws or resolves to a result object. */
  datatype ExtractOutcome = Returned(result: ExtractResult) | Thrown(message: string)

  /** `extractData()`. It throws when the page or the context is missing
      (the browser handle is not checked), fails with "Browser page was
      closed" on a closed page, fails with the engine's message when a read
      throws, and otherwise returns the jar exactly as read, both storages,
      the URL, the user agent and the time stamp. It assigns no handle, so
      the manager is not part of its result. */
  function ExtractData(m: Manager, e: Engine, nowIso: string): (r: ExtractOutcome)
    ensures r.Thrown? <==> m.page.None? || m.context.None?
    ensures r.Thrown? ==> r.message == "Browser not initialized"
    ensures r.Returned? && e.pageClosed ==> r.result == ExtractFailed("Browser page was closed")
    ensures r.Returned? && r.result.Extracted? <==>
      && m.page.Some? && m.context.Some? && !e.pageClosed
      && e.jar.Done? && e.localStorage.Done? && e.sessionStorage.Done? && e.userAgent.Done?
    ensures r.Returned? && r.result.Extracted? ==>
      r.result.data == Bundle(e.jar.value, e.localStorage.value, e.sessionStorage.value,
                              e.pageUrl, e.userAgent.value, nowIso)
    ensures r.Returned? && !e.pageClosed && e.jar.Threw? ==> r.result == ExtractFailed(e.jar.message)
    ensures r.Returned? && !e.pageClosed && e.jar.Done? && e.localStorage.Threw? ==>
      r.result == ExtractFailed(e.localStorage.message)
    ensures r.Returned? && !e.pageClosed && e.jar.Done? && e.localStorage.Done? && e.sessionStorage.Threw? ==>
      r.result == ExtractFailed(e.sessionStorage.message)
    ensures (r.Returned? && !e.pageClosed && e.jar.Done? && e.localStorage.Done? && e.sessionStorage.Done?
             && e.userAgent.Threw?) ==> r.result == ExtractFailed(e.userAgent.message)
  {
    if m.page.None? || m.context.None? then Thrown("Browser not initialized")
    else if e.pageClosed then Returned(ExtractFailed("Browser page was closed"))
    else
      match e.jar
      case Threw(message) => Returned(ExtractFailed(message))
      case Done(cookies) =>
        match e.localStorage
        case Threw(message) => Returned(ExtractFailed(message))
        case Done(local) =>
          match e.sessionStorage
          case Threw(message) => Returned(ExtractFailed(message))
          case Done(session) =>
            match e.userAgent
            case Threw(message) => Returned(ExtractFailed(message))
            case Done(agent) => Returned(Extracted(Bundle(cookies, local, session, e.pageUrl, agent, nowIso)))
  }

  datatype State = State(isRunning: bool, hasPage: bool, currentUrl: Option<string>)

  /** `getState()`: a read of the handles; the URL is the page's current one. */
  function GetState(m: Manager, e: Engine): (s: State)
    ensures s.isRunning <==> m.browser.Some?
    ensures s.hasPage <==> m.page.Some?
    ensures s.currentUrl == (if m.page.Some? then Some(e.pageUrl) else None)
  {
    State(m.browser.Some?, m.page.Some?, if m.page.Some? then Some(e.pageUrl) else None)
  }

  /** A fresh manager reports nothing running, no page and no URL; it is not
      logged in, `close` leaves it as it is, and `extractData` throws. */
  lemma FreshManager(e: Engine, faulty: set<CloseStep>, nowIso: string)
    ensures GetState(NewManager(), e) == State(false, false, None)
    ensures !IsLoggedIn(NewManager(), e)
    ensures Close(NewManager(), faulty) == NewManager()
    ensures ExtractData(NewManager(), e, nowIso) == Thrown("Browser not initialized")
  {
  }

  /** A close in which nothing throws leaves a manager that reports nothing running. */
  lemma CleanCloseStopsEverything(m: Manager, e: Engine)
    ensures GetState(Close(m, {}), e) == State(false, false, None)
  {
  }

  /** When the login check passes, extraction does not throw, and when the
      storage reads succeed it returns a non-empty jar. */
  lemma LoggedInExtractionProceeds(m: Manager, e: Engine, nowIso: string)
    requires IsLoggedIn(m, e)
    ensures ExtractData(m, e, nowIso).Returned?
    ensures e.localStorage.Done? && e.sessionStorage.Done? && e.userAgent.Done? ==>
      ExtractData(m, e, nowIso).result.Extracted? && |ExtractData(m, e, nowIso).result.data.cookies| > 0
  {
  }

  /** A failed launch of a fresh manager whose clean-up does not throw reports
      nothing running. */
  lemma FailedLaunchReportsIdle(opts: LaunchOptions, fault: LaunchFault, e: Engine)
    requires fault.step != Navigate || Truthy(opts.url)
    ensures var r := Launch(NewManager(), opts, Some(fault), {});
      && r.result == LaunchFailed(fault.message)
      && !GetState(r.manager, e).isRunning && !GetState(r.manager, e).hasPage
  {
  }

  /** A successful launch reports a running browser with a page. */
  lemma LaunchReportsRunning(m: Manager, opts: LaunchOptions, e: Engine, cleanupFaults: set<CloseStep>)
    ensures var r := Launch(m, opts, None, cleanupFaults);
      r.result == LaunchOk && GetState(r.manager, e).isRunning && GetState(r.manager, e).hasPage
  {
  }

  /** `close` wraps its three awaits in one `try`; the first fault skips the
      remaining steps, so a fault closing the page leaves the context and the
      browser process held. */
  lemma PageFaultKeepsBrowser(m: Manager)
    requires Running(m)
    ensures Close(m, {ClosePage}) == m && Close(m, {ClosePage}).browser.Some?
  {
  }
}

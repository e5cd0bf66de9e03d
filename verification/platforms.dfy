/** The platform registry: a static table of fourteen platforms, each with
    its URLs, the cookie names that prove a login, the page element that
    shows one, and the login instructions shown to the user. */
module Platforms {
  import opened Wrappers
  import opened SessionData

  /** One registry record. `authCookies` and `accountSelector` are the data
      of the record's `isLoggedIn` method; `instructions` is what its
      `getInstructions` returns. */
  datatype Platform = Platform(
    id: string,
    name: string,
    url: string,
    loginUrl: string,
    authCookies: seq<string>,
    accountSelector: string,
    instructions: seq<string>)

  const ReturnStep := "Return here and click \"Extract Cookies\""

  const Facebook := Platform("facebook", "Facebook", "https://www.facebook.com", "https://www.facebook.com/login",
    ["c_user", "xs"], "[aria-label=\"Account\"]",
    ["Enter your email/phone and password", "Complete any 2FA verification if required",
     "Wait for the main Facebook page to load", ReturnStep])
  const Twitter := Platform("twitter", "Twitter", "https://twitter.com", "https://twitter.com/i/flow/login",
    ["auth_token"], "[data-testid=\"SideNav_AccountSwitcher_Button\"]",
    ["Enter your username/email/phone", "Enter your password", "Complete any verification steps",
     "Wait for Twitter home page to load", ReturnStep])
  const Instagram := Platform("instagram", "Instagram", "https://www.instagram.com", "https://www.instagram.com/accounts/login/",
    ["sessionid"], "a[href*=\"/direct/inbox/\"]",
    ["Enter your username and password", "Complete any 2FA verification",
     "Click \"Not Now\" on save password prompts", "Wait for Instagram home page to load", ReturnStep])
  const LinkedIn := Platform("linkedin", "LinkedIn", "https://www.linkedin.com", "https://www.linkedin.com/login",
    ["li_at"], ".global-nav__me",
    ["Enter your email and password", "Complete any security verification",
     "Wait for LinkedIn feed to load", ReturnStep])
  const TikTok := Platform("tiktok", "TikTok", "https://www.tiktok.com", "https://www.tiktok.com/login",
    ["sessionid", "sid_tt"], "[data-e2e=\"profile-icon\"]",
    ["Choose your login method (email, phone, or QR code)", "Complete the login process",
     "Verify your account if needed", "Wait for TikTok main page to load", ReturnStep])
  const YouTube := Platform("youtube", "YouTube", "https://www.youtube.com", "https://accounts.google.com/signin",
    ["SSID", "APISID", "SID"], "#avatar-btn",
    ["Sign in with your Google account", "Enter your email and password",
     "Complete any 2-step verification", "Wait for YouTube home page to load", ReturnStep])
  const Reddit := Platform("reddit", "Reddit", "https://www.reddit.com", "https://www.reddit.com/login",
    ["reddit_session", "token_v2"], "#USER_DROPDOWN_ID",
    ["Enter your username and password", "Complete any verification steps",
     "Wait for Reddit home page to load", ReturnStep])
  const Pinterest := Platform("pinterest", "Pinterest", "https://www.pinterest.com", "https://www.pinterest.com/login",
    ["_auth", "_pinterest_sess"], "[data-test-id=\"header-profile\"]",
    ["Enter your email and password", "Complete any verification if required",
     "Wait for Pinterest home feed to load", ReturnStep])
  const Discord := Platform("discord", "Discord", "https://discord.com/app", "https://discord.com/login",
    ["__dcfduid", "__sdcfduid"], "[class*=\"sidebar\"]",
    ["Enter your email and password", "Complete any 2FA verification",
     "Wait for Discord app to load", ReturnStep])
  const Twitch := Platform("twitch", "Twitch", "https://www.twitch.tv", "https://www.twitch.tv/login",
    ["auth-token", "persistent"], "[data-a-target=\"user-menu-toggle\"]",
    ["Enter your username and password", "Complete any 2FA verification",
     "Wait for Twitch home page to load", ReturnStep])
  const GitHub := Platform("github", "GitHub", "https://github.com", "https://github.com/login",
    ["user_session", "logged_in"], "[data-target=\"react-app.embeddedData\"]",
    ["Enter your username/email and password", "Complete any 2FA verification",
     "Wait for GitHub dashboard to load", ReturnStep])
  const Amazon := Platform("amazon", "Amazon", "https://www.amazon.com", "https://www.amazon.com/ap/signin",
    ["session-id", "ubid-main"], "#nav-link-accountList",
    ["Enter your email or phone number", "Enter your password", "Complete any verification steps",
     "Wait for Amazon home page to load", ReturnStep])
  const Netflix := Platform("netflix", "Netflix", "https://www.netflix.com", "https://www.netflix.com/login",
    ["NetflixId", "SecureNetflixId"], ".profile-gate-container, .browse-container",
    ["Enter your email and password", "Select a profile if prompted",
     "Wait for Netflix browse page to load", ReturnStep])
  const Google := Platform("google", "Google", "https://www.google.com", "https://accounts.google.com/signin",
    ["SID", "SSID", "APISID"], "a[aria-label*=\"Google Account\"]",
    ["Enter your Google email", "Enter your password", "Complete any 2-step verification",
     "Wait for Google home page to load", ReturnStep])

  /** The records in declaration order. */
  const Declared: seq<Platform> := [Facebook, Twitter, Instagram, LinkedIn, TikTok, YouTube, Reddit,
    Pinterest, Discord, Twitch, GitHub, Amazon, Netflix, Google]

  /** `PLATFORMS`, keyed by id. */
  const Table: map<string, Platform> := map[
    "facebook" := Facebook, "twitter" := Twitter, "instagram" := Instagram, "linkedin" := LinkedIn,
    "tiktok" := TikTok, "youtube" := YouTube, "reddit" := Reddit, "pinterest" := Pinterest,
    "discord" := Discord, "twitch" := Twitch, "github" := GitHub, "amazon" := Amazon,
    "netflix" := Netflix, "google" := Google]

  /** `getPlatform(id)`: the record under that key, or null. */
  function GetPlatform(id: string): (r: Option<Platform>)
    ensures r.Some? <==> id in Table.Keys
    ensures r.Some? ==> r.value.id == id && r.value in Declared
  {
    if id in Table then Some(Table[id]) else None
  }

  /** The ids of `ps`, in order. */
  function Ids(ps: seq<Platform>): (ids: seq<string>)
    ensures |ids| == |ps|
    ensures forall i :: 0 <= i < |ps| ==> ids[i] == ps[i].id
  {
    seq(|ps|, i requires 0 <= i < |ps| => ps[i].id)
  }

  /** `getAllPlatforms()`: the fourteen records in declaration order. */
  function GetAllPlatforms(): (r: seq<Platform>)
    ensures |r| == 14
    ensures r[0].id == "facebook" && r[13].id == "google"
    ensures Ids(r) == ["facebook", "twitter", "instagram", "linkedin", "tiktok", "youtube", "reddit",
                       "pinterest", "discord", "twitch", "github", "amazon", "netflix", "google"]
    ensures forall i :: 0 <= i < |r| ==> r[i].id in Table && Table[r[i].id] == r[i]
    ensures forall id :: id in Table ==> Table[id] in r
  {
    Declared
  }

  /** `getInstructions()` of a record. Every registered record lists at
      least four steps, the last sending the user back to extract. */
  function GetInstructions(p: Platform): (steps: seq<string>)
    ensures p in Declared ==> |steps| >= 4 && steps[|steps| - 1] == ReturnStep
  {
    p.instructions
  }

  /** Every registered id has a record, and its instruction list sends the
      user back to extract exactly once, as its last step. */
  lemma InstructionsEndWithReturnStep(id: string)
    requires id in Table
    ensures GetPlatform(id).Some?
    ensures var steps := GetInstructions(GetPlatform(id).value);
      && |steps| >= 4 && steps[|steps| - 1] == ReturnStep
      && ReturnStep !in steps[..|steps| - 1]
  {
  }

  /** The cookie test of a record: `cookie.name === n` for one of its names. */
  predicate IsAuthCookie(p: Platform, c: Cookie)
  {
    c.name.Some? && c.name.value in p.authCookies
  }

  /** The answer of `page.$(selector)`: an element, `null`, or a rejected promise. */
  datatype Lookup = Found | Missing | LookupFault

  /** A record's `isLoggedIn(page)`: true when some cookie of the jar has one of
      the record's names; otherwise whether the account element is on the page,
      a failed element lookup counting as absent. A fault while reading the jar
      makes the answer false. */
  function PlatformLoggedIn(p: Platform, jar: Outcome<seq<Cookie>>, lookup: string -> Lookup): (loggedIn: bool)
    ensures jar.Threw? ==> !loggedIn
    ensures jar.Done? && (exists i :: 0 <= i < |jar.value| && IsAuthCookie(p, jar.value[i])) ==> loggedIn
    ensures jar.Done? && lookup(p.accountSelector) == Found ==> loggedIn
    ensures loggedIn ==> jar.Done?
    ensures lookup(p.accountSelector) != Found ==>
      (loggedIn <==> jar.Done? && exists i :: 0 <= i < |jar.value| && IsAuthCookie(p, jar.value[i]))
  {
    match jar
    case Threw(_) => false
    case Done(cookies) =>
      if exists i :: 0 <= i < |cookies| && IsAuthCookie(p, cookies[i]) then true
      else lookup(p.accountSelector) == Found
  }

  /** One cookie with an authentication name is enough, whatever its value and
      whatever the page shows. */
  lemma AuthCookieSuffices(p: Platform, cookies: seq<Cookie>, k: nat, lookup: string -> Lookup)
    requires k < |cookies| && IsAuthCookie(p, cookies[k])
    ensures PlatformLoggedIn(p, Done(cookies), lookup)
  {
  }

  /** Without an authentication cookie the answer is the element check alone. */
  lemma ElementDecidesOtherwise(p: Platform, cookies: seq<Cookie>, lookup: string -> Lookup)
    requires forall i :: 0 <= i < |cookies| ==> !IsAuthCookie(p, cookies[i])
    ensures PlatformLoggedIn(p, Done(cookies), lookup) <==> lookup(p.accountSelector) == Found
    ensures lookup(p.accountSelector) == LookupFault ==> !PlatformLoggedIn(p, Done(cookies), lookup)
  {
  }

  /** A fault reading the jar yields false, never an error. */
  lemma JarFaultIsFalse(p: Platform, message: string, lookup: string -> Lookup)
    ensures !PlatformLoggedIn(p, Threw(message), lookup)
  {
  }

  /** More cookies never turn a positive answer negative. */
  lemma LoginCheckMonotone(p: Platform, cookies: seq<Cookie>, more: seq<Cookie>, lookup: string -> Lookup)
    requires PlatformLoggedIn(p, Done(cookies), lookup)
    ensures PlatformLoggedIn(p, Done(cookies + more), lookup)
  {
    if exists i :: 0 <= i < |cookies| && IsAuthCookie(p, cookies[i]) {
      var i :| 0 <= i < |cookies| && IsAuthCookie(p, cookies[i]);
      assert (cookies + more)[i] == cookies[i];
    }
  }

  /** The authentication names of some records, as the registry lists them. */
  lemma AuthCookieExamples()
    ensures GetPlatform("facebook").value.authCookies == ["c_user", "xs"]
    ensures GetPlatform("twitter").value.authCookies == ["auth_token"]
    ensures GetPlatform("tiktok").value.authCookies == ["sessionid", "sid_tt"]
  {
  }

  /** No registry key starts with `c`. */
  lemma NoKeyStartsWithC(id: string)
    requires |id| > 0 && id[0] == 'c'
    ensures GetPlatform(id).None?
  {
  }

  /** Ids outside the registry find nothing; lookups are case-sensitive. */
  lemma UnknownIdsFindNothing()
    ensures GetPlatform("myspace").None?
    ensures GetPlatform("Facebook").None?
    ensures GetPlatform("").None?
  {
  }
}

/** The renderer's form checks before `open-browser`: the account-name and
    proxy-URL validators, and the validation order and option building of the
    "Open Browser" button. */
module Validation {
  import opened Wrappers
  import opened Text
  import Browser
  import Platforms
  import Ipc

  datatype Verdict = Valid | Invalid(error: string)

  const MaxAccountNameLength := 50
  const AccountTooLong := "Account name must be 50 characters or less"
  const AccountBadChars := "Account name contains invalid characters"
  const ProxyRequired := "Proxy URL is required when proxy is enabled"
  const ProxyBadProtocol := "Proxy URL must start with http://, https://, socks4://, or socks5://"
  const ProxyBadFormat := "Invalid proxy URL format"
  const ProxyProtocols: seq<string> := ["http://", "https://", "socks4://", "socks5://"]
  const DefaultAccountName := "Unnamed Account"

  /** The character class `[<>"'`]`. */
  predicate Forbidden(c: char)
  {
    c == '<' || c == '>' || c == '"' || c == '\'' || c == '`'
  }

  /** `/[<>"'`]/.test(s)`. */
  function ContainsForbidden(s: string): (r: bool)
    ensures r <==> exists i :: 0 <= i < |s| && Forbidden(s[i])
  {
    if |s| == 0 then false
    else if Forbidden(s[0]) then true
    else
      var r := ContainsForbidden(s[1..]);
      assert r ==> exists i :: 0 <= i < |s| && Forbidden(s[i]) by {
        if r {
          var i :| 0 <= i < |s[1..]| && Forbidden(s[1..][i]);
          assert Forbidden(s[i + 1]);
        }
      }
      assert (exists i :: 0 <= i < |s| && Forbidden(s[i])) ==> r by {
        if exists i :: 0 <= i < |s| && Forbidden(s[i]) {
          var i :| 0 <= i < |s| && Forbidden(s[i]);
          assert i > 0 && Forbidden(s[1..][i - 1]);
        }
      }
      r
  }

  /** `validateAccountName`: the empty name is accepted (the field is
      optional); otherwise the length is checked before the characters. */
  function ValidateAccountName(name: string): (r: Verdict)
    ensures r.Valid? <==> |name| <= MaxAccountNameLength && forall i :: 0 <= i < |name| ==> !Forbidden(name[i])
    ensures |name| > MaxAccountNameLength ==> r == Invalid(AccountTooLong)
    ensures |name| <= MaxAccountNameLength && (exists i :: 0 <= i < |name| && Forbidden(name[i])) ==>
      r == Invalid(AccountBadChars)
  {
    if name == "" then Valid
    else if |name| > MaxAccountNameLength then Invalid(AccountTooLong)
    else if ContainsForbidden(name) then Invalid(AccountBadChars)
    else Valid
  }

  /** `validProtocols.some(p => url.toLowerCase().startsWith(p))`. */
  predicate HasProxyProtocol(url: string)
  {
    exists k :: 0 <= k < |ProxyProtocols| && StartsWith(Lower(url), ProxyProtocols[k])
  }

  /** `validateProxyUrl`. `parses(url)` stands for `new URL(url)` not throwing. */
  function ValidateProxyUrl(url: string, parses: string -> bool): (r: Verdict)
    ensures r.Valid? <==> HasProxyProtocol(url) && parses(url)
    ensures url == "" ==> r == Invalid(ProxyRequired)
    ensures url != "" && !HasProxyProtocol(url) ==> r == Invalid(ProxyBadProtocol)
    ensures HasProxyProtocol(url) && !parses(url) ==> r == Invalid(ProxyBadFormat)
  {
    if url == "" then Invalid(ProxyRequired)
    else if !HasProxyProtocol(url) then Invalid(ProxyBadProtocol)
    else if parses(url) then Valid
    else Invalid(ProxyBadFormat)
  }

  /** Lower-casing is idempotent. */
  lemma LowerTwice(s: string)
    ensures Lower(Lower(s)) == Lower(s)
  {
  }

  /** The protocol check ignores case: a URL passes exactly when its
      lower-cased form does, so `HTTP://`, `Socks5://` and the like pass. */
  lemma ProtocolCheckIgnoresCase(url: string)
    ensures HasProxyProtocol(url) <==> HasProxyProtocol(Lower(url))
    ensures HasProxyProtocol("HTTP://proxy:8080") && HasProxyProtocol("Socks5://proxy:1080")
    ensures !HasProxyProtocol("ftp://proxy") && !HasProxyProtocol("socks://proxy")
  {
    LowerTwice(url);
    assert StartsWith(Lower("HTTP://proxy:8080"), ProxyProtocols[0]);
    assert StartsWith(Lower("Socks5://proxy:1080"), ProxyProtocols[3]);
    var ftp := Lower("ftp://proxy");
    assert ftp[0] == 'f';
    forall k | 0 <= k < |ProxyProtocols|
      ensures !StartsWith(ftp, ProxyProtocols[k])
    {
      assert ProxyProtocols[k][0] != 'f';
    }
    var socks := Lower("socks://proxy");
    assert socks[0] == 's' && socks[5] == ':';
    forall k | 0 <= k < |ProxyProtocols|
      ensures !StartsWith(socks, ProxyProtocols[k])
    {
      if k < 2 {
        assert ProxyProtocols[k][0] != 's';
      } else {
        assert ProxyProtocols[k][5] != ':';
      }
    }
  }

  /** The proxy form fields and toggles. */
  datatype Form = Form(accountName: string, useProxy: bool, proxyUrl: string, headless: bool)

  /** What pressing "Open Browser" does: nothing, show a validation error, or
      call `onOpenBrowser` with the platform id and options. */
  datatype OpenAction = NoAction | ShowError(error: string) | Request(platformId: string, options: Ipc.OpenOptions)

  /** `handleOpenBrowser`: nothing without a selected platform; the account
      name is checked first and the proxy only when the proxy is enabled; the
      request carries the defaulted account name, the proxy only when enabled,
      and the headless toggle. */
  function HandleOpenBrowser(selected: Option<string>, form: Form, parses: string -> bool): (r: OpenAction)
    ensures selected.None? ==> r == NoAction
    ensures selected.Some? && ValidateAccountName(form.accountName).Invalid? ==>
      r == ShowError(ValidateAccountName(form.accountName).error)
    ensures (selected.Some? && ValidateAccountName(form.accountName).Valid? && form.useProxy
             && ValidateProxyUrl(form.proxyUrl, parses).Invalid?) ==>
      r == ShowError(ValidateProxyUrl(form.proxyUrl, parses).error)
    ensures r.Request? <==>
      selected.Some? && ValidateAccountName(form.accountName).Valid?
      && (!form.useProxy || ValidateProxyUrl(form.proxyUrl, parses).Valid?)
    ensures r.Request? ==>
      && r.platformId == selected.value
      && r.options.accountName == (if form.accountName == "" then DefaultAccountName else form.accountName)
      && r.options.proxy == (if form.useProxy then Some(form.proxyUrl) else None)
      && r.options.headless == Some(form.headless)
  {
    if selected.None? then NoAction
    else
      var account := ValidateAccountName(form.accountName);
      if account.Invalid? then ShowError(account.error)
      else if form.useProxy && ValidateProxyUrl(form.proxyUrl, parses).Invalid? then
        ShowError(ValidateProxyUrl(form.proxyUrl, parses).error)
      else
        Request(selected.value, Ipc.OpenOptions(
          if form.accountName == "" then DefaultAccountName else form.accountName,
          if form.useProxy then Some(form.proxyUrl) else None,
          Some(form.headless)))
  }

  /** From the form to the browser: when the request is sent and the launch
      succeeds, the browser is configured with exactly the proxy typed in
      (none when the proxy is off) and the headless toggle. */
  lemma FormReachesBrowser(selected: Option<string>, form: Form, parses: string -> bool,
                           slot: Ipc.Slot, oldFaults: set<Browser.CloseStep>)
    requires HandleOpenBrowser(selected, form, parses).Request?
    requires selected.value in Platforms.Table
    ensures var req := HandleOpenBrowser(selected, form, parses);
      var r := Ipc.OpenBrowser(slot, req.platformId, req.options, oldFaults, None, {});
      && r.response.Opened?
      && r.slot.value.browser.value.proxy == (if form.useProxy then Some(form.proxyUrl) else None)
      && r.slot.value.browser.value.headless == form.headless
  {
  }
}

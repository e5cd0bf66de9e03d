/** The records a browser session is captured in: the engine's cookie objects
    and the bundle `extractData` assembles from them. */
module SessionData {
  import opened Wrappers

  /** A cookie as the engine reports it. Text fields are optional because the
      encoders fall back to defaults (`cookie.domain || ''`, `cookie.path || '/'`)
      when a field is missing or empty. `expires` is whole epoch seconds; the
      engine reports -1 for a cookie that lives only as long as the session. */
  datatype Cookie = Cookie(
    name: Option<string>,
    value: Option<string>,
    domain: Option<string>,
    path: Option<string>,
    expires: Option<int>,
    httpOnly: bool,
    secure: bool,
    sameSite: Option<string>)

  /** One key/value pair read from the page's local or session storage. */
  datatype StorageEntry = StorageEntry(key: string, item: string)

  /** The object `extractData` returns under `data`. */
  datatype Bundle = Bundle(
    cookies: seq<Cookie>,
    localStorage: seq<StorageEntry>,
    sessionStorage: seq<StorageEntry>,
    url: string,
    userAgent: string,
    extractedAt: string)

  /** JavaScript's `s || fallback` for an optional string: a missing or empty
      string is falsy and yields the fallback. */
  function OrElse(s: Option<string>, fallback: string): (r: string)
    ensures s.Some? && s.value != "" ==> r == s.value
    ensures (s.None? || s.value == "") ==> r == fallback
  {
    if s.Some? && s.value != "" then s.value else fallback
  }

  /** The test `cookie.value && cookie.value.length > 0`. */
  predicate HasValue(c: Cookie)
  {
    c.value.Some? && |c.value.value| > 0
  }
}

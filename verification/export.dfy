/** The `export-session` handler: choosing the payload and file extension for
    a format id, the save dialog, and the file write. JSON serialisation is a
    parameter (`serialize`); the model fixes only which object is serialised
    and the text around it. */
module Export {
  import opened Wrappers
  import opened Text
  import opened SessionData
  import opened SessionStore
  import Netscape

  datatype Format = Json | NetscapeFile | EditThisCookie | JavaScript

  /** The format ids the handler's `switch` accepts. */
  function ParseFormat(id: string): (r: Option<Format>)
    ensures r.Some? <==> id in {"json", "netscape", "editthiscookie", "javascript"}
    ensures r.Some? ==> FormatId(r.value) == id
  {
    if id == "json" then Some(Json)
    else if id == "netscape" then Some(NetscapeFile)
    else if id == "editthiscookie" then Some(EditThisCookie)
    else if id == "javascript" then Some(JavaScript)
    else None
  }

  function FormatId(f: Format): string
  {
    match f
    case Json => "json"
    case NetscapeFile => "netscape"
    case EditThisCookie => "editthiscookie"
    case JavaScript => "javascript"
  }

  /** Exactly the four ids are accepted, each naming its own format. */
  lemma FormatIds(id: string, f: Format)
    ensures ParseFormat(FormatId(f)) == Some(f)
    ensures ParseFormat(id) == Some(f) ==> id == FormatId(f)
    ensures ParseFormat(id).None? <==> id !in {"json", "netscape", "editthiscookie", "javascript"}
  {
  }

  function Extension(f: Format): (ext: string)
    ensures ext == ".json" <==> f == Json || f == EditThisCookie
    ensures ext == ".txt" <==> f == NetscapeFile
    ensures ext == ".js" <==> f == JavaScript
  {
    match f
    case Json => ".json"
    case NetscapeFile => ".txt"
    case EditThisCookie => ".json"
    case JavaScript => ".js"
  }

  /** The object handed to `JSON.stringify`: the whole `session.data`, or only
      its cookie list. */
  datatype Payload = WholeData(data: Bundle) | CookiesOnly(cookies: seq<Cookie>)

  const ModulePrefix := "const cookies = "
  const ModuleSuffix := ";\n\nexport default cookies;"

  /** The file content written for a format. A Netscape file of clean
      cookies reads back as one entry per cookie; the JavaScript module has
      the serialised cookie list between its declaration and its export. */
  function Content(data: Bundle, f: Format, serialize: Payload -> string): (r: string)
    ensures f == NetscapeFile && (forall i :: 0 <= i < |data.cookies| ==> Netscape.CleanCookie(data.cookies[i])) ==>
      Netscape.ParseNetscape(r) == Some(Netscape.Entries(data.cookies))
    ensures f == JavaScript ==>
      && |ModulePrefix| + |ModuleSuffix| <= |r|
      && r[..|ModulePrefix|] == ModulePrefix
      && r[|ModulePrefix|..|r| - |ModuleSuffix|] == serialize(CookiesOnly(data.cookies))
      && r[|r| - |ModuleSuffix|..] == ModuleSuffix
  {
    match f
    case Json => serialize(WholeData(data))
    case NetscapeFile =>
      Netscape.CleanTextReadsBack(data.cookies);
      Netscape.NetscapeText(data.cookies)
    case EditThisCookie => serialize(CookiesOnly(data.cookies))
    case JavaScript => ModulePrefix + serialize(CookiesOnly(data.cookies)) + ModuleSuffix
  }

  /** Only the `json` format reads more of the bundle than its cookies: two
      bundles with the same cookies export identically in the other three. */
  lemma CookieFormatsReadOnlyCookies(d1: Bundle, d2: Bundle, f: Format, serialize: Payload -> string)
    requires d1.cookies == d2.cookies && f != Json
    ensures Content(d1, f, serialize) == Content(d2, f, serialize)
  {
  }

  /** The JavaScript module is the EditThisCookie array wrapped in a constant
      declaration and a default export; `json` serialises the whole bundle. */
  lemma FormatPayloads(data: Bundle, serialize: Payload -> string)
    ensures Content(data, JavaScript, serialize) == ModulePrefix + Content(data, EditThisCookie, serialize) + ModuleSuffix
    ensures Content(data, EditThisCookie, serialize) == serialize(CookiesOnly(data.cookies))
    ensures Content(data, Json, serialize) == serialize(WholeData(data))
    ensures Content(data, NetscapeFile, serialize) == Netscape.NetscapeText(data.cookies)
  {
  }

  /** `session.platform` inside a template string: "undefined" for a bare record. */
  function PlatformText(s: Session): string
  {
    if s.Bare? then "undefined" else s.platform
  }

  /** `session.accountName || 'unnamed'`. */
  function AccountText(s: Session): string
  {
    if s.Bare? || s.accountName == "" then "unnamed" else s.accountName
  }

  /** `${platform}_${accountName || 'unnamed'}_${Date.now()}` plus the extension. */
  function FileName(s: Session, f: Format, nowMs: nat): (r: string)
    ensures StartsWith(r, PlatformText(s) + "_")
    ensures |Extension(f)| <= |r| && r[|r| - |Extension(f)|..] == Extension(f)
  {
    PlatformText(s) + "_" + AccountText(s) + "_" + NatToString(nowMs) + Extension(f)
  }

  /** Reading a file name back: without its extension it splits on `_` into
      the platform, the account name or "unnamed", and the clock reading,
      which parses back to the time of the export. */
  lemma FileNameRoundTrip(s: Session, f: Format, nowMs: nat)
    requires '_' !in PlatformText(s) && '_' !in AccountText(s)
    ensures var r := FileName(s, f, nowMs);
      var parts := Split(r[..|r| - |Extension(f)|], '_');
      && |parts| == 3
      && (s.Session? ==> parts[..2] == [s.platform, if s.accountName == "" then "unnamed" else s.accountName])
      && (s.Bare? ==> parts[..2] == ["undefined", "unnamed"])
      && parts[2] == NatToString(nowMs)
      && AllDigits(parts[2]) && ParseDigits(parts[2]) == nowMs
  {
    var p, acc, n := PlatformText(s), AccountText(s), NatToString(nowMs);
    var r := FileName(s, f, nowMs);
    assert r[..|r| - |Extension(f)|] == p + "_" + acc + "_" + n;
    SplitThree(p, acc, n, '_');
    ParseNatToString(nowMs);
  }

  /** What the user answered in the save dialog. */
  datatype SaveDialog = SaveDialog(canceled: bool, filePath: string)

  datatype ExportResponse = Exported(path: string) | ExportCanceled | ExportFailed(error: string)

  datatype FileWrite = FileWrite(path: string, content: string)

  /** The handler's answer together with its effects: the default file name
      the save dialog was opened with, if it was opened, and the file written,
      if any. */
  datatype ExportRun = ExportRun(response: ExportResponse, dialogFileName: Option<string>, written: Option<FileWrite>)

  /** The engine's messages for the two TypeErrors a bare record provokes:
      reading `cookies` of its missing data, and writing the `undefined` that
      serialising the missing data yields. */
  datatype BareFaults = BareFaults(readCookies: string, writeUndefined: string)

  /** `export-session`. The session lookup comes first, then the format; a
      failure of either ends the call before the dialog opens. A cancelled
      dialog (or one returning no path) writes nothing and is reported apart
      from errors. `writeFault` is the error `fs.writeFile` throws, if any. A
      bare record fails on its missing cookies in every format but json; in
      json the dialog opens and a confirmed write fails. */
  function ExportSession(sessions: seq<Session>, sessionId: string, formatId: string,
                         serialize: Payload -> string, nowMs: nat,
                         dialog: SaveDialog, writeFault: Option<string>, bareFaults: BareFaults): (r: ExportRun)
    ensures FindSession(sessions, sessionId).None? ==>
      r == ExportRun(ExportFailed("Session not found"), None, None)
    ensures FindSession(sessions, sessionId).Some? && ParseFormat(formatId).None? ==>
      r == ExportRun(ExportFailed("Unknown format"), None, None)
    ensures (FindSession(sessions, sessionId).Some? && FindSession(sessions, sessionId).value.Bare?
             && ParseFormat(formatId).Some? && ParseFormat(formatId).value != Json) ==>
      r == ExportRun(ExportFailed(bareFaults.readCookies), None, None)
    ensures r.dialogFileName.Some? <==>
      && FindSession(sessions, sessionId).Some? && ParseFormat(formatId).Some?
      && (FindSession(sessions, sessionId).value.Session? || ParseFormat(formatId).value == Json)
    ensures r.dialogFileName.Some? ==>
      r.dialogFileName.value == FileName(FindSession(sessions, sessionId).value, ParseFormat(formatId).value, nowMs)
    ensures r.response.ExportCanceled? <==>
      r.dialogFileName.Some? && (dialog.canceled || dialog.filePath == "")
    ensures r.response.Exported? <==> r.written.Some?
    ensures (r.dialogFileName.Some? && !dialog.canceled && dialog.filePath != ""
             && FindSession(sessions, sessionId).value.Bare?) ==>
      r.response == ExportFailed(bareFaults.writeUndefined) && r.written.None?
    ensures (r.dialogFileName.Some? && !dialog.canceled && dialog.filePath != ""
             && FindSession(sessions, sessionId).value.Session? && writeFault.None?) ==>
      r.response == Exported(dialog.filePath) && r.written.Some?
    ensures (r.dialogFileName.Some? && !dialog.canceled && dialog.filePath != ""
             && FindSession(sessions, sessionId).value.Session? && writeFault.Some?) ==>
      r.response == ExportFailed(writeFault.value) && r.written.None?
    ensures r.written.Some? ==>
      && r.response.path == dialog.filePath == r.written.value.path
      && !dialog.canceled && writeFault.None?
      && FindSession(sessions, sessionId).value.Session?
      && r.written.value.content ==
        Content(FindSession(sessions, sessionId).value.data, ParseFormat(formatId).value, serialize)
  {
    match FindSession(sessions, sessionId)
    case None => ExportRun(ExportFailed("Session not found"), None, None)
    case Some(session) =>
      match ParseFormat(formatId)
      case None => ExportRun(ExportFailed("Unknown format"), None, None)
      case Some(f) =>
        if session.Bare? && f != Json then ExportRun(ExportFailed(bareFaults.readCookies), None, None)
        else
          var name := FileName(session, f, nowMs);
          if !dialog.canceled && dialog.filePath != "" then
            match session
            case Bare(_, _) => ExportRun(ExportFailed(bareFaults.writeUndefined), Some(name), None)
            case Session(_, _, _, _, data, _) =>
              match writeFault
              case Some(message) => ExportRun(ExportFailed(message), Some(name), None)
              case None => ExportRun(Exported(dialog.filePath), Some(name),
                                     Some(FileWrite(dialog.filePath, Content(data, f, serialize))))
          else
            ExportRun(ExportCanceled, Some(name), None)
  }
}

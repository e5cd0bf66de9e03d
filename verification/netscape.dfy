/** The Netscape `cookies.txt` encoder of `convertToNetscape`, a reader for the
    same layout, and the round trip between them. */
module Netscape {
  import opened Wrappers
  import opened Text
  import opened SessionData

  const HeaderLine1 := "# Netscape HTTP Cookie File"
  const HeaderLine2 := "# This is a generated file! Do not edit."

  /** The three lines before the first cookie: two comments and a blank line. */
  const Header: seq<string> := [HeaderLine1, HeaderLine2, ""]

  /** The seven columns of one cookie line. */
  datatype Entry = Entry(
    domain: string,
    includeSubdomains: bool,
    path: string,
    secure: bool,
    expiry: string,
    name: string,
    value: string)

  function Flag(b: bool): string
  {
    if b then "TRUE" else "FALSE"
  }

  /** The columns written for one cookie, with the fallbacks of the encoder:
      missing text fields become empty, a missing path becomes `/`, a missing
      or zero expiry becomes `0`. */
  function EntryOf(c: Cookie): (e: Entry)
    ensures e.domain == OrElse(c.domain, "")
    ensures e.includeSubdomains <==> StartsWith(e.domain, ".")
    ensures e.path == OrElse(c.path, "/") && e.path != ""
    ensures e.secure <==> c.secure
    ensures e.name == OrElse(c.name, "") && e.value == OrElse(c.value, "")
    ensures c.expires.None? || c.expires.value == 0 ==> e.expiry == "0"
    ensures c.expires.Some? && c.expires.value != 0 ==> e.expiry == IntToString(c.expires.value)
  {
    var domain := OrElse(c.domain, "");
    Entry(
      domain,
      |domain| > 0 && domain[0] == '.',
      OrElse(c.path, "/"),
      c.secure,
      if c.expires.Some? && c.expires.value != 0 then IntToString(c.expires.value) else "0",
      OrElse(c.name, ""),
      OrElse(c.value, ""))
  }

  function Fields(e: Entry): seq<string>
  {
    [e.domain, Flag(e.includeSubdomains), e.path, Flag(e.secure), e.expiry, e.name, e.value]
  }

  /** One cookie line without its terminating newline. */
  function Line(e: Entry): string
  {
    Join(Fields(e), '\t')
  }

  /** The lines of the file for `cookies`, one per cookie in input order. */
  function Rows(cookies: seq<Cookie>): (rows: seq<string>)
    ensures |rows| == |cookies|
  {
    seq(|cookies|, i requires 0 <= i < |cookies| => Line(EntryOf(cookies[i])))
  }

  /** The entries written for `cookies`, in input order. */
  function Entries(cookies: seq<Cookie>): (es: seq<Entry>)
    ensures |es| == |cookies|
    ensures forall i :: 0 <= i < |cookies| ==> es[i] == EntryOf(cookies[i])
  {
    seq(|cookies|, i requires 0 <= i < |cookies| => EntryOf(cookies[i]))
  }

  /** Reference layout of the whole file: the header, the cookie lines, and
      the empty piece after the final newline. */
  function NetscapeText(cookies: seq<Cookie>): string
  {
    Join(Header + Rows(cookies) + [""], '\n')
  }

  /** The tab-separated template of the source, written out. */
  lemma LineIsTemplate(e: Entry)
    ensures Line(e) == e.domain + "\t" + Flag(e.includeSubdomains) + "\t" + e.path + "\t"
      + Flag(e.secure) + "\t" + e.expiry + "\t" + e.name + "\t" + e.value
  {
    var p1 := [e.domain];
    var p2 := p1 + [Flag(e.includeSubdomains)];
    var p3 := p2 + [e.path];
    var p4 := p3 + [Flag(e.secure)];
    var p5 := p4 + [e.expiry];
    var p6 := p5 + [e.name];
    var p7 := p6 + [e.value];
    JoinSnoc(p1, Flag(e.includeSubdomains), '\t');
    JoinSnoc(p2, e.path, '\t');
    JoinSnoc(p3, Flag(e.secure), '\t');
    JoinSnoc(p4, e.expiry, '\t');
    JoinSnoc(p5, e.name, '\t');
    JoinSnoc(p6, e.value, '\t');
    assert Fields(e) == p7;
  }

  /** The text written before the first cookie is the joined header plus its newline. */
  lemma HeaderText()
    ensures Join(Header, '\n') + "\n" == HeaderLine1 + "\n" + HeaderLine2 + "\n\n"
  {
    assert Header[1..] == [HeaderLine2, ""];
    assert [HeaderLine2, ""][1..] == [""];
    assert Join([""], '\n') == "";
    assert Join([HeaderLine2, ""], '\n') == HeaderLine2 + "\n" + "";
    assert Join(Header, '\n') == HeaderLine1 + "\n" + (HeaderLine2 + "\n" + "");
    assert "\n\n" == "\n" + "\n";
  }

  /** Appending one cookie's line and a newline extends the layout by that cookie. */
  lemma AppendRow(cookies: seq<Cookie>, i: nat)
    requires i < |cookies|
    ensures Join(Header + Rows(cookies[..i + 1]), '\n') + "\n"
      == Join(Header + Rows(cookies[..i]), '\n') + "\n" + Line(EntryOf(cookies[i])) + "\n"
  {
    JoinSnoc(Header + Rows(cookies[..i]), Line(EntryOf(cookies[i])), '\n');
    assert Header + Rows(cookies[..i + 1]) == Header + Rows(cookies[..i]) + [Line(EntryOf(cookies[i]))];
  }

  /** `convertToNetscape`: the header, then each cookie's line appended in turn. */
  method ConvertToNetscape(cookies: seq<Cookie>) returns (text: string)
    ensures text == NetscapeText(cookies)
  {
    text := HeaderLine1 + "\n";
    text := text + HeaderLine2 + "\n\n";
    HeaderText();
    assert Header + Rows(cookies[..0]) == Header;
    for i := 0 to |cookies|
      invariant text == Join(Header + Rows(cookies[..i]), '\n') + "\n"
    {
      var e := EntryOf(cookies[i]);
      LineIsTemplate(e);
      AppendRow(cookies, i);
      text := text + (e.domain + "\t" + Flag(e.includeSubdomains) + "\t" + e.path + "\t"
        + Flag(e.secure) + "\t" + e.expiry + "\t" + e.name + "\t" + e.value) + "\n";
    }
    assert cookies[..|cookies|] == cookies;
    JoinSnoc(Header + Rows(cookies), "", '\n');
  }

  /** No tab and no newline. */
  predicate Clean(s: string)
  {
    '\t' !in s && '\n' !in s
  }

  /** The cookie's own text fields hold no tab and no newline. */
  predicate CleanCookie(c: Cookie)
  {
    && (c.domain.None? || Clean(c.domain.value))
    && (c.path.None? || Clean(c.path.value))
    && (c.name.None? || Clean(c.name.value))
    && (c.value.None? || Clean(c.value.value))
  }

  function ParseFlag(s: string): Option<bool>
  {
    if s == "TRUE" then Some(true) else if s == "FALSE" then Some(false) else None
  }

  /** Reads one cookie line: exactly seven tab-separated columns with the two
      flag columns spelled `TRUE` or `FALSE`. */
  function ParseLine(line: string): Option<Entry>
  {
    var f := Split(line, '\t');
    if |f| == 7 && ParseFlag(f[1]).Some? && ParseFlag(f[3]).Some? then
      Some(Entry(f[0], ParseFlag(f[1]).value, f[2], ParseFlag(f[3]).value, f[4], f[5], f[6]))
    else None
  }

  function ParseLines(lines: seq<string>): (r: Option<seq<Entry>>)
    ensures r.Some? ==> |r.value| == |lines|
  {
    if |lines| == 0 then Some([])
    else
      match (ParseLine(lines[0]), ParseLines(lines[1..]))
      case (Some(e), Some(es)) => Some([e] + es)
      case _ => None
  }

  /** Reads a whole file: the header lines, then cookie lines, each terminated
      by a newline. */
  function ParseNetscape(text: string): Option<seq<Entry>>
  {
    var lines := Split(text, '\n');
    if |lines| >= 4 && lines[..3] == Header && lines[|lines| - 1] == "" then
      ParseLines(lines[3..|lines| - 1])
    else None
  }

  lemma EntryOfClean(c: Cookie)
    requires CleanCookie(c)
    ensures forall j :: 0 <= j < 7 ==> Clean(Fields(EntryOf(c))[j])
  {
  }

  /** Splitting a cookie's line on tabs gives its seven columns back: domain,
      flag, path, secure, expiry, name, value. */
  lemma LineFields(c: Cookie)
    requires CleanCookie(c)
    ensures Split(Line(EntryOf(c)), '\t') == Fields(EntryOf(c))
    ensures ParseLine(Line(EntryOf(c))) == Some(EntryOf(c))
  {
    EntryOfClean(c);
    SplitJoin(Fields(EntryOf(c)), '\t');
  }

  /** No header line holds a newline. */
  lemma HeaderExcludesNewline()
    ensures forall i :: 0 <= i < |Header| ==> '\n' !in Header[i]
  {
  }

  /** No cookie line holds a newline when the cookies are clean. */
  lemma RowsExcludeNewline(cookies: seq<Cookie>)
    requires forall i :: 0 <= i < |cookies| ==> CleanCookie(cookies[i])
    ensures forall i :: 0 <= i < |cookies| ==> '\n' !in Rows(cookies)[i]
  {
    forall i | 0 <= i < |cookies|
      ensures '\n' !in Rows(cookies)[i]
    {
      EntryOfClean(cookies[i]);
      JoinExcludes(Fields(EntryOf(cookies[i])), '\t', '\n');
    }
  }

  /** The file splits into exactly the header, one line per cookie and the
      empty remainder after the last newline: 3 + N newline-terminated lines. */
  lemma {:induction false} NetscapeLineStructure(cookies: seq<Cookie>)
    requires forall i :: 0 <= i < |cookies| ==> CleanCookie(cookies[i])
    ensures Split(NetscapeText(cookies), '\n') == Header + Rows(cookies) + [""]
    ensures |Split(NetscapeText(cookies), '\n')| == 4 + |cookies|
    ensures CountOf(NetscapeText(cookies), '\n') == 3 + |cookies|
  {
    var rows := Rows(cookies);
    var lines := Header + rows + [""];
    HeaderExcludesNewline();
    RowsExcludeNewline(cookies);
    forall i | 0 <= i < |lines|
      ensures '\n' !in lines[i]
    {
      if i < 3 {
        assert lines[i] == Header[i];
      } else if i < 3 + |rows| {
        assert lines[i] == rows[i - 3];
      } else {
        assert lines[i] == "";
      }
    }
    SplitJoin(lines, '\n');
  }

  /** Reading a non-empty list of lines reads the first and then the rest. */
  lemma ParseLinesStep(lines: seq<string>, e: Entry, es: seq<Entry>)
    requires |lines| > 0
    requires ParseLine(lines[0]) == Some(e)
    requires ParseLines(lines[1..]) == Some(es)
    ensures ParseLines(lines) == Some([e] + es)
  {
  }

  /** The lines and entries of a non-empty list start with its first cookie. */
  lemma RowsCons(cookies: seq<Cookie>)
    requires |cookies| > 0
    ensures Rows(cookies)[0] == Line(EntryOf(cookies[0]))
    ensures Rows(cookies)[1..] == Rows(cookies[1..])
    ensures Entries(cookies) == [EntryOf(cookies[0])] + Entries(cookies[1..])
  {
    var rows, tail := Rows(cookies), Rows(cookies[1..]);
    assert forall i :: 0 <= i < |tail| ==> rows[1..][i] == tail[i];
    var es, rest := Entries(cookies), Entries(cookies[1..]);
    assert forall i :: 0 <= i < |rest| ==> es[i + 1] == rest[i];
    assert es == [es[0]] + rest;
  }

  lemma {:induction false} ParseRows(cookies: seq<Cookie>)
    requires forall i :: 0 <= i < |cookies| ==> CleanCookie(cookies[i])
    ensures ParseLines(Rows(cookies)) == Some(Entries(cookies))
  {
    if |cookies| > 0 {
      var c := cookies[0];
      RowsCons(cookies);
      LineFields(c);
      ParseRows(cookies[1..]);
      ParseLinesStep(Rows(cookies), EntryOf(c), Entries(cookies[1..]));
    }
  }

  /** The file of clean cookies reads back as exactly their entries; for
      other cookies nothing is promised. */
  lemma CleanTextReadsBack(cookies: seq<Cookie>)
    ensures (forall i :: 0 <= i < |cookies| ==> CleanCookie(cookies[i])) ==>
      ParseNetscape(NetscapeText(cookies)) == Some(Entries(cookies))
  {
    if forall i :: 0 <= i < |cookies| ==> CleanCookie(cookies[i]) {
      NetscapeRoundTrip(cookies);
      assert ParseNetscape(NetscapeText(cookies)).value == Entries(cookies);
    }
  }

  /** Round trip: reading the file back yields one entry per cookie, in input
      order, with each cookie's domain, path, secure bit, name and value. */
  lemma NetscapeRoundTrip(cookies: seq<Cookie>)
    requires forall i :: 0 <= i < |cookies| ==> CleanCookie(cookies[i])
    ensures ParseNetscape(NetscapeText(cookies)).Some?
    ensures var es := ParseNetscape(NetscapeText(cookies)).value;
      && |es| == |cookies|
      && forall i :: 0 <= i < |cookies| ==>
        && es[i] == EntryOf(cookies[i])
        && es[i].domain == OrElse(cookies[i].domain, "")
        && es[i].path == OrElse(cookies[i].path, "/")
        && es[i].secure == cookies[i].secure
        && es[i].name == OrElse(cookies[i].name, "")
        && es[i].value == OrElse(cookies[i].value, "")
  {
    NetscapeLineStructure(cookies);
    var lines := Header + Rows(cookies) + [""];
    assert lines[..3] == Header;
    assert lines[3..|lines| - 1] == Rows(cookies);
    ParseRows(cookies);
  }
}

/**
  The text of a Telegram message: an SMS is escaped, truncated when its visible
  text would be too long, and checked by parsing it back.
 */
module TelegramText {
  const MAX_TELEGRAM_TEXT_LENGTH: nat := 4096
  const TRUNCATION_SUFFIX := "..."
  const SMS_SEPARATOR := "\n"

  /* ---- escaping ---- */

  function EscapeChar(c: char): string {
    match c
    case '&' => "&amp;"
    case '<' => "&lt;"
    case '>' => "&gt;"
    case '"' => "&quot;"
    case '\'' => "&#x27;"
    case _ => [c]
  }

  function Escape(s: string): string {
    if s == "" then "" else EscapeChar(s[0]) + Escape(s[1..])
  }

  /* ---- parsing ---- */

  /** A tag shows nothing, an entity one character, anything else itself. */
  datatype Token = Token(shown: string, length: nat)

  function FirstToken(s: string): (t: Token)
    requires s != ""
    ensures 0 < t.length <= |s|
  {
    if "<b>" <= s then Token("", 3)
    else if "</b>" <= s then Token("", 4)
    else if "&amp;" <= s then Token("&", 5)
    else if "&lt;" <= s then Token("<", 4)
    else if "&gt;" <= s then Token(">", 4)
    else if "&quot;" <= s then Token("\"", 6)
    else if "&#x27;" <= s then Token("'", 6)
    else Token([s[0]], 1)
  }

  /** The text a reader sees once tags and entities are parsed. */
  function Visible(s: string): string
    decreases |s|
  {
    if s == "" then "" else FirstToken(s).shown + Visible(s[FirstToken(s).length..])
  }

  /* ---- reading with the markup ---- */

  datatype Glyph = Glyph(c: char, bold: bool)

  /** What is shown, how many `b` elements are open at the end, and whether every end tag had one to close. */
  datatype Rendering = Rendering(glyphs: seq<Glyph>, open: nat, closed: bool)

  function InStyle(s: string, bold: bool): (r: seq<Glyph>)
    ensures |r| == |s| && forall i :: 0 <= i < |s| ==> r[i] == Glyph(s[i], bold)
  {
    seq(|s|, i requires 0 <= i < |s| => Glyph(s[i], bold))
  }

  /** Reads `s` inside `open` elements. */
  function Rendered(s: string, open: nat): Rendering
    decreases |s|
  {
    if s == "" then Rendering([], open, true)
    else if "<b>" <= s then Rendered(s[3..], open + 1)
    else if "</b>" <= s then
      if open == 0 then Rendered(s[4..], 0).(closed := false) else Rendered(s[4..], open - 1)
    else Shows(InStyle(FirstToken(s).shown, open > 0), Rendered(s[FirstToken(s).length..], open))
  }

  function Shows(glyphs: seq<Glyph>, rest: Rendering): Rendering {
    rest.(glyphs := glyphs + rest.glyphs)
  }

  lemma TagsShowNothing(s: string)
    ensures "<b>" <= s ==> FirstToken(s) == Token("", 3)
    ensures "</b>" <= s ==> FirstToken(s) == Token("", 4)
  {
    assert "</b>" <= s ==> s[1] == '/';
    assert "<b>" <= s ==> s[1] == 'b';
  }

  function Characters(glyphs: seq<Glyph>): string {
    seq(|glyphs|, i requires 0 <= i < |glyphs| => glyphs[i].c)
  }

  lemma CharactersJoin(s: string, bold: bool, rest: seq<Glyph>)
    ensures Characters(InStyle(s, bold) + rest) == s + Characters(rest)
  {
  }

  /** Without the markup it is the visible text. */
  lemma {:induction false} RenderedIsVisible(s: string, open: nat)
    ensures Characters(Rendered(s, open).glyphs) == Visible(s)
    decreases |s|
  {
    hide FirstToken, InStyle, Characters;
    if s == "" {
      NothingToRead(open);
    } else {
      TagsShowNothing(s);
      if "<b>" <= s {
        RenderedIsVisible(s[3..], open + 1);
      } else if "</b>" <= s {
        RenderedIsVisible(s[4..], if open == 0 then 0 else open - 1);
      } else {
        var rest := s[FirstToken(s).length..];
        RenderedIsVisible(rest, open);
        CharactersJoin(FirstToken(s).shown, open > 0, Rendered(rest, open).glyphs);
      }
    }
  }

  lemma NothingToRead(open: nat)
    ensures Characters(Rendered("", open).glyphs) == Visible("")
  {
  }

  /** The length-counting parser: it adds up the data it is handed. */
  class HtmlTextLengthParser {
    var length: nat

    constructor ()
      ensures length == 0
    {
      length := 0;
    }

    method HandleData(data: string)
      modifies this
      ensures length == old(length) + |data|
    {
      length := length + |data|;
    }

    method Feed(text: string)
      modifies this
      ensures length == old(length) + |Visible(text)|
    {
      hide FirstToken;
      var i := 0;
      while i < |text|
        invariant 0 <= i <= |text|
        invariant length + |Visible(text[i..])| == old(length) + |Visible(text)|
        decreases |text| - i
      {
        var token := FirstToken(text[i..]);
        assert text[i..][token.length..] == text[i + token.length..];
        HandleData(token.shown);
        i := i + token.length;
      }
    }
  }

  method TelegramTextLength(text: string, html: bool) returns (n: nat)
    ensures n == if html then |Visible(text)| else |text|
  {
    if !html { return |text|; }
    var parser := new HtmlTextLengthParser();
    parser.Feed(text);
    return parser.length;
  }

  /* ---- building the message ---- */

  datatype TextError = EmptySms | EmptyText | NothingVisible | TooLong

  datatype Built = Message(text: string) | Invalid(error: TextError)

  /** The characters `str.strip` removes. */
  predicate IsSpace(c: char) {
    var n := c as int;
    0x09 <= n <= 0x0D || 0x1C <= n <= 0x20 || n == 0x85 || n == 0xA0 || n == 0x1680 ||
    0x2000 <= n <= 0x200A || n == 0x2028 || n == 0x2029 || n == 0x202F || n == 0x205F || n == 0x3000
  }

  predicate Blank(s: string) {
    forall i :: 0 <= i < |s| ==> IsSpace(s[i])
  }

  function FullBody(number: string, text: string): string {
    "<b>" + (Escape(number) + ("</b>\n" + Escape(text)))
  }

  function TruncatedBody(number: string, text: string): string {
    var textLimit := MAX_TELEGRAM_TEXT_LENGTH - |number| - |SMS_SEPARATOR| - |TRUNCATION_SUFFIX|;
    if textLimit >= 0 then
      "<b>" + (Escape(number) + ("</b>\n" + (Escape(Take(text, textLimit)) + TRUNCATION_SUFFIX)))
    else
      var numberLimit := MAX_TELEGRAM_TEXT_LENGTH - |SMS_SEPARATOR| - |TRUNCATION_SUFFIX|;
      "<b>" + (Escape(Take(number, numberLimit)) + (TRUNCATION_SUFFIX + "</b>\n"))
  }

  function Take(s: string, n: nat): string {
    if n <= |s| then s[..n] else s
  }

  function SmsBodyLength(number: string, text: string): nat {
    |number| + |SMS_SEPARATOR| + |text|
  }

  function SmsBody(number: string, text: string): string {
    if SmsBodyLength(number, text) > MAX_TELEGRAM_TEXT_LENGTH then TruncatedBody(number, text)
    else FullBody(number, text)
  }

  /** The checks every message with HTML parsing goes through. */
  function Validated(text: string): Built {
    if text == "" then Invalid(EmptyText)
    else if |Visible(text)| == 0 then Invalid(NothingVisible)
    else if |Visible(text)| > MAX_TELEGRAM_TEXT_LENGTH then Invalid(TooLong)
    else Message(text)
  }

  function FromSms(number: string, text: string): Built {
    if Blank(text) then Invalid(EmptySms) else Validated(SmsBody(number, text))
  }

  /* ---- the round trip ---- */

  /** Characters that start neither a tag nor an entity are tokens of their own. */
  lemma PlainCharToken(c: char, rest: string)
    requires c != '<' && c != '&'
    ensures var s := [c] + rest;
      FirstToken(s) == Token([c], 1) && !("<b>" <= s) && !("</b>" <= s) && s[1..] == rest
  {
    var s := [c] + rest;
    assert s[0] == c && s[1..] == rest;
    assert !("<b>" <= s) && !("</b>" <= s);
    assert !("&amp;" <= s) && !("&lt;" <= s) && !("&gt;" <= s) && !("&quot;" <= s) && !("&#x27;" <= s);
  }

  /** What escaping makes of a character is one token, which shows the character. */
  lemma EscapedCharToken(c: char, rest: string)
    ensures var e := EscapeChar(c);
      var s := e + rest;
      FirstToken(s) == Token([c], |e|) && !("<b>" <= s) && !("</b>" <= s) && s[|e|..] == rest
  {
    var e := EscapeChar(c);
    var s := e + rest;
    assert e <= s;
    if e == [c] {
      PlainCharToken(c, rest);
    } else {
      assert s[0] == '&' && s[1] == e[1];
      assert c == '>' || c == '<' ==> s[2] == 't';
      assert !("<b>" <= s) && !("</b>" <= s);
      assert c != '&' ==> !("&amp;" <= s);
      assert c != '<' ==> !("&lt;" <= s);
      assert c != '>' ==> !("&gt;" <= s);
      assert c != '"' ==> !("&quot;" <= s);
    }
  }

  lemma PlainCharShows(c: char, rest: string)
    requires c != '<' && c != '&'
    ensures Visible([c] + rest) == [c] + Visible(rest)
  {
    PlainCharToken(c, rest);
  }

  lemma EscapedCharShows(c: char, rest: string)
    ensures Visible(EscapeChar(c) + rest) == [c] + Visible(rest)
  {
    EscapedCharToken(c, rest);
  }

  lemma Assoc(a: string, b: string, c: string)
    ensures (a + b) + c == a + (b + c)
  {
  }

  /** Parsing undoes escaping, whatever follows. */
  lemma {:induction false} EscapeRoundTrip(t: string, rest: string)
    ensures Visible(Escape(t) + rest) == t + Visible(rest)
    decreases |t|
  {
    if t == "" {
      assert Escape(t) + rest == rest;
    } else {
      var c, u := t[0], t[1..];
      EscapeRoundTrip(u, rest);
      EscapedCharShows(c, Escape(u) + rest);
      Assoc(EscapeChar(c), Escape(u), rest);
      Assoc([c], u, Visible(rest));
      assert [c] + u == t;
    }
  }

  lemma OpenTagIsInvisible(rest: string)
    ensures Visible("<b>" + rest) == Visible(rest)
  {
    assert ("<b>" + rest)[3..] == rest;
  }

  lemma CloseTagShowsNewline(rest: string)
    ensures Visible("</b>\n" + rest) == "\n" + Visible(rest)
  {
    var s := "</b>\n" + rest;
    assert s[1] == '/';
    assert s[..4] == "</b>";
    assert s[4..] == ['\n'] + rest;
    PlainCharShows('\n', rest);
  }

  lemma DotsShow(rest: string)
    ensures Visible(TRUNCATION_SUFFIX + rest) == TRUNCATION_SUFFIX + Visible(rest)
  {
    PlainCharShows('.', rest);
    PlainCharShows('.', "." + rest);
    PlainCharShows('.', "." + ("." + rest));
    DotsSplit(rest);
    DotsSplit(Visible(rest));
  }

  lemma DotsSplit(rest: string)
    ensures TRUNCATION_SUFFIX + rest == "." + ("." + ("." + rest))
  {
  }

  lemma FullBodyShows(number: string, text: string)
    ensures Visible(FullBody(number, text)) == number + (SMS_SEPARATOR + text)
  {
    OpenTagIsInvisible(Escape(number) + ("</b>\n" + Escape(text)));
    EscapeRoundTrip(number, "</b>\n" + Escape(text));
    CloseTagShowsNewline(Escape(text));
    EscapeRoundTrip(text, "");
    assert Escape(text) + "" == Escape(text) && text + "" == text;
  }

  lemma TruncatedTextShows(number: string, text: string)
    ensures Visible("<b>" + (Escape(number) + ("</b>\n" + (Escape(text) + TRUNCATION_SUFFIX)))) ==
      number + (SMS_SEPARATOR + (text + TRUNCATION_SUFFIX))
  {
    OpenTagIsInvisible(Escape(number) + ("</b>\n" + (Escape(text) + TRUNCATION_SUFFIX)));
    EscapeRoundTrip(number, "</b>\n" + (Escape(text) + TRUNCATION_SUFFIX));
    CloseTagShowsNewline(Escape(text) + TRUNCATION_SUFFIX);
    EscapeRoundTrip(text, TRUNCATION_SUFFIX);
    DotsShow("");
    assert TRUNCATION_SUFFIX + "" == TRUNCATION_SUFFIX;
  }

  lemma TruncatedNumberShows(number: string)
    ensures Visible("<b>" + (Escape(number) + (TRUNCATION_SUFFIX + "</b>\n"))) ==
      number + (TRUNCATION_SUFFIX + SMS_SEPARATOR)
  {
    OpenTagIsInvisible(Escape(number) + (TRUNCATION_SUFFIX + "</b>\n"));
    EscapeRoundTrip(number, TRUNCATION_SUFFIX + "</b>\n");
    DotsShow("</b>\n");
    CloseTagShowsNewline("");
    assert "</b>\n" + "" == "</b>\n" && "\n" + "" == "\n";
  }

  /**
    A message is built exactly when the SMS is not blank. Parsed back it gives
    number, newline and text when that fits, and exactly 4096 characters
    otherwise, so the length check never rejects it.
   */
  lemma FromSmsRoundTrip(number: string, text: string)
    ensures FromSms(number, text).Message? <==> !Blank(text)
    ensures !Blank(text) && |number| + 1 + |text| <= 4096 ==>
      Visible(FromSms(number, text).text) == number + ("\n" + text)
    ensures !Blank(text) && |number| + 1 + |text| > 4096 ==>
      var shown := Visible(FromSms(number, text).text);
      && |shown| == 4096
      && shown == if |number| <= 4092 then number + ("\n" + (text[..4092 - |number|] + "..."))
                  else number[..4092] + ("..." + "\n")
  {
    if SmsBodyLength(number, text) <= MAX_TELEGRAM_TEXT_LENGTH {
      FullBodyShows(number, text);
    } else if |number| <= 4092 {
      TruncatedTextShows(number, text[..4092 - |number|]);
    } else {
      TruncatedNumberShows(number[..4092]);
    }
    assert Visible("") == "";
  }

  /* ---- the markup ---- */

  lemma EscapedCharRenders(c: char, rest: string, open: nat)
    ensures Rendered(EscapeChar(c) + rest, open) == Shows([Glyph(c, open > 0)], Rendered(rest, open))
  {
    EscapedCharToken(c, rest);
    assert InStyle([c], open > 0) == [Glyph(c, open > 0)];
  }

  lemma ShowsBoth(a: seq<Glyph>, b: seq<Glyph>, rest: Rendering)
    ensures Shows(a, Shows(b, rest)) == Shows(a + b, rest)
  {
    assert a + (b + rest.glyphs) == (a + b) + rest.glyphs;
  }

  lemma {:induction false} EscapeRenders(t: string, rest: string, open: nat)
    ensures Rendered(Escape(t) + rest, open) == Shows(InStyle(t, open > 0), Rendered(rest, open))
    decreases |t|
  {
    if t == "" {
      assert Escape(t) + rest == rest;
    } else {
      var c, u := t[0], t[1..];
      EscapeRenders(u, rest, open);
      EscapedCharRenders(c, Escape(u) + rest, open);
      Assoc(EscapeChar(c), Escape(u), rest);
      ShowsBoth([Glyph(c, open > 0)], InStyle(u, open > 0), Rendered(rest, open));
      assert InStyle(t, open > 0) == [Glyph(c, open > 0)] + InStyle(u, open > 0);
    }
  }

  lemma OpenTagRenders(rest: string, open: nat)
    ensures Rendered("<b>" + rest, open) == Rendered(rest, open + 1)
  {
    assert ("<b>" + rest)[3..] == rest;
  }

  /** The end of the number, and the line break after it. */
  lemma CloseTagRenders(rest: string)
    ensures Rendered("</b>\n" + rest, 1) == Shows(InStyle("\n", false), Rendered(rest, 0))
  {
    var s := "</b>\n" + rest;
    assert s[1] == '/';
    assert s[..4] == "</b>";
    assert s[4..] == ['\n'] + rest;
    PlainCharToken('\n', rest);
    assert InStyle("\n", false) == InStyle(['\n'], false);
  }

  lemma DotsRender(rest: string, open: nat)
    ensures Rendered(TRUNCATION_SUFFIX + rest, open) == Shows(InStyle("...", open > 0), Rendered(rest, open))
  {
    assert Escape("...") == "..." by {
      assert "..."[1..] == ".." && ".."[1..] == "." && "."[1..] == "";
      assert Escape(".") == "." && Escape("..") == "..";
    }
    EscapeRenders("...", rest, open);
  }

  lemma NothingFollows(t: string)
    ensures Rendered(Escape(t), 0) == Rendering(InStyle(t, false), 0, true)
  {
    EscapeRenders(t, "", 0);
    assert Escape(t) + "" == Escape(t);
  }

  /**
    The message closes what it opens, and exactly the number is bold, or the
    first 4092 characters of it and the dots when it is too long on its own.
   */
  lemma FromSmsMarkup(number: string, text: string)
    requires !Blank(text)
    ensures FromSms(number, text).Message?
    ensures var r := Rendered(FromSms(number, text).text, 0);
      && r.open == 0 && r.closed
      && r.glyphs ==
           if |number| + 1 + |text| <= 4096 then InStyle(number, true) + InStyle("\n" + text, false)
           else if |number| <= 4092 then
             InStyle(number, true) + InStyle("\n" + (text[..4092 - |number|] + "..."), false)
           else InStyle(number[..4092] + "...", true) + InStyle("\n", false)
  {
    FromSmsRoundTrip(number, text);
    if |number| + 1 + |text| <= 4096 {
      FullBodyRenders(number, text);
    } else if |number| <= 4092 {
      TruncatedTextRenders(number, text[..4092 - |number|]);
    } else {
      TruncatedNumberRenders(number[..4092]);
    }
  }

  lemma StyleJoins(a: string, b: string, bold: bool)
    ensures InStyle(a + b, bold) == InStyle(a, bold) + InStyle(b, bold)
  {
  }

  /** The bold number and the line break, before whatever follows. */
  lemma HeadRenders(number: string, tail: string)
    ensures Rendered("<b>" + (Escape(number) + ("</b>\n" + tail)), 0) ==
      Shows(InStyle(number, true) + InStyle("\n", false), Rendered(tail, 0))
  {
    hide Rendered, Escape;
    OpenTagRenders(Escape(number) + ("</b>\n" + tail), 0);
    EscapeRenders(number, "</b>\n" + tail, 1);
    CloseTagRenders(tail);
    ShowsBoth(InStyle(number, true), InStyle("\n", false), Rendered(tail, 0));
  }

  lemma FullBodyRenders(number: string, text: string)
    ensures Rendered(FullBody(number, text), 0) ==
      Rendering(InStyle(number, true) + InStyle("\n" + text, false), 0, true)
  {
    hide Rendered, Escape;
    HeadRenders(number, Escape(text));
    NothingFollows(text);
    StyleJoins("\n", text, false);
    assert InStyle(number, true) + InStyle("\n" + text, false) ==
      (InStyle(number, true) + InStyle("\n", false)) + InStyle(text, false);
  }

  lemma EmptyRenders(open: nat)
    ensures Rendered("", open) == Rendering([], open, true)
  {
  }

  lemma DottedRenders(text: string)
    ensures Rendered(Escape(text) + TRUNCATION_SUFFIX, 0) == Rendering(InStyle(text + "...", false), 0, true)
  {
    hide Rendered, Escape;
    EscapeRenders(text, TRUNCATION_SUFFIX, 0);
    DotsRender("", 0);
    EmptyRenders(0);
    assert TRUNCATION_SUFFIX + "" == TRUNCATION_SUFFIX;
    StyleJoins(text, "...", false);
  }

  lemma TruncatedTextRenders(number: string, text: string)
    ensures Rendered("<b>" + (Escape(number) + ("</b>\n" + (Escape(text) + TRUNCATION_SUFFIX))), 0) ==
      Rendering(InStyle(number, true) + InStyle("\n" + (text + "..."), false), 0, true)
  {
    hide Rendered, Escape;
    HeadRenders(number, Escape(text) + TRUNCATION_SUFFIX);
    DottedRenders(text);
    StyleJoins("\n", text + "...", false);
    assert InStyle(number, true) + InStyle("\n" + (text + "..."), false) ==
      (InStyle(number, true) + InStyle("\n", false)) + InStyle(text + "...", false);
  }

  lemma TruncatedNumberRenders(number: string)
    ensures Rendered("<b>" + (Escape(number) + (TRUNCATION_SUFFIX + "</b>\n")), 0) ==
      Rendering(InStyle(number + "...", true) + InStyle("\n", false), 0, true)
  {
    hide Rendered, Escape;
    OpenTagRenders(Escape(number) + (TRUNCATION_SUFFIX + "</b>\n"), 0);
    EscapeRenders(number, TRUNCATION_SUFFIX + "</b>\n", 1);
    DotsRender("</b>\n", 1);
    ClosedAtTheEnd();
    StyleJoins(number, "...", true);
    ShowsBoth(InStyle(number, true), InStyle("...", true), Rendered("</b>\n", 1));
  }

  lemma ClosedAtTheEnd()
    ensures Rendered("</b>\n", 1) == Rendering(InStyle("\n", false), 0, true)
  {
    CloseTagRenders("");
    assert "</b>\n" + "" == "</b>\n";
  }

  /* ---- what is escaped, what is blank ---- */

  /** Nothing that could open markup or end an attribute value is left; every ampersand starts an entity. */
  lemma {:induction false} EscapedIsHarmless(t: string)
    ensures forall c :: c in Escape(t) ==> c != '<' && c != '>' && c != '"' && c != '\''
    decreases |t|
  {
    if t != "" {
      EscapedIsHarmless(t[1..]);
    }
  }

  /** The white space that `str.isspace` knows. */
  predicate WhiteSpace(n: int) {
    n in {9, 10, 11, 12, 13, 28, 29, 30, 31, 32, 133, 160, 5760,
          8192, 8193, 8194, 8195, 8196, 8197, 8198, 8199, 8200, 8201, 8202, 8232, 8233, 8239, 8287, 12288}
  }

  lemma SpaceIsWhite(c: char)
    ensures IsSpace(c) <==> WhiteSpace(c as int)
  {
  }

  /** A text is blank if and only if it consists of white space. */
  lemma BlankMeansWhiteSpace(text: string)
    ensures Blank(text) <==> forall i :: 0 <= i < |text| ==> WhiteSpace(text[i] as int)
  {
    forall i | 0 <= i < |text| ensures IsSpace(text[i]) <==> WhiteSpace(text[i] as int) {
      SpaceIsWhite(text[i]);
    }
  }
}

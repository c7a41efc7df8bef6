/** `_bounded_exchange_json` of `continuation_flow.py`: an exchange as JSON text within a length limit. */
module ExchangeJson {
  import opened Wrappers

  // ---------------------------------------------------------------- string escapes, RFC 8259 section 7

  const HEX := "0123456789abcdef"

  predicate IsControl(c: char) {
    c as int < 0x20
  }

  // The two-character escape of a character that has one.
  function Short(c: char): Option<char> {
    if c == '\"' || c == '\\' then Some(c)
    else if c == '\n' then Some('n')
    else if c == '\r' then Some('r')
    else if c == '\t' then Some('t')
    else if c == 8 as char then Some('b')
    else if c == 12 as char then Some('f')
    else None
  }

  function EscapeChar(c: char): (e: string)
    ensures 1 <= |e| <= 6
  {
    if Short(c).Some? then ['\\', Short(c).value]
    else if IsControl(c) then ['\\', 'u', '0', '0', HEX[c as int / 16], HEX[c as int % 16]]
    else [c]
  }

  /** What `json.dumps` writes for one character: seven have a short escape, the other control characters
      a hexadecimal one, and all else stands for itself. */
  lemma EscapesAre(c: char)
    ensures c == '\"' ==> EscapeChar(c) == "\\\""
    ensures c == '\\' ==> EscapeChar(c) == "\\\\"
    ensures c == '\n' ==> EscapeChar(c) == "\\n"
    ensures c == '\r' ==> EscapeChar(c) == "\\r"
    ensures c == '\t' ==> EscapeChar(c) == "\\t"
    ensures c as int == 8 ==> EscapeChar(c) == "\\b"
    ensures c as int == 12 ==> EscapeChar(c) == "\\f"
    ensures c as int < 32 && c as int !in {8, 9, 10, 12, 13} ==>
              EscapeChar(c) == "\\u00" + (if c as int < 16 then "0" else "1") + ["0123456789abcdef"[c as int % 16]]
    ensures c as int >= 32 && c != '\"' && c != '\\' ==> EscapeChar(c) == [c]
  {
  }

  function Escape(s: string): string {
    if s == "" then "" else EscapeChar(s[0]) + Escape(s[1..])
  }

  const BEFORE_USER := "{\"user\": \""

  const BETWEEN := ", \"assistant\": \""

  // `json.dumps({"user": user, "assistant": assistant}, ensure_ascii=False)`
  function Render(user: string, assistant: string): string {
    BEFORE_USER + (Escape(user) + ("\"" + (BETWEEN + (Escape(assistant) + ("\"" + "}")))))
  }

  // ---------------------------------------------------------------- reading it back

  function Unshort(c: char): Option<char> {
    if c == '\"' || c == '\\' || c == '/' then Some(c)
    else if c == 'n' then Some('\n')
    else if c == 'r' then Some('\r')
    else if c == 't' then Some('\t')
    else if c == 'b' then Some(8 as char)
    else if c == 'f' then Some(12 as char)
    else None
  }

  function HexValue(c: char): (r: Option<nat>)
    ensures r.Some? ==> r.value < 16
  {
    if '0' <= c <= '9' then Some(c as int - '0' as int)
    else if 'a' <= c <= 'f' then Some(c as int - 'a' as int + 10)
    else if 'A' <= c <= 'F' then Some(c as int - 'A' as int + 10)
    else None
  }

  // One character of a string and how many it was written with. Surrogate escapes are not read.
  function ReadChar(s: string): (r: Option<(char, nat)>)
    ensures r.Some? ==> 1 <= r.value.1 <= |s|
  {
    if s == "" || s[0] == '\"' || IsControl(s[0]) then None
    else if s[0] != '\\' then Some((s[0], 1))
    else if |s| < 2 then None
    else if s[1] != 'u' then (if Unshort(s[1]).Some? then Some((Unshort(s[1]).value, 2)) else None)
    else if |s| < 6 then None
    else
      var a, b, c, d := HexValue(s[2]), HexValue(s[3]), HexValue(s[4]), HexValue(s[5]);
      if a.None? || b.None? || c.None? || d.None? then None
      else
        var n := ((a.value * 16 + b.value) * 16 + c.value) * 16 + d.value;
        if 0xD800 <= n < 0xE000 then None else Some((n as char, 6))
  }

  // A string up to its closing quote, and what follows it.
  function ReadString(s: string): Option<(string, string)>
    decreases |s|
  {
    if s != "" && s[0] == '\"' then Some(("", s[1..]))
    else
      var c := ReadChar(s);
      if c.None? then None
      else
        var rest := ReadString(s[c.value.1..]);
        if rest.None? then None else Some(([c.value.0] + rest.value.0, rest.value.1))
  }

  function Skip(s: string, lead: string): Option<string> {
    if lead <= s then Some(s[|lead|..]) else None
  }

  function Decode(s: string): Option<(string, string)> {
    var s1 := Skip(s, BEFORE_USER);
    if s1.None? then None
    else
      var user := ReadString(s1.value);
      if user.None? then None
      else
        var s2 := Skip(user.value.1, BETWEEN);
        if s2.None? then None
        else
          var assistant := ReadString(s2.value);
          if assistant.None? || assistant.value.1 != "}" then None
          else Some((user.value.0, assistant.value.0))
  }

  lemma HexDigit(n: nat)
    requires n < 16
    ensures HexValue(HEX[n]) == Some(n)
  {
  }

  lemma ReadEscapedChar(c: char, rest: string)
    ensures ReadChar(EscapeChar(c) + rest) == Some((c, |EscapeChar(c)|))
    ensures EscapeChar(c)[0] != '\"'
  {
    if Short(c).None? && IsControl(c) {
      HexDigit(c as int / 16);
      HexDigit(c as int % 16);
      HexDigit(0);
    }
  }

  lemma {:induction false} ReadEscaped(s: string, rest: string)
    ensures ReadString(Escape(s) + ("\"" + rest)) == Some((s, rest))
  {
    if s == "" {
      assert Escape(s) + ("\"" + rest) == "\"" + rest;
    } else {
      var tail := Escape(s[1..]) + ("\"" + rest);
      ReadEscaped(s[1..], rest);
      ReadEscapedChar(s[0], tail);
      assert Escape(s) + ("\"" + rest) == EscapeChar(s[0]) + tail;
      assert (EscapeChar(s[0]) + tail)[|EscapeChar(s[0])|..] == tail;
      assert s == [s[0]] + s[1..];
      hide EscapeChar, Escape, ReadChar;
    }
  }

  lemma SkipLead(lead: string, rest: string)
    ensures Skip(lead + rest, lead) == Some(rest)
  {
  }

  /** Decoding gives back what was encoded. */
  lemma DecodeRender(user: string, assistant: string)
    ensures Decode(Render(user, assistant)) == Some((user, assistant))
  {
    var afterUser := BETWEEN + (Escape(assistant) + ("\"" + "}"));
    SkipLead(BEFORE_USER, Escape(user) + ("\"" + afterUser));
    ReadEscaped(user, afterUser);
    SkipLead(BETWEEN, Escape(assistant) + ("\"" + "}"));
    ReadEscaped(assistant, "}");
    hide Escape, ReadString, Skip;
  }

  // ---------------------------------------------------------------- shortening

  const ELLIPSIS: char := '\U{2026}'

  // A field cut down by what is too much, with an ellipsis in place of its last character kept.
  function Cut(value: string, excess: nat): (r: string)
    requires excess >= 1
    ensures value != "" ==> |r| < |value|
  {
    var keep := if |value| < excess + 1 then 0 else |value| - excess - 1;
    if keep == 0 then "" else value[..keep] + [ELLIPSIS]
  }

  // The longer field is cut, the user's when they are as long as each other, until the text fits.
  function Shortened(user: string, assistant: string, limit: nat): (string, string)
    requires |Render("", "")| <= limit
    decreases |user| + |assistant|
  {
    var n := |Render(user, assistant)|;
    if n <= limit then (user, assistant)
    else if |user| >= |assistant| then
      assert user != "" by { NotBothEmpty(user, assistant, limit); }
      Shortened(Cut(user, n - limit), assistant, limit)
    else
      Shortened(user, Cut(assistant, n - limit), limit)
  }

  lemma NotBothEmpty(user: string, assistant: string, limit: nat)
    requires |Render("", "")| <= limit < |Render(user, assistant)|
    ensures user != "" || assistant != ""
  {
  }

  // A field as it may come out: whole, or empty, or the start of it and one ellipsis, and shorter.
  ghost predicate IsCut(original: string, value: string) {
    || value == original
    || (value == "" && original != "")
    || (1 <= |value| < |original| && value == original[..|value| - 1] + [ELLIPSIS])
  }

  lemma CutAgain(original: string, value: string, excess: nat)
    requires IsCut(original, value) && value != "" && excess >= 1
    ensures IsCut(original, Cut(value, excess)) && Cut(value, excess) != original
  {
    var r := Cut(value, excess);
    if r != "" {
      assert |r| <= |value| - 1;
      assert value[..|r| - 1] == original[..|r| - 1];
    }
  }

  /** What comes out fits, and each field is the original or a shorter start of it with one ellipsis. */
  lemma {:induction false} ShortenedFits(user0: string, assistant0: string, user: string, assistant: string, limit: nat)
    requires |Render("", "")| <= limit && IsCut(user0, user) && IsCut(assistant0, assistant)
    ensures var (u, a) := Shortened(user, assistant, limit);
            |Render(u, a)| <= limit && IsCut(user0, u) && IsCut(assistant0, a)
    decreases |user| + |assistant|
  {
    hide Render, IsCut;
    var n := |Render(user, assistant)|;
    if n > limit {
      NotBothEmpty(user, assistant, limit);
      if |user| >= |assistant| {
        CutAgain(user0, user, n - limit);
        ShortenedFits(user0, assistant0, Cut(user, n - limit), assistant, limit);
      } else {
        CutAgain(assistant0, assistant, n - limit);
        ShortenedFits(user0, assistant0, user, Cut(assistant, n - limit), limit);
      }
    }
  }

  // ---------------------------------------------------------------- text without escapes

  predicate Plain(s: string) {
    forall c :: c in s ==> Short(c).None? && !IsControl(c)
  }

  lemma {:induction false} PlainLength(s: string)
    requires Plain(s)
    ensures |Escape(s)| == |s|
  {
    if s != "" {
      PlainLength(s[1..]);
    }
  }

  /** Text without escapes is cut once and fills the limit exactly, when the longer field has two more
      characters than there are too many. */
  lemma PlainFills(user: string, assistant: string, limit: nat)
    requires |Render("", "")| <= limit < |Render(user, assistant)| && Plain(user) && Plain(assistant)
    requires var longer := if |user| >= |assistant| then user else assistant;
             |longer| >= |Render(user, assistant)| - limit + 2
    ensures var (u, a) := Shortened(user, assistant, limit);
            |Render(u, a)| == limit && (if |user| >= |assistant| then a == assistant else u == user)
  {
    var excess := |Render(user, assistant)| - limit;
    RenderPlain(user, assistant);
    if |user| >= |assistant| {
      CutPlain(user, excess);
      RenderPlain(Cut(user, excess), assistant);
    } else {
      CutPlain(assistant, excess);
      RenderPlain(user, Cut(assistant, excess));
    }
    hide Render, Cut, Plain;
  }

  lemma CutPlain(value: string, excess: nat)
    requires Plain(value) && 1 <= excess && excess + 2 <= |value|
    ensures Plain(Cut(value, excess)) && |Cut(value, excess)| == |value| - excess
  {
  }

  lemma RenderPlain(user: string, assistant: string)
    requires Plain(user) && Plain(assistant)
    ensures |Render(user, assistant)| == |Render("", "")| + |user| + |assistant|
  {
    PlainLength(user);
    PlainLength(assistant);
    RenderLength(user, assistant);
    hide Render, Escape, Plain;
  }

  lemma RenderLength(user: string, assistant: string)
    ensures |Render(user, assistant)| == |Render("", "")| + |Escape(user)| + |Escape(assistant)|
  {
  }

  // ---------------------------------------------------------------- the method

  // Text within the limit that decodes to the two fields shortened, each whole or cut; both whole
  // exactly when they fit.
  ghost predicate Answered(user: string, assistant: string, text: string, limit: nat)
    requires |Render("", "")| <= limit
  {
    && |text| <= limit
    && Decode(text) == Some(Shortened(user, assistant, limit))
    && IsCut(user, Decode(text).value.0) && IsCut(assistant, Decode(text).value.1)
    && (Decode(text).value == (user, assistant) <==> |Render(user, assistant)| <= limit)
  }

  /** Refused exactly when the limit is below the empty exchange; otherwise text within the limit that
      decodes to the two fields, each whole or cut; whole, both, exactly when they fit. */
  method BoundedExchangeJson(user: string, assistant: string, limit: int) returns (r: Option<string>)
    ensures r.None? <==> limit < |Render("", "")|
    ensures r.Some? ==> Answered(user, assistant, r.value, limit)
  {
    if limit < |Render("", "")| {
      return None;
    }
    hide Render, Decode, IsCut, Cut, Shortened, Halfway, Answered;
    var u, a := user, assistant;
    var rendered := Render(u, a);
    StartHalfway(user, assistant, limit);
    while |rendered| > limit
      invariant rendered == Render(u, a) && Halfway(user, assistant, u, a, limit)
      decreases |u| + |a|
    {
      var excess := |rendered| - limit;
      NotBothEmpty(u, a, limit);
      StepHalfway(user, assistant, u, a, limit);
      if |u| >= |a| {
        u := Cut(u, excess);
      } else {
        a := Cut(a, excess);
      }
      rendered := Render(u, a);
    }
    ResultIs(user, assistant, u, a, limit);
    r := Some(rendered);
  }

  // The fields as they have become still shorten to what the original ones do.
  ghost predicate Halfway(user: string, assistant: string, u: string, a: string, limit: nat)
    requires |Render("", "")| <= limit
  {
    Shortened(u, a, limit) == Shortened(user, assistant, limit)
  }

  lemma StartHalfway(user: string, assistant: string, limit: nat)
    requires |Render("", "")| <= limit
    ensures Halfway(user, assistant, user, assistant, limit)
  {
  }

  lemma StepHalfway(user: string, assistant: string, u: string, a: string, limit: nat)
    requires |Render("", "")| <= limit < |Render(u, a)| && Halfway(user, assistant, u, a, limit)
    ensures var excess := |Render(u, a)| - limit;
            if |u| >= |a| then Halfway(user, assistant, Cut(u, excess), a, limit)
            else Halfway(user, assistant, u, Cut(a, excess), limit)
  {
    ShortenedStep(u, a, limit);
    hide Render, Shortened, Cut;
  }

  lemma ResultIs(user: string, assistant: string, u: string, a: string, limit: nat)
    requires |Render("", "")| <= limit && Halfway(user, assistant, u, a, limit) && |Render(u, a)| <= limit
    ensures Answered(user, assistant, Render(u, a), limit)
  {
    hide Render, Decode, IsCut, Cut, Shortened;
    ShortenedStep(u, a, limit);
    ShortenedStep(user, assistant, limit);
    WholeIsCut(user, assistant);
    ShortenedFits(user, assistant, user, assistant, limit);
    DecodeRender(u, a);
  }

  lemma ShortenedStep(u: string, a: string, limit: nat)
    requires |Render("", "")| <= limit
    ensures var n := |Render(u, a)|;
            Shortened(u, a, limit)
            == if n <= limit then (u, a)
               else if |u| >= |a| then Shortened(Cut(u, n - limit), a, limit)
               else Shortened(u, Cut(a, n - limit), limit)
  {
  }

  lemma WholeIsCut(user: string, assistant: string)
    ensures IsCut(user, user) && IsCut(assistant, assistant)
  {
  }
}

/** How a claimed batch of steering messages is printed into model input. */
module SteeringText {
  import opened Protocol

  const PREAMBLE := PREAMBLE_WHAT + PREAMBLE_ASK
  const PREAMBLE_WHAT := "The user sent the following " + "while you were working. "
  const PREAMBLE_ASK := "Take them into account " + "before continuing."
  const BLOCK_OPEN := "<steering_messages>\n"
  const BLOCK_CLOSE := "\n</steering_messages>"
  const MESSAGE_OPEN := "<message>"
  const MESSAGE_CLOSE := "</message>"

  // ---- The escape -------------------------------------------------------------------------

  /** Every occurrence of one character replaced. */
  function Replace(s: string, c: char, with: string): string {
    if s == "" then "" else (if s[0] == c then with else [s[0]]) + Replace(s[1..], c, with)
  }

  /** The three replacements, one whole pass after another: the ampersand goes first. */
  function Escape(s: string): string {
    Replace(Replace(Replace(s, '&', "&amp;"), '>', "&gt;"), '<', "&lt;")
  }

  /** The same escape in one pass over the text. */
  function EscapeChars(s: string): string {
    if s == "" then "" else EscapeChar(s[0]) + EscapeChars(s[1..])
  }

  function EscapeChar(c: char): string {
    match c
    case '&' => "&amp;"
    case '>' => "&gt;"
    case '<' => "&lt;"
    case _ => [c]
  }

  lemma {:induction false} ReplaceConcat(a: string, b: string, c: char, with: string)
    ensures Replace(a + b, c, with) == Replace(a, c, with) + Replace(b, c, with)
  {
    if a == "" {
      assert a + b == b;
    } else {
      var head := if a[0] == c then with else [a[0]];
      var p, q := Replace(a[1..], c, with), Replace(b, c, with);
      assert (a + b)[0] == a[0] && (a + b)[1..] == a[1..] + b;
      ReplaceConcat(a[1..], b, c, with);
      assert head + (p + q) == (head + p) + q;
    }
  }

  lemma {:induction false} ReplaceLeaves(s: string, c: char, with: string)
    requires c !in s
    ensures Replace(s, c, with) == s
  {
    if s != "" {
      ReplaceLeaves(s[1..], c, with);
    }
  }

  /** No later pass touches what an earlier one wrote: the three passes are the single one. */
  lemma {:induction false} EscapeIsOnePass(s: string)
    ensures Escape(s) == EscapeChars(s)
  {
    if s != "" {
      var amp := Replace(s[1..], '&', "&amp;");
      var head := if s[0] == '&' then "&amp;" else [s[0]];
      ReplaceConcat(head, amp, '>', "&gt;");
      ReplaceConcat(Replace(head, '>', "&gt;"), Replace(amp, '>', "&gt;"), '<', "&lt;");
      EscapeIsOnePass(s[1..]);
      EscapeHead(s[0]);
    }
  }

  lemma EscapeHead(c: char)
    ensures var head := if c == '&' then "&amp;" else [c];
            Replace(Replace(head, '>', "&gt;"), '<', "&lt;") == EscapeChar(c)
  {
    if c == '&' {
      ReplaceLeaves("&amp;", '>', "&gt;");
      ReplaceLeaves("&amp;", '<', "&lt;");
    } else if c == '>' {
      assert Replace([c], '>', "&gt;") == "&gt;";
      ReplaceLeaves("&gt;", '<', "&lt;");
    } else {
      ReplaceLeaves([c], '>', "&gt;");
      if c == '<' {
        assert Replace([c], '<', "&lt;") == "&lt;";
      } else {
        ReplaceLeaves([c], '<', "&lt;");
      }
    }
  }

  function Unescape(s: string): string {
    if s == "" then ""
    else if "&amp;" <= s then "&" + Unescape(s[5..])
    else if "&gt;" <= s then ">" + Unescape(s[4..])
    else if "&lt;" <= s then "<" + Unescape(s[4..])
    else [s[0]] + Unescape(s[1..])
  }

  lemma {:induction false} UnescapeEscape(s: string)
    ensures Unescape(EscapeChars(s)) == s
  {
    if s != "" {
      var rest := EscapeChars(s[1..]);
      UnescapeEscape(s[1..]);
      assert (EscapeChar(s[0]) + rest)[|EscapeChar(s[0])|..] == rest;
      UnescapeFirst(s[0], rest);
    }
  }

  lemma UnescapeFirst(c: char, rest: string)
    ensures Unescape(EscapeChar(c) + rest) == [c] + Unescape(rest)
  {
    var s := EscapeChar(c) + rest;
    assert s[|EscapeChar(c)|..] == rest;
    if c == '&' {
      assert "&amp;" <= s;
    } else if c == '>' {
      assert "&gt;" <= s && s[1] == 'g';
    } else if c == '<' {
      assert "&lt;" <= s && s[1] == 'l';
    } else {
      assert s[0] == c;
    }
  }

  lemma {:induction false} EscapedHasNoTag(s: string)
    ensures '<' !in EscapeChars(s)
  {
    if s != "" {
      EscapedHasNoTag(s[1..]);
    }
  }

  // ---- Printing ---------------------------------------------------------------------------

  function Line(text: string): string {
    MESSAGE_OPEN + Escape(text) + MESSAGE_CLOSE
  }

  /** The messages' lines, joined by newlines. */
  function Lines(texts: seq<string>): string {
    if texts == [] then ""
    else if |texts| == 1 then Line(texts[0])
    else Line(texts[0]) + "\n" + Lines(texts[1..])
  }

  function RenderTexts(texts: seq<string>): string {
    Assemble(BLOCK_OPEN, PREAMBLE, Lines(texts), BLOCK_CLOSE)
  }

  function Assemble(open: string, preamble: string, lines: string, close: string): string {
    open + preamble + "\n" + lines + close
  }

  function Texts(messages: seq<SteeringMessage>): (r: seq<string>)
    ensures |r| == |messages| && forall i :: 0 <= i < |r| ==> r[i] == messages[i].text
  {
    seq(|messages|, i requires 0 <= i < |messages| => messages[i].text)
  }

  function Render(messages: seq<SteeringMessage>): string {
    RenderTexts(Texts(messages))
  }

  function AppendTo(messages: seq<SteeringMessage>, text: string): string {
    if text != "" then text + "\n\n" + Render(messages) else Render(messages)
  }

  /** What is printed, word for word: for one message, and a line more for one more. */
  lemma PrintsAs(m: SteeringMessage, more: SteeringMessage, text: string)
    ensures var preamble := ("The user sent the following " + "while you were working. ")
                            + ("Take them into account " + "before continuing.");
            var line := "<message>" + EscapeChars(m.text) + "</message>";
            var next := "<message>" + EscapeChars(more.text) + "</message>";
            && Render([m]) == "<steering_messages>\n" + preamble + "\n" + line + "\n</steering_messages>"
            && Render([m, more]) == "<steering_messages>\n" + preamble + "\n" + (line + "\n" + next) + "\n</steering_messages>"
            && AppendTo([m], "") == Render([m])
            && (text != "" ==> AppendTo([m], text) == text + "\n\n" + Render([m]))
  {
    EscapeIsOnePass(m.text);
    EscapeIsOnePass(more.text);
    assert Texts([m]) == [m.text] && Texts([m, more]) == [m.text, more.text];
    assert [m.text, more.text][1..] == [more.text];
    assert Lines([more.text]) == Line(more.text);
    assert Lines([m.text, more.text]) == Line(m.text) + "\n" + Line(more.text);
  }

  // ---- Reading back -----------------------------------------------------------------------

  /** How far `s` goes without a `<`. */
  function Plain(s: string): (n: nat)
    ensures n <= |s|
  {
    if s == "" || s[0] == '<' then 0 else 1 + Plain(s[1..])
  }

  /** The texts of a run of message lines. */
  function ReadLines(s: string): Option<seq<string>>
    decreases |s|
  {
    if s == "" then Some([])
    else if !(MESSAGE_OPEN <= s) then None
    else
      var inner := s[|MESSAGE_OPEN|..];
      var n := Plain(inner);
      if !(MESSAGE_CLOSE <= inner[n..]) then None
      else
        var rest := inner[n + |MESSAGE_CLOSE|..];
        if rest == "" then Some([Unescape(inner[..n])])
        else if rest[0] != '\n' || rest == "\n" then None
        else
          var more := ReadLines(rest[1..]);
          if more.None? then None else Some([Unescape(inner[..n])] + more.value)
  }

  function ReadBlock(s: string): Option<seq<string>> {
    var open := BLOCK_OPEN + PREAMBLE + "\n";
    if !(open <= s) || |s| < |open| + |BLOCK_CLOSE| || s[|s| - |BLOCK_CLOSE|..] != BLOCK_CLOSE then None
    else ReadLines(s[|open|..|s| - |BLOCK_CLOSE|])
  }

  lemma {:induction false} PlainStops(s: string, rest: string)
    requires '<' !in s && rest != "" && rest[0] == '<'
    ensures Plain(s + rest) == |s|
  {
    if s == "" {
      assert s + rest == rest;
    } else {
      assert (s + rest)[1..] == s[1..] + rest;
      PlainStops(s[1..], rest);
    }
  }

  /** One line comes off the front, whatever text it holds. */
  lemma ReadFirstLine(text: string, rest: string)
    ensures var s := Line(text) + rest; var inner := s[|MESSAGE_OPEN|..];
            && MESSAGE_OPEN <= s
            && Plain(inner) == |Escape(text)|
            && MESSAGE_CLOSE <= inner[|Escape(text)|..]
            && Unescape(inner[..|Escape(text)|]) == text
            && inner[|Escape(text)| + |MESSAGE_CLOSE|..] == rest
  {
    var e := Escape(text);
    EscapeIsOnePass(text);
    EscapedHasNoTag(text);
    UnescapeEscape(text);
    var s := Line(text) + rest;
    var inner := s[|MESSAGE_OPEN|..];
    assert inner == e + (MESSAGE_CLOSE + rest);
    PlainStops(e, MESSAGE_CLOSE + rest);
    assert inner[|e|..] == MESSAGE_CLOSE + rest;
    assert inner[..|e|] == e;
  }

  lemma ReadOneLine(text: string)
    ensures ReadLines(Line(text)) == Some([text])
  {
    ReadFirstLine(text, "");
    assert Line(text) + "" == Line(text);
  }

  lemma ReadMoreLines(text: string, more: string, texts: seq<string>)
    requires more != "" && ReadLines(more) == Some(texts)
    ensures ReadLines(Line(text) + "\n" + more) == Some([text] + texts)
  {
    var rest := "\n" + more;
    ReadFirstLine(text, rest);
    assert Line(text) + "\n" + more == Line(text) + rest;
    assert rest[1..] == more && rest[0] == '\n' && rest != "\n";
  }

  lemma {:induction false} ReadLinesBack(texts: seq<string>)
    ensures ReadLines(Lines(texts)) == Some(texts)
  {
    if texts != [] {
      if |texts| == 1 {
        ReadOneLine(texts[0]);
        assert texts == [texts[0]];
      } else {
        ReadLinesBack(texts[1..]);
        LinesNonEmpty(texts[1..]);
        ReadMoreLines(texts[0], Lines(texts[1..]), texts[1..]);
        assert texts == [texts[0]] + texts[1..];
      }
    }
  }

  lemma LinesNonEmpty(texts: seq<string>)
    requires texts != []
    ensures Lines(texts) != ""
  {
  }

  /** A rendered block reads back as the list of texts it was printed from. */
  lemma BlockReadsBack(texts: seq<string>)
    ensures ReadBlock(RenderTexts(texts)) == Some(texts)
  {
    var open := BLOCK_OPEN + PREAMBLE + "\n";
    var s := RenderTexts(texts);
    assert s == open + Lines(texts) + BLOCK_CLOSE;
    assert s[|s| - |BLOCK_CLOSE|..] == BLOCK_CLOSE;
    assert s[|open|..|s| - |BLOCK_CLOSE|] == Lines(texts);
    ReadLinesBack(texts);
  }

  /** Two batches render to the same block if and only if they hold the same texts in the same
      order, whatever markup the texts contain. */
  lemma RenderingIsUnambiguous(a: seq<SteeringMessage>, b: seq<SteeringMessage>)
    ensures Render(a) == Render(b) <==> Texts(a) == Texts(b)
  {
    BlockReadsBack(Texts(a));
    BlockReadsBack(Texts(b));
  }

  // ---- Appending to a tool result -----------------------------------------------------------

  /** Every `<` in `s` starts something other than a block's opening tag. */
  ghost predicate OpensNoBlock(s: string) {
    forall k: nat :: k < |s| && s[k] == '<' ==> k + 1 < |s| && s[k + 1] != 's'
  }

  lemma OpensNoBlockConcat(a: string, b: string)
    requires OpensNoBlock(a) && OpensNoBlock(b)
    ensures OpensNoBlock(a + b)
  {
  }

  lemma LineOpensNoBlock(text: string)
    ensures OpensNoBlock(Line(text))
  {
    EscapeIsOnePass(text);
    EscapedHasNoTag(text);
    OpensNoBlockConcat(MESSAGE_OPEN, Escape(text));
    OpensNoBlockConcat(MESSAGE_OPEN + Escape(text), MESSAGE_CLOSE);
  }

  lemma {:induction false} LinesOpenNoBlock(texts: seq<string>)
    ensures OpensNoBlock(Lines(texts))
  {
    if texts != [] {
      LineOpensNoBlock(texts[0]);
      if |texts| > 1 {
        LinesOpenNoBlock(texts[1..]);
        OpensNoBlockConcat(Line(texts[0]), "\n");
        OpensNoBlockConcat(Line(texts[0]) + "\n", Lines(texts[1..]));
      }
    }
  }

  lemma PreambleHasNoTag()
    ensures '<' !in PREAMBLE
  {
    assert '<' !in "The user sent the following ";
    assert '<' !in "while you were working. ";
    assert '<' !in "Take them into account ";
    assert '<' !in "before continuing.";
    assert '<' !in PREAMBLE_WHAT;
    assert '<' !in PREAMBLE_ASK;
  }

  /** `block` starts with an opening tag and holds no other. */
  ghost predicate OpensOnce(block: string) {
    && |block| >= 2 && block[0] == '<' && block[1] == 's'
    && forall k: nat :: 0 < k < |block| && block[k] == '<' ==> k + 1 < |block| && block[k + 1] != 's'
  }

  lemma OpensOnceFrom(block: string, inside: string)
    requires block == "<" + inside && OpensNoBlock(inside) && inside != "" && inside[0] == 's'
    ensures OpensOnce(block)
  {
    forall k: nat | 0 < k < |block| && block[k] == '<'
      ensures k + 1 < |block| && block[k + 1] != 's'
    {
      assert inside[k - 1] == '<';
    }
  }

  lemma AssembledOpensOnce(open: string, preamble: string, lines: string, close: string)
    requires |open| >= 2 && open[0] == '<' && open[1] == 's' && '<' !in open[1..]
    requires '<' !in preamble && OpensNoBlock(lines) && OpensNoBlock(close)
    ensures OpensOnce(Assemble(open, preamble, lines, close))
  {
    var tag := open[1..];
    OpensNoBlockConcat(tag, preamble);
    OpensNoBlockConcat(tag + preamble, "\n");
    OpensNoBlockConcat(tag + preamble + "\n", lines);
    OpensNoBlockConcat(tag + preamble + "\n" + lines, close);
    assert open == "<" + tag;
    OpensOnceFrom(Assemble(open, preamble, lines, close), tag + preamble + "\n" + lines + close);
  }

  lemma TagsOpenOnce()
    ensures |BLOCK_OPEN| >= 2 && BLOCK_OPEN[0] == '<' && BLOCK_OPEN[1] == 's' && '<' !in BLOCK_OPEN[1..]
    ensures OpensNoBlock(BLOCK_CLOSE)
  {
    assert BLOCK_OPEN[1..] == "steering_messages>\n";
  }

  lemma BlockOpensOnce(texts: seq<string>)
    ensures OpensOnce(RenderTexts(texts))
  {
    TagsOpenOnce();
    PreambleHasNoTag();
    LinesOpenNoBlock(texts);
    AssembledOpensOnce(BLOCK_OPEN, PREAMBLE, Lines(texts), BLOCK_CLOSE);
  }

  /** No proper suffix of a block is a block, so what two equal strings end in is one block. */
  lemma BlocksEndTogether(x: string, a: seq<string>, y: string, b: seq<string>)
    requires x + RenderTexts(a) == y + RenderTexts(b) && |x| <= |y|
    ensures x == y && a == b
  {
    var r, t := RenderTexts(a), RenderTexts(b);
    BlockOpensOnce(a);
    BlockOpensOnce(b);
    var k := |y| - |x|;
    assert forall i :: 0 <= i < |t| ==> (x + r)[|y| + i] == (y + t)[|y| + i] == t[i];
    assert r[k] == t[0] && r[k + 1] == t[1];
    assert k == 0;
    assert x == (x + r)[..|x|] == y;
    assert r == (x + r)[|x|..] == t;
    BlockReadsBack(a);
    BlockReadsBack(b);
  }

  /** The text a block is appended to and the texts in the block are both recoverable from the
      result, even when that text itself contains what looks like a block. */
  lemma AppendingIsUnambiguous(a: seq<SteeringMessage>, s: string, b: seq<SteeringMessage>, t: string)
    ensures AppendTo(a, s) == AppendTo(b, t) <==> s == t && Texts(a) == Texts(b)
  {
    if AppendTo(a, s) == AppendTo(b, t) {
      var x, y := Before(s), Before(t);
      assert AppendTo(a, s) == x + RenderTexts(Texts(a));
      assert AppendTo(b, t) == y + RenderTexts(Texts(b));
      if |x| <= |y| {
        BlocksEndTogether(x, Texts(a), y, Texts(b));
      } else {
        BlocksEndTogether(y, Texts(b), x, Texts(a));
      }
      assert s == if |x| >= 2 then x[..|x| - 2] else "";
      assert t == if |y| >= 2 then y[..|y| - 2] else "";
    }
  }

  function Before(text: string): string {
    if text != "" then text + "\n\n" else ""
  }
}

/** The HTML wrapper of a Markdown report: the text is escaped with three
    chained replaces ('&' first, then '<', then '>') and placed inside a
    <pre> block of a fixed page template. */
module Html {

  import opened Text

  /** html_body.replace("&", "&amp;").replace("<", "&lt;").replace(">", "&gt;") */
  function Escape(s: string): string
  {
    ReplaceChar(ReplaceChar(ReplaceChar(s, '&', "&amp;"), '<', "&lt;"), '>', "&gt;")
  }

  /** The same escape done in one left-to-right pass, with '<' and '>'
      optionally left raw; the stages of decoding are the cases where some
      entities have already been turned back. */
  function EscapeChar(c: char, lt: bool, gt: bool): string
  {
    if c == '&' then "&amp;"
    else if c == '<' && lt then "&lt;"
    else if c == '>' && gt then "&gt;"
    else [c]
  }

  function EscapeWith(s: string, lt: bool, gt: bool): string
  {
    if s == [] then [] else EscapeChar(s[0], lt, gt) + EscapeWith(s[1..], lt, gt)
  }

  lemma {:induction false} EscapeWithAppend(a: string, b: string, lt: bool, gt: bool)
    ensures EscapeWith(a + b, lt, gt) == EscapeWith(a, lt, gt) + EscapeWith(b, lt, gt)
  {
    if a == [] {
      assert a + b == b;
    } else {
      assert (a + b)[0] == a[0];
      assert (a + b)[1..] == a[1..] + b;
      EscapeWithAppend(a[1..], b, lt, gt);
    }
  }

  /** The three chained replaces escape every character on its own: the
      entities written by an earlier replace hold no character that a later
      one rewrites. */
  lemma {:induction false} EscapeIsOnePass(s: string)
    ensures Escape(s) == EscapeWith(s, true, true)
  {
    if s != [] {
      var c, rest := s[0], s[1..];
      assert s == [c] + rest;
      EscapeIsOnePass(rest);
      ReplaceCharAppend([c], rest, '&', "&amp;");
      var a := ReplaceChar([c], '&', "&amp;");
      assert ReplaceChar([c], '&', "&amp;") == (if c == '&' then "&amp;" else [c]) + ReplaceChar([], '&', "&amp;");
      ReplaceCharAppend(a, ReplaceChar(rest, '&', "&amp;"), '<', "&lt;");
      var b := ReplaceChar(a, '<', "&lt;");
      if c == '&' {
        ReplaceCharAbsent(a, '<', "&lt;");
      } else {
        assert ReplaceChar(a, '<', "&lt;") == (if c == '<' then "&lt;" else [c]) + ReplaceChar([], '<', "&lt;");
      }
      ReplaceCharAppend(b, ReplaceChar(ReplaceChar(rest, '&', "&amp;"), '<', "&lt;"), '>', "&gt;");
      if c == '&' || c == '<' {
        ReplaceCharAbsent(b, '>', "&gt;");
      } else {
        assert ReplaceChar(b, '>', "&gt;") == (if c == '>' then "&gt;" else [c]) + ReplaceChar([], '>', "&gt;");
      }
    }
  }

  /** No raw '<' or '>' is left in the escaped text, and the escape only
      grows the text, by at most four characters per input character. */
  lemma {:induction false} EscapeLeavesNoBrackets(s: string)
    ensures '<' !in Escape(s) && '>' !in Escape(s)
    ensures |s| <= |Escape(s)| <= 5 * |s|
  {
    EscapeIsOnePass(s);
    NoBrackets(s);
  }

  lemma {:induction false} NoBrackets(s: string)
    ensures '<' !in EscapeWith(s, true, true) && '>' !in EscapeWith(s, true, true)
    ensures |s| <= |EscapeWith(s, true, true)| <= 5 * |s|
  {
    if s != [] {
      NoBrackets(s[1..]);
      var e := EscapeChar(s[0], true, true);
      assert '<' !in e && '>' !in e;
    }
  }

  /** Every '&' of the escaped text opens one of the three entities: none
      of the input's ampersands survives unescaped. */
  lemma AmpersandsOpenEntities(s: string, i: nat)
    requires i < |Escape(s)| && Escape(s)[i] == '&'
    ensures "&amp;" <= Escape(s)[i..] || "&lt;" <= Escape(s)[i..] || "&gt;" <= Escape(s)[i..]
  {
    EscapeIsOnePass(s);
    EntitiesOnePass(s, i);
  }

  lemma {:induction false} EntitiesOnePass(s: string, i: nat)
    requires i < |EscapeWith(s, true, true)| && EscapeWith(s, true, true)[i] == '&'
    ensures var e := EscapeWith(s, true, true);
      "&amp;" <= e[i..] || "&lt;" <= e[i..] || "&gt;" <= e[i..]
  {
    var e := EscapeWith(s, true, true);
    var head := EscapeChar(s[0], true, true);
    var tail := EscapeWith(s[1..], true, true);
    assert e == head + tail;
    if i < |head| {
      assert head[i] == '&';
      assert i == 0;
      assert e[i..] == head + tail;
    } else {
      assert tail[i - |head|] == '&';
      EntitiesOnePass(s[1..], i - |head|);
      assert e[i..] == tail[i - |head|..];
    }
  }

  /** Text without '&', '<' and '>' is left as it is. */
  lemma PlainTextUnchanged(s: string)
    requires '&' !in s && '<' !in s && '>' !in s
    ensures Escape(s) == s
  {
    ReplaceCharAbsent(s, '&', "&amp;");
    ReplaceCharAbsent(s, '<', "&lt;");
    ReplaceCharAbsent(s, '>', "&gt;");
  }

  // ---------------------------------------------------------------------
  // decoding: str.replace of a whole entity, done in the order
  // "&lt;", "&gt;", then "&amp;"
  // ---------------------------------------------------------------------

  /** str.replace(pat, rep): non-overlapping occurrences, left to right. */
  function ReplaceStr(s: string, pat: string, rep: string): string
    requires |pat| > 0
    decreases |s|
  {
    if s == [] then []
    else if pat <= s then rep + ReplaceStr(s[|pat|..], pat, rep)
    else [s[0]] + ReplaceStr(s[1..], pat, rep)
  }

  /** Text holding no first character of pat is copied through. */
  lemma {:induction false} ReplaceStrSkip(x: string, rest: string, pat: string, rep: string)
    requires |pat| > 0 && pat[0] !in x
    ensures ReplaceStr(x + rest, pat, rep) == x + ReplaceStr(rest, pat, rep)
  {
    if x != [] {
      assert (x + rest)[0] == x[0] && x[0] in x;
      assert !(pat <= x + rest);
      assert (x + rest)[1..] == x[1..] + rest;
      assert forall ch :: ch in x[1..] ==> ch in x;
      ReplaceStrSkip(x[1..], rest, pat, rep);
      assert ReplaceStr(x + rest, pat, rep) == [x[0]] + ReplaceStr(x[1..] + rest, pat, rep);
      assert x == [x[0]] + x[1..];
    } else {
      assert x + rest == rest;
    }
  }

  /** An entity that differs from pat in its second character, and holds
      no further first character of pat, is copied through. */
  lemma ReplaceStrOther(x: string, rest: string, pat: string, rep: string)
    requires |pat| > 1 && |x| > 1 && x[1] != pat[1] && pat[0] !in x[1..]
    ensures ReplaceStr(x + rest, pat, rep) == x + ReplaceStr(rest, pat, rep)
  {
    assert (x + rest)[0] == x[0] && (x + rest)[1] == x[1];
    assert !(pat <= x + rest);
    assert (x + rest)[1..] == x[1..] + rest;
    ReplaceStrSkip(x[1..], rest, pat, rep);
    assert x == [x[0]] + x[1..];
  }

  lemma ReplaceStrHit(rest: string, pat: string, rep: string)
    requires |pat| > 0
    ensures ReplaceStr(pat + rest, pat, rep) == rep + ReplaceStr(rest, pat, rep)
  {
    assert pat <= pat + rest;
    assert (pat + rest)[|pat|..] == rest;
  }

  /** Turning "&lt;" back leaves the text with '<' raw. */
  lemma {:induction false} DecodeLt(s: string)
    ensures ReplaceStr(EscapeWith(s, true, true), "&lt;", "<") == EscapeWith(s, false, true)
  {
    if s != [] {
      var c := s[0];
      var rest := EscapeWith(s[1..], true, true);
      DecodeLt(s[1..]);
      if c == '<' {
        ReplaceStrHit(rest, "&lt;", "<");
      } else if c == '&' {
        ReplaceStrOther("&amp;", rest, "&lt;", "<");
      } else if c == '>' {
        ReplaceStrOther("&gt;", rest, "&lt;", "<");
      } else {
        ReplaceStrSkip([c], rest, "&lt;", "<");
      }
    }
  }

  /** Turning "&gt;" back leaves the text with '>' raw as well. */
  lemma {:induction false} DecodeGt(s: string)
    ensures ReplaceStr(EscapeWith(s, false, true), "&gt;", ">") == EscapeWith(s, false, false)
  {
    if s != [] {
      var c := s[0];
      var rest := EscapeWith(s[1..], false, true);
      DecodeGt(s[1..]);
      if c == '>' {
        ReplaceStrHit(rest, "&gt;", ">");
      } else if c == '&' {
        ReplaceStrOther("&amp;", rest, "&gt;", ">");
      } else {
        ReplaceStrSkip([c], rest, "&gt;", ">");
      }
    }
  }

  /** Turning "&amp;" back last gives the original text. */
  lemma {:induction false} DecodeAmp(s: string)
    ensures ReplaceStr(EscapeWith(s, false, false), "&amp;", "&") == s
  {
    if s != [] {
      var c := s[0];
      var rest := EscapeWith(s[1..], false, false);
      DecodeAmp(s[1..]);
      if c == '&' {
        ReplaceStrHit(rest, "&amp;", "&");
      } else {
        ReplaceStrSkip([c], rest, "&amp;", "&");
      }
      assert s == [c] + s[1..];
    }
  }

  /** The inverse of the escape: "&lt;", then "&gt;", then "&amp;". */
  function Unescape(t: string): string
  {
    ReplaceStr(ReplaceStr(ReplaceStr(t, "&lt;", "<"), "&gt;", ">"), "&amp;", "&")
  }

  /** Decoding the escaped text recovers it exactly. */
  lemma EscapeRoundTrip(s: string)
    ensures Unescape(Escape(s)) == s
  {
    EscapeIsOnePass(s);
    DecodeLt(s);
    DecodeGt(s);
    DecodeAmp(s);
  }

  /** Distinct texts stay distinct once escaped. */
  lemma EscapeInjective(a: string, b: string)
    requires Escape(a) == Escape(b)
    ensures a == b
  {
    EscapeRoundTrip(a);
    EscapeRoundTrip(b);
  }

  // ---------------------------------------------------------------------
  // the page
  // ---------------------------------------------------------------------

  /** The template lines up to and including <body>; the title is
      inserted as given. */
  function HeadLines(title: string): seq<string>
  {
    ["<!DOCTYPE html>",
     "<html lang=\"en\">",
     "<head>",
     "    <meta charset=\"UTF-8\">",
     "    <meta name=\"viewport\" content=\"width=device-width, initial-scale=1.0\">",
     "    <title>" + title + "</title>",
     "    <style>",
     "        body {",
     "            font-family: -apple-system, BlinkMacSystemFont, 'Segoe UI', Roboto, sans-serif;",
     "            max-width: 900px;",
     "            margin: 2rem auto;",
     "            padding: 0 1rem;",
     "            line-height: 1.6;",
     "            color: #333;",
     "        }",
     "        pre {",
     "            background: #f5f5f5;",
     "            padding: 1rem;",
     "            border-radius: 4px;",
     "            overflow-x: auto;",
     "            white-space: pre-wrap;",
     "        }",
     "        table {",
     "            border-collapse: collapse;",
     "            width: 100%;",
     "            margin: 1rem 0;",
     "        }",
     "        th, td {",
     "            border: 1px solid #ddd;",
     "            padding: 0.5rem;",
     "            text-align: left;",
     "        }",
     "        th {",
     "            background: #f0f0f0;",
     "        }",
     "    </style>",
     "</head>",
     "<body>"]
  }

  const DefaultTitle: string := "AI Dashboard Report"

  /** Everything before the escaped body. */
  function PageHead(title: string): string
  {
    Join(HeadLines(title), "\n") + "\n" + "<pre>"
  }

  /** The page head ends in the <pre> tag that opens the report text. */
  lemma PageHeadEndsWithPre(title: string)
    ensures |PageHead(title)| >= 5 && PageHead(title)[|PageHead(title)| - 5..] == "<pre>"
  {
    Suffix(Join(HeadLines(title), "\n") + "\n", "<pre>");
  }

  const PageEnd: string := "</pre>\n</body>\n</html>"

  /** The page around an escaped report: the head, the escaped text, then
      the closing tags. */
  function Wrap(head: string, content: string): string
  {
    head + Escape(content) + PageEnd
  }

  /** Whatever the head, the text between it and the closing tags is the
      escaped report, and it decodes back to the report. */
  lemma WrapRecoverable(head: string, content: string)
    ensures var page := Wrap(head, content);
      head <= page
      && |head| + |PageEnd| <= |page|
      && page[|page| - |PageEnd|..] == PageEnd
      && page[|head|..|page| - |PageEnd|] == Escape(content)
      && Unescape(page[|head|..|page| - |PageEnd|]) == content
  {
    Enclosed(head, Escape(content), PageEnd);
    EscapeRoundTrip(content);
  }

  /** to_html(markdown_content, title) */
  function ToHtml(content: string, title: string): string
  {
    Wrap(PageHead(title), content)
  }

  /** The page starts with the template head for the title, ends with the
      closing tags, holds the escaped report in between, and that part
      decodes back to the report. */
  lemma ContentRecoverable(content: string, title: string)
    ensures var page, head := ToHtml(content, title), PageHead(title);
      head <= page
      && |head| + |PageEnd| <= |page|
      && page[|page| - |PageEnd|..] == PageEnd
      && page[|head|..|page| - |PageEnd|] == Escape(content)
      && Unescape(page[|head|..|page| - |PageEnd|]) == content
  {
    WrapRecoverable(PageHead(title), content);
  }

}

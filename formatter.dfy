// The chat formatter `formatMessage` of app.js: three global regular-expression replacements
// applied left to right, each modelled as a scanner over the characters of the message.
//
//   1. /\n/g             every line feed becomes <br>;
//   2. /\*\*(.*?)\*\*/g  bold: the shortest **…**, leftmost first, becomes <strong>…</strong>;
//   3. /`([^`]+)`/g      code: a backtick, a non-empty backtick-free run, a backtick.
//
// A global replacement tries a match at each position in turn, replaces the first one it finds
// and resumes right after it; each scanner below is that loop, written as recursion on the rest
// of the string.
module Formatter {
  import opened Wrappers
  import opened Text

  /** The characters a regular-expression `.` refuses to match (ECMAScript LineTerminator). */
  predicate IsLineTerminator(c: char) {
    c == '\n' || c == '\r' || c == '\U{2028}' || c == '\U{2029}'
  }

  // ---------------------------------------------------------------- pass 1: line breaks

  /** `text.replace(/\n/g, '<br>')` */
  function ReplaceNewlines(s: string): string {
    if s == [] then []
    else (if s[0] == '\n' then "<br>" else [s[0]]) + ReplaceNewlines(s[1..])
  }

  /** After pass 1 no line feed is left. */
  lemma {:induction false} NoLineFeedAfterBreaks(s: string)
    ensures '\n' !in ReplaceNewlines(s)
  {
    if s != [] {
      var head := if s[0] == '\n' then "<br>" else [s[0]];
      assert '\n' !in head;
      NoLineFeedAfterBreaks(s[1..]);
      assert ReplaceNewlines(s) == head + ReplaceNewlines(s[1..]);
    }
  }

  /** Text without line feeds goes through pass 1 unchanged. */
  lemma {:induction false} BreaksLeavePlainText(s: string)
    requires '\n' !in s
    ensures ReplaceNewlines(s) == s
  {
    if s != [] {
      assert s[0] != '\n';
      assert '\n' !in s[1..] by {
        forall k | 0 <= k < |s[1..]| ensures s[1..][k] != '\n' {
          assert s[1..][k] == s[k + 1];
        }
      }
      BreaksLeavePlainText(s[1..]);
      assert s == [s[0]] + s[1..];
    }
  }

  /** The pass works character by character: replacing in two pieces is replacing in the whole. */
  lemma {:induction false} ReplaceNewlinesAppend(a: string, b: string)
    ensures ReplaceNewlines(a + b) == ReplaceNewlines(a) + ReplaceNewlines(b)
  {
    if a == [] {
      assert a + b == b;
    } else {
      assert (a + b)[0] == a[0];
      assert (a + b)[1..] == a[1..] + b;
      ReplaceNewlinesAppend(a[1..], b);
    }
  }

  /** Turns every `<br>` back into a line feed: the inverse of pass 1 on text without `<`. */
  function RestoreNewlines(s: string): string
  {
    if s == [] then []
    else if |s| >= 4 && s[..4] == "<br>" then "\n" + RestoreNewlines(s[4..])
    else [s[0]] + RestoreNewlines(s[1..])
  }

  /** On text holding no `<`, pass 1 loses nothing: each `<br>` it writes stands for one line feed. */
  lemma {:induction false} NewlinesRoundTrip(s: string)
    requires '<' !in s
    ensures RestoreNewlines(ReplaceNewlines(s)) == s
  {
    if s != [] {
      var tail := ReplaceNewlines(s[1..]);
      assert '<' !in s[1..] by {
        forall k | 0 <= k < |s[1..]| ensures s[1..][k] != '<' {
          assert s[1..][k] == s[k + 1];
        }
      }
      NewlinesRoundTrip(s[1..]);
      if s[0] == '\n' {
        var out := "<br>" + tail;
        assert ReplaceNewlines(s) == out;
        assert out[..4] == "<br>" && out[4..] == tail;
        assert RestoreNewlines(out) == "\n" + RestoreNewlines(tail);
      } else {
        var out := [s[0]] + tail;
        assert ReplaceNewlines(s) == out;
        assert out[0] == s[0] && s[0] != '<';
        assert |out| >= 4 ==> out[..4][0] == s[0];
        assert out[1..] == tail;
        assert RestoreNewlines(out) == [s[0]] + RestoreNewlines(tail);
        assert s == [s[0]] + s[1..];
      }
    }
  }

  // ---------------------------------------------------------------- pass 2: bold

  /** `(.*?)\*\*` can stop at offset `k` of `t`: `**` sits there and `.` accepts all before it. */
  predicate ClosesAt(t: string, k: nat) {
    && k + 2 <= |t| && t[k] == '*' && t[k + 1] == '*'
    && forall j :: 0 <= j < k ==> !IsLineTerminator(t[j])
  }

  /** Where the lazy group `(.*?)` followed by `\*\*` stops in `t`, the text after an opening `**`. */
  function FindClose(t: string): (r: Option<nat>)
    ensures r.Some? ==> ClosesAt(t, r.value) && forall k: nat :: k < r.value ==> !ClosesAt(t, k)
    ensures r.None? ==> forall k: nat :: !ClosesAt(t, k)
  {
    if |t| < 2 then None
    else if t[0] == '*' && t[1] == '*' then Some(0)
    else if IsLineTerminator(t[0]) then
      assert forall k: nat :: 0 < k ==> !ClosesAt(t, k) by {
        forall k: nat | 0 < k ensures !ClosesAt(t, k) {
          assert IsLineTerminator(t[0]);
        }
      }
      None
    else
      var r := FindClose(t[1..]);
      assert forall k: nat :: ClosesAt(t, k + 1) <==> ClosesAt(t[1..], k) by {
        forall k: nat ensures ClosesAt(t, k + 1) <==> ClosesAt(t[1..], k) {
          if ClosesAt(t[1..], k) {
            forall j | 0 <= j < k + 1 ensures !IsLineTerminator(t[j]) {
              if j > 0 { assert t[j] == t[1..][j - 1]; }
            }
          }
          if ClosesAt(t, k + 1) {
            forall j | 0 <= j < k ensures !IsLineTerminator(t[1..][j]) {
              assert t[1..][j] == t[j + 1];
            }
          }
        }
      }
      assert forall k: nat :: ClosesAt(t, k) ==> k > 0 && ClosesAt(t[1..], k - 1);
      match r
      case None => None
      case Some(k) => Some(k + 1)
  }

  /** At the start of `s` the bold pattern matches: an opening `**` whose lazy group can stop. */
  predicate OpensBold(s: string) {
    |s| >= 2 && s[0] == '*' && s[1] == '*' && FindClose(s[2..]).Some?
  }

  // text.replace(/\*\*(.*?)\*\*/g, '<strong>$1</strong>')
  function ReplaceBold(s: string): string
    decreases |s|
  {
    if s == [] then []
    else if OpensBold(s) then
      var k := FindClose(s[2..]).value;
      "<strong>" + s[2..2 + k] + "</strong>" + ReplaceBold(s[4 + k..])
    else [s[0]] + ReplaceBold(s[1..])
  }

  /** One step of the bold scanner at a position where no match starts. */
  lemma BoldStepPlain(s: string)
    requires s != [] && !OpensBold(s)
    ensures ReplaceBold(s) == [s[0]] + ReplaceBold(s[1..])
  {
  }

  /** One step of the bold scanner at an opening `**` whose lazy group stops after `k` characters. */
  lemma BoldStepMatch(s: string, k: nat)
    requires |s| >= 2 && s[0] == '*' && s[1] == '*' && FindClose(s[2..]) == Some(k)
    ensures 4 + k <= |s|
    ensures ReplaceBold(s) == "<strong>" + s[2..2 + k] + "</strong>" + ReplaceBold(s[4 + k..])
  {
    assert ClosesAt(s[2..], k);
    assert OpensBold(s);
  }

  /** Pass 2 writes no line feed of its own: text without one comes out without one. */
  lemma {:induction false} BoldAddsNoLineFeed(s: string)
    requires '\n' !in s
    ensures '\n' !in ReplaceBold(s)
    decreases |s|
  {
    if s == [] {
    } else if OpensBold(s) {
      var k := FindClose(s[2..]).value;
      BoldStepMatch(s, k);
      var inner, rest := s[2..2 + k], s[4 + k..];
      assert '\n' !in inner by {
        forall j | 0 <= j < |inner| ensures inner[j] != '\n' {
          assert inner[j] == s[2 + j];
        }
      }
      assert '\n' !in rest by {
        forall j | 0 <= j < |rest| ensures rest[j] != '\n' {
          assert rest[j] == s[4 + k + j];
        }
      }
      BoldAddsNoLineFeed(rest);
      var open, close := "<strong>", "</strong>";
      assert '\n' !in open && '\n' !in close;
      assert ReplaceBold(s) == open + inner + close + ReplaceBold(rest);
    } else {
      BoldStepPlain(s);
      var rest := s[1..];
      assert '\n' !in rest by {
        forall j | 0 <= j < |rest| ensures rest[j] != '\n' {
          assert rest[j] == s[1 + j];
        }
      }
      BoldAddsNoLineFeed(rest);
      assert s[0] != '\n';
    }
  }

  /**
   * `**X**` becomes `<strong>X</strong>` when the lazy group cannot stop earlier: X holds no line
   * terminator, no `**`, and does not end in `*` (for `**a***` the group stops after `a`).
   */
  lemma BoldSpan(x: string, rest: string)
    requires forall j :: 0 <= j < |x| ==> !IsLineTerminator(x[j])
    requires forall j :: 0 <= j < |x| - 1 ==> !(x[j] == '*' && x[j + 1] == '*')
    requires x == [] || x[|x| - 1] != '*'
    ensures ReplaceBold("**" + x + "**" + rest) == "<strong>" + x + "</strong>" + ReplaceBold(rest)
  {
    var s := "**" + x + "**" + rest;
    var t := x + "**" + rest;
    assert s[2..] == t;
    assert ClosesAt(t, |x|);
    forall k: nat | k < |x| ensures !ClosesAt(t, k) {
      if k + 1 < |x| {
        assert t[k] == x[k] && t[k + 1] == x[k + 1];
      } else {
        assert t[k] == x[|x| - 1];
      }
    }
    assert FindClose(t) == Some(|x|);
    BoldStepMatch(s, |x|);
    assert s[2..2 + |x|] == x;
    assert s[4 + |x|..] == rest;
  }

  /** Text before the first `*` is copied unchanged and does not affect how the rest is read. */
  lemma {:induction false} BoldAfterPlain(a: string, b: string)
    requires '*' !in a
    ensures ReplaceBold(a + b) == a + ReplaceBold(b)
  {
    if a == [] {
      assert a + b == b;
    } else {
      var s, tail := a + b, a[1..];
      assert s[0] == a[0] && a[0] != '*';
      assert s[1..] == tail + b;
      assert '*' !in tail by {
        forall j | 0 <= j < |tail| ensures tail[j] != '*' {
          assert tail[j] == a[1 + j];
        }
      }
      BoldStepPlain(s);
      BoldAfterPlain(tail, b);
      assert ReplaceBold(s) == [a[0]] + (tail + ReplaceBold(b));
      assert a == [a[0]] + tail;
    }
  }

  /** A line terminator between the stars stops the lazy group: `**X\r**` stays as it is. */
  lemma BoldStopsAtLineTerminator(x: string, c: char)
    requires '*' !in x && IsLineTerminator(c)
    ensures ReplaceBold("**" + x + [c] + "**") == "**" + x + [c] + "**"
  {
    var s := "**" + x + [c] + "**";
    var t := x + [c] + "**";
    assert s[2..] == t;
    assert t[|x|] == c;
    forall k: nat ensures !ClosesAt(t, k) {
      if k <= |x| {
        if k < |x| { assert t[k] == x[k]; } else { assert t[k] == c; }
      } else {
        assert IsLineTerminator(t[|x|]);
      }
    }
    var plain := "*" + x + [c];
    assert s == "*" + ("*" + x + [c] + "**");
    assert ReplaceBold(s) == "*" + ReplaceBold("*" + x + [c] + "**");
    assert ("*" + x + [c] + "**")[1..] == x + [c] + "**";
    assert "*" + x + [c] + "**" == "*" + (x + [c] + "**");
    BoldAfterPlain(x + [c], "**");
    assert ReplaceBold("**") == "**" by {
      assert FindClose("**"[2..]) == None;
    }
    assert x + [c] + "**" == (x + [c]) + "**";
  }

  // ---------------------------------------------------------------- pass 3: inline code

  /** At the start of `s` the code pattern matches: a backtick whose next backtick is further on. */
  predicate OpensCode(s: string) {
    s != [] && s[0] == '`' && IndexOf(s[1..], '`').Some? && IndexOf(s[1..], '`').value > 0
  }

  /** `text.replace(/`([^`]+)`/g, '<code>$1</code>')` */
  function ReplaceCode(s: string): string
    decreases |s|
  {
    if s == [] then []
    else if OpensCode(s) then
      var k := IndexOf(s[1..], '`').value;
      "<code>" + s[1..1 + k] + "</code>" + ReplaceCode(s[2 + k..])
    else [s[0]] + ReplaceCode(s[1..])
  }

  /** One step of the code scanner at a position where no match starts. */
  lemma CodeStepPlain(s: string)
    requires s != [] && !OpensCode(s)
    ensures ReplaceCode(s) == [s[0]] + ReplaceCode(s[1..])
  {
  }

  /** One step of the code scanner at a backtick whose next backtick is `k + 1` characters on. */
  lemma CodeStepMatch(s: string, k: nat)
    requires s != [] && s[0] == '`' && IndexOf(s[1..], '`') == Some(k) && k > 0
    ensures 2 + k <= |s|
    ensures ReplaceCode(s) == "<code>" + s[1..1 + k] + "</code>" + ReplaceCode(s[2 + k..])
  {
  }

  /** Pass 3 writes no line feed of its own: text without one comes out without one. */
  lemma {:induction false} CodeAddsNoLineFeed(s: string)
    requires '\n' !in s
    ensures '\n' !in ReplaceCode(s)
    decreases |s|
  {
    if s == [] {
    } else if OpensCode(s) {
      var k := IndexOf(s[1..], '`').value;
      CodeStepMatch(s, k);
      var inner, rest := s[1..1 + k], s[2 + k..];
      assert '\n' !in inner by {
        forall j | 0 <= j < |inner| ensures inner[j] != '\n' {
          assert inner[j] == s[1 + j];
        }
      }
      assert '\n' !in rest by {
        forall j | 0 <= j < |rest| ensures rest[j] != '\n' {
          assert rest[j] == s[2 + k + j];
        }
      }
      CodeAddsNoLineFeed(rest);
      var open, close := "<code>", "</code>";
      assert '\n' !in open && '\n' !in close;
      assert ReplaceCode(s) == open + inner + close + ReplaceCode(rest);
    } else {
      CodeStepPlain(s);
      var rest := s[1..];
      assert '\n' !in rest by {
        forall j | 0 <= j < |rest| ensures rest[j] != '\n' {
          assert rest[j] == s[1 + j];
        }
      }
      CodeAddsNoLineFeed(rest);
      assert s[0] != '\n';
    }
  }

  /** `` `X` `` with X non-empty and free of backticks becomes `<code>X</code>`. */
  lemma CodeSpan(x: string, rest: string)
    requires x != [] && '`' !in x
    ensures ReplaceCode("`" + x + "`" + rest) == "<code>" + x + "</code>" + ReplaceCode(rest)
  {
    var s := "`" + x + "`" + rest;
    assert s[1..] == x + ("`" + rest);
    IndexOfAfter(x, "`" + rest, '`');
    assert IndexOf("`" + rest, '`') == Some(0);
    CodeStepMatch(s, |x|);
    assert s[1..1 + |x|] == x;
    assert s[2 + |x|..] == rest;
  }

  /** Two adjacent backticks enclose nothing: the first is kept and scanning resumes at the second. */
  lemma EmptyCodeSpanKept(rest: string)
    ensures ReplaceCode("``" + rest) == "`" + ReplaceCode("`" + rest)
  {
    var s := "``" + rest;
    assert s[1..] == "`" + rest;
    assert IndexOf(s[1..], '`') == Some(0);
  }

  /** Text before the first backtick is copied unchanged and does not affect how the rest is read. */
  lemma {:induction false} CodeAfterPlain(a: string, b: string)
    requires '`' !in a
    ensures ReplaceCode(a + b) == a + ReplaceCode(b)
  {
    if a == [] {
      assert a + b == b;
    } else {
      var s, tail := a + b, a[1..];
      assert s[0] == a[0] && a[0] != '`';
      assert s[1..] == tail + b;
      assert '`' !in tail by {
        forall j | 0 <= j < |tail| ensures tail[j] != '`' {
          assert tail[j] == a[1 + j];
        }
      }
      CodeStepPlain(s);
      CodeAfterPlain(tail, b);
      assert ReplaceCode(s) == [a[0]] + (tail + ReplaceCode(b));
      assert a == [a[0]] + tail;
    }
  }

  // ---------------------------------------------------------------- the whole formatter

  /** `formatMessage(text)`: the three passes in their source order. */
  function FormatMessage(text: string): (r: string)
    ensures '\n' !in r
    ensures '\n' !in text && '*' !in text && '`' !in text ==> r == text
  {
    var broken := ReplaceNewlines(text);
    var bold := ReplaceBold(broken);
    NoLineFeedAfterBreaks(text);
    BoldAddsNoLineFeed(broken);
    CodeAddsNoLineFeed(bold);
    assert '\n' !in text && '*' !in text && '`' !in text ==> ReplaceCode(bold) == text by {
      if '\n' !in text && '*' !in text && '`' !in text {
        BreaksLeavePlainText(text);
        BoldAfterPlain(text, []);
        CodeAfterPlain(text, []);
        assert text + [] == text;
      }
    }
    ReplaceCode(bold)
  }

  /** Plain text: none of the characters any pass looks at. */
  predicate Plain(x: string) {
    forall i :: 0 <= i < |x| ==> !IsLineTerminator(x[i]) && x[i] != '*' && x[i] != '`'
  }

  /**
   * The three passes together on a two-line message: a bold line, a line break, a code line.
   * `**X**` + line feed + `` `Y` `` becomes `<strong>X</strong><br><code>Y</code>`.
   */
  lemma FormatBoldThenCode(x: string, y: string)
    requires Plain(x) && Plain(y) && y != []
    ensures FormatMessage("**" + x + "**\n`" + y + "`") == "<strong>" + x + "</strong><br><code>" + y + "</code>"
  {
    var bold, code := "**" + x + "**", "`" + y + "`";
    assert "**" + x + "**\n`" + y + "`" == bold + "\n" + code;
    BreaksBetween(x, y);
    BoldBeforeBreak(x, y);
    CodeAfterBold(x, y);
  }

  lemma BreaksBetween(x: string, y: string)
    requires Plain(x) && Plain(y)
    ensures ReplaceNewlines("**" + x + "**" + "\n" + ("`" + y + "`")) == "**" + x + "**" + "<br>" + ("`" + y + "`")
  {
    var bold, code := "**" + x + "**", "`" + y + "`";
    assert '\n' !in bold by {
      assert forall i :: 2 <= i < |x| + 2 ==> bold[i] == x[i - 2];
    }
    assert '\n' !in code by {
      assert forall i :: 1 <= i < |y| + 1 ==> code[i] == y[i - 1];
    }
    BreaksLeavePlainText(bold);
    BreaksLeavePlainText(code);
    ReplaceNewlinesAppend(bold, "\n" + code);
    ReplaceNewlinesAppend("\n", code);
    assert ReplaceNewlines("\n") == "<br>";
    assert bold + "\n" + code == bold + ("\n" + code);
  }

  lemma BoldBeforeBreak(x: string, y: string)
    requires Plain(x) && Plain(y)
    ensures ReplaceBold("**" + x + "**" + "<br>" + ("`" + y + "`")) == "<strong>" + x + "</strong>" + "<br>" + ("`" + y + "`")
  {
    var br, code := "<br>", "`" + y + "`";
    PlainMisses(y);
    assert '*' !in code;
    assert '*' !in br;
    var tail := br + code;
    assert '*' !in tail;
    forall j | 0 <= j < |x| - 1 ensures !(x[j] == '*' && x[j + 1] == '*') { }
    BoldSpan(x, tail);
    BoldAfterPlain(tail, []);
    assert tail + [] == tail;
    assert "**" + x + "**" + br + code == "**" + x + "**" + tail;
    assert "<strong>" + x + "</strong>" + tail == "<strong>" + x + "</strong>" + br + code;
  }

  lemma CodeAfterBold(x: string, y: string)
    requires Plain(x) && Plain(y) && y != []
    ensures ReplaceCode("<strong>" + x + "</strong>" + "<br>" + ("`" + y + "`")) == "<strong>" + x + "</strong><br><code>" + y + "</code>"
  {
    PlainMisses(x);
    PlainMisses(y);
    var head := "<strong>" + x + "</strong>" + "<br>";
    TagsHaveNoBacktick(x);
    CodeAtEnd(head, y);
    assert head + ("<code>" + y + "</code>") == "<strong>" + x + "</strong><br><code>" + y + "</code>";
  }

  lemma TagsHaveNoBacktick(x: string)
    requires '`' !in x
    ensures '`' !in "<strong>" + x + "</strong>" + "<br>"
  {
    var open, close, br := "<strong>", "</strong>", "<br>";
    assert '`' !in open && '`' !in close && '`' !in br;
  }

  lemma CodeAtEnd(head: string, y: string)
    requires '`' !in head && '`' !in y && y != []
    ensures ReplaceCode(head + ("`" + y + "`")) == head + ("<code>" + y + "</code>")
  {
    var code := "`" + y + "`";
    CodeAfterPlain(head, code);
    CodeSpan(y, []);
    assert code == "`" + y + "`" + [];
    assert "<code>" + y + "</code>" + [] == "<code>" + y + "</code>";
  }

  lemma PlainMisses(x: string)
    requires Plain(x)
    ensures '*' !in x && '`' !in x && '\n' !in x
  {
    assert IsLineTerminator('\n');
  }
}

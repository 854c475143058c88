/** Telegram MarkdownV2 escaping and the small presentation helpers built on it. */
module Markdown {
  import opened Models
  import Catalog

  /** The 18 characters MarkdownV2 reserves. */
  predicate IsSpecial(c: char)
  {
    c in {'_', '*', '[', ']', '(', ')', '~', '`', '>', '#', '+', '-', '=', '|', '{', '}', '.', '!'}
  }

  /** One input character as it appears in the output. */
  function EscapeChar(c: char): string
  {
    if IsSpecial(c) then ['\\', c] else [c]
  }

  /** The escaped text: each reserved character preceded by a backslash, every other
      character (the backslash included) copied unchanged. */
  function Escape(s: string): string
  {
    if |s| == 0 then "" else EscapeChar(s[0]) + Escape(s[1..])
  }

  function CountSpecials(s: string): nat
  {
    if |s| == 0 then 0 else (if IsSpecial(s[0]) then 1 else 0) + CountSpecials(s[1..])
  }

  /** Removes the backslash in front of each reserved character. */
  function Unescape(t: string): string
  {
    if |t| == 0 then ""
    else if t[0] == '\\' && |t| > 1 && IsSpecial(t[1]) then [t[1]] + Unescape(t[2..])
    else [t[0]] + Unescape(t[1..])
  }

  /** Escaping distributes over concatenation. */
  lemma {:induction false} EscapeConcat(a: string, b: string)
    ensures Escape(a + b) == Escape(a) + Escape(b)
  {
    if |a| > 0 {
      EscapeConcat(a[1..], b);
      assert (a + b)[1..] == a[1..] + b;
    } else {
      assert a + b == b;
    }
  }

  /** `escape_markdown_v2`: builds the output character by character. */
  method EscapeMarkdownV2(text: string) returns (out: string)
    ensures out == Escape(text)
  {
    out := "";
    for i := 0 to |text|
      invariant out == Escape(text[..i])
    {
      EscapeConcat(text[..i], [text[i]]);
      assert text[..i + 1] == text[..i] + [text[i]];
      if IsSpecial(text[i]) {
        out := out + ['\\'];
      }
      out := out + [text[i]];
    }
    assert text[..|text|] == text;
  }

  /** The output is the input lengthened by one backslash per reserved character. */
  lemma {:induction false} EscapeLength(s: string)
    ensures |Escape(s)| == |s| + CountSpecials(s)
  {
    if |s| > 0 {
      EscapeLength(s[1..]);
    }
  }

  /** No reserved character of the output stands without a backslash in front of it. */
  lemma {:induction false} EscapeIsWellEscaped(s: string)
    ensures forall i :: 0 <= i < |Escape(s)| && IsSpecial(Escape(s)[i]) ==> i > 0 && Escape(s)[i - 1] == '\\'
  {
    if |s| > 0 {
      EscapeIsWellEscaped(s[1..]);
      var head, tail := EscapeChar(s[0]), Escape(s[1..]);
      assert Escape(s) == head + tail;
      forall i | 0 <= i < |Escape(s)| && IsSpecial(Escape(s)[i])
        ensures i > 0 && Escape(s)[i - 1] == '\\'
      {
        if i >= |head| {
          assert Escape(s)[i] == tail[i - |head|];
          if i - |head| > 0 {
            assert Escape(s)[i - 1] == tail[i - |head| - 1];
          }
        }
      }
    }
  }

  /** The escaped text never begins with a reserved character. */
  lemma EscapeStartsPlain(s: string)
    requires |Escape(s)| > 0
    ensures !IsSpecial(Escape(s)[0])
  {
    assert |s| > 0;
    assert Escape(s)[0] == EscapeChar(s[0])[0];
  }

  /** Text without any of the reserved characters is left exactly as it is. */
  lemma {:induction false} EscapePlainText(s: string)
    requires forall i :: 0 <= i < |s| ==> !IsSpecial(s[i])
    ensures Escape(s) == s
  {
    if |s| > 0 {
      EscapePlainText(s[1..]);
      assert [s[0]] + s[1..] == s;
    }
  }

  /** An escaped text followed by a text that does not start with a reserved character does
      not start with one either. */
  lemma EscapeThenPlain(x: string, y: string)
    requires |y| == 0 || !IsSpecial(y[0])
    ensures |Escape(x) + y| == 0 || !IsSpecial((Escape(x) + y)[0])
  {
    if |Escape(x)| > 0 {
      EscapeStartsPlain(x);
    } else {
      assert Escape(x) + y == y;
    }
  }

  /** Unescaping an escaped text followed by any text that does not start with a reserved
      character recovers the original text. */
  lemma {:induction false} UnescapeEscape(x: string, y: string)
    requires |y| == 0 || !IsSpecial(y[0])
    ensures Unescape(Escape(x) + y) == x + Unescape(y)
  {
    if |x| == 0 {
      assert Escape(x) + y == y;
    } else {
      var c, t := x[0], Escape(x[1..]) + y;
      UnescapeEscape(x[1..], y);
      EscapeThenPlain(x[1..], y);
      calc {
        Unescape(Escape(x) + y);
        { assert Escape(x) + y == EscapeChar(c) + t; }
        Unescape(EscapeChar(c) + t);
        { if IsSpecial(c) { UnescapeEscaped(c, t); } else { UnescapePlain(c, t); } }
        [c] + Unescape(t);
        [c] + (x[1..] + Unescape(y));
        { assert [c] + x[1..] == x; }
        x + Unescape(y);
      }
    }
  }

  /** Deleting the inserted backslashes gives back the input; a backslash of the input is
      itself never escaped. */
  lemma EscapeRoundTrip(s: string)
    ensures Unescape(Escape(s)) == s
    ensures !IsSpecial('\\') && Escape("\\") == "\\"
  {
    UnescapeEscape(s, "");
    assert Escape(s) + "" == Escape(s);
    assert s + "" == s;
  }

  /** A backslash followed by a reserved character unescapes to that character. */
  lemma UnescapeEscaped(c: char, u: string)
    requires IsSpecial(c)
    ensures Unescape(['\\', c] + u) == [c] + Unescape(u)
  {
    var t := ['\\', c] + u;
    assert t[0] == '\\' && t[1] == c && t[2..] == u;
  }

  /** A character passes through unescaping unless it is a backslash in front of a reserved
      character. */
  lemma UnescapePlain(c: char, u: string)
    requires c != '\\' || |u| == 0 || !IsSpecial(u[0])
    ensures Unescape([c] + u) == [c] + Unescape(u)
  {
    assert ([c] + u)[1..] == u;
  }

  /** Text without backslashes passes through unescaping unchanged, whatever follows it. */
  lemma {:induction false} UnescapeNoBackslash(p: string, u: string)
    requires forall i :: 0 <= i < |p| ==> p[i] != '\\'
    ensures Unescape(p + u) == p + Unescape(u)
  {
    if |p| > 0 {
      var t := p + u;
      assert t[0] == p[0] && t[1..] == p[1..] + u;
      UnescapeNoBackslash(p[1..], u);
      calc {
        Unescape(t);
        [p[0]] + Unescape(p[1..] + u);
        [p[0]] + (p[1..] + Unescape(u));
        { assert [p[0]] + p[1..] == p; }
        p + Unescape(u);
      }
    } else {
      assert p + u == u;
    }
  }

  /** Unescaping an escaped "<name> - <specialty>" label gives the plain label; the
      unescaped '-' of the separator stays as it is. */
  lemma LabelReadsBack(name: string, specialty: string)
    ensures Unescape(Escape(name) + " - " + Escape(specialty)) == name + " - " + specialty
  {
    var e := Escape(specialty);
    var sep := " - ";
    assert Unescape(e) == specialty by {
      UnescapeEscape(specialty, "");
      assert e + "" == e && specialty + "" == specialty;
    }
    calc {
      Unescape(Escape(name) + sep + e);
      { assert Escape(name) + sep + e == Escape(name) + (sep + e); }
      Unescape(Escape(name) + (sep + e));
      { assert (sep + e)[0] == ' '; UnescapeEscape(name, sep + e); }
      name + Unescape(sep + e);
      { UnescapeNoBackslash(sep, e); }
      name + (sep + specialty);
    }
    assert name + (sep + specialty) == name + sep + specialty;
  }

  /** `format_ai_info`: "<name> - <specialty>" with name and specialty escaped; reading it
      back with the backslashes removed gives the plain label. */
  function FormatAiInfo(a: Catalog.Assistant): (info: string)
    ensures Unescape(info) == a.name + " - " + a.specialty
    ensures |info| == |a.name| + CountSpecials(a.name) + 3 + |a.specialty| + CountSpecials(a.specialty)
  {
    LabelReadsBack(a.name, a.specialty);
    EscapeLength(a.name);
    EscapeLength(a.specialty);
    Escape(a.name) + " - " + Escape(a.specialty)
  }

  /** `make_session_management_keyboard`, as the callback data of its button rows: an
      "end_session" row while the user can chat, then always a final "new_session" row. */
  method SessionManagementKeyboard(s: UserState, now: Timestamp) returns (keyboard: seq<string>)
    ensures ("end_session" in keyboard) <==> CanChat(s, now)
    ensures |keyboard| == (if CanChat(s, now) then 2 else 1)
    ensures keyboard[|keyboard| - 1] == "new_session"
  {
    keyboard := [];
    if s.currentSession.Some? {
      var session := s.currentSession.value;
      if session.isActive && now < session.paidUntil {
        keyboard := keyboard + ["end_session"];
      }
    }
    keyboard := keyboard + ["new_session"];
  }
}

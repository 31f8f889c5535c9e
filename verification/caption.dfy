/** The caption escaper of `renderVideo`: the title is made safe for the
    single-quoted `text='…'` field of the drawtext filter by four global
    replacements applied in sequence. */
module Caption {
  import opened Values

  /** Caption used when the request carries no `title` field at all. */
  const DefaultTitle: string := "Notícia do Dia"

  /** Characters the escaper rewrites. */
  const Special: set<char> := {'\\', ':', '\'', '\n'}

  /** Characters that appear escaped (after a backslash) in an escaped caption. */
  const Escapable: set<char> := {'\\', ':', '\''}

  /** Number of occurrences of `c` in `s`. */
  function Count(s: string, c: char): nat {
    if |s| == 0 then 0 else (if s[0] == c then 1 else 0) + Count(s[1..], c)
  }

  /** `s.replace(/c/g, rep)`: every occurrence of `c` becomes `rep`, in one pass. */
  function ReplaceAll(s: string, c: char, rep: string): string {
    if |s| == 0 then [] else (if s[0] == c then rep else [s[0]]) + ReplaceAll(s[1..], c, rep)
  }

  /** The escaper exactly as the source chains it: backslashes first, then
      colons, then quotes, then newlines. */
  function Escape(title: string): string {
    var doubled := ReplaceAll(title, '\\', "\\\\");
    var colons := ReplaceAll(doubled, ':', "\\:");
    var quotes := ReplaceAll(colons, '\'', "\\'");
    ReplaceAll(quotes, '\n', " ")
  }

  /** `title || ""` followed by the escaper: the `safeTitle` of `renderVideo`. */
  function SafeTitle(title: Field): string {
    Escape(OrElse(title, ""))
  }

  /** The caption source a handler hands to `renderVideo`: the `title` field
      with its destructuring default. */
  function HandlerTitle(title: Field): Field {
    WithDefault(title, DefaultTitle)
  }

  // ---------------------------------------------------------------------------
  // Reference definitions

  /** Independent, one-character-at-a-time statement of what the escaper does. */
  function EscapeChar(c: char): string {
    if c == '\n' then " " else if c in Escapable then ['\\', c] else [c]
  }

  function EscapeEach(s: string): string {
    if |s| == 0 then [] else EscapeChar(s[0]) + EscapeEach(s[1..])
  }

  /** Every newline replaced by a space: the only information the escaper loses. */
  function NewlinesToSpaces(s: string): string {
    ReplaceAll(s, '\n', " ")
  }

  /** Left-to-right unescape: a backslash and the character after it become
      that character; anything else is kept. */
  function Unescape(s: string): string {
    if |s| == 0 then []
    else if s[0] == '\\' && |s| >= 2 then [s[1]] + Unescape(s[2..])
    else [s[0]] + Unescape(s[1..])
  }

  /** The shape of an escaped caption: a sequence of plain characters (none of
      the special ones) and backslash pairs whose second half is `\`, `:` or `'`. */
  predicate WellEscaped(s: string) {
    if |s| == 0 then true
    else if s[0] == '\\' then |s| >= 2 && s[1] in Escapable && WellEscaped(s[2..])
    else s[0] !in Special && WellEscaped(s[1..])
  }

  /** Where a quoted field `'…'` that starts just before `s` ends, when a
      backslash protects the character after it: the index of the first
      unprotected quote, or `|s|` if there is none. */
  function QuotedLength(s: string): (n: nat)
    ensures n <= |s|
    ensures n < |s| ==> s[n] == '\''
  {
    if |s| == 0 then 0
    else if s[0] == '\'' then 0
    else if s[0] == '\\' && |s| >= 2 then 2 + QuotedLength(s[2..])
    else 1 + QuotedLength(s[1..])
  }

  // ---------------------------------------------------------------------------
  // The four passes equal the character-wise reference

  lemma {:induction false} ReplaceAllAppend(a: string, b: string, c: char, rep: string)
    ensures ReplaceAll(a + b, c, rep) == ReplaceAll(a, c, rep) + ReplaceAll(b, c, rep)
  {
    if |a| == 0 {
      assert a + b == b;
    } else {
      assert (a + b)[1..] == a[1..] + b;
      ReplaceAllAppend(a[1..], b, c, rep);
    }
  }

  lemma ReplaceAllOne(x: char, c: char, rep: string)
    ensures ReplaceAll([x], c, rep) == if x == c then rep else [x]
  {
    assert [x][1..] == [];
  }

  lemma ReplaceAllTwo(x: char, y: char, c: char, rep: string)
    ensures ReplaceAll([x, y], c, rep) == (if x == c then rep else [x]) + (if y == c then rep else [y])
  {
    assert [x, y] == [x] + [y];
    ReplaceAllAppend([x], [y], c, rep);
    ReplaceAllOne(x, c, rep);
    ReplaceAllOne(y, c, rep);
  }

  /** The four passes applied to one character give `EscapeChar`: a backslash
      inserted by an earlier pass is never rewritten by a later one. */
  lemma EscapeOne(x: char)
    ensures Escape([x]) == EscapeChar(x)
  {
    ReplaceAllOne(x, '\\', "\\\\");
    if x == '\\' {
      ReplaceAllTwo('\\', '\\', ':', "\\:");
      ReplaceAllTwo('\\', '\\', '\'', "\\'");
      ReplaceAllTwo('\\', '\\', '\n', " ");
    } else {
      ReplaceAllOne(x, ':', "\\:");
      if x == ':' {
        ReplaceAllTwo('\\', ':', '\'', "\\'");
        ReplaceAllTwo('\\', ':', '\n', " ");
      } else {
        ReplaceAllOne(x, '\'', "\\'");
        if x == '\'' {
          ReplaceAllTwo('\\', '\'', '\n', " ");
        } else {
          ReplaceAllOne(x, '\n', " ");
        }
      }
    }
  }

  lemma EscapeAppend(a: string, b: string)
    ensures Escape(a + b) == Escape(a) + Escape(b)
  {
    var a1, b1 := ReplaceAll(a, '\\', "\\\\"), ReplaceAll(b, '\\', "\\\\");
    ReplaceAllAppend(a, b, '\\', "\\\\");
    var a2, b2 := ReplaceAll(a1, ':', "\\:"), ReplaceAll(b1, ':', "\\:");
    ReplaceAllAppend(a1, b1, ':', "\\:");
    var a3, b3 := ReplaceAll(a2, '\'', "\\'"), ReplaceAll(b2, '\'', "\\'");
    ReplaceAllAppend(a2, b2, '\'', "\\'");
    ReplaceAllAppend(a3, b3, '\n', " ");
  }

  /** The source's chained replacements compute the character-wise escape. */
  lemma {:induction false} EscapeIsCharwise(t: string)
    ensures Escape(t) == EscapeEach(t)
  {
    if |t| == 0 {
    } else {
      assert t == [t[0]] + t[1..];
      EscapeAppend([t[0]], t[1..]);
      EscapeOne(t[0]);
      EscapeIsCharwise(t[1..]);
    }
  }

  // ---------------------------------------------------------------------------
  // Properties of the character-wise escape

  lemma {:induction false} EachNoNewline(t: string)
    ensures '\n' !in EscapeEach(t)
  {
    if |t| > 0 {
      EachNoNewline(t[1..]);
    }
  }

  lemma {:induction false} EachLength(t: string)
    ensures |EscapeEach(t)| == |t| + Count(t, '\\') + Count(t, ':') + Count(t, '\'')
  {
    if |t| > 0 {
      EachLength(t[1..]);
    }
  }

  lemma {:induction false} EachWellEscaped(t: string)
    ensures WellEscaped(EscapeEach(t))
  {
    if |t| > 0 {
      var rest := EscapeEach(t[1..]);
      EachWellEscaped(t[1..]);
      var s := EscapeChar(t[0]) + rest;
      if t[0] in Escapable {
        assert s[2..] == rest;
      } else {
        assert s[1..] == rest;
      }
    }
  }

  lemma {:induction false} EachUnescape(t: string)
    ensures Unescape(EscapeEach(t)) == NewlinesToSpaces(t)
  {
    if |t| > 0 {
      var rest := EscapeEach(t[1..]);
      EachUnescape(t[1..]);
      var s := EscapeChar(t[0]) + rest;
      if t[0] in Escapable {
        assert s[2..] == rest;
      } else {
        assert s[1..] == rest;
      }
    }
  }

  lemma {:induction false} EachIdentity(t: string)
    requires forall i :: 0 <= i < |t| ==> t[i] !in Special
    ensures EscapeEach(t) == t
  {
    if |t| > 0 {
      EachIdentity(t[1..]);
    }
  }

  lemma {:induction false} EachIgnoresNewlines(t: string)
    ensures EscapeEach(NewlinesToSpaces(t)) == EscapeEach(t)
  {
    if |t| > 0 {
      var c := if t[0] == '\n' then ' ' else t[0];
      assert NewlinesToSpaces(t) == [c] + NewlinesToSpaces(t[1..]);
      assert ([c] + NewlinesToSpaces(t[1..]))[1..] == NewlinesToSpaces(t[1..]);
      EachIgnoresNewlines(t[1..]);
    }
  }

  /** On the escaped shape, escaping the unescaped text rebuilds it. */
  lemma {:induction false} WellEscapedRoundTrip(s: string)
    requires WellEscaped(s)
    ensures EscapeEach(Unescape(s)) == s
  {
    if |s| == 0 {
    } else if s[0] == '\\' {
      WellEscapedRoundTrip(s[2..]);
      assert Unescape(s) == [s[1]] + Unescape(s[2..]);
      assert s == [s[0], s[1]] + s[2..];
    } else {
      WellEscapedRoundTrip(s[1..]);
      assert Unescape(s) == [s[0]] + Unescape(s[1..]);
      assert s == [s[0]] + s[1..];
    }
  }

  // ---------------------------------------------------------------------------
  // Properties of the escaper as written

  /** No raw newline survives escaping. */
  lemma EscapeNoNewline(t: string)
    ensures '\n' !in Escape(t)
  {
    EscapeIsCharwise(t);
    EachNoNewline(t);
  }

  /** Each backslash, colon and quote gains exactly one character; nothing else changes length. */
  lemma EscapeLength(t: string)
    ensures |Escape(t)| == |t| + Count(t, '\\') + Count(t, ':') + Count(t, '\'')
  {
    EscapeIsCharwise(t);
    EachLength(t);
  }

  /** Every colon, quote and backslash of the result is the second half of a backslash pair. */
  lemma EscapeWellEscaped(t: string)
    ensures WellEscaped(Escape(t))
  {
    EscapeIsCharwise(t);
    EachWellEscaped(t);
  }

  /** Unescaping the escaped caption gives the title with newlines turned into spaces. */
  lemma UnescapeEscape(t: string)
    ensures Unescape(Escape(t)) == NewlinesToSpaces(t)
  {
    EscapeIsCharwise(t);
    EachUnescape(t);
  }

  /** A title without backslash, colon, quote or newline is passed through unchanged. */
  lemma EscapeIdentityOnPlain(t: string)
    requires forall i :: 0 <= i < |t| ==> t[i] !in Special
    ensures Escape(t) == t
  {
    EscapeIsCharwise(t);
    EachIdentity(t);
  }

  /** Newlines and spaces are indistinguishable after escaping, so the escaper is not injective. */
  lemma EscapeIgnoresNewlines(t: string)
    ensures Escape(NewlinesToSpaces(t)) == Escape(t)
  {
    EscapeIsCharwise(t);
    EscapeIsCharwise(NewlinesToSpaces(t));
    EachIgnoresNewlines(t);
  }

  lemma EscapeNotInjective()
    ensures "a\nb" != "a b" && Escape("a\nb") == Escape("a b")
  {
    EscapeIgnoresNewlines("a\nb");
    assert NewlinesToSpaces("a\nb") == "a b" by {
      ReplaceAllOne('b', '\n', " ");
      assert "a\nb"[1..] == "\nb";
      assert "\nb"[1..] == "b";
    }
  }

  /** The escaped captions are exactly the well-escaped strings. */
  lemma EscapeRange(s: string)
    ensures WellEscaped(s) <==> exists t :: Escape(t) == s
  {
    if WellEscaped(s) {
      WellEscapedRoundTrip(s);
      EscapeIsCharwise(Unescape(s));
      assert Escape(Unescape(s)) == s;
    }
    if exists t :: Escape(t) == s {
      var t :| Escape(t) == s;
      EscapeWellEscaped(t);
    }
  }

  /** A well-escaped caption placed inside `'…'` ends exactly at the closing
      quote written after it: no quote of the caption closes the field early. */
  lemma {:induction false} QuotedFieldEndsAfterCaption(e: string, rest: string)
    requires WellEscaped(e)
    ensures QuotedLength(e + ['\''] + rest) == |e|
  {
    var s := e + ['\''] + rest;
    if |e| == 0 {
      assert s[0] == '\'';
    } else if e[0] == '\\' {
      assert s[2..] == e[2..] + ['\''] + rest;
      QuotedFieldEndsAfterCaption(e[2..], rest);
    } else {
      assert s[1..] == e[1..] + ['\''] + rest;
      QuotedFieldEndsAfterCaption(e[1..], rest);
    }
  }

  /** Where the caption comes from: the default when `title` is missing, the
      empty string when it is `null` or empty, the title itself otherwise. */
  lemma CaptionSource(title: Field)
    ensures title.Absent? ==> SafeTitle(HandlerTitle(title)) == Escape(DefaultTitle)
    ensures (title.Null? || title == Str("")) ==> SafeTitle(HandlerTitle(title)) == ""
    ensures Truthy(title) ==> SafeTitle(HandlerTitle(title)) == Escape(title.s)
  {
  }

  /** The default caption contains nothing the escaper rewrites. */
  lemma DefaultTitleIsPlain()
    ensures Escape(DefaultTitle) == DefaultTitle
  {
    var t := DefaultTitle;
    forall i | 0 <= i < |t|
      ensures t[i] !in Special
    {
      assert t[i] in "Notícia do Dia";
    }
    EscapeIdentityOnPlain(t);
  }
}

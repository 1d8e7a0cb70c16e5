/**
 * Text utilities of the backend (backend/app/utils/text.py): keyword
 * normalisation, stop-word tokenising and LaTeX escaping.
 */
module Text {
  import opened Strings

  /** The fixed stop-word set. */
  const Stopwords: set<string> := {
    "and", "or", "the", "a", "an", "of", "to", "in", "for", "with", "on", "by",
    "at", "is", "are", "as", "be", "this", "that", "these", "those"
  }

  // ---------------------------------------------------------------- normalize_text

  /** Characters that survive normalisation: `a-z`, `0-9`, whitespace and `-`. */
  predicate Kept(c: char) {
    IsLower(c) || IsDigit(c) || IsSpace(c) || c == '-'
  }

  /** The characters of normalised text: `a-z`, `0-9`, space and `-`. */
  predicate NormalChar(c: char) {
    IsLower(c) || IsDigit(c) || c == ' ' || c == '-'
  }

  /** Normal form: normal characters, no space at either end, no two spaces in a row. */
  predicate IsNormal(s: string) {
    && (forall i :: 0 <= i < |s| ==> NormalChar(s[i]))
    && (s == [] || (s[0] != ' ' && s[|s| - 1] != ' '))
    && (forall i :: 0 <= i < |s| - 1 ==> !(s[i] == ' ' && s[i + 1] == ' '))
  }

  /** Lower-casing leaves text of normal characters alone. */
  lemma {:induction false} NormalCharsLower(t: string)
    requires forall j :: 0 <= j < |t| ==> NormalChar(t[j])
    ensures Lower(t) == t
  {
    forall j | 0 <= j < |t|
      ensures Lower(t)[j] == t[j]
    {
      assert NormalChar(t[j]);
    }
  }

  /** Step `re.sub(r"[^a-z0-9\s-]", " ", lowered)`. */
  function ReplaceOthers(s: string): (r: string)
    ensures |r| == |s|
    ensures forall i :: 0 <= i < |s| ==> r[i] == if Kept(s[i]) then s[i] else ' '
  {
    seq(|s|, i requires 0 <= i < |s| => if Kept(s[i]) then s[i] else ' ')
  }

  /** Step `re.sub(r"\s+", " ", t)`: each maximal whitespace run becomes one space. */
  function CollapseRuns(t: string): (r: string)
    decreases |t|
  {
    if t == [] then []
    else if IsSpace(t[0]) then " " + CollapseRuns(TrimStart(t))
    else [t[0]] + CollapseRuns(t[1..])
  }

  /**
   * `normalize_text`: lower case, every character outside `[a-z0-9\s-]`
   * becomes a space, whitespace runs collapse to one space, ends stripped.
   * (The NFKD step is not part of this model.)
   */
  function NormalizeText(text: string): string
  {
    Strip(CollapseRuns(ReplaceOthers(Lower(text))))
  }

  predicate CollapsedShape(r: string) {
    && (forall i :: 0 <= i < |r| ==> IsSpace(r[i]) ==> r[i] == ' ')
    && (forall i :: 0 <= i < |r| - 1 ==> !(r[i] == ' ' && r[i + 1] == ' '))
  }

  lemma {:induction false} CollapseRunsHead(t: string)
    requires t != [] && !IsSpace(t[0])
    ensures CollapseRuns(t) != [] && CollapseRuns(t)[0] == t[0]
  {
  }

  lemma {:induction false} CollapseRunsShape(t: string)
    ensures CollapsedShape(CollapseRuns(t))
    decreases |t|
  {
    if t == [] {
    } else if IsSpace(t[0]) {
      var u := TrimStart(t);
      CollapseRunsShape(u);
      var c := CollapseRuns(u);
      var r := " " + c;
      if u != [] {
        CollapseRunsHead(u);
      }
      forall i | 0 <= i < |r| - 1 ensures !(r[i] == ' ' && r[i + 1] == ' ') {
        if i > 0 {
          assert r[i] == c[i - 1] && r[i + 1] == c[i];
        } else {
          assert r[1] == c[0] == u[0];
        }
      }
      forall i | 0 <= i < |r| && IsSpace(r[i]) ensures r[i] == ' ' {
        if i > 0 {
          assert r[i] == c[i - 1];
        }
      }
    } else {
      var u := t[1..];
      CollapseRunsShape(u);
      var c := CollapseRuns(u);
      var r := [t[0]] + c;
      forall i | 0 <= i < |r| - 1 ensures !(r[i] == ' ' && r[i + 1] == ' ') {
        if i > 0 {
          assert r[i] == c[i - 1] && r[i + 1] == c[i];
        }
      }
      forall i | 0 <= i < |r| && IsSpace(r[i]) ensures r[i] == ' ' {
        if i > 0 {
          assert r[i] == c[i - 1];
        }
      }
    }
  }

  /** Collapsing whitespace introduces no character other than a space. */
  lemma {:induction false} CollapseRunsChars(t: string)
    requires forall i :: 0 <= i < |t| ==> IsSpace(t[i]) || NormalChar(t[i])
    ensures forall i :: 0 <= i < |CollapseRuns(t)| ==> NormalChar(CollapseRuns(t)[i])
    decreases |t|
  {
    if t == [] {
    } else if IsSpace(t[0]) {
      var u := TrimStart(t);
      assert forall i :: 0 <= i < |u| ==> u[i] == t[|t| - |u| + i];
      CollapseRunsChars(u);
      var c := CollapseRuns(u);
      assert CollapseRuns(t) == " " + c;
      forall i | 0 <= i < |" " + c| ensures NormalChar((" " + c)[i]) {
        if i > 0 {
          assert (" " + c)[i] == c[i - 1];
        }
      }
    } else {
      var u := t[1..];
      CollapseRunsChars(u);
      var c := CollapseRuns(u);
      assert CollapseRuns(t) == [t[0]] + c;
      assert NormalChar(t[0]);
      forall i | 0 <= i < |[t[0]] + c| ensures NormalChar(([t[0]] + c)[i]) {
        if i > 0 {
          assert ([t[0]] + c)[i] == c[i - 1];
        }
      }
    }
  }

  /** Collapsing whitespace never lengthens the text. */
  lemma {:induction false} CollapseRunsLength(t: string)
    ensures |CollapseRuns(t)| <= |t|
    decreases |t|
  {
    if t != [] {
      if IsSpace(t[0]) {
        CollapseRunsLength(TrimStart(t));
      } else {
        CollapseRunsLength(t[1..]);
      }
    }
  }

  /** Normalising never lengthens the text. */
  lemma {:induction false} NormalizeLength(text: string)
    ensures |NormalizeText(text)| <= |text|
  {
    CollapseRunsLength(ReplaceOthers(Lower(text)));
  }

  lemma {:induction false} StripSlice(s: string) returns (a: nat)
    ensures a + |Strip(s)| <= |s| && Strip(s) == s[a..a + |Strip(s)|]
  {
    var t := TrimStart(s);
    a := |s| - |t|;
    assert Strip(s) == TrimEnd(t) <= t;
  }

  lemma {:induction false} ReplaceOthersChars(s: string)
    ensures var m := ReplaceOthers(s); forall i :: 0 <= i < |m| ==> IsSpace(m[i]) || NormalChar(m[i])
  {
  }

  lemma {:induction false} StripOfCollapsed(c: string)
    requires forall i :: 0 <= i < |c| - 1 ==> !(c[i] == ' ' && c[i + 1] == ' ')
    requires forall i :: 0 <= i < |c| ==> NormalChar(c[i])
    ensures IsNormal(Strip(c))
  {
    StripChars(c);
    StripNoDoubleSpace(c);
    StripEnds(c);
  }

  /** Stripping keeps only characters of the text. */
  lemma {:induction false} StripChars(c: string)
    requires forall i :: 0 <= i < |c| ==> NormalChar(c[i])
    ensures forall i :: 0 <= i < |Strip(c)| ==> NormalChar(Strip(c)[i])
  {
    var a := StripSlice(c);
    var r := Strip(c);
    forall i | 0 <= i < |r| ensures NormalChar(r[i]) {
      assert r[i] == c[a + i];
    }
  }

  /** Stripping text without a double space leaves none. */
  lemma {:induction false} StripNoDoubleSpace(c: string)
    requires forall i :: 0 <= i < |c| - 1 ==> !(c[i] == ' ' && c[i + 1] == ' ')
    ensures forall i :: 0 <= i < |Strip(c)| - 1 ==> !(Strip(c)[i] == ' ' && Strip(c)[i + 1] == ' ')
  {
    var a := StripSlice(c);
    SliceNoDoubleSpace(c, a, Strip(c));
  }

  lemma {:induction false} SliceNoDoubleSpace(c: string, a: nat, r: string)
    requires a + |r| <= |c| && r == c[a..a + |r|]
    requires forall i :: 0 <= i < |c| - 1 ==> !(c[i] == ' ' && c[i + 1] == ' ')
    ensures forall i :: 0 <= i < |r| - 1 ==> !(r[i] == ' ' && r[i + 1] == ' ')
  {
    forall i | 0 <= i < |r| - 1 ensures !(r[i] == ' ' && r[i + 1] == ' ') {
      assert r[i] == c[a + i] && r[i + 1] == c[a + i + 1];
    }
  }

  /** Stripped text neither starts nor ends with a space. */
  lemma {:induction false} StripEnds(c: string)
    ensures var r := Strip(c); r == [] || (r[0] != ' ' && r[|r| - 1] != ' ')
  {
    SpaceIsSpace();
  }

  lemma {:induction false} SpaceIsSpace()
    ensures IsSpace(' ')
  {
  }

  /** `normalize_text` always produces text in normal form. */
  lemma {:induction false} NormalizeIsNormal(text: string)
    ensures IsNormal(NormalizeText(text))
  {
    var m := ReplaceOthers(Lower(text));
    ReplaceOthersChars(Lower(text));
    CollapseRunsShape(m);
    CollapseRunsChars(m);
    StripOfCollapsed(CollapseRuns(m));
  }

  lemma {:induction false} CollapseRunsOfNormal(s: string)
    requires CollapsedShape(s)
    requires s == [] || s[0] != ' '
    ensures CollapseRuns(s) == s
    decreases |s|
  {
    if s != [] {
      assert !IsSpace(s[0]);
      var u := s[1..];
      if u != [] && u[0] == ' ' {
        var v := u[1..];
        assert v == [] || v[0] != ' ';
        assert TrimStart(u) == v by {
          assert v == [] || !IsSpace(v[0]);
        }
        CollapseRunsOfNormal(v);
        assert CollapseRuns(u) == " " + v;
        assert u == " " + v;
      } else {
        CollapseRunsOfNormal(u);
      }
    }
  }

  /** Text already in normal form is its own normalisation. */
  lemma {:induction false} NormalizeOfNormal(s: string)
    requires IsNormal(s)
    ensures NormalizeText(s) == s
  {
    assert Lower(s) == s;
    assert ReplaceOthers(s) == s;
    CollapseRunsOfNormal(s);
    if s != [] {
      assert TrimStart(s) == s;
      assert TrimEnd(s) == s;
    }
  }

  /** Normalising normalised text changes nothing: `normalize_text` is idempotent. */
  lemma {:induction false} NormalizeIdempotent(text: string)
    ensures NormalizeText(NormalizeText(text)) == NormalizeText(text)
  {
    NormalizeIsNormal(text);
    NormalizeOfNormal(NormalizeText(text));
  }

  // ---------------------------------------------------------------- tokenize

  /** A piece kept by `tokenize`: non-empty and not a stop word. */
  predicate IsToken(t: string) {
    t != [] && t !in Stopwords
  }

  function FilterTokens(pieces: seq<string>): (r: seq<string>)
  {
    if pieces == [] then []
    else if IsToken(pieces[0]) then [pieces[0]] + FilterTokens(pieces[1..])
    else FilterTokens(pieces[1..])
  }

  /** `tokenize`: the space-separated pieces of the text that are tokens, in order. */
  function Tokenize(text: string): seq<string>
  {
    FilterTokens(Split(text, ' '))
  }

  lemma {:induction false} FilterTokensMembers(pieces: seq<string>, t: string)
    ensures t in FilterTokens(pieces) <==> t in pieces && IsToken(t)
  {
    if pieces != [] {
      FilterTokensMembers(pieces[1..], t);
      assert pieces == [pieces[0]] + pieces[1..];
    }
  }

  /** A string is a token of the text exactly when it is a non-empty, non-stop-word piece. */
  lemma {:induction false} TokenizeMembers(text: string, t: string)
    ensures t in Tokenize(text) <==> t in Split(text, ' ') && t != [] && t !in Stopwords
  {
    FilterTokensMembers(Split(text, ' '), t);
  }

  // ---------------------------------------------------------------- escape_latex

  /** Characters that `escape_latex` replaces. */
  predicate IsSpecial(c: char) {
    c == '\\' || c == '&' || c == '%' || c == '$' || c == '#' || c == '_'
    || c == '{' || c == '}' || c == '~' || c == '^'
  }

  /** Characters that the escaped form always shows behind a backslash. */
  predicate NeedsBackslash(c: char) {
    c == '&' || c == '%' || c == '$' || c == '#' || c == '_'
  }

  /** The replacement table of `escape_latex`, applied to one character. */
  function EscapeChar(c: char): (r: string)
    ensures |r| >= 1
    ensures !IsSpecial(c) ==> r == [c]
    ensures IsSpecial(c) ==> r[0] == '\\'
  {
    match c
    case '\\' => "\\textbackslash{}"
    case '&' => "\\&"
    case '%' => "\\%"
    case '$' => "\\$"
    case '#' => "\\#"
    case '_' => "\\_"
    case '{' => "\\{"
    case '}' => "\\}"
    case '~' => "\\textasciitilde{}"
    case '^' => "\\textasciicircum{}"
    case _ => [c]
  }

  /** The escaped form of a whole string, character by character. */
  function Escape(s: string): string
  {
    if s == [] then [] else EscapeChar(s[0]) + Escape(s[1..])
  }

  /** `escape_latex`: one replacement per character, left to right. */
  method EscapeLatex(text: string) returns (escaped: string)
    ensures escaped == Escape(text)
  {
    escaped := [];
    for i := 0 to |text|
      invariant escaped + Escape(text[i..]) == Escape(text)
    {
      assert text[i..][1..] == text[i + 1..];
      escaped := escaped + EscapeChar(text[i]);
    }
  }

  /** Escaping never shortens its input. */
  lemma {:induction false} EscapeLength(s: string)
    ensures |Escape(s)| >= |s|
  {
    if s != [] {
      EscapeLength(s[1..]);
    }
  }

  /** Escaping is the identity on text without any of the ten special characters. */
  lemma {:induction false} EscapeIdentity(s: string)
    requires forall i :: 0 <= i < |s| ==> !IsSpecial(s[i])
    ensures Escape(s) == s
  {
    if s != [] {
      EscapeIdentity(s[1..]);
      assert s == [s[0]] + s[1..];
    }
  }

  /** No tilde or caret survives, and each of `& % $ # _` sits right after a backslash. */
  predicate SafeForLatex(r: string) {
    && (forall j :: 0 <= j < |r| ==> r[j] != '~' && r[j] != '^')
    && (forall j :: 0 <= j < |r| && NeedsBackslash(r[j]) ==> 0 < j && r[j - 1] == '\\')
  }

  lemma {:induction false} EscapeCharSafe(c: char)
    ensures SafeForLatex(EscapeChar(c)) || (!IsSpecial(c) && !NeedsBackslash(c) && c != '~' && c != '^')
  {
    if NeedsBackslash(c) {
      assert EscapeChar(c) == ['\\', c];
    } else if c == '\\' {
      WordSafe("\\textbackslash{}");
    } else if c == '~' {
      WordSafe("\\textasciitilde{}");
    } else if c == '^' {
      WordSafe("\\textasciicircum{}");
    } else if c == '{' || c == '}' {
      assert EscapeChar(c) == ['\\', c];
    }
  }

  /** A backslash followed by letters and braces is safe. */
  lemma {:induction false} WordSafe(r: string)
    requires r != [] && r[0] == '\\'
    requires forall j :: 1 <= j < |r| ==> r[j] != '~' && r[j] != '^' && !NeedsBackslash(r[j])
    ensures SafeForLatex(r)
  {
  }

  lemma {:induction false} EscapeSafe(s: string)
    ensures SafeForLatex(Escape(s))
  {
    if s != [] {
      var a := EscapeChar(s[0]);
      var b := Escape(s[1..]);
      EscapeSafe(s[1..]);
      EscapeCharSafe(s[0]);
      var r := a + b;
      assert SafeForLatex(a) || (|a| == 1 && !NeedsBackslash(a[0]) && a[0] != '~' && a[0] != '^');
      forall j | 0 <= j < |r| && NeedsBackslash(r[j]) ensures 0 < j && r[j - 1] == '\\' {
        if j >= |a| {
          assert r[j] == b[j - |a|];
          assert j - |a| > 0;
          assert r[j - 1] == b[j - |a| - 1];
        } else {
          assert r[j] == a[j];
          assert r[j - 1] == a[j - 1];
        }
      }
      forall j | 0 <= j < |r| ensures r[j] != '~' && r[j] != '^' {
        if j >= |a| {
          assert r[j] == b[j - |a|];
        } else {
          assert r[j] == a[j];
        }
      }
    }
  }

  /** Reading escaped LaTeX text back: the inverse of the replacement table. */
  function Unescape(t: string): string
    decreases |t|
  {
    if t == [] then []
    else if "\\textbackslash{}" <= t then "\\" + Unescape(t[16..])
    else if "\\textasciitilde{}" <= t then "~" + Unescape(t[17..])
    else if "\\textasciicircum{}" <= t then "^" + Unescape(t[18..])
    else if |t| >= 2 && t[0] == '\\' && t[1] in "&%$#_{}" then [t[1]] + Unescape(t[2..])
    else [t[0]] + Unescape(t[1..])
  }

  lemma {:induction false} UnescapeShort(c: char, rest: string)
    requires c in "&%$#_{}"
    ensures Unescape(['\\', c] + rest) == [c] + Unescape(rest)
  {
    var t := ['\\', c] + rest;
    assert t[1] == c && t[2..] == rest;
    assert !("\\textbackslash{}" <= t) by { assert "\\textbackslash{}"[1] == 't'; }
    assert !("\\textasciitilde{}" <= t) by { assert "\\textasciitilde{}"[1] == 't'; }
    assert !("\\textasciicircum{}" <= t) by { assert "\\textasciicircum{}"[1] == 't'; }
  }

  lemma {:induction false} UnescapeBackslash(rest: string)
    ensures Unescape(EscapeChar('\\') + rest) == ['\\'] + Unescape(rest)
  {
    var t := "\\textbackslash{}" + rest;
    assert EscapeChar('\\') + rest == t;
    assert "\\textbackslash{}" <= t;
    assert t[16..] == rest;
  }

  lemma {:induction false} UnescapeTilde(rest: string)
    ensures Unescape(EscapeChar('~') + rest) == ['~'] + Unescape(rest)
  {
    var t := "\\textasciitilde{}" + rest;
    assert EscapeChar('~') + rest == t;
    assert !("\\textbackslash{}" <= t) by { assert t[5] == 'a'; }
    assert "\\textasciitilde{}" <= t;
    assert t[17..] == rest;
  }

  lemma {:induction false} UnescapeCaret(rest: string)
    ensures Unescape(EscapeChar('^') + rest) == ['^'] + Unescape(rest)
  {
    var t := "\\textasciicircum{}" + rest;
    assert EscapeChar('^') + rest == t;
    assert !("\\textbackslash{}" <= t) by { assert t[5] == 'a'; }
    assert !("\\textasciitilde{}" <= t) by { assert t[10] == 'c'; }
    assert "\\textasciicircum{}" <= t;
    assert t[18..] == rest;
  }

  lemma {:induction false} UnescapePlain(c: char, rest: string)
    requires !IsSpecial(c)
    ensures Unescape(EscapeChar(c) + rest) == [c] + Unescape(rest)
  {
    var t := [c] + rest;
    assert t[0] == c && t[1..] == rest;
    assert !("\\textbackslash{}" <= t) by { assert "\\textbackslash{}"[0] == '\\'; }
    assert !("\\textasciitilde{}" <= t) by { assert "\\textasciitilde{}"[0] == '\\'; }
    assert !("\\textasciicircum{}" <= t) by { assert "\\textasciicircum{}"[0] == '\\'; }
  }

  lemma {:induction false} UnescapeCons(c: char, rest: string)
    ensures Unescape(EscapeChar(c) + rest) == [c] + Unescape(rest)
  {
    if c == '\\' {
      UnescapeBackslash(rest);
    } else if c == '~' {
      UnescapeTilde(rest);
    } else if c == '^' {
      UnescapeCaret(rest);
    } else if IsSpecial(c) {
      assert EscapeChar(c) == ['\\', c];
      UnescapeShort(c, rest);
    } else {
      UnescapePlain(c, rest);
    }
  }

  /** Escaping loses nothing: unescaping gives the original text back. */
  lemma {:induction false} UnescapeEscape(s: string)
    ensures Unescape(Escape(s)) == s
    decreases |s|
  {
    if s != [] {
      UnescapeCons(s[0], Escape(s[1..]));
      UnescapeEscape(s[1..]);
    }
  }
}

/**
 * The few pieces of Python's `str` that the services rely on, over
 * `seq<char>`: whitespace as `str.isspace` and the regular expression `\s`
 * define it, `strip`, `split()` (on whitespace runs), `split(c)`, `join`,
 * substring search, `replace`, ASCII case mapping and slicing `s[:n]`.
 */
module Strings {

  /** Python's whitespace class (`str.isspace`, `\s` in a str pattern). */
  predicate IsSpace(c: char) {
    ('\t' <= c <= '\r') || ('\U{1C}' <= c <= '\U{20}') || c == '\U{85}' || c == '\U{A0}'
    || c == '\U{1680}' || ('\U{2000}' <= c <= '\U{200A}') || c == '\U{2028}' || c == '\U{2029}'
    || c == '\U{202F}' || c == '\U{205F}' || c == '\U{3000}'
  }

  predicate NoSpace(s: string) {
    forall i :: 0 <= i < |s| ==> !IsSpace(s[i])
  }

  predicate IsDigit(c: char) { '0' <= c <= '9' }

  predicate IsUpper(c: char) { 'A' <= c <= 'Z' }

  predicate IsLower(c: char) { 'a' <= c <= 'z' }

  /** ASCII `lower()` of one character. */
  function LowerChar(c: char): (r: char)
    ensures !IsUpper(r)
    ensures IsUpper(c) ==> IsLower(r)
    ensures !IsUpper(c) ==> r == c
  {
    if IsUpper(c) then (c as int + 32) as char else c
  }

  /** ASCII `upper()` of one character. */
  function UpperChar(c: char): (r: char)
    ensures !IsLower(r)
    ensures IsLower(c) ==> IsUpper(r)
    ensures !IsLower(c) ==> r == c
  {
    if IsLower(c) then (c as int - 32) as char else c
  }

  /** `s.lower()` restricted to ASCII letters. */
  function Lower(s: string): (r: string)
    ensures |r| == |s|
    ensures forall i :: 0 <= i < |s| ==> r[i] == LowerChar(s[i])
  {
    seq(|s|, i requires 0 <= i < |s| => LowerChar(s[i]))
  }

  /** `s.capitalize()`: first character upper case, the rest lower case. */
  function Capitalize(s: string): (r: string)
    ensures |r| == |s|
    ensures s != [] ==> r[0] == UpperChar(s[0]) && r[1..] == Lower(s[1..])
  {
    if s == [] then [] else [UpperChar(s[0])] + Lower(s[1..])
  }

  /** Python slice `s[:n]` for a non-negative `n`. */
  function Prefix<T>(s: seq<T>, n: nat): (r: seq<T>)
    ensures |r| == if n <= |s| then n else |s|
    ensures r <= s
  {
    if n <= |s| then s[..n] else s
  }

  /** The prefix agrees with the sequence at each of its indices. */
  lemma {:induction false} PrefixElems<T>(s: seq<T>, n: nat)
    ensures forall i :: 0 <= i < |Prefix(s, n)| ==> Prefix(s, n)[i] == s[i]
  {
  }

  /** A character property of every word holds of every word kept by a prefix. */
  lemma {:induction false} PrefixChars(ws: seq<string>, n: nat, P: char -> bool)
    requires forall i, j :: 0 <= i < |ws| && 0 <= j < |ws[i]| ==> P(ws[i][j])
    ensures forall i, j :: 0 <= i < |Prefix(ws, n)| && 0 <= j < |Prefix(ws, n)[i]| ==> P(Prefix(ws, n)[i][j])
  {
    PrefixElems(ws, n);
  }

  /** Python slice `s[:n]` for any integer `n` (a negative `n` counts from the end). */
  function Slice<T>(s: seq<T>, n: int): (r: seq<T>)
    ensures r <= s
    ensures 0 <= n ==> |r| <= n
    ensures 0 <= n ==> r == Prefix(s, n)
  {
    if 0 <= n then Prefix(s, n)
    else if |s| + n <= 0 then []
    else s[..|s| + n]
  }

  /** `s[:-1]` of a non-empty sequence: what is left after `pop()`. */
  function DropLast<T>(s: seq<T>): seq<T>
    requires s != []
  {
    s[..|s| - 1]
  }

  /** The non-empty lines, in order. */
  function NonEmpty(lines: seq<string>): seq<string>
  {
    if lines == [] then []
    else
      var last := lines[|lines| - 1];
      NonEmpty(DropLast(lines)) + (if last != "" then [last] else [])
  }

  lemma {:induction false} NonEmptySnoc(lines: seq<string>, x: string)
    ensures NonEmpty(lines + [x]) == NonEmpty(lines) + (if x != "" then [x] else [])
  {
    assert DropLast(lines + [x]) == lines;
  }

  /** Each element rewritten by `f`, in order. */
  function RewriteAll<T>(xs: seq<T>, f: T -> T): (r: seq<T>)
    ensures |r| == |xs|
    ensures forall i :: 0 <= i < |xs| ==> r[i] == f(xs[i])
  {
    seq(|xs|, i requires 0 <= i < |xs| => f(xs[i]))
  }

  lemma {:induction false} ConcatAssoc<T>(a: seq<T>, b: seq<T>, c: seq<T>)
    ensures a + (b + c) == a + b + c
  {
  }

  /** The prefix one longer ends in the next element. */
  lemma {:induction false} PrefixStep<T>(s: seq<T>, i: nat)
    requires i < |s|
    ensures |s[..i + 1]| == i + 1 && s[..i + 1][..i] == s[..i] && s[..i + 1][i] == s[i]
  {
  }

  /** The prefix one longer is the prefix with the next element appended. */
  lemma {:induction false} PrefixSnoc<T>(s: seq<T>, i: nat)
    requires i < |s|
    ensures s[..i + 1] == s[..i] + [s[i]]
  {
  }

  lemma {:induction false} ConcatEmpty<T>(a: seq<T>)
    ensures a + [] == a
  {
  }

  /** A sequence ending in `x`, seen from its front part. */
  lemma {:induction false} SnocParts<T>(xs: seq<T>, x: T)
    ensures (xs + [x])[..|xs|] == xs && (xs + [x])[|xs|] == x
  {
  }

  /** A non-empty second part: its last element closes the concatenation. */
  lemma {:induction false} ConcatSnoc<T>(a: seq<T>, b: seq<T>)
    requires b != []
    ensures a + b == (a + b[..|b| - 1]) + [b[|b| - 1]]
    ensures b == b[..|b| - 1] + [b[|b| - 1]]
  {
  }

  /** Cutting a sequence around position `i`. */
  lemma {:induction false} AroundIndex<T>(s: seq<T>, i: nat)
    requires i < |s|
    ensures s == s[..i] + [s[i]] + s[i + 1..]
  {
  }

  /** An element of the middle part is an element of the whole. */
  lemma {:induction false} InMiddle<T>(a: seq<T>, b: seq<T>, c: seq<T>, y: T)
    requires y in b
    ensures y in a + b + c
  {
    var k :| 0 <= k < |b| && b[k] == y;
    assert (a + b + c)[|a| + k] == y;
  }

  /** The slice up to the length is the whole sequence. */
  lemma {:induction false} TakeAll<T>(s: seq<T>)
    ensures s[..|s|] == s
  {
  }

  // ---------------------------------------------------------------- strip

  function TrimStart(s: string): (r: string)
    ensures r == [] || !IsSpace(r[0])
    ensures |r| <= |s| && r == s[|s| - |r|..]
  {
    if s != [] && IsSpace(s[0]) then TrimStart(s[1..]) else s
  }

  function TrimEnd(s: string): (r: string)
    ensures r == [] || !IsSpace(r[|r| - 1])
    ensures r <= s
  {
    if s != [] && IsSpace(s[|s| - 1]) then TrimEnd(s[..|s| - 1]) else s
  }

  /** `s.strip()`: the longest slice of `s` with no whitespace at either end. */
  function Strip(s: string): (r: string)
    ensures r == [] || (!IsSpace(r[0]) && !IsSpace(r[|r| - 1]))
    ensures |r| <= |s|
  {
    var t := TrimStart(s);
    var r := TrimEnd(t);
    assert r != [] ==> r[0] == t[0];
    r
  }

  /** A non-empty stripped string starts and ends with a non-space. */
  lemma {:induction false} StripTrimmed(s: string)
    ensures |Strip(s)| > 0 ==> !IsSpace(Strip(s)[0]) && !IsSpace(Strip(s)[|Strip(s)| - 1])
  {
  }

  /** `strip` leaves a string without whitespace at its ends alone. */
  lemma {:induction false} StripIdentity(s: string)
    requires s == [] || (!IsSpace(s[0]) && !IsSpace(s[|s| - 1]))
    ensures Strip(s) == s
  {
    if s != [] {
      assert TrimStart(s) == s;
      assert TrimEnd(s) == s;
    }
  }

  /** `strip` keeps a slice of its input, so it invents no character. */
  lemma {:induction false} StripAvoids(s: string, c: char)
    requires forall k :: 0 <= k < |s| ==> s[k] != c
    ensures forall k :: 0 <= k < |Strip(s)| ==> Strip(s)[k] != c
  {
    var t := TrimStart(s);
    assert forall k :: 0 <= k < |t| ==> t[k] == s[|s| - |t| + k];
    var r := TrimEnd(t);
    assert forall k :: 0 <= k < |r| ==> r[k] == t[k];
  }

  lemma {:induction false} StripNoSpace(s: string)
    requires NoSpace(s)
    ensures Strip(s) == s
  {
    if s != [] {
      assert TrimStart(s) == s;
    }
  }

  // ---------------------------------------------------------------- split()

  /** Index of the first whitespace character of `s`, or `|s|`. */
  function FirstSpace(s: string): (k: nat)
    ensures k <= |s|
    ensures NoSpace(s[..k])
    ensures k < |s| ==> IsSpace(s[k])
  {
    if s == [] || IsSpace(s[0]) then 0 else 1 + FirstSpace(s[1..])
  }

  /** `s.split()` with no argument: the maximal runs of non-whitespace, in order. */
  function Words(s: string): (ws: seq<string>)
    ensures forall i :: 0 <= i < |ws| ==> ws[i] != [] && NoSpace(ws[i])
    decreases |s|
  {
    if s == [] then []
    else if IsSpace(s[0]) then Words(s[1..])
    else
      var k := FirstSpace(s);
      [s[..k]] + Words(s[k..])
  }

  /** `sep.join(ws)`. */
  function Join(ws: seq<string>, sep: string): (r: string)
  {
    if |ws| == 0 then []
    else if |ws| == 1 then ws[0]
    else ws[0] + sep + Join(ws[1..], sep)
  }

  /** Length of a join: the pieces plus one separator between each pair. */
  lemma {:induction false} JoinLength(ws: seq<string>, sep: string)
    ensures |Join(ws, sep)| == SumLengths(ws) + (if |ws| == 0 then 0 else (|ws| - 1) * |sep|)
  {
    if |ws| > 1 {
      JoinLength(ws[1..], sep);
    }
  }

  function SumLengths(ws: seq<string>): nat
  {
    if ws == [] then 0 else |ws[0]| + SumLengths(ws[1..])
  }

  lemma {:induction false} FirstSpaceOfConcat(a: string, b: string)
    requires NoSpace(a)
    requires b == [] || IsSpace(b[0])
    ensures FirstSpace(a + b) == |a|
    decreases |a|
  {
    if a != [] {
      assert (a + b)[1..] == a[1..] + b;
      FirstSpaceOfConcat(a[1..], b);
    } else {
      assert a + b == b;
    }
  }

  /** Joining words with single spaces and splitting again gives the words back. */
  lemma {:induction false} WordsOfJoin(ws: seq<string>)
    requires forall i :: 0 <= i < |ws| ==> ws[i] != [] && NoSpace(ws[i])
    ensures Words(Join(ws, " ")) == ws
  {
    if |ws| == 1 {
      var w := ws[0];
      FirstSpaceOfConcat(w, []);
      assert w + [] == w;
      assert w[..|w|] == w;
      assert w[|w|..] == [];
    } else if |ws| > 1 {
      var w := ws[0];
      var rest := Join(ws[1..], " ");
      var s := w + " " + rest;
      assert s == w + (" " + rest);
      FirstSpaceOfConcat(w, " " + rest);
      assert s[..|w|] == w;
      assert s[|w|..] == " " + rest;
      assert Words(" " + rest) == Words(rest) by {
        assert (" " + rest)[1..] == rest;
      }
      WordsOfJoin(ws[1..]);
      assert Words(s) == [w] + Words(s[|w|..]);
    }
  }

  /** A join of non-empty space-free words with single spaces has no whitespace at its ends. */
  lemma {:induction false} JoinWordsShape(ws: seq<string>)
    requires forall i :: 0 <= i < |ws| ==> ws[i] != [] && NoSpace(ws[i])
    ensures var r := Join(ws, " ");
      (r == [] <==> ws == []) && (r != [] ==> !IsSpace(r[0]) && !IsSpace(r[|r| - 1]))
  {
    if |ws| > 1 {
      JoinWordsShape(ws[1..]);
      var r := Join(ws, " ");
      assert r == ws[0] + " " + Join(ws[1..], " ");
      assert r[0] == ws[0][0];
    }
  }

  /** Every character of a join is a character of a piece or of the separator. */
  lemma {:induction false} JoinChars(ws: seq<string>, sep: string, P: char -> bool)
    requires forall i, j :: 0 <= i < |ws| && 0 <= j < |ws[i]| ==> P(ws[i][j])
    requires forall j :: 0 <= j < |sep| ==> P(sep[j])
    ensures forall j :: 0 <= j < |Join(ws, sep)| ==> P(Join(ws, sep)[j])
  {
    if |ws| > 1 {
      JoinChars(ws[1..], sep, P);
      var r := Join(ws, sep);
      var t := Join(ws[1..], sep);
      forall j | 0 <= j < |r| ensures P(r[j]) {
        if j < |ws[0]| {
          assert r[j] == ws[0][j];
        } else if j < |ws[0]| + |sep| {
          assert r[j] == sep[j - |ws[0]|];
        } else {
          assert r[j] == t[j - |ws[0]| - |sep|];
        }
      }
    }
  }

  /** Appending a piece to a non-empty list appends the separator and the piece to the join. */
  lemma {:induction false} JoinSnoc(ws: seq<string>, w: string, sep: string)
    requires ws != []
    ensures Join(ws + [w], sep) == Join(ws, sep) + sep + w
    decreases |ws|
  {
    if |ws| == 1 {
      assert ws + [w] == [ws[0], w];
      assert [ws[0], w][1..] == [w];
    } else {
      assert (ws + [w])[1..] == ws[1..] + [w];
      JoinSnoc(ws[1..], w, sep);
    }
  }

  /** The join of the first pieces is a prefix of the join of all of them. */
  lemma {:induction false} JoinPrefix(ws: seq<string>, k: nat, sep: string)
    requires k <= |ws|
    ensures Join(ws[..k], sep) <= Join(ws, sep)
    decreases |ws|
  {
    if k == |ws| {
      assert ws[..k] == ws;
    } else if k > 0 {
      var init := DropLast(ws);
      JoinPrefix(init, k, sep);
      assert init[..k] == ws[..k];
      JoinSnoc(init, ws[|ws| - 1], sep);
      assert init + [ws[|ws| - 1]] == ws;
    }
  }

  /** The words of `s` joined by single spaces are no longer than `s`. */
  lemma {:induction false} WordsJoinLength(s: string)
    ensures |Join(Words(s), " ")| <= |s|
    decreases |s|
  {
    if s != [] {
      if IsSpace(s[0]) {
        WordsJoinLength(s[1..]);
      } else {
        var k := FirstSpace(s);
        var rest := Words(s[k..]);
        WordsJoinLength(s[k..]);
        if rest != [] {
          assert s[k..] != [] && IsSpace(s[k..][0]);
          assert Words(s[k..]) == Words(s[k + 1..]) by {
            assert s[k..][1..] == s[k + 1..];
          }
          WordsJoinLength(s[k + 1..]);
          assert Join([s[..k]] + rest, " ") == s[..k] + " " + Join(rest, " ") by {
            assert ([s[..k]] + rest)[1..] == rest;
          }
        } else {
          assert Join([s[..k]], " ") == s[..k];
        }
      }
    }
  }

  /** Every character of a word of `s` is a character of `s`. */
  lemma {:induction false} WordsChars(s: string, P: char -> bool)
    requires forall i :: 0 <= i < |s| ==> P(s[i])
    ensures forall i, j :: 0 <= i < |Words(s)| && 0 <= j < |Words(s)[i]| ==> P(Words(s)[i][j])
    decreases |s|
  {
    if s != [] {
      if IsSpace(s[0]) {
        WordsChars(s[1..], P);
      } else {
        var k := FirstSpace(s);
        WordsChars(s[k..], P);
        var ws := Words(s);
        assert ws == [s[..k]] + Words(s[k..]);
        forall i, j | 0 <= i < |ws| && 0 <= j < |ws[i]|
          ensures P(ws[i][j])
        {
          if i == 0 {
            assert ws[0][j] == s[j];
          } else {
            assert ws[i] == Words(s[k..])[i - 1];
          }
        }
      }
    }
  }

  /** A character property of a text and of ' ' holds of the first `n` words joined by single spaces. */
  lemma {:induction false} JoinedPrefixChars(s: string, n: nat, P: char -> bool)
    requires forall i :: 0 <= i < |s| ==> P(s[i])
    requires P(' ')
    ensures forall j :: 0 <= j < |Join(Prefix(Words(s), n), " ")| ==> P(Join(Prefix(Words(s), n), " ")[j])
  {
    WordsChars(s, P);
    PrefixChars(Words(s), n, P);
    JoinChars(Prefix(Words(s), n), " ", P);
  }

  // ---------------------------------------------------------------- split(c)

  /** Index of the first occurrence of `c` in `s`, or `|s|`. */
  function IndexOf(s: string, c: char): (k: nat)
    ensures k <= |s|
    ensures forall i :: 0 <= i < k ==> s[i] != c
    ensures k < |s| ==> s[k] == c
  {
    if s == [] || s[0] == c then 0 else 1 + IndexOf(s[1..], c)
  }

  /** `s.split(c)` for a one-character separator: keeps empty pieces. */
  function Split(s: string, c: char): (r: seq<string>)
    ensures |r| >= 1
    decreases |s|
  {
    var k := IndexOf(s, c);
    if k == |s| then [s] else [s[..k]] + Split(s[k + 1..], c)
  }

  /** No piece of `s.split(c)` contains `c`. */
  lemma {:induction false} SplitPieces(s: string, c: char)
    ensures forall i, j :: 0 <= i < |Split(s, c)| && 0 <= j < |Split(s, c)[i]| ==> Split(s, c)[i][j] != c
    decreases |s|
  {
    var k := IndexOf(s, c);
    if k < |s| {
      var rest := Split(s[k + 1..], c);
      SplitPieces(s[k + 1..], c);
      var r := Split(s, c);
      assert r == [s[..k]] + rest;
      forall i, j | 0 <= i < |r| && 0 <= j < |r[i]|
        ensures r[i][j] != c
      {
        if i == 0 {
          assert r[0] == s[..k] && j < k;
          assert r[0][j] == s[j];
        } else {
          assert r[i] == rest[i - 1];
          assert rest[i - 1][j] != c;
        }
      }
    }
  }

  /** `split(c)` and `join` with `c` are inverse: no character is lost or invented. */
  lemma {:induction false} JoinSplit(s: string, c: char)
    ensures Join(Split(s, c), [c]) == s
    decreases |s|
  {
    var k := IndexOf(s, c);
    if k < |s| {
      var rest := Split(s[k + 1..], c);
      JoinSplit(s[k + 1..], c);
      assert Split(s, c) == [s[..k]] + rest;
      assert ([s[..k]] + rest)[1..] == rest;
      assert Join(Split(s, c), [c]) == s[..k] + [c] + s[k + 1..];
      assert s == s[..k] + [c] + s[k + 1..];
    }
  }

  /** Splitting at the first separator gives the part before it, then the split of the rest. */
  lemma {:induction false} SplitFirst(w: string, c: char, rest: string)
    requires forall j :: 0 <= j < |w| ==> w[j] != c
    ensures Split(w + [c] + rest, c) == [w] + Split(rest, c)
  {
    var s := w + [c] + rest;
    assert forall j :: 0 <= j < |w| ==> s[j] == w[j];
    assert s[|w|] == c;
    assert IndexOf(s, c) == |w|;
    assert s[..|w|] == w;
    assert s[|w| + 1..] == rest;
  }

  /** Splitting a single-space join of space-free words on ' ' gives the words back. */
  lemma {:induction false} SplitJoin(ws: seq<string>)
    requires ws != []
    requires forall i :: 0 <= i < |ws| ==> NoSpace(ws[i])
    ensures Split(Join(ws, " "), ' ') == ws
    decreases |ws|
  {
    var w := ws[0];
    assert IsSpace(' ');
    assert NoSpace(w);
    assert forall j :: 0 <= j < |w| ==> w[j] != ' ';
    if |ws| == 1 {
      SplitAbsent(w, ' ');
    } else {
      var rest := Join(ws[1..], " ");
      assert Join(ws, " ") == w + [' '] + rest;
      SplitFirst(w, ' ', rest);
      SplitJoin(ws[1..]);
    }
  }

  /** Strings with whitespace at the same places split into the same number of words. */
  lemma {:induction false} WordsSameShape(s: string, t: string)
    requires |s| == |t|
    requires forall i :: 0 <= i < |s| ==> (IsSpace(s[i]) <==> IsSpace(t[i]))
    ensures |Words(s)| == |Words(t)|
    decreases |s|
  {
    if s != [] {
      if IsSpace(s[0]) {
        WordsSameShape(s[1..], t[1..]);
      } else {
        FirstSpaceSameShape(s, t);
        var k := FirstSpace(s);
        WordsSameShape(s[k..], t[k..]);
      }
    }
  }

  lemma {:induction false} FirstSpaceSameShape(s: string, t: string)
    requires |s| == |t|
    requires forall i :: 0 <= i < |s| ==> (IsSpace(s[i]) <==> IsSpace(t[i]))
    ensures FirstSpace(s) == FirstSpace(t)
    decreases |s|
  {
    if s != [] && !IsSpace(s[0]) {
      FirstSpaceSameShape(s[1..], t[1..]);
    }
  }

  /** `capitalize` only changes letters, so whitespace stays where it was. */
  lemma {:induction false} CapitalizeShape(s: string)
    ensures var r := Capitalize(s);
      |r| == |s| && forall i :: 0 <= i < |s| ==> (IsSpace(r[i]) <==> IsSpace(s[i]))
  {
    var r := Capitalize(s);
    forall i | 0 <= i < |s|
      ensures IsSpace(r[i]) <==> IsSpace(s[i])
    {
      if i > 0 {
        assert r[i] == r[1..][i - 1] == LowerChar(s[i]);
      }
    }
  }

  /** A string without the separator splits into itself. */
  lemma {:induction false} SplitAbsent(s: string, c: char)
    requires forall i :: 0 <= i < |s| ==> s[i] != c
    ensures Split(s, c) == [s]
  {
    assert IndexOf(s, c) == |s|;
  }

  // ---------------------------------------------------------------- substrings

  /** Python's `sub in s`. */
  predicate Contains(s: string, sub: string)
    decreases |s|
  {
    sub <= s || (s != [] && Contains(s[1..], sub))
  }

  lemma {:induction false} ContainsAt(s: string, sub: string, i: nat)
    requires i + |sub| <= |s| && s[i..i + |sub|] == sub
    ensures Contains(s, sub)
    decreases i
  {
    if i > 0 {
      assert s[1..][i - 1..i - 1 + |sub|] == s[i..i + |sub|];
      ContainsAt(s[1..], sub, i - 1);
    }
  }

  lemma {:induction false} ContainsWitness(s: string, sub: string) returns (i: nat)
    requires Contains(s, sub)
    ensures i + |sub| <= |s| && s[i..i + |sub|] == sub
    decreases |s|
  {
    if sub <= s {
      i := 0;
    } else {
      var j := ContainsWitness(s[1..], sub);
      i := j + 1;
      assert s[i..i + |sub|] == s[1..][j..j + |sub|];
    }
  }

  /** `s.replace(pat, rep)`: every non-overlapping occurrence, left to right. */
  function ReplaceAll(s: string, pat: string, rep: string): string
    decreases |s|, if pat == [] then 1 else 0
  {
    if pat == [] then
      rep + (if s == [] then [] else [s[0]] + ReplaceAll(s[1..], pat, rep))
    else if pat <= s then rep + ReplaceAll(s[|pat|..], pat, rep)
    else if s == [] then []
    else [s[0]] + ReplaceAll(s[1..], pat, rep)
  }

  /** Deleting a non-empty phrase never lengthens a string. */
  lemma {:induction false} DeleteShortens(s: string, pat: string)
    requires pat != []
    ensures |ReplaceAll(s, pat, [])| <= |s|
    decreases |s|
  {
    if pat <= s {
      DeleteShortens(s[|pat|..], pat);
    } else if s != [] {
      DeleteShortens(s[1..], pat);
    }
  }

  // ---------------------------------------------------------------- numbers

  function DigitChar(d: nat): (c: char)
    requires d < 10
    ensures IsDigit(c)
  {
    ('0' as int + d) as char
  }

  /** `str(n)` for a natural number. */
  function NatToString(n: nat): (r: string)
    ensures r != []
    ensures forall i :: 0 <= i < |r| ==> IsDigit(r[i])
  {
    if n < 10 then [DigitChar(n)] else NatToString(n / 10) + [DigitChar(n % 10)]
  }

  /** `str(n)` for an integer. */
  function IntToString(n: int): string
  {
    if n < 0 then "-" + NatToString(-n) else NatToString(n)
  }

  function DigitValue(c: char): (d: nat)
    requires IsDigit(c)
    ensures d < 10
  {
    c as int - '0' as int
  }

  /** `int(s)` for a string of ASCII digits. */
  function ParseDigits(s: string): nat
    requires forall i :: 0 <= i < |s| ==> IsDigit(s[i])
  {
    if s == [] then 0 else 10 * ParseDigits(s[..|s| - 1]) + DigitValue(s[|s| - 1])
  }

  /** Parsing undoes printing. */
  lemma {:induction false} ParseNatToString(n: nat)
    ensures ParseDigits(NatToString(n)) == n
  {
    if n >= 10 {
      ParseNatToString(n / 10);
      var r := NatToString(n);
      assert r[..|r| - 1] == NatToString(n / 10);
    }
  }

  /** Length of the whitespace run at the start of `s`. */
  function SpaceRun(s: string): (k: nat)
    ensures k <= |s|
    ensures forall i :: 0 <= i < k ==> IsSpace(s[i])
    ensures k < |s| ==> !IsSpace(s[k])
  {
    if s == [] || !IsSpace(s[0]) then 0 else 1 + SpaceRun(s[1..])
  }

  /** Length of the run of ASCII digits at the start of `s`. */
  function DigitRun(s: string): (k: nat)
    ensures k <= |s|
    ensures forall i :: 0 <= i < k ==> IsDigit(s[i])
    ensures k < |s| ==> !IsDigit(s[k])
  {
    if s == [] || !IsDigit(s[0]) then 0 else 1 + DigitRun(s[1..])
  }
}

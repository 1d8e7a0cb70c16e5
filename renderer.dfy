/**
 * The one-page renderer (backend/app/services/renderer.py): compile the
 * assembled LaTeX, read the page count, and while the result is not
 * exactly one page trim the profile further, re-assemble and try again,
 * at most `max_attempts` times.
 *
 * Running pdflatex and pdfinfo is outside the model.  A `Compiler` stands
 * for them: it maps a LaTeX source to the path the PDF is copied to,
 * whether a file exists there, what pdfinfo printed (None when the tool
 * is missing) and the pdflatex log.  The renderer's two fields are set
 * once and never changed, so the assembler's line limit and
 * `max_attempts` are parameters here.
 */
module Renderer {
  import opened Wrappers
  import opened Strings
  import opened Schemas
  import Assembler

  /** What one pdflatex run leaves behind, as the renderer observes it. */
  datatype Compiled = Compiled(pdfPath: string, pdfExists: bool, info: Option<string>, log: string)

  type Compiler = string -> Compiled

  /** `Renderer(assembler, max_attempts=3)`. */
  const DefaultMaxAttempts := 3

  const FailureMessage := "Unable to enforce 1-page limit after retries. Consider removing low-priority bullets or shortening content."

  /** Only the first 500 characters of each log are kept with the attempt. */
  const LogExcerpt := 500

  // ---------------------------------------------------------------- regular expression search

  /** The least `k` in `[lo, hi)` with `ok(k)`, or `hi` when there is none. */
  function FirstIndex(lo: nat, hi: nat, ok: nat -> bool): (k: nat)
    requires lo <= hi
    ensures lo <= k <= hi
    ensures forall j :: lo <= j < k ==> !ok(j)
    ensures k < hi ==> ok(k)
    decreases hi - lo
  {
    if lo == hi || ok(lo) then lo else FirstIndex(lo + 1, hi, ok)
  }

  /** The greatest `k` in `[lo, hi)` with `ok(k)`, or `hi` when there is none. */
  function LastIndex(lo: nat, hi: nat, ok: nat -> bool): (k: nat)
    requires lo <= hi
    ensures lo <= k <= hi
    ensures forall j :: k < j < hi ==> !ok(j)
    ensures k < hi ==> ok(k)
    ensures k == hi ==> forall j :: lo <= j < hi ==> !ok(j)
    decreases hi - lo
  {
    if lo == hi then hi
    else if ok(hi - 1) then hi - 1
    else
      var k := LastIndex(lo, hi - 1, ok);
      if k == hi - 1 then hi else k
  }

  /** The search finds the only position that qualifies. */
  lemma {:induction false} FirstIndexIs(lo: nat, hi: nat, ok: nat -> bool, k: nat)
    requires lo <= k < hi && ok(k)
    requires forall j :: lo <= j < k ==> !ok(j)
    ensures FirstIndex(lo, hi, ok) == k
  {
  }

  /** The backward search finds the last position that qualifies. */
  lemma {:induction false} LastIndexIs(lo: nat, hi: nat, ok: nat -> bool, k: nat)
    requires lo <= k < hi && ok(k)
    requires forall j :: k < j < hi ==> !ok(j)
    ensures LastIndex(lo, hi, ok) == k
  {
  }

  // ---------------------------------------------------------------- _get_page_count

  const PagesLabel := "Pages:"

  /** `Pages:\s+(\d+)` matches at `i`: the label, a whitespace run, then digits. */
  predicate PagesAt(s: string, i: nat)
  {
    && i + 6 <= |s| && s[i..i + 6] == PagesLabel
    && SpaceRun(s[i + 6..]) > 0
    && DigitRun(s[i + 6 + SpaceRun(s[i + 6..])..]) > 0
  }

  /** The group `(\d+)` of a match at `i`. */
  function PagesDigits(s: string, i: nat): (d: string)
    requires PagesAt(s, i)
    ensures forall k :: 0 <= k < |d| ==> IsDigit(d[k])
  {
    var j := i + 6 + SpaceRun(s[i + 6..]);
    var t := s[j..];
    t[..DigitRun(t)]
  }

  const WrittenLabel := "Output written on "

  /** `\((\d+) page` matches at `j`. */
  predicate ParenAt(s: string, j: nat)
  {
    && j < |s| && s[j] == '('
    && DigitRun(s[j + 1..]) > 0
    && " page" <= s[j + 1 + DigitRun(s[j + 1..])..]
  }

  /** The end of the line position `k` is on: the next newline, or the end of `s`. */
  function LineEnd(s: string, k: nat): (e: nat)
    requires k <= |s|
    ensures k <= e <= |s|
    ensures forall j :: k <= j < e ==> s[j] != '\n'
    ensures e < |s| ==> s[e] == '\n'
  {
    var t := s[k..];
    var n := IndexOf(t, '\n');
    assert forall j :: k <= j < k + n ==> s[j] == t[j - k];
    k + n
  }

  /** Where the greedy `.*` of a match starting at `i` stops: the last `(N page` on that line. */
  function ParenFor(s: string, i: nat): (j: nat)
    requires i + 18 <= |s|
  {
    LastIndex(i + 18, LineEnd(s, i + 18), (j: nat) => ParenAt(s, j))
  }

  /** `Output written on .*\((\d+) page` matches at `i`. */
  predicate WrittenAt(s: string, i: nat)
  {
    i + 18 <= |s| && s[i..i + 18] == WrittenLabel && ParenFor(s, i) < LineEnd(s, i + 18)
  }

  /** The group `(\d+)` of a match at `i`. */
  function WrittenDigits(s: string, i: nat): (d: string)
    requires WrittenAt(s, i)
    ensures forall k :: 0 <= k < |d| ==> IsDigit(d[k])
  {
    ParenDigits(s, ParenFor(s, i))
  }

  /** The digits after the parenthesis at `j`. */
  function ParenDigits(s: string, j: nat): (d: string)
    requires j < |s|
    ensures forall k :: 0 <= k < |d| ==> IsDigit(d[k])
  {
    var t := s[j + 1..];
    t[..DigitRun(t)]
  }

  /** `re.search(r"Pages:\s+(\d+)", s)`: the leftmost match, if any. */
  function SearchPages(s: string): (k: nat)
    ensures k <= |s|
  {
    FirstIndex(0, |s|, (i: nat) => PagesAt(s, i))
  }

  /** `re.search(r"Output written on .*\((\d+) page", s)`: the leftmost match, if any. */
  function SearchWritten(s: string): (k: nat)
    ensures k <= |s|
  {
    FirstIndex(0, |s|, (i: nat) => WrittenAt(s, i))
  }

  /**
   * `_get_page_count`: 0 without a PDF; else the number pdfinfo reports
   * after "Pages:"; else the N of the log's "Output written on … (N page";
   * else 0.
   */
  function PageCount(c: Compiled): (n: nat)
  {
    if !c.pdfExists then 0
    else if c.info.Some? && SearchPages(c.info.value) < |c.info.value| then
      ParseDigits(PagesDigits(c.info.value, SearchPages(c.info.value)))
    else if SearchWritten(c.log) < |c.log| then
      ParseDigits(WrittenDigits(c.log, SearchWritten(c.log)))
    else 0
  }

  /** No PDF, no pages: the log is not consulted. */
  lemma {:induction false} PageCountNoPdf(c: Compiled)
    requires !c.pdfExists
    ensures PageCount(c) == 0
  {
  }

  /** A whitespace run followed by a non-space is exactly that run. */
  lemma {:induction false} SpaceRunOf(gap: string, rest: string)
    requires forall k :: 0 <= k < |gap| ==> IsSpace(gap[k])
    requires rest != [] && !IsSpace(rest[0])
    ensures SpaceRun(gap + rest) == |gap|
  {
    var s := gap + rest;
    assert forall k :: 0 <= k < |gap| ==> s[k] == gap[k];
    assert s[|gap|] == rest[0];
  }

  /** A digit run followed by a non-digit is exactly that run. */
  lemma {:induction false} DigitRunOf(digits: string, rest: string)
    requires forall k :: 0 <= k < |digits| ==> IsDigit(digits[k])
    requires rest != [] && !IsDigit(rest[0])
    ensures DigitRun(digits + rest) == |digits|
  {
    var s := digits + rest;
    assert forall k :: 0 <= k < |digits| ==> s[k] == digits[k];
    assert s[|digits|] == rest[0];
  }

  /** The printed number is the digit run at the head of `NatToString(n) + rest`. */
  lemma {:induction false} NumberThen(n: nat, rest: string)
    requires rest != [] && !IsDigit(rest[0])
    ensures var t := NatToString(n) + rest;
      DigitRun(t) == |NatToString(n)| && t[..DigitRun(t)] == NatToString(n)
  {
    DigitRunOf(NatToString(n), rest);
  }

  /** No "Pages:" label starts before `|pre|` when `pre` has no colon. */
  lemma {:induction false} NoPagesBefore(pre: string, rest: string, i: nat)
    requires forall k :: 0 <= k < |pre| ==> pre[k] != ':'
    requires PagesLabel <= rest && i < |pre|
    ensures !PagesAt(pre + rest, i)
  {
    var s := pre + rest;
    if i + 6 <= |s| {
      var k := i + 5;
      assert s[k] != ':' by {
        if k < |pre| {
          assert s[k] == pre[k];
        } else {
          assert s[k] == rest[k - |pre|] == PagesLabel[k - |pre|];
        }
      }
      assert s[i..i + 6][5] == s[k];
    }
  }


  /** The label, a whitespace gap and a printed number form a match whose group is that number. */
  lemma {:induction false} PagesMatch(pre: string, gap: string, n: nat, post: string)
    requires gap != [] && forall k :: 0 <= k < |gap| ==> IsSpace(gap[k])
    requires post == [] || !IsDigit(post[0])
    ensures var s := pre + (PagesLabel + (gap + (NatToString(n) + post)));
      PagesAt(s, |pre|) && PagesDigits(s, |pre|) == NatToString(n)
  {
    var tail := NatToString(n) + post;
    var s := pre + (PagesLabel + (gap + tail));
    SplitAt(pre, PagesLabel, gap + tail);
    NumberAtEnd(n, post);
    PagesAtGap(s, |pre|, gap, tail);
  }

  /** A label, then a whitespace run, then digits: a match whose group is those digits. */
  lemma {:induction false} PagesAtGap(s: string, i: nat, gap: string, tail: string)
    requires i + 6 <= |s| && s[i..i + 6] == PagesLabel && s[i + 6..] == gap + tail
    requires gap != [] && forall k :: 0 <= k < |gap| ==> IsSpace(gap[k])
    requires DigitRun(tail) > 0
    ensures PagesAt(s, i) && PagesDigits(s, i) == tail[..DigitRun(tail)]
  {
    assert !IsSpace(tail[0]);
    SpaceRunOf(gap, tail);
    DropConcat(gap, tail);
    DropDrop(s, i + 6, |gap|);
    var t := s[i + 6 + |gap|..];
    assert t == tail;
    assert PagesDigits(s, i) == t[..DigitRun(t)];
  }

  /** What follows a prefix. */
  lemma {:induction false} DropConcat<T>(a: seq<T>, b: seq<T>)
    ensures (a + b)[|a|..] == b
  {
  }

  /** The printed number is the digit run at the head of `NatToString(n) + post`. */
  lemma {:induction false} NumberAtEnd(n: nat, post: string)
    requires post == [] || !IsDigit(post[0])
    ensures var t := NatToString(n) + post;
      DigitRun(t) == |NatToString(n)| && t[..DigitRun(t)] == NatToString(n)
  {
    if post == [] {
      assert NatToString(n) + post == NatToString(n);
    } else {
      NumberThen(n, post);
    }
  }

  /** The middle and the end of a three-part concatenation. */
  lemma {:induction false} SplitAt<T>(a: seq<T>, b: seq<T>, c: seq<T>)
    ensures (a + (b + c))[|a|..|a| + |b|] == b && (a + (b + c))[|a| + |b|..] == c
  {
  }

  /** Dropping twice is dropping the sum. */
  lemma {:induction false} DropDrop<T>(s: seq<T>, a: nat, b: nat)
    requires a + b <= |s|
    ensures s[a..][b..] == s[a + b..]
  {
  }

  /**
   * pdfinfo's "Pages:" line is read back: when the text before it has no
   * colon, the page count is the number printed after the label.
   */
  lemma {:induction false} PagesRoundTrip(pre: string, gap: string, n: nat, post: string, path: string, log: string)
    requires forall k :: 0 <= k < |pre| ==> pre[k] != ':'
    requires gap != [] && forall k :: 0 <= k < |gap| ==> IsSpace(gap[k])
    requires post == [] || !IsDigit(post[0])
    ensures PageCount(Compiled(path, true, Some(pre + PagesLabel + gap + NatToString(n) + post), log)) == n
  {
    var rest := PagesLabel + (gap + (NatToString(n) + post));
    var s := pre + rest;
    Nest5(pre, PagesLabel, gap, NatToString(n), post);
    PagesMatch(pre, gap, n, post);
    forall j | 0 <= j < |pre|
      ensures !PagesAt(s, j)
    {
      NoPagesBefore(pre, rest, j);
    }
    FirstIndexIs(0, |s|, (j: nat) => PagesAt(s, j), |pre|);
    ParseNatToString(n);
  }

  /** A text without a colon has no "Pages:" match anywhere. */
  lemma {:induction false} NoColonNoPages(s: string)
    requires forall k :: 0 <= k < |s| ==> s[k] != ':'
    ensures SearchPages(s) == |s|
  {
    forall i: nat | i < |s|
      ensures !PagesAt(s, i)
    {
      if i + 6 <= |s| {
        assert s[i..i + 6][5] == s[i + 5];
      }
    }
  }

  /** `(N page` at the start of `"(" + NatToString(n) + " page" + post`. */
  lemma {:induction false} ParenMatch(n: nat, post: string)
    ensures var u := "(" + (NatToString(n) + (" page" + post));
      ParenAt(u, 0) && u[1..][..DigitRun(u[1..])] == NatToString(n)
  {
    var num := NatToString(n);
    var u := "(" + (num + (" page" + post));
    assert u[1..] == num + (" page" + post);
    NumberThen(n, " page" + post);
    assert u[1 + |num|..] == " page" + post;
  }

  /** Where the line ends after the log's "Output written on" label. */
  lemma {:induction false} WrittenLineEnd(pre: string, name: string, n: nat, post: string)
    requires forall k :: 0 <= k < |name| ==> name[k] != '\n'
    ensures var u := "(" + (NatToString(n) + (" page" + post));
      var s := pre + (WrittenLabel + (name + u));
      var i := |pre|;
      i + 18 <= |s| && s[i..i + 18] == WrittenLabel
      && i + 18 + |name| + 6 + |NatToString(n)| <= LineEnd(s, i + 18)
  {
    var num := NatToString(n);
    var u := "(" + (num + (" page" + post));
    var s := pre + (WrittenLabel + (name + u));
    var i := |pre|;
    var b := i + 18 + |name|;
    assert s[i..i + 18] == WrittenLabel;
    assert forall j :: i + 18 <= j < b ==> s[j] == name[j - i - 18];
    assert forall j :: b <= j < b + 6 + |num| ==> s[j] == u[j - b];
    assert forall j :: 0 <= j < 6 + |num| ==> u[j] != '\n' by {
      assert forall j :: 1 <= j < 1 + |num| ==> u[j] == num[j - 1];
      assert u[1 + |num|..1 + |num| + 5] == " page";
    }
  }

  /** No parenthesis opens after the first character. */
  predicate NoParenAfterHead(u: string) {
    forall j :: 0 < j < |u| ==> u[j] != '('
  }

  lemma {:induction false} NoParenAfter(n: nat, post: string)
    requires forall k :: 0 <= k < |post| ==> post[k] != '('
    ensures NoParenAfterHead("(" + (NatToString(n) + (" page" + post)))
  {
    var num := NatToString(n);
    var v := " page" + post;
    var u := "(" + (num + v);
    assert forall j :: 0 < j < 1 + |num| ==> u[j] == num[j - 1];
    assert forall j :: 1 + |num| <= j < |u| ==> u[j] == v[j - 1 - |num|];
    assert forall j :: 0 <= j < |v| ==> v[j] != '(' by {
      assert forall j :: 5 <= j < |v| ==> v[j] == post[j - 5];
    }
  }

  /** Whether `(N page` matches at `b` depends only on the text from `b` on. */
  lemma {:induction false} ParenShift(s: string, b: nat)
    requires b < |s|
    ensures ParenAt(s, b) == ParenAt(s[b..], 0)
  {
    var t := s[b..];
    assert t[1..] == s[b + 1..];
    assert t[1 + DigitRun(t[1..])..] == s[b + 1 + DigitRun(s[b + 1..])..];
  }

  /** A value absent from a suffix after its head is absent from that part of the whole. */
  lemma {:induction false} SuffixAvoids<T>(s: seq<T>, b: nat, c: T)
    requires b <= |s| && forall j :: 0 < j < |s[b..]| ==> s[b..][j] != c
    ensures forall j :: b < j < |s| ==> s[j] != c
  {
    forall j | b < j < |s|
      ensures s[j] != c
    {
      assert s[b..][j - b] == s[j];
    }
  }

  /** Concatenation nests to the right. */
  lemma {:induction false} Nest5<T>(a: seq<T>, b: seq<T>, c: seq<T>, d: seq<T>, e: seq<T>)
    ensures a + b + c + d + e == a + (b + (c + (d + e)))
  {
  }

  /** Concatenation nests to the right. */
  lemma {:induction false} Nest6<T>(a: seq<T>, b: seq<T>, c: seq<T>, d: seq<T>, e: seq<T>, f: seq<T>, g: seq<T>)
    ensures a + b + c + d + e + f + g == a + (b + (c + (d + (e + (f + g)))))
  {
  }

  /** The text after three leading parts. */
  lemma {:induction false} DropThree<T>(a: seq<T>, b: seq<T>, c: seq<T>, d: seq<T>)
    ensures (a + (b + (c + d)))[|a| + |b| + |c|..] == d
  {
  }

  /** No "Output written on" label starts before `|pre|` when `pre` has no 'O'. */
  lemma {:induction false} NoWrittenBefore(pre: string, rest: string, j: nat)
    requires forall k :: 0 <= k < |pre| ==> pre[k] != 'O'
    requires j < |pre|
    ensures !WrittenAt(pre + rest, j)
  {
    var s := pre + rest;
    assert s[j] == pre[j];
    if j + 18 <= |s| {
      assert s[j..j + 18][0] == s[j];
    }
  }

  /**
   * The greedy `.*` stops at the last `(N page` of the line: here the one
   * at `b`, after which nothing opens a parenthesis.
   */
  lemma {:induction false} WrittenAtParen(s: string, i: nat, b: nat)
    requires i + 18 <= b < |s| && b < LineEnd(s, i + 18) && s[i..i + 18] == WrittenLabel
    requires ParenAt(s[b..], 0) && forall j :: 0 < j < |s[b..]| ==> s[b..][j] != '('
    ensures WrittenAt(s, i) && WrittenDigits(s, i) == ParenDigits(s[b..], 0)
  {
    ParenShift(s, b);
    SuffixAvoids(s, b, '(');
    assert s[b..][1..] == s[b + 1..];
    LastIndexIs(i + 18, LineEnd(s, i + 18), (j: nat) => ParenAt(s, j), b);
  }

  /** The match ends at the `(N page` after the name when nothing later opens a parenthesis. */
  lemma {:induction false} WrittenMatch(pre: string, name: string, n: nat, post: string)
    requires forall k :: 0 <= k < |name| ==> name[k] != '\n'
    requires forall k :: 0 <= k < |post| ==> post[k] != '('
    ensures var s := pre + (WrittenLabel + (name + ("(" + (NatToString(n) + (" page" + post)))));
      WrittenAt(s, |pre|) && WrittenDigits(s, |pre|) == NatToString(n)
  {
    var num := NatToString(n);
    var u := "(" + (num + (" page" + post));
    var s := pre + (WrittenLabel + (name + u));
    var i := |pre|;
    var b := i + 18 + |name|;
    assert i + 18 <= b < |s| && b < LineEnd(s, i + 18) && s[i..i + 18] == WrittenLabel by {
      WrittenLineEnd(pre, name, n, post);
    }
    assert s[b..] == u by {
      DropThree(pre, WrittenLabel, name, u);
    }
    assert ParenAt(u, 0) && u[1..][..DigitRun(u[1..])] == num by {
      ParenMatch(n, post);
    }
    assert NoParenAfterHead(u) by {
      NoParenAfter(n, post);
    }
    WrittenFromParts(s, i, b, u, num);
  }

  /** The match at `i` reads the digits of the `(N page` that the text from `b` on opens with. */
  lemma {:induction false} WrittenFromParts(s: string, i: nat, b: nat, u: string, d: string)
    requires i + 18 <= b < |s| && b < LineEnd(s, i + 18) && s[i..i + 18] == WrittenLabel
    requires s[b..] == u && ParenAt(u, 0) && u[1..][..DigitRun(u[1..])] == d
    requires NoParenAfterHead(u)
    ensures WrittenAt(s, i) && WrittenDigits(s, i) == d
  {
    WrittenAtParen(s, i, b);
  }

  /**
   * Without pdfinfo's answer the log's "Output written on … (N page" line
   * is read back: the count is the N of the last "(N page" on that line.
   */
  lemma {:induction false} LogRoundTrip(pre: string, name: string, n: nat, post: string, path: string, info: Option<string>)
    requires forall k :: 0 <= k < |pre| ==> pre[k] != 'O'
    requires forall k :: 0 <= k < |name| ==> name[k] != '\n'
    requires forall k :: 0 <= k < |post| ==> post[k] != '('
    requires info.Some? ==> forall k :: 0 <= k < |info.value| ==> info.value[k] != ':'
    ensures PageCount(Compiled(path, true, info, pre + WrittenLabel + name + "(" + NatToString(n) + " page" + post)) == n
  {
    var rest := WrittenLabel + (name + ("(" + (NatToString(n) + (" page" + post))));
    var s := pre + rest;
    Nest6(pre, WrittenLabel, name, "(", NatToString(n), " page", post);
    if info.Some? {
      NoColonNoPages(info.value);
    }
    WrittenMatch(pre, name, n, post);
    forall j | 0 <= j < |pre|
      ensures !WrittenAt(s, j)
    {
      NoWrittenBefore(pre, rest, j);
    }
    FirstIndexIs(0, |s|, (j: nat) => WrittenAt(s, j), |pre|);
    ParseNatToString(n);
  }

  // ---------------------------------------------------------------- _tighten_for_overflow

  const NoOpTrim := "Overflow trim: no-op (no more content to drop)"

  const EducationTrim := "Overflow trim: reduced education detail to degree name"

  /** A change message quoting the first 50 characters of what was removed. */
  function Removal(what: string, removed: string): string
  {
    "Overflow trim: " + what + " '" + Prefix(removed, 50) + "...'"
  }

  /** A removal message is not the no-op message. */
  lemma {:induction false} RemovalNotNoOp(what: string, removed: string)
    requires what != [] && what[0] != NoOpTrim[15]
    ensures Removal(what, removed) != NoOpTrim
  {
    assert Removal(what, removed)[15] == what[0];
  }

  /** `edu.split(",")[0]`: the text before the first comma. */
  function FirstField(e: string): (f: string)
    ensures forall k :: 0 <= k < |f| ==> f[k] != ','
  {
    SplitPieces(e, ',');
    Split(e, ',')[0]
  }

  /** `edu.split(",")[0].strip()`: the degree name. */
  function Collapse(e: string): (d: string)
    ensures forall k :: 0 <= k < |d| ==> d[k] != ','
  {
    StripAvoids(FirstField(e), ',');
    Strip(FirstField(e))
  }

  /** Collapsing a degree name again leaves it alone. */
  lemma {:induction false} CollapseIdempotent(e: string)
    ensures Collapse(Collapse(e)) == Collapse(e)
  {
    var d := Collapse(e);
    SplitAbsent(d, ',');
    StripIdentity(d);
  }

  /** Every education entry collapsed to its degree name. */
  function CollapseAll(es: seq<string>): (r: seq<string>)
    ensures |r| == |es|
    ensures forall k :: 0 <= k < |es| ==> r[k] == Collapse(es[k])
  {
    if es == [] then [] else CollapseAll(es[..|es| - 1]) + [Collapse(es[|es| - 1])]
  }

  /** Collapsing the collapsed list changes nothing. */
  lemma {:induction false} CollapseAllIdempotent(es: seq<string>)
    ensures CollapseAll(CollapseAll(es)) == CollapseAll(es)
  {
    var r := CollapseAll(es);
    forall k | 0 <= k < |es|
      ensures CollapseAll(r)[k] == r[k]
    {
      CollapseIdempotent(es[k]);
    }
  }

  /** Step 1 of `_tighten_for_overflow`: cut the last experience and the last project bullet of long sections. */
  function BulletCuts(p: Profile): (Profile, seq<string>)
  {
    var cutExperience := |p.experience| > 3;
    var cutProjects := |p.projects| > 2;
    var experience := if cutExperience then DropLast(p.experience) else p.experience;
    var projects := if cutProjects then DropLast(p.projects) else p.projects;
    var c1 := if cutExperience then [Removal("removed experience bullet", p.experience[|p.experience| - 1])] else [];
    var c2 := if cutProjects then [Removal("removed project bullet", p.projects[|p.projects| - 1])] else [];
    (p.(experience := experience, projects := projects), c1 + c2)
  }

  /** Appending to nothing. */
  lemma {:induction false} ConcatFromEmpty<T>(a: seq<T>)
    ensures [] + a == a
  {
  }

  /** Step 1 leaves short sections alone. */
  lemma {:induction false} NoBulletCuts(p: Profile)
    requires |p.experience| <= 3 && |p.projects| <= 2
    ensures BulletCuts(p) == (p, [])
  {
    var empty: seq<string> := [];
    assert empty + empty == [];
  }

  /** Steps 2 to 4, taken when step 1 cut nothing: the first that applies. */
  function Fallback(p: Profile): (Profile, seq<string>)
  {
    if p.projects != [] then
      (p.(projects := DropLast(p.projects)), [Removal("dropped project", p.projects[|p.projects| - 1])])
    else if |p.experience| > 2 then
      (p.(experience := DropLast(p.experience)), [Removal("collapsed older experience", p.experience[|p.experience| - 1])])
    else if p.education != [] then
      var collapsed := CollapseAll(p.education);
      (p.(education := collapsed), if collapsed != p.education then [EducationTrim] else [NoOpTrim])
    else (p, [NoOpTrim])
  }

  /**
   * `_tighten_for_overflow`: the profile with one more round of trimming
   * and the messages describing it.
   */
  function TightenForOverflow(p: Profile): (Profile, seq<string>)
  {
    var (q, changes) := BulletCuts(p);
    if changes != [] then (q, changes) else Fallback(p)
  }

  /**
   * At least one message comes back; skills never change; the message is
   * the no-op one exactly when the profile comes back unchanged; sections
   * only lose entries from their ends, and education keeps its length.
   */
  lemma {:induction false} TightenShape(p: Profile)
    ensures var (q, changes) := TightenForOverflow(p);
      && |changes| >= 1
      && q.skills == p.skills
      && (changes == [NoOpTrim] <==> q == p)
      && q.experience <= p.experience && q.projects <= p.projects
      && |q.education| == |p.education|
  {
    if |p.experience| > 3 || |p.projects| > 2 {
      BulletCutsShape(p);
    } else {
      NoBulletCuts(p);
      FallbackShape(p);
    }
  }

  /** Step 1 either cuts nothing or cuts and says so, never with the no-op message. */
  lemma {:induction false} BulletCutsShape(p: Profile)
    requires |p.experience| > 3 || |p.projects| > 2
    ensures var (q, changes) := BulletCuts(p);
      && changes != [] && changes != [NoOpTrim] && q != p
      && q.skills == p.skills && q.education == p.education
      && q.experience <= p.experience && q.projects <= p.projects
  {
    var (q, changes) := BulletCuts(p);
    if |p.experience| > 3 {
      RemovalNotNoOp("removed experience bullet", p.experience[|p.experience| - 1]);
      assert |q.experience| < |p.experience|;
      assert changes[0] == Removal("removed experience bullet", p.experience[|p.experience| - 1]);
    } else {
      RemovalNotNoOp("removed project bullet", p.projects[|p.projects| - 1]);
      assert |q.projects| < |p.projects|;
      assert changes == [Removal("removed project bullet", p.projects[|p.projects| - 1])];
    }
  }

  /** Steps 2 to 4 report the no-op exactly when they change nothing. */
  lemma {:induction false} FallbackShape(p: Profile)
    ensures var (q, changes) := Fallback(p);
      && |changes| == 1 && (changes == [NoOpTrim] <==> q == p)
      && q.skills == p.skills && |q.education| == |p.education|
      && q.experience <= p.experience && q.projects <= p.projects
  {
    if p.projects != [] {
      DropProjectShape(p);
    } else if |p.experience| > 2 {
      DropExperienceShape(p);
    } else {
      CollapseShape(p);
    }
  }

  /** Step 2 drops the last project and says so. */
  lemma {:induction false} DropProjectShape(p: Profile)
    requires p.projects != []
    ensures var (q, changes) := Fallback(p);
      && |changes| == 1 && changes != [NoOpTrim] && q != p
      && q == p.(projects := DropLast(p.projects))
  {
    var last := p.projects[|p.projects| - 1];
    RemovalNotNoOp("dropped project", last);
    assert Fallback(p) == (p.(projects := DropLast(p.projects)), [Removal("dropped project", last)]);
  }

  /** Step 3 drops the last experience entry and says so. */
  lemma {:induction false} DropExperienceShape(p: Profile)
    requires p.projects == [] && |p.experience| > 2
    ensures var (q, changes) := Fallback(p);
      && |changes| == 1 && changes != [NoOpTrim] && q != p
      && q == p.(experience := DropLast(p.experience))
  {
    var last := p.experience[|p.experience| - 1];
    RemovalNotNoOp("collapsed older experience", last);
    assert Fallback(p) == (p.(experience := DropLast(p.experience)), [Removal("collapsed older experience", last)]);
  }

  /** Step 4 collapses education, and only reports it when something changed. */
  lemma {:induction false} CollapseShape(p: Profile)
    requires p.projects == [] && |p.experience| <= 2
    ensures var (q, changes) := Fallback(p);
      && |changes| == 1 && (changes == [NoOpTrim] <==> q == p)
      && q == p.(education := CollapseAll(p.education))
  {
    assert EducationTrim != NoOpTrim by {
      assert EducationTrim[15] != NoOpTrim[15];
    }
    if p.education != [] {
      var c := CollapseAll(p.education);
      assert Fallback(p) == (p.(education := c), if c != p.education then [EducationTrim] else [NoOpTrim]);
    } else {
      assert CollapseAll(p.education) == [];
    }
  }

  /** Every round of overflow trimming reports at least one message. */
  lemma {:induction false} TightenAlwaysReports()
    ensures forall p :: |TightenForOverflow(p).1| >= 1
  {
    forall p: Profile
      ensures |TightenForOverflow(p).1| >= 1
    {
      TightenShape(p);
    }
  }

  /**
   * The order of the steps: the two bullet cuts happen together when their
   * sections are long enough; only when neither did, one project goes,
   * else one experience entry, else every education entry is collapsed.
   */
  lemma {:induction false} TightenSteps(p: Profile)
    ensures var q := TightenForOverflow(p).0;
      && (|p.experience| > 3 ==> q.experience == DropLast(p.experience))
      && (|p.projects| > 2 ==> q.projects == DropLast(p.projects))
      && (|p.experience| > 3 || |p.projects| > 2 ==> q.education == p.education)
      && (|p.experience| <= 3 && |p.projects| <= 2 ==>
            if p.projects != [] then q == p.(projects := DropLast(p.projects))
            else if |p.experience| > 2 then q == p.(experience := DropLast(p.experience))
            else q == p.(education := CollapseAll(p.education)))
  {
  }

  /** Once only education is left to cut, a second round has nothing to do. */
  lemma {:induction false} TightenSettles(p: Profile)
    requires p.projects == [] && |p.experience| <= 2
    ensures var q := TightenForOverflow(p).0;
      TightenForOverflow(q) == (q, [NoOpTrim])
  {
    NoBulletCuts(p);
    CollapseShape(p);
    var q := Fallback(p).0;
    CollapseAllIdempotent(p.education);
    NoBulletCuts(q);
    CollapseShape(q);
  }

  /** The education loop of `_tighten_for_overflow`. */
  method CollapseEducation(education: seq<string>) returns (collapsed: seq<string>)
    ensures collapsed == CollapseAll(education)
  {
    collapsed := [];
    for i := 0 to |education|
      invariant collapsed == CollapseAll(education[..i])
    {
      PrefixStep(education, i);
      collapsed := collapsed + [Collapse(education[i])];
    }
    TakeAll(education);
  }

  /** `_tighten_for_overflow`, popping from a copy of the profile. */
  method TightenOverflow(profile: Profile) returns (updated: Profile, changes: seq<string>)
    ensures (updated, changes) == TightenForOverflow(profile)
  {
    updated := profile;
    changes := [];
    if |updated.experience| > 3 {
      var removed := updated.experience[|updated.experience| - 1];
      updated := updated.(experience := DropLast(updated.experience));
      changes := changes + [Removal("removed experience bullet", removed)];
    }
    if |updated.projects| > 2 {
      var removed := updated.projects[|updated.projects| - 1];
      updated := updated.(projects := DropLast(updated.projects));
      changes := changes + [Removal("removed project bullet", removed)];
    }
    assert updated == BulletCuts(profile).0;
    assert changes == BulletCuts(profile).1 by {
      if |profile.experience| > 3 {
        ConcatFromEmpty([Removal("removed experience bullet", profile.experience[|profile.experience| - 1])]);
      } else {
        ConcatFromEmpty(changes);
      }
    }
    if changes == [] {
      updated, changes := FallbackSteps(profile);
    }
  }

  /** Steps 2 to 4 of `_tighten_for_overflow` on a profile step 1 left alone. */
  method FallbackSteps(profile: Profile) returns (updated: Profile, changes: seq<string>)
    ensures (updated, changes) == Fallback(profile)
  {
    updated := profile;
    changes := [];
    if updated.projects != [] {
      var removed := updated.projects[|updated.projects| - 1];
      updated := updated.(projects := DropLast(updated.projects));
      ConcatFromEmpty([Removal("dropped project", removed)]);
      changes := changes + [Removal("dropped project", removed)];
    }
    if changes == [] && |updated.experience| > 2 {
      var removed := updated.experience[|updated.experience| - 1];
      updated := updated.(experience := DropLast(updated.experience));
      ConcatFromEmpty([Removal("collapsed older experience", removed)]);
      changes := changes + [Removal("collapsed older experience", removed)];
    }
    if changes == [] && updated.education != [] {
      var collapsed := CollapseEducation(updated.education);
      if collapsed != updated.education {
        ConcatFromEmpty([EducationTrim]);
        changes := changes + [EducationTrim];
      }
      updated := updated.(education := collapsed);
    }
    if changes == [] {
      ConcatFromEmpty([NoOpTrim]);
      changes := changes + [NoOpTrim];
    }
  }

  // ---------------------------------------------------------------- render

  /** What the loop reads from one compile: the PDF path, its page count and the log. */
  datatype Measurement = Measurement(pdfPath: string, pages: nat, log: string)

  /** `_run_pdflatex` followed by `_get_page_count`. */
  function Measured(compile: Compiler): string -> Measurement
  {
    source => var c := compile(source); Measurement(c.pdfPath, PageCount(c), c.log)
  }

  /** `self.assembler.assemble` with the assembler's line limit. */
  function Assembly(limit: int): Profile -> AssemblerResult
  {
    p => Assembler.Assembled(p, limit)
  }

  /** The result after the last attempt failed: no path, the error, the last page count. */
  function Exhausted(attempts: seq<RenderAttempt>, trims: seq<string>): RendererResult
  {
    RendererResult("", if attempts == [] then 0 else attempts[|attempts| - 1].pageCount, attempts, trims, Some(FailureMessage))
  }

  /**
   * What attempt number `attempt` compiles and the trims recorded with it:
   * the first compiles the given LaTeX `first`, every later one
   * re-assembles the current profile and appends the assembler's trims.
   */
  function Source(attempt: int, profile: Profile, trims: seq<string>, first: string,
                  assemble: Profile -> AssemblerResult): (string, seq<string>)
  {
    if attempt == 1 then (first, trims)
    else (assemble(profile).latexSource, trims + assemble(profile).trimsApplied)
  }

  /**
   * The `render` loop from attempt number `attempt` on, given the profile,
   * the trims and the attempts recorded so far; the assembler, the
   * compile-and-measure step and `_tighten_for_overflow` are parameters.
   */
  function RenderFrom(attempt: int, maxAttempts: int, profile: Profile, trims: seq<string>, attempts: seq<RenderAttempt>,
                      first: string, assemble: Profile -> AssemblerResult, measure: string -> Measurement,
                      tighten: Profile -> (Profile, seq<string>)): RendererResult
    requires attempt >= 1
    decreases maxAttempts + 1 - attempt
  {
    if attempt > maxAttempts then Exhausted(attempts, trims)
    else
      var (source, compiledTrims) := Source(attempt, profile, trims, first, assemble);
      var m := measure(source);
      var recorded := attempts + [RenderAttempt(attempt, m.pages, compiledTrims, Prefix(m.log, LogExcerpt))];
      if m.pages == 1 then RendererResult(m.pdfPath, 1, recorded, compiledTrims, None)
      else
        var (next, changes) := tighten(profile);
        RenderFrom(attempt + 1, maxAttempts, next, compiledTrims + changes, recorded, first, assemble, measure, tighten)
  }

  /** `render(profile, assembler_result)` with `max_attempts` and the assembler's line limit. */
  function Rendered(profile: Profile, asm: AssemblerResult, maxAttempts: int, limit: int, compile: Compiler): RendererResult
  {
    RenderFrom(1, maxAttempts, profile, asm.trimsApplied, [], asm.latexSource, Assembly(limit), Measured(compile),
               TightenForOverflow)
  }

  /** Choosing the source of one attempt, re-assembling when it is not the first. */
  method PickSource(attempt: int, profile: Profile, trims: seq<string>, asm: AssemblerResult, limit: int)
    returns (source: string, compiledTrims: seq<string>)
    ensures (source, compiledTrims) == Source(attempt, profile, trims, asm.latexSource, Assembly(limit))
  {
    compiledTrims := trims;
    if attempt == 1 {
      source := asm.latexSource;
    } else {
      var reassembled := Assembler.Assemble(profile, limit);
      source := reassembled.latexSource;
      compiledTrims := compiledTrims + reassembled.trimsApplied;
    }
  }

  /**
   * One pass of the `render` loop body: either the final result, or the
   * state the next attempt starts from.
   */
  method RenderStep(attempt: int, maxAttempts: int, profile: Profile, trims: seq<string>, attempts: seq<RenderAttempt>,
                    asm: AssemblerResult, limit: int, compile: Compiler)
    returns (done: Option<RendererResult>, next: Profile, nextTrims: seq<string>, recorded: seq<RenderAttempt>)
    requires 1 <= attempt <= maxAttempts
    ensures done.Some? ==>
      done.value == RenderFrom(attempt, maxAttempts, profile, trims, attempts, asm.latexSource, Assembly(limit),
                               Measured(compile), TightenForOverflow)
    ensures done.None? ==>
      RenderFrom(attempt + 1, maxAttempts, next, nextTrims, recorded, asm.latexSource, Assembly(limit),
                 Measured(compile), TightenForOverflow) ==
      RenderFrom(attempt, maxAttempts, profile, trims, attempts, asm.latexSource, Assembly(limit),
                 Measured(compile), TightenForOverflow)
  {
    var source, compiledTrims := PickSource(attempt, profile, trims, asm, limit);
    var compiled := compile(source);
    var pageCount := PageCount(compiled);
    recorded := attempts + [RenderAttempt(attempt, pageCount, compiledTrims, Prefix(compiled.log, LogExcerpt))];
    if pageCount == 1 {
      done := Some(RendererResult(compiled.pdfPath, 1, recorded, compiledTrims, None));
      next, nextTrims := profile, compiledTrims;
    } else {
      var newTrims;
      next, newTrims := TightenOverflow(profile);
      nextTrims := compiledTrims + newTrims;
      done := None;
    }
  }

  /** `Renderer.render`: compile, measure, and trim and retry until one page or out of attempts. */
  method Render(profile: Profile, asm: AssemblerResult, maxAttempts: int, limit: int, compile: Compiler)
    returns (result: RendererResult)
    ensures result == Rendered(profile, asm, maxAttempts, limit, compile)
  {
    var attempts: seq<RenderAttempt> := [];
    var current := profile;
    var trims := asm.trimsApplied;
    var attempt := 1;
    while attempt <= maxAttempts
      invariant attempt >= 1
      invariant RenderFrom(attempt, maxAttempts, current, trims, attempts, asm.latexSource, Assembly(limit),
                           Measured(compile), TightenForOverflow)
             == Rendered(profile, asm, maxAttempts, limit, compile)
      decreases maxAttempts + 1 - attempt
    {
      var done;
      done, current, trims, attempts := RenderStep(attempt, maxAttempts, current, trims, attempts, asm, limit, compile);
      if done.Some? {
        return done.value;
      }
      attempt := attempt + 1;
    }
    result := Exhausted(attempts, trims);
  }

  // ---------------------------------------------------------------- what render promises

  /** Attempts are numbered 1, 2, … in order. */
  predicate Numbered(attempts: seq<RenderAttempt>)
  {
    forall k :: 0 <= k < |attempts| ==> attempts[k].attempt == k + 1
  }

  /** No recorded attempt measured exactly one page. */
  predicate Overflowing(attempts: seq<RenderAttempt>)
  {
    forall k :: 0 <= k < |attempts| ==> attempts[k].pageCount != 1
  }

  /**
   * Trims only grow: they start with `base`, each attempt's trims extend the
   * earlier attempts' trims, and `final` extends them all.
   */
  predicate Cumulative(base: seq<string>, attempts: seq<RenderAttempt>, final: seq<string>)
  {
    && base <= final
    && (forall k :: 0 <= k < |attempts| ==> base <= attempts[k].trims && attempts[k].trims <= final)
    && (forall k, l :: 0 <= k < l < |attempts| ==> attempts[k].trims <= attempts[l].trims)
  }

  /**
   * The trims of a result are cumulative from `base`, and a failure's final
   * trims go beyond what its last attempt compiled with.
   */
  predicate TrimsGrow(base: seq<string>, r: RendererResult)
  {
    && Cumulative(base, r.renderAttempts, r.finalTrims)
    && (r.error.Some? && r.renderAttempts != [] ==>
          |r.renderAttempts[|r.renderAttempts| - 1].trims| < |r.finalTrims|)
  }

  lemma {:induction false} PrefixTrans<T>(a: seq<T>, b: seq<T>, c: seq<T>)
    requires a <= b && b <= c
    ensures a <= c
  {
    assert forall k :: 0 <= k < |a| ==> a[k] == b[k] == c[k];
  }

  lemma {:induction false} PrefixOfConcat<T>(a: seq<T>, b: seq<T>)
    ensures a <= a + b
  {
    assert (a + b)[..|a|] == a;
  }

  /** Recording an attempt with trims that extend the current ones keeps the trims cumulative. */
  lemma {:induction false} CumulativeRecord(base: seq<string>, attempts: seq<RenderAttempt>, trims: seq<string>, a: RenderAttempt)
    requires Cumulative(base, attempts, trims) && trims <= a.trims
    ensures Cumulative(base, attempts + [a], a.trims)
  {
    var recorded := attempts + [a];
    PrefixTrans(base, trims, a.trims);
    forall k | 0 <= k < |attempts|
      ensures attempts[k].trims <= a.trims
    {
      PrefixTrans(attempts[k].trims, trims, a.trims);
    }
    assert forall k :: 0 <= k < |attempts| ==> recorded[k] == attempts[k];
  }

  /** Appending trims after the last attempt keeps them cumulative. */
  lemma {:induction false} CumulativeExtend(base: seq<string>, attempts: seq<RenderAttempt>, trims: seq<string>, more: seq<string>)
    requires Cumulative(base, attempts, trims)
    ensures Cumulative(base, attempts, trims + more)
  {
    PrefixOfConcat(trims, more);
    PrefixTrans(base, trims, trims + more);
    forall k | 0 <= k < |attempts|
      ensures attempts[k].trims <= trims + more
    {
      PrefixTrans(attempts[k].trims, trims, trims + more);
    }
  }

  /**
   * From any attempt on, the attempts recorded so far are kept, every new
   * one gets the next number, and at most `maxAttempts` are made; running
   * out means every number up to `maxAttempts` was used.
   */
  lemma {:induction false} RenderFromCount(attempt: int, maxAttempts: int, profile: Profile, trims: seq<string>,
                                           attempts: seq<RenderAttempt>, first: string, assemble: Profile -> AssemblerResult,
                                           measure: string -> Measurement, tighten: Profile -> (Profile, seq<string>))
    requires attempt == |attempts| + 1 && Numbered(attempts)
    ensures var r := RenderFrom(attempt, maxAttempts, profile, trims, attempts, first, assemble, measure, tighten);
      && attempts <= r.renderAttempts && Numbered(r.renderAttempts)
      && |r.renderAttempts| <= Assembler.Max(|attempts|, maxAttempts)
      && (r.error.Some? ==> |r.renderAttempts| == Assembler.Max(|attempts|, maxAttempts))
    decreases maxAttempts + 1 - attempt
  {
    if attempt <= maxAttempts {
      var (source, compiledTrims) := Source(attempt, profile, trims, first, assemble);
      var m := measure(source);
      var a := RenderAttempt(attempt, m.pages, compiledTrims, Prefix(m.log, LogExcerpt));
      var recorded := attempts + [a];
      PrefixOfConcat(attempts, [a]);
      if m.pages != 1 {
        var (next, changes) := tighten(profile);
        RenderFromCount(attempt + 1, maxAttempts, next, compiledTrims + changes, recorded, first, assemble, measure, tighten);
        var r := RenderFrom(attempt + 1, maxAttempts, next, compiledTrims + changes, recorded, first, assemble, measure, tighten);
        PrefixTrans(attempts, recorded, r.renderAttempts);
      }
    }
  }

  /** A result `render` may return: accepted at its one-page attempt, or failed with every attempt overflowing. */
  predicate Settled(r: RendererResult)
  {
    var n := |r.renderAttempts|;
    && (r.error.None? <==> r.pageCount == 1)
    && (r.error.None? ==> n > 0 && r.renderAttempts[n - 1].pageCount == 1 && r.finalTrims == r.renderAttempts[n - 1].trims
                          && Overflowing(r.renderAttempts[..n - 1]))
    && (r.error.Some? ==> && r.pdfPath == "" && r.error == Some(FailureMessage) && Overflowing(r.renderAttempts)
                          && r.pageCount == (if n == 0 then 0 else r.renderAttempts[n - 1].pageCount))
  }

  /** Accepting a one-page attempt after overflowing ones settles the result. */
  lemma SettledAccepted(attempts: seq<RenderAttempt>, a: RenderAttempt, path: string)
    requires Overflowing(attempts) && a.pageCount == 1
    ensures Settled(RendererResult(path, 1, attempts + [a], a.trims, None))
  {
    assert (attempts + [a])[..|attempts|] == attempts;
  }

  /** Running out of attempts after overflowing ones settles the result. */
  lemma SettledExhausted(attempts: seq<RenderAttempt>, trims: seq<string>)
    requires Overflowing(attempts)
    ensures Settled(Exhausted(attempts, trims))
  {
  }

  /** One more overflowing attempt keeps every attempt overflowing. */
  lemma OverflowingSnoc(attempts: seq<RenderAttempt>, a: RenderAttempt)
    requires Overflowing(attempts) && a.pageCount != 1
    ensures Overflowing(attempts + [a])
  {
    assert forall k :: 0 <= k < |attempts| ==> (attempts + [a])[k] == attempts[k];
  }

  /**
   * From any attempt on: success is exactly a page count of 1, reported by
   * the last attempt with its trims; failure has no path, the error
   * message and the last attempt's page count (0 without attempts); no
   * attempt before the deciding one measured one page.
   */
  lemma {:induction false} RenderFromOutcome(attempt: int, maxAttempts: int, profile: Profile, trims: seq<string>,
                                             attempts: seq<RenderAttempt>, first: string, assemble: Profile -> AssemblerResult,
                                             measure: string -> Measurement, tighten: Profile -> (Profile, seq<string>))
    requires attempt >= 1 && Overflowing(attempts)
    ensures Settled(RenderFrom(attempt, maxAttempts, profile, trims, attempts, first, assemble, measure, tighten))
    decreases maxAttempts + 1 - attempt
  {
    if attempt <= maxAttempts {
      var st := Source(attempt, profile, trims, first, assemble);
      var m := measure(st.0);
      var a := RenderAttempt(attempt, m.pages, st.1, Prefix(m.log, LogExcerpt));
      var recorded := attempts + [a];
      if m.pages == 1 {
        SettledAccepted(attempts, a, m.pdfPath);
      } else {
        OverflowingSnoc(attempts, a);
        var t := tighten(profile);
        RenderFromOutcome(attempt + 1, maxAttempts, t.0, st.1 + t.1, recorded, first, assemble, measure, tighten);
      }
    } else {
      SettledExhausted(attempts, trims);
    }
  }


  /**
   * From any attempt on, trims stay cumulative; when every tightening step
   * reports at least one change, on failure the final trims hold at least
   * one step more than the last attempt compiled with.
   */
  lemma {:induction false} RenderFromTrims(attempt: int, maxAttempts: int, profile: Profile, trims: seq<string>,
                                           attempts: seq<RenderAttempt>, first: string, assemble: Profile -> AssemblerResult,
                                           measure: string -> Measurement, tighten: Profile -> (Profile, seq<string>),
                                           base: seq<string>)
    requires attempt >= 1 && Cumulative(base, attempts, trims)
    requires forall p :: |tighten(p).1| >= 1
    requires attempts != [] ==> |attempts[|attempts| - 1].trims| < |trims|
    ensures TrimsGrow(base, RenderFrom(attempt, maxAttempts, profile, trims, attempts, first, assemble, measure, tighten))
    decreases maxAttempts + 1 - attempt
  {
    if attempt <= maxAttempts {
      var (source, compiledTrims) := Source(attempt, profile, trims, first, assemble);
      var m := measure(source);
      var a := RenderAttempt(attempt, m.pages, compiledTrims, Prefix(m.log, LogExcerpt));
      if attempt != 1 {
        PrefixOfConcat(trims, assemble(profile).trimsApplied);
      }
      CumulativeRecord(base, attempts, trims, a);
      if m.pages != 1 {
        var (next, changes) := tighten(profile);
        CumulativeExtend(base, attempts + [a], compiledTrims, changes);
        RenderFromTrims(attempt + 1, maxAttempts, next, compiledTrims + changes, attempts + [a], first, assemble, measure, tighten, base);
      }
    }
  }

  /**
   * `render` makes at most `max_attempts` attempts, numbered 1, 2, … in
   * order, and uses them all when it fails.
   */
  lemma {:induction false} RenderAttempts(profile: Profile, asm: AssemblerResult, maxAttempts: int, limit: int, compile: Compiler)
    ensures var r := Rendered(profile, asm, maxAttempts, limit, compile);
      && Numbered(r.renderAttempts)
      && |r.renderAttempts| <= Assembler.Max(0, maxAttempts)
      && (r.error.Some? ==> |r.renderAttempts| == Assembler.Max(0, maxAttempts))
  {
    RenderFromCount(1, maxAttempts, profile, asm.trimsApplied, [], asm.latexSource, Assembly(limit), Measured(compile),
                    TightenForOverflow);
  }

  /** The first attempt compiles the given LaTeX unchanged, with the assembler's trims. */
  lemma {:induction false} RenderFirstAttempt(profile: Profile, asm: AssemblerResult, maxAttempts: int, limit: int, compile: Compiler)
    requires maxAttempts >= 1
    ensures var r := Rendered(profile, asm, maxAttempts, limit, compile);
      var c := compile(asm.latexSource);
      |r.renderAttempts| >= 1
      && r.renderAttempts[0] == RenderAttempt(1, PageCount(c), asm.trimsApplied, Prefix(c.log, LogExcerpt))
  {
    var m := Measured(compile)(asm.latexSource);
    var first := [RenderAttempt(1, m.pages, asm.trimsApplied, Prefix(m.log, LogExcerpt))];
    assert [] + first == first;
    if m.pages != 1 {
      var (next, changes) := TightenForOverflow(profile);
      RenderFromCount(2, maxAttempts, next, asm.trimsApplied + changes, first, asm.latexSource, Assembly(limit),
                      Measured(compile), TightenForOverflow);
    }
  }

  /**
   * `render` succeeds exactly when it reports one page, at the first
   * attempt that measured one page; a result without one page has no
   * path and carries the error.
   */
  lemma {:induction false} RenderOutcome(profile: Profile, asm: AssemblerResult, maxAttempts: int, limit: int, compile: Compiler)
    ensures var r := Rendered(profile, asm, maxAttempts, limit, compile);
      var n := |r.renderAttempts|;
      && (r.error.None? <==> r.pageCount == 1)
      && (r.error.None? ==> n > 0 && r.renderAttempts[n - 1].pageCount == 1 && r.finalTrims == r.renderAttempts[n - 1].trims
                            && Overflowing(r.renderAttempts[..n - 1]))
      && (r.pageCount != 1 ==> && r.pdfPath == "" && r.error == Some(FailureMessage) && Overflowing(r.renderAttempts)
                               && r.pageCount == (if n == 0 then 0 else r.renderAttempts[n - 1].pageCount))
  {
    RenderFromOutcome(1, maxAttempts, profile, asm.trimsApplied, [], asm.latexSource, Assembly(limit), Measured(compile),
                      TightenForOverflow);
    assert Settled(Rendered(profile, asm, maxAttempts, limit, compile));
  }

  /**
   * Trims are cumulative from the assembler's trims to the final trims;
   * on failure the final trims also hold an overflow step that was never
   * compiled.
   */
  lemma {:induction false} RenderTrims(profile: Profile, asm: AssemblerResult, maxAttempts: int, limit: int, compile: Compiler)
    ensures TrimsGrow(asm.trimsApplied, Rendered(profile, asm, maxAttempts, limit, compile))
  {
    TightenAlwaysReports();
    RenderFromTrims(1, maxAttempts, profile, asm.trimsApplied, [], asm.latexSource, Assembly(limit), Measured(compile),
                    TightenForOverflow, asm.trimsApplied);
  }
}

/**
 * The Python string primitives the provisioning code relies on:
 * `str.strip()`, `str.strip("\n")`, `str.splitlines()`, `int(str)`,
 * `str(int)`, `str.split("_")`, `str.startswith` and the word splitting
 * that `shlex.split` performs on text without quotes or escapes.
 */
module Text {
  import opened Wrappers

  /** The characters for which Python's `str.isspace()` holds: what `str.strip()` drops. */
  predicate IsSpace(c: char) {
    c == ' ' || ('\t' <= c <= '\r') || ('\U{1C}' <= c <= '\U{1F}') || c == '\U{85}' || c == '\U{A0}'
    || c == '\U{1680}' || ('\U{2000}' <= c <= '\U{200A}') || c == '\U{2028}' || c == '\U{2029}'
    || c == '\U{202F}' || c == '\U{205F}' || c == '\U{3000}'
  }

  predicate IsNewline(c: char) { c == '\n' }

  /** How many leading characters of `s` satisfy `drop`. */
  function LeadCount(s: string, drop: char -> bool): (n: nat)
    ensures n <= |s|
    ensures forall k :: 0 <= k < n ==> drop(s[k])
    ensures n < |s| ==> !drop(s[n])
  {
    if s == [] || !drop(s[0]) then 0 else 1 + LeadCount(s[1..], drop)
  }

  /** How many trailing characters of `s` satisfy `drop`. */
  function TrailCount(s: string, drop: char -> bool): (n: nat)
    ensures n <= |s|
    ensures forall k :: |s| - n <= k < |s| ==> drop(s[k])
    ensures n < |s| ==> !drop(s[|s| - 1 - n])
  {
    if s == [] || !drop(s[|s| - 1]) then 0 else 1 + TrailCount(s[..|s| - 1], drop)
  }

  /**
   * The slice `s[i..j]` that `strip` keeps: everything before `i` and from
   * `j` on is dropped, and the kept part neither starts nor ends with a
   * dropped character.
   */
  function StripBounds(s: string, drop: char -> bool): (b: (nat, nat))
    ensures b.0 <= b.1 <= |s|
    ensures forall k :: 0 <= k < b.0 ==> drop(s[k])
    ensures forall k :: b.1 <= k < |s| ==> drop(s[k])
    ensures b.0 < b.1 ==> !drop(s[b.0]) && !drop(s[b.1 - 1])
  {
    var i := LeadCount(s, drop);
    var n := TrailCount(s[i..], drop);
    assert forall k :: i + (|s| - i - n) <= k < |s| ==> s[k] == s[i..][k - i];
    (i, |s| - n)
  }

  /** Python's `s.strip(chars)` for the set of characters `drop` stands for. */
  function StripWith(s: string, drop: char -> bool): string {
    var b := StripBounds(s, drop);
    s[b.0..b.1]
  }

  /** Python's `s.strip()`. */
  function Strip(s: string): string { StripWith(s, IsSpace) }

  /** Python's `s.strip("\n")`. */
  function StripNewlines(s: string): string { StripWith(s, IsNewline) }

  predicate Repeats(s: string, c: char) { forall k :: 0 <= k < |s| ==> s[k] == c }

  /**
   * Stripping removes only dropped characters, and only at the two ends,
   * and the result has no dropped character at either end.
   */
  lemma StripWithShape(s: string, drop: char -> bool)
    ensures var r := StripWith(s, drop);
      r == "" || (!drop(r[0]) && !drop(r[|r| - 1]))
    ensures var b := StripBounds(s, drop);
      s == s[..b.0] + StripWith(s, drop) + s[b.1..]
    ensures var b := StripBounds(s, drop);
      StripWith(s, drop) == "" ==> forall k :: 0 <= k < |s| ==> drop(s[k])
  {
    var b := StripBounds(s, drop);
    assert s == s[..b.0] + s[b.0..b.1] + s[b.1..];
  }

  /** A string that does not start or end with a dropped character is left as it is. */
  lemma StripWithKeeps(s: string, drop: char -> bool)
    requires s == "" || (!drop(s[0]) && !drop(s[|s| - 1]))
    ensures StripWith(s, drop) == s
  {
  }

  /** Stripping twice is stripping once. */
  lemma StripWithIdempotent(s: string, drop: char -> bool)
    ensures StripWith(StripWith(s, drop), drop) == StripWith(s, drop)
  {
    StripWithShape(s, drop);
    StripWithKeeps(StripWith(s, drop), drop);
  }

  /** `strip("\n")` of some newlines, a core and some newlines gives back the core. */
  lemma {:induction false} StripNewlinesFrame(pre: string, core: string, post: string)
    requires Repeats(pre, '\n') && Repeats(post, '\n')
    requires core == "" || (core[0] != '\n' && core[|core| - 1] != '\n')
    requires core != "" || pre == post == ""
    ensures StripNewlines(pre + core + post) == core
  {
    var s := pre + core + post;
    var b := StripBounds(s, IsNewline);
    assert forall k :: 0 <= k < |pre| ==> s[k] == pre[k];
    assert forall k :: |pre| + |core| <= k < |s| ==> s[k] == post[k - |pre| - |core|];
    if core != "" {
      assert !IsNewline(s[|pre|]) && !IsNewline(s[|pre| + |core| - 1]);
      assert b.0 == |pre|;
      assert b.1 == |pre| + |core|;
      assert s[b.0..b.1] == core;
    }
  }

  // ---------------------------------------------------------------- splitlines

  /** The line boundaries of Python's `str.splitlines()`. */
  predicate IsLineBoundary(c: char) {
    c == '\n' || c == '\r' || c == '\U{0B}' || c == '\U{0C}' || ('\U{1C}' <= c <= '\U{1E}')
    || c == '\U{85}' || c == '\U{2028}' || c == '\U{2029}'
  }

  predicate NotLineBoundary(c: char) { !IsLineBoundary(c) }

  predicate NoLineBoundary(l: string) { forall k :: 0 <= k < |l| ==> !IsLineBoundary(l[k]) }

  /** Python's `s.splitlines()`: "\r\n" is one boundary and a final boundary opens no empty line. */
  function SplitLines(s: string): (lines: seq<string>)
    ensures forall l :: l in lines ==> NoLineBoundary(l)
    decreases |s|
  {
    if s == "" then []
    else
      var i := LeadCount(s, NotLineBoundary);
      if i == |s| then [s]
      else
        var width := if s[i] == '\r' && i + 1 < |s| && s[i + 1] == '\n' then 2 else 1;
        [s[..i]] + SplitLines(s[i + width..])
  }

  /** The text of a file holding `lines`, one per line, each ended by "\n". */
  function JoinLines(lines: seq<string>): string {
    if lines == [] then "" else lines[0] + "\n" + JoinLines(lines[1..])
  }

  /** Reading back a file written one entry per line gives the entries, in order. */
  lemma {:induction false} SplitJoinLines(lines: seq<string>)
    requires forall l :: l in lines ==> NoLineBoundary(l)
    ensures SplitLines(JoinLines(lines)) == lines
  {
    if lines != [] {
      var l := lines[0];
      var s := JoinLines(lines);
      assert s == l + "\n" + JoinLines(lines[1..]);
      assert s[|l|] == '\n';
      var i := LeadCount(s, NotLineBoundary);
      assert l in lines;
      assert forall k :: 0 <= k < |l| ==> s[k] == l[k] && !IsLineBoundary(s[k]);
      assert IsLineBoundary(s[|l|]);
      assert i == |l|;
      assert s[..i] == l;
      assert s[i + 1..] == JoinLines(lines[1..]);
      SplitJoinLines(lines[1..]);
    }
  }

  // ---------------------------------------------------------------- int() and str()

  predicate IsDigit(c: char) { '0' <= c <= '9' }

  function DigitValue(c: char): nat
    requires IsDigit(c)
  {
    (c as int) - ('0' as int)
  }

  function DigitChar(d: nat): (c: char)
    requires d < 10
    ensures IsDigit(c) && DigitValue(c) == d
  {
    (('0' as int) + d) as char
  }

  /**
   * The digits of a decimal literal as Python's `int()` accepts them:
   * ASCII digits, with single underscores allowed between two digits.
   */
  predicate IsDigitBody(b: string) {
    |b| > 0 && IsDigit(b[0]) && IsDigit(b[|b| - 1])
    && (forall k :: 0 <= k < |b| ==> IsDigit(b[k]) || b[k] == '_')
    && (forall k :: 0 <= k < |b| - 1 ==> IsDigit(b[k]) || IsDigit(b[k + 1]))
  }

  /** The value of a digit body, underscores ignored. */
  function BodyValue(b: string): nat
    decreases |b|
  {
    if b == [] then 0
    else if IsDigit(b[|b| - 1]) then BodyValue(b[..|b| - 1]) * 10 + DigitValue(b[|b| - 1])
    else BodyValue(b[..|b| - 1])
  }

  /** Python's `int(s)` in base 10: `None` where Python raises `ValueError`. */
  function ParseInt(s: string): Option<int> {
    var t := Strip(s);
    var signed := |t| > 0 && (t[0] == '-' || t[0] == '+');
    var body := if signed then t[1..] else t;
    if !IsDigitBody(body) then None
    else if signed && t[0] == '-' then Some(-(BodyValue(body) as int))
    else Some(BodyValue(body) as int)
  }

  /** Python's `str(n)` for a natural number. */
  function ShowNat(n: nat): (s: string)
    ensures |s| > 0 && forall k :: 0 <= k < |s| ==> IsDigit(s[k])
    decreases n
  {
    if n < 10 then [DigitChar(n)] else ShowNat(n / 10) + [DigitChar(n % 10)]
  }

  /** Python's `str(i)`. */
  function ShowInt(i: int): string {
    if i < 0 then "-" + ShowNat(-i) else ShowNat(i)
  }

  lemma {:induction false} BodyValueShowNat(n: nat)
    ensures BodyValue(ShowNat(n)) == n
    decreases n
  {
    var s := ShowNat(n);
    if n >= 10 {
      assert s[..|s| - 1] == ShowNat(n / 10);
      BodyValueShowNat(n / 10);
    }
  }

  lemma ShowNatIsBody(n: nat)
    ensures IsDigitBody(ShowNat(n))
  {
  }

  lemma StripShowInt(i: int)
    ensures Strip(ShowInt(i)) == ShowInt(i)
  {
    var s := ShowInt(i);
    assert !IsSpace(s[0]) && !IsSpace(s[|s| - 1]);
    StripWithKeeps(s, IsSpace);
  }

  /** `int(str(i)) == i`: the decimal text of every integer parses back to it. */
  lemma ParseShowInt(i: int)
    ensures ParseInt(ShowInt(i)) == Some(i)
  {
    var m: nat := if i < 0 then -i else i;
    var s := ShowInt(i);
    var digits := ShowNat(m);
    ShowNatIsBody(m);
    BodyValueShowNat(m);
    StripShowInt(i);
    if i < 0 {
      assert s[0] == '-' && s[1..] == digits;
    } else {
      assert s == digits && IsDigit(s[0]);
    }
  }

  /** Text that holds no digit is never a number. */
  lemma ParseIntNeedsDigit(s: string)
    requires forall k :: 0 <= k < |s| ==> !IsDigit(s[k])
    ensures ParseInt(s) == None
  {
    var t := Strip(s);
    var b := StripBounds(s, IsSpace);
    assert forall k :: 0 <= k < |t| ==> t[k] == s[b.0 + k] && !IsDigit(t[k]);
  }

  // ---------------------------------------------------------------- split, startswith, shlex

  function StartsWith(s: string, prefix: string): bool {
    |prefix| <= |s| && s[..|prefix|] == prefix
  }

  /** Python's `s.split(sep)` for a one-character separator: always at least one field. */
  function SplitOn(s: string, sep: char): (fields: seq<string>)
    ensures |fields| >= 1
    ensures forall f :: f in fields ==> sep !in f
    ensures |fields| >= 2 <==> sep in s
    decreases |s|
  {
    var i := IndexOf(s, sep);
    if i == |s| then [s] else [s[..i]] + SplitOn(s[i + 1..], sep)
  }

  /** The index of the first `sep` in `s`, or `|s|` when there is none. */
  function IndexOf(s: string, sep: char): (i: nat)
    ensures i <= |s|
    ensures forall k :: 0 <= k < i ==> s[k] != sep
    ensures i < |s| ==> s[i] == sep
  {
    if s == [] || s[0] == sep then 0 else 1 + IndexOf(s[1..], sep)
  }

  /** Splitting `a + sep + b` on `sep`, where neither part holds `sep`, gives the two parts. */
  lemma SplitOnTwo(a: string, sep: char, b: string)
    requires sep !in a && sep !in b
    ensures SplitOn(a + [sep] + b, sep) == [a, b]
  {
    var s := a + [sep] + b;
    var i := IndexOf(s, sep);
    assert forall k :: 0 <= k < |a| ==> s[k] == a[k] && s[k] != sep;
    assert s[|a|] == sep;
    assert i == |a|;
    assert s[..i] == a;
    assert s[i + 1..] == b;
    var j := IndexOf(b, sep);
    assert forall k :: 0 <= k < |b| ==> b[k] in b;
    assert j == |b|;
  }

  /** The whitespace on which `shlex.split` separates words. */
  predicate IsShellSpace(c: char) { c == ' ' || c == '\t' || c == '\r' || c == '\n' }

  predicate IsWordChar(c: char) { !IsShellSpace(c) }

  predicate IsWord(w: string) { w != "" && forall k :: 0 <= k < |w| ==> !IsShellSpace(w[k]) }

  /** `shlex.split(s)` for text without quotes, escapes or comments: the maximal runs of non-blanks. */
  function Words(s: string): (ws: seq<string>)
    ensures forall w :: w in ws ==> IsWord(w)
    decreases |s|
  {
    var i := LeadCount(s, IsShellSpace);
    if i == |s| then []
    else
      var rest := s[i..];
      var n := LeadCount(rest, IsWordChar);
      [rest[..n]] + Words(rest[n..])
  }

  /** A single word splits to itself. */
  lemma WordsOfWord(w: string)
    requires IsWord(w)
    ensures Words(w) == [w]
  {
    assert LeadCount(w, IsShellSpace) == 0;
    assert LeadCount(w, IsWordChar) == |w|;
    assert w[..|w|] == w && w[|w|..] == "";
  }

  /** Leading blanks do not change the words. */
  lemma WordsSkipBlank(rest: string)
    ensures Words(" " + rest) == Words(rest)
  {
    var t := " " + rest;
    assert t[1..] == rest;
    var i := LeadCount(t, IsShellSpace);
    assert i == 1 + LeadCount(rest, IsShellSpace);
    if i < |t| {
      assert t[i..] == rest[i - 1..];
    }
  }

  /** `shlex.split` of a word, a blank and more text: the word, then the words of the rest. */
  lemma WordsCons(w: string, rest: string)
    requires IsWord(w)
    ensures Words(w + " " + rest) == [w] + Words(rest)
  {
    var s := w + " " + rest;
    assert s[0] == w[0];
    assert LeadCount(s, IsShellSpace) == 0;
    assert s[0..] == s;
    assert forall k :: 0 <= k < |w| ==> s[k] == w[k];
    assert s[|w|] == ' ';
    assert LeadCount(s, IsWordChar) == |w|;
    assert s[..|w|] == w;
    assert s[|w|..] == " " + rest;
    WordsSkipBlank(rest);
  }

  /** Two words and a blank in front of any text split off as the first two fields. */
  lemma WordsPair(a: string, b: string, rest: string)
    requires IsWord(a) && IsWord(b)
    ensures Words(a + " " + b + " " + rest) == [a, b] + Words(rest)
  {
    WordsCons(b, rest);
    PairText(a, b, rest);
    WordsCons(a, b + " " + rest);
  }

  lemma PairText(a: string, b: string, rest: string)
    ensures a + " " + b + " " + rest == a + " " + (b + " " + rest)
  {
    Regroup(a + " " + b, " ", rest);
    Regroup(a + " ", b, " " + rest);
    Regroup(b, " ", rest);
  }

  lemma Regroup(a: string, b: string, c: string)
    ensures a + b + c == a + (b + c)
  {
  }

  /** Python's `s[0].upper() + s[1:]` for ASCII letters; `None` where `s[0]` raises `IndexError`. */
  function UpperFirst(s: string): (r: Option<string>)
    ensures s == "" <==> r == None
    ensures r.Some? ==> |r.value| == |s| && r.value[1..] == s[1..]
    ensures r.Some? ==> (if 'a' <= s[0] <= 'z' then r.value[0] as int == s[0] as int - 32 else r.value[0] == s[0])
  {
    if s == "" then None
    else
      var c := if 'a' <= s[0] <= 'z' then ((s[0] as int) - 32) as char else s[0];
      Some([c] + s[1..])
  }
}

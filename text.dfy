/**
 * The Python string operations the scripts rely on, on `string` (a sequence of
 * characters): substring tests, `str.split(sep)`, `str.split()`, `str.strip()`,
 * `str.startswith`, `str.replace`, and ASCII `str.upper`/`str.lower`.
 */
module Text {

  /** Python's `str.isspace()`: the set `\s`, `str.split()` and `str.strip()` use. */
  predicate IsSpace(c: char) {
    || c == ' '
    || ('\t' <= c <= '\r')
    || ('\U{1C}' <= c <= '\U{1F}')
    || c == '\U{85}' || c == '\U{A0}' || c == '\U{1680}'
    || ('\U{2000}' <= c <= '\U{200A}')
    || c == '\U{2028}' || c == '\U{2029}' || c == '\U{202F}' || c == '\U{205F}' || c == '\U{3000}'
  }

  /** The regular-expression class `\w`, restricted to ASCII. */
  predicate IsWordChar(c: char) {
    ('a' <= c <= 'z') || ('A' <= c <= 'Z') || ('0' <= c <= '9') || c == '_'
  }

  /** A non-empty run of `\w` characters: what `(\w+)` captures. */
  predicate IsIdentifier(w: string) {
    |w| > 0 && forall k :: 0 <= k < |w| ==> IsWordChar(w[k])
  }

  /** `s[i:].startswith(pat)`. */
  predicate StartsWithAt(s: string, i: nat, pat: string) {
    i + |pat| <= |s| && s[i..i + |pat|] == pat
  }

  /** `pat in s`. */
  predicate Contains(s: string, pat: string) {
    exists i: nat | i <= |s| - |pat| :: StartsWithAt(s, i, pat)
  }

  predicate StartsWith(s: string, pat: string) {
    StartsWithAt(s, 0, pat)
  }

  /** A string lacking some character of `pat` does not contain `pat`. */
  lemma MissingCharNotContained(s: string, pat: string, k: nat)
    requires k < |pat| && pat[k] !in s
    ensures !Contains(s, pat)
  {
    forall i: nat | i + |pat| <= |s| ensures !StartsWithAt(s, i, pat) {
      assert s[i..i + |pat|][k] == s[i + k];
    }
  }

  lemma OccursAtContains(s: string, pat: string, i: nat)
    requires StartsWithAt(s, i, pat)
    ensures Contains(s, pat)
  {
  }

  /** An occurrence in `s[1:]` is an occurrence in `s`. */
  lemma ContainsInTail(s: string, pat: string)
    requires |s| > 0
    ensures Contains(s[1..], pat) ==> Contains(s, pat)
  {
    if Contains(s[1..], pat) {
      var t := s[1..];
      var i: nat :| i <= |t| - |pat| && StartsWithAt(t, i, pat);
      assert t[i..i + |pat|] == s[i + 1..i + 1 + |pat|];
      assert StartsWithAt(s, i + 1, pat);
    }
  }

  /** Any substring of a substring of `s` is a substring of `s`. */
  lemma {:induction false} ContainsTransitive(s: string, mid: string, pat: string)
    requires Contains(s, mid) && Contains(mid, pat)
    ensures Contains(s, pat)
  {
    var i: nat :| i <= |s| - |mid| && StartsWithAt(s, i, mid);
    var j: nat :| j <= |mid| - |pat| && StartsWithAt(mid, j, pat);
    assert StartsWithAt(s, i + j, pat) by {
      forall k | 0 <= k < |pat| ensures s[i + j + k] == pat[k] {
        assert mid[j + k] == pat[k];
        assert s[i + (j + k)] == mid[j + k];
      }
    }
  }

  // ---------------------------------------------------------------------------
  // Case mapping (ASCII)

  function LowerChar(c: char): char {
    if 'A' <= c <= 'Z' then (c as int + 32) as char else c
  }

  function UpperChar(c: char): char {
    if 'a' <= c <= 'z' then (c as int - 32) as char else c
  }

  /** `s.lower()`. */
  function Lower(s: string): (r: string)
    ensures |r| == |s| && forall k :: 0 <= k < |s| ==> r[k] == LowerChar(s[k])
  {
    seq(|s|, k requires 0 <= k < |s| => LowerChar(s[k]))
  }

  /** `s.upper()`. */
  function Upper(s: string): (r: string)
    ensures |r| == |s| && forall k :: 0 <= k < |s| ==> r[k] == UpperChar(s[k])
  {
    seq(|s|, k requires 0 <= k < |s| => UpperChar(s[k]))
  }

  /** Lower-casing maps every occurrence of `pat` to an occurrence of `pat.lower()`. */
  lemma {:induction false} LowerKeepsOccurrence(s: string, pat: string)
    requires Contains(s, pat)
    ensures Contains(Lower(s), Lower(pat))
  {
    var i: nat :| i <= |s| - |pat| && StartsWithAt(s, i, pat);
    var ls, lp := Lower(s), Lower(pat);
    assert StartsWithAt(ls, i, lp) by {
      forall k | 0 <= k < |lp| ensures ls[i + k] == lp[k] {
        assert s[i + k] == pat[k];
      }
    }
  }

  // ---------------------------------------------------------------------------
  // `sep.join(pieces)` and `s.split(sep)`

  function Join(pieces: seq<string>, sep: char): string {
    if |pieces| == 0 then ""
    else if |pieces| == 1 then pieces[0]
    else pieces[0] + ([sep] + Join(pieces[1..], sep))
  }

  /** `s.split(sep)` for a one-character separator: the pieces between separators. */
  function Split(s: string, sep: char): (r: seq<string>)
    ensures |r| >= 1
    ensures forall k :: 0 <= k < |r| ==> sep !in r[k]
    decreases |s|
  {
    if |s| == 0 then [""]
    else
      var rest := Split(s[1..], sep);
      if s[0] == sep then [""] + rest
      else [[s[0]] + rest[0]] + rest[1..]
  }

  /** Joining the pieces back with the separator gives the original string. */
  lemma {:induction false} JoinSplit(s: string, sep: char)
    ensures Join(Split(s, sep), sep) == s
    decreases |s|
  {
    if |s| > 0 {
      var rest := Split(s[1..], sep);
      JoinSplit(s[1..], sep);
      if s[0] == sep {
        assert s == [sep] + s[1..];
      } else if |rest| == 1 {
        assert s == [s[0]] + s[1..];
      } else {
        assert rest == [rest[0]] + rest[1..];
        assert Join(rest, sep) == rest[0] + [sep] + Join(rest[1..], sep);
        assert s == [s[0]] + s[1..];
      }
    }
  }

  /** Splitting a join of separator-free pieces gives the pieces back. */
  lemma {:induction false} SplitJoin(pieces: seq<string>, sep: char)
    requires |pieces| >= 1
    requires forall k :: 0 <= k < |pieces| ==> sep !in pieces[k]
    ensures Split(Join(pieces, sep), sep) == pieces
    decreases |pieces|, |pieces[0]|
  {
    var p := pieces[0];
    if |p| == 0 {
      if |pieces| > 1 {
        SplitJoin(pieces[1..], sep);
        assert Join(pieces, sep) == [sep] + Join(pieces[1..], sep);
        assert [sep] + Join(pieces[1..], sep) == Join(pieces, sep);
        assert pieces == [""] + pieces[1..];
      }
    } else {
      var tail := [p[1..]] + pieces[1..];
      assert p == [p[0]] + p[1..];
      assert sep !in p[1..] by {
        forall c | c in p[1..] ensures c != sep { assert c in p; }
      }
      SplitJoin(tail, sep);
      assert tail[1..] == pieces[1..];
      assert Join(pieces, sep) == [p[0]] + Join(tail, sep);
      assert Join(pieces, sep)[1..] == Join(tail, sep);
    }
  }

  // ---------------------------------------------------------------------------
  // `s.strip()`

  /** `s.lstrip()`. */
  function TrimStart(s: string): (r: string)
    ensures |r| <= |s| && r == s[|s| - |r|..]
    ensures forall k :: 0 <= k < |s| - |r| ==> IsSpace(s[k])
    ensures r != [] ==> !IsSpace(r[0])
    decreases |s|
  {
    if |s| > 0 && IsSpace(s[0]) then TrimStart(s[1..]) else s
  }

  /** `s.rstrip()`. */
  function TrimEnd(s: string): (r: string)
    ensures |r| <= |s| && r == s[..|r|]
    ensures forall k :: |r| <= k < |s| ==> IsSpace(s[k])
    ensures r != [] ==> !IsSpace(r[|r| - 1])
    decreases |s|
  {
    if |s| > 0 && IsSpace(s[|s| - 1]) then TrimEnd(s[..|s| - 1]) else s
  }

  /** `s.strip()`: the middle of `s` between leading and trailing whitespace. */
  function Strip(s: string): (r: string)
    ensures exists i, j :: 0 <= i <= j <= |s| && r == s[i..j]
    ensures r != [] ==> !IsSpace(r[0]) && !IsSpace(r[|r| - 1])
  {
    var t := TrimStart(s);
    var r := TrimEnd(t);
    assert r == s[|s| - |t|..|s| - |t| + |r|];
    r
  }

  /** A string that neither starts nor ends with whitespace is its own strip. */
  lemma StripUnpadded(s: string)
    requires s != [] ==> !IsSpace(s[0]) && !IsSpace(s[|s| - 1])
    ensures Strip(s) == s
  {
    assert TrimStart(s) == s;
  }

  /** A string made only of whitespace. */
  predicate AllSpace(w: string) {
    forall k :: 0 <= k < |w| ==> IsSpace(w[k])
  }

  /** `s.strip()` removes exactly a whitespace prefix and a whitespace suffix, and keeps what lies between. */
  lemma StripTrimsSpace(s: string)
    ensures exists pre, post :: AllSpace(pre) && AllSpace(post) && s == pre + Strip(s) + post
  {
    var t := TrimStart(s);
    var r := TrimEnd(t);
    var pre := TrimStartSplit(s);
    var post := TrimEndSplit(t);
    assert Strip(s) == r;
    assert s == pre + (r + post);
    AppendAssoc(pre, r, post);
    assert AllSpace(pre) && AllSpace(post) && s == pre + Strip(s) + post;
  }

  lemma AppendAssoc(a: string, b: string, c: string)
    ensures a + (b + c) == a + b + c
  {
  }

  /** The whitespace `s.lstrip()` removes, and `s` is that prefix followed by the result. */
  lemma TrimStartSplit(s: string) returns (pre: string)
    ensures AllSpace(pre) && s == pre + TrimStart(s)
  {
    var t := TrimStart(s);
    pre := s[..|s| - |t|];
    forall k | 0 <= k < |pre| ensures IsSpace(pre[k]) {
      assert pre[k] == s[k];
    }
  }

  /** The whitespace `s.rstrip()` removes, and `s` is the result followed by that suffix. */
  lemma TrimEndSplit(s: string) returns (post: string)
    ensures AllSpace(post) && s == TrimEnd(s) + post
  {
    var r := TrimEnd(s);
    post := s[|r|..];
    forall k | 0 <= k < |post| ensures IsSpace(post[k]) {
      assert post[k] == s[|r| + k];
    }
  }

  /** A string with no non-space character strips to the empty string. */
  lemma StripAllSpace(s: string)
    requires forall k :: 0 <= k < |s| ==> IsSpace(s[k])
    ensures Strip(s) == ""
  {
  }

  // ---------------------------------------------------------------------------
  // `s.split()`: maximal runs of non-whitespace

  /** A field of `s.split()`: non-empty and free of whitespace. */
  predicate IsField(w: string) {
    |w| > 0 && forall k :: 0 <= k < |w| ==> !IsSpace(w[k])
  }

  /** The longest whitespace-free prefix of `s`. */
  function LeadingField(s: string): (r: string)
    ensures |r| <= |s| && r == s[..|r|]
    ensures forall k :: 0 <= k < |r| ==> !IsSpace(s[k])
    ensures |r| < |s| ==> IsSpace(s[|r|])
    decreases |s|
  {
    if |s| == 0 || IsSpace(s[0]) then "" else [s[0]] + LeadingField(s[1..])
  }

  /** `s.split()` with no argument. */
  function Fields(s: string): (r: seq<string>)
    ensures forall k :: 0 <= k < |r| ==> IsField(r[k])
    decreases |s|
  {
    var t := TrimStart(s);
    if t == "" then []
    else
      var w := LeadingField(t);
      LeadingFieldOfUnpadded(t);
      var rest := Fields(t[|w|..]);
      FieldsPrependField(w, rest);
      [w] + rest
  }

  /** A string not starting with whitespace has a field as its longest whitespace-free prefix. */
  lemma LeadingFieldOfUnpadded(t: string)
    requires t != [] && !IsSpace(t[0])
    ensures IsField(LeadingField(t))
  {
  }

  /** Prepending a field to a sequence of fields keeps every element a field. */
  lemma FieldsPrependField(w: string, rest: seq<string>)
    requires IsField(w) && forall k :: 0 <= k < |rest| ==> IsField(rest[k])
    ensures forall k :: 0 <= k < |[w] + rest| ==> IsField(([w] + rest)[k])
  {
  }

  /** Words laid out with a gap after each: `ws[0] + gaps[0] + ws[1] + gaps[1] + ...`. */
  function Spaced(ws: seq<string>, gaps: seq<string>): string
    requires |gaps| == |ws|
  {
    if ws == [] then [] else ws[0] + (gaps[0] + Spaced(ws[1..], gaps[1..]))
  }

  /** Gaps of whitespace, each non-empty except the trailing one. */
  predicate SeparatingGaps(gaps: seq<string>) {
    && (forall k :: 0 <= k < |gaps| ==> AllSpace(gaps[k]))
    && (forall k :: 0 <= k < |gaps| - 1 ==> gaps[k] != [])
  }

  /**
   * Fields laid out with any leading whitespace, any non-empty whitespace runs
   * between them and any trailing whitespace split back into the same fields.
   */
  lemma FieldsOfPadded(lead: string, ws: seq<string>, gaps: seq<string>)
    requires AllSpace(lead) && |gaps| == |ws| && SeparatingGaps(gaps)
    requires forall k :: 0 <= k < |ws| ==> IsField(ws[k])
    ensures Fields(lead + Spaced(ws, gaps)) == ws
  {
    FieldsSkipSpaces(lead, Spaced(ws, gaps));
    FieldsOfSpaced(ws, gaps);
  }

  lemma {:induction false} FieldsOfSpaced(ws: seq<string>, gaps: seq<string>)
    requires |gaps| == |ws| && SeparatingGaps(gaps)
    requires forall k :: 0 <= k < |ws| ==> IsField(ws[k])
    ensures Fields(Spaced(ws, gaps)) == ws
    decreases |ws|
  {
    if ws != [] {
      var tail := Spaced(ws[1..], gaps[1..]);
      assert Spaced(ws, gaps) == ws[0] + (gaps[0] + tail);
      if gaps[0] == [] {
        assert |gaps| == 1;
        assert ws[1..] == [];
      }
      FieldThenGap(ws[0], gaps[0], tail);
      SeparatingGapsTail(gaps);
      FieldsTail(ws);
      FieldsOfSpaced(ws[1..], gaps[1..]);
      assert [ws[0]] + ws[1..] == ws;
    }
  }

  lemma FieldsTail(ws: seq<string>)
    requires ws != [] && forall k :: 0 <= k < |ws| ==> IsField(ws[k])
    ensures forall k :: 0 <= k < |ws[1..]| ==> IsField(ws[1..][k])
  {
  }

  /** Dropping the first gap keeps the rest separating. */
  lemma SeparatingGapsTail(gaps: seq<string>)
    requires gaps != [] && SeparatingGaps(gaps)
    ensures SeparatingGaps(gaps[1..])
  {
    var tl := gaps[1..];
    assert forall k :: 0 <= k < |tl| ==> tl[k] == gaps[k + 1];
  }

  /** A field, then a whitespace gap (empty only at the end), then more text: the field comes first. */
  lemma FieldThenGap(w: string, gap: string, tail: string)
    requires IsField(w) && AllSpace(gap) && (gap == [] ==> tail == [])
    ensures Fields(w + (gap + tail)) == [w] + Fields(tail)
  {
    var rest := gap + tail;
    if gap == [] {
      assert rest == [];
    } else {
      assert rest[0] == gap[0];
    }
    FieldsCons(w, rest);
    FieldsSkipSpaces(gap, tail);
  }

  /** Leading whitespace does not change the fields. */
  lemma FieldsSkipSpaces(sp: string, t: string)
    requires AllSpace(sp)
    ensures Fields(sp + t) == Fields(t)
  {
    TrimStartSkipSpaces(sp, t);
  }

  lemma {:induction false} TrimStartSkipSpaces(sp: string, t: string)
    requires AllSpace(sp)
    ensures TrimStart(sp + t) == TrimStart(t)
    decreases |sp|
  {
    if sp != [] {
      assert (sp + t)[0] == sp[0];
      assert (sp + t)[1..] == sp[1..] + t;
      TrimStartSkipSpaces(sp[1..], t);
    } else {
      assert sp + t == t;
    }
  }

  /** A field followed by nothing or by whitespace is the first field. */
  lemma FieldsCons(w: string, rest: string)
    requires IsField(w)
    requires rest == [] || IsSpace(rest[0])
    ensures Fields(w + rest) == [w] + Fields(rest)
  {
    var s := w + rest;
    assert s[0] == w[0];
    assert TrimStart(s) == s;
    LeadingFieldOfField(w, rest);
    assert s[|w|..] == rest;
  }

  lemma {:induction false} LeadingFieldOfField(w: string, rest: string)
    requires IsField(w)
    requires rest == [] || IsSpace(rest[0])
    ensures LeadingField(w + rest) == w
    decreases |w|
  {
    assert (w + rest)[1..] == w[1..] + rest;
    if |w| > 1 {
      LeadingFieldOfField(w[1..], rest);
    } else {
      assert w[1..] + rest == rest;
    }
    assert w == [w[0]] + w[1..];
  }

  // ---------------------------------------------------------------------------
  // `s.replace(old, new)`

  /** `s.replace(target, replacement)`: every non-overlapping occurrence, left to right. */
  function ReplaceAll(s: string, target: string, replacement: string): (r: string)
    requires |target| > 0
    ensures !Contains(s, target) ==> r == s
    ensures StartsWith(s, target) && !Contains(s[|target|..], target) ==> r == replacement + s[|target|..]
    decreases |s|
  {
    if |s| == 0 then ""
    else if StartsWith(s, target) then replacement + ReplaceAll(s[|target|..], target, replacement)
    else
      ContainsInTail(s, target);
      [s[0]] + ReplaceAll(s[1..], target, replacement)
  }

  // ---------------------------------------------------------------------------
  // `str(n)`

  function DigitChar(d: nat): char
    requires d < 10
  {
    "0123456789"[d]
  }

  function NatToString(n: nat): (r: string)
    ensures |r| >= 1
  {
    if n < 10 then [DigitChar(n)] else NatToString(n / 10) + [DigitChar(n % 10)]
  }

  /** `str(n)` for an integer. */
  function IntToString(n: int): (r: string)
    ensures |r| >= 1
  {
    if n < 0 then "-" + NatToString(-n) else NatToString(n)
  }
}

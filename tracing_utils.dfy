/**
 * Source-text validators over the Python files of a project: where autolog is
 * switched on, which functions carry the tracing decorator, whether autolog
 * precedes the imports, and whether the session-ID and mlflow-import code is
 * present. A file is its path and, unless reading it failed, its text; the
 * directory walk that produces the files is not modelled.
 */
module TracingUtils {
  import opened Wrappers
  import opened Text

  /** A `*.py` file under the search path: its path and, unless `read_text` raised, its text. */
  datatype SourceFile = SourceFile(path: string, content: Option<string>)

  /** Both finders skip files inside a virtual environment or installed packages. */
  predicate IsExcludedPath(path: string) {
    Contains(path, "venv") || Contains(path, ".venv") || Contains(path, "site-packages")
  }

  /** The ".venv" test is subsumed by the "venv" test. */
  lemma ExcludedPathReduced(path: string)
    ensures IsExcludedPath(path) <==> Contains(path, "venv") || Contains(path, "site-packages")
  {
    if Contains(path, ".venv") {
      assert StartsWithAt(".venv", 1, "venv");
      ContainsTransitive(path, ".venv", "venv");
    }
  }

  // ===========================================================================
  // find_autolog_calls

  const AutologPrefix: string := "mlflow."
  const AutologSuffix: string := ".autolog()"

  /** The end of the maximal run of `\w` characters of `s` that starts at `j`. */
  function WordRunEnd(s: string, j: nat): (k: nat)
    requires j <= |s|
    ensures j <= k <= |s|
    ensures forall m :: j <= m < k ==> IsWordChar(s[m])
    ensures k == |s| || !IsWordChar(s[k])
    decreases |s| - j
  {
    if j < |s| && IsWordChar(s[j]) then WordRunEnd(s, j + 1) else j
  }

  /** A match of the autolog pattern: the captured library name and where the match ends. */
  datatype AutologMatch = AutologMatch(lib: string, end: nat)

  /** `re.match(r"mlflow\.(\w+)\.autolog\(\)", s[i:])`. */
  function MatchAutologAt(s: string, i: nat): (r: Option<AutologMatch>)
    requires i <= |s|
    ensures r.Some? ==> IsIdentifier(r.value.lib) && r.value.end == i + |r.value.lib| + 17
    ensures r.Some? ==> StartsWithAt(s, i, AutologPrefix + r.value.lib + AutologSuffix)
  {
    if !StartsWithAt(s, i, AutologPrefix) then None
    else
      var k := WordRunEnd(s, i + 7);
      if k > i + 7 && StartsWithAt(s, k, AutologSuffix) then
        var lib := s[i + 7..k];
        assert s[i..k + 10] == AutologPrefix + lib + AutologSuffix by {
          assert s[i..k + 10] == s[i..i + 7] + s[i + 7..k] + s[k..k + 10];
        }
        Some(AutologMatch(lib, k + 10))
      else None
  }

  /** The matcher recognises exactly the text `mlflow.<lib>.autolog()` with `lib` a `\w+` word. */
  lemma {:induction false} MatchAutologAtIff(s: string, i: nat, lib: string)
    requires i <= |s|
    ensures MatchAutologAt(s, i) == Some(AutologMatch(lib, i + |lib| + 17))
        <==> IsIdentifier(lib) && StartsWithAt(s, i, AutologPrefix + lib + AutologSuffix)
  {
    var whole := AutologPrefix + lib + AutologSuffix;
    if IsIdentifier(lib) && StartsWithAt(s, i, whole) {
      var e := i + 7 + |lib|;
      assert s[i..e + 10] == whole;
      forall m | i <= m < e + 10
        ensures s[m] == if m < i + 7 then AutologPrefix[m - i]
                        else if m < e then lib[m - i - 7] else AutologSuffix[m - e]
      {
        assert s[m] == whole[m - i];
      }
      assert s[i..i + 7] == AutologPrefix;
      assert s[i + 7..e] == lib;
      assert s[e..e + 10] == AutologSuffix;
      WordRunEndAt(s, i + 7, e);
    }
  }

  /** A run of word characters ended by a non-word character is the maximal run. */
  lemma {:induction false} WordRunEndAt(s: string, j: nat, e: nat)
    requires j <= e <= |s|
    requires forall m :: j <= m < e ==> IsWordChar(s[m])
    requires e == |s| || !IsWordChar(s[e])
    ensures WordRunEnd(s, j) == e
    decreases e - j
  {
    if j < e {
      WordRunEndAt(s, j + 1, e);
    }
  }

  /** The library of every autolog match that starts at `pos` or later, in textual order. */
  function AutologLibs(s: string, pos: nat): seq<string>
    requires pos <= |s|
    decreases |s| - pos
  {
    if pos == |s| then [] else LibAt(s, pos) + AutologLibs(s, pos + 1)
  }

  /** The library of the match at `pos`, if any. */
  function LibAt(s: string, pos: nat): seq<string>
    requires pos <= |s|
  {
    match MatchAutologAt(s, pos)
    case Some(m) => [m.lib]
    case None => []
  }

  /** No autolog match starts strictly inside another one, so `re.finditer` misses none. */
  lemma NoAutologMatchInside(s: string, i: nat, k: nat)
    requires i <= |s| && MatchAutologAt(s, i).Some?
    requires i < k < MatchAutologAt(s, i).value.end
    ensures MatchAutologAt(s, k).None?
  {
    var e := WordRunEnd(s, i + 7);
    assert s[i..i + 7] == AutologPrefix;
    assert s[e..e + 10] == AutologSuffix;
    if k < i + 7 {
      assert s[k] == AutologPrefix[k - i];
      NoMatchWithoutM(s, k);
    } else if e <= k {
      assert s[k] == AutologSuffix[k - e];
      NoMatchWithoutM(s, k);
    } else {
      NoMatchInLibrary(s, i + 7, e, k);
    }
  }

  lemma NoMatchWithoutM(s: string, k: nat)
    requires k < |s| && s[k] != 'm'
    ensures MatchAutologAt(s, k).None?
  {
  }

  /**
   * Inside a library name (a word run from `j` to `e` followed by ".autolog()"),
   * a match could only start six characters before the dot, and then its own
   * word run "autolog" is followed by "(" instead of a dot.
   */
  lemma NoMatchInLibrary(s: string, j: nat, e: nat, k: nat)
    requires j <= k < e && e + 10 <= |s|
    requires forall m :: j <= m < e ==> IsWordChar(s[m])
    requires s[e..e + 10] == AutologSuffix
    ensures MatchAutologAt(s, k).None?
  {
    if StartsWithAt(s, k, AutologPrefix) {
      assert s[k..k + 7] == AutologPrefix;
      assert s[k + 6] == '.';
      assert k + 6 >= e;
      assert s[e] == '.';
      assert s[e] == AutologPrefix[e - k];
      assert e == k + 6;
      forall m | k + 7 <= m < e + 8 ensures IsWordChar(s[m]) {
        assert s[m] == AutologSuffix[m - e];
      }
      assert s[e + 8] == '(';
      WordRunEndAt(s, k + 7, e + 8);
    }
  }

  /** Positions holding no match contribute nothing. */
  lemma {:induction false} AutologLibsSkip(s: string, a: nat, b: nat)
    requires a <= b <= |s|
    requires forall k :: a <= k < b ==> MatchAutologAt(s, k).None?
    ensures AutologLibs(s, a) == AutologLibs(s, b)
    decreases b - a
  {
    if a < b {
      AutologLibsSkip(s, a + 1, b);
    }
  }

  /** After a match, scanning resumes at its end without losing any match. */
  lemma AutologLibsAfterMatch(s: string, i: nat)
    requires i < |s| && MatchAutologAt(s, i).Some?
    ensures MatchAutologAt(s, i).value.end <= |s|
    ensures AutologLibs(s, i)
         == [MatchAutologAt(s, i).value.lib] + AutologLibs(s, MatchAutologAt(s, i).value.end)
  {
    var m := MatchAutologAt(s, i).value;
    forall k | i + 1 <= k < m.end ensures MatchAutologAt(s, k).None? {
      NoAutologMatchInside(s, i, k);
    }
    AutologLibsSkip(s, i + 1, m.end);
  }

  /** Pairs each library with the file it was found in. */
  function Tagged(path: string, libs: seq<string>): (r: seq<(string, string)>)
    ensures |r| == |libs| && forall k :: 0 <= k < |libs| ==> r[k] == (path, libs[k])
  {
    seq(|libs|, k requires 0 <= k < |libs| => (path, libs[k]))
  }

  lemma TaggedAppend(path: string, a: seq<string>, b: seq<string>)
    ensures Tagged(path, a + b) == Tagged(path, a) + Tagged(path, b)
  {
  }

  /** What one file contributes to `find_autolog_calls`. */
  function FileAutologCalls(f: SourceFile): seq<(string, string)> {
    if IsExcludedPath(f.path) || f.content.None? then []
    else Tagged(f.path, AutologLibs(f.content.value, 0))
  }

  /** The result of `find_autolog_calls` over the files in walk order. */
  function AutologCalls(files: seq<SourceFile>): seq<(string, string)> {
    if files == [] then []
    else AutologCalls(files[..|files| - 1]) + FileAutologCalls(files[|files| - 1])
  }

  /** `find_autolog_calls`: one `(path, lib)` pair per autolog call, file by file, in textual order. */
  method FindAutologCalls(files: seq<SourceFile>) returns (found: seq<(string, string)>)
    ensures found == AutologCalls(files)
  {
    found := [];
    for f := 0 to |files|
      invariant found == AutologCalls(files[..f])
    {
      assert files[..f + 1][..f] == files[..f];
      var file := files[f];
      if IsExcludedPath(file.path) || file.content.None? {
        continue;
      }
      var calls := AutologCallsInText(file.path, file.content.value);
      found := found + calls;
    }
    assert files[..|files|] == files;
  }

  /** The `re.finditer` loop over one file's text. */
  method AutologCallsInText(path: string, s: string) returns (found: seq<(string, string)>)
    ensures found == Tagged(path, AutologLibs(s, 0))
  {
    found := [];
    ghost var libs: seq<string> := [];
    var i := 0;
    while i < |s|
      invariant i <= |s|
      invariant libs + AutologLibs(s, i) == AutologLibs(s, 0)
      invariant found == Tagged(path, libs)
      decreases |s| - i
    {
      var m := MatchAutologAt(s, i);
      if m.Some? {
        ScanPastMatch(s, i, libs);
        TaggedAppend(path, libs, [m.value.lib]);
        found := found + [(path, m.value.lib)];
        libs := libs + [m.value.lib];
        i := m.value.end;
      } else {
        ScanPastPosition(s, i, libs);
        i := i + 1;
      }
    }
  }

  /** The scan's invariant survives recording a match and resuming at its end. */
  lemma ScanPastMatch(s: string, i: nat, libs: seq<string>)
    requires i < |s| && MatchAutologAt(s, i).Some?
    requires libs + AutologLibs(s, i) == AutologLibs(s, 0)
    ensures MatchAutologAt(s, i).value.end <= |s|
    ensures (libs + [MatchAutologAt(s, i).value.lib]) + AutologLibs(s, MatchAutologAt(s, i).value.end) == AutologLibs(s, 0)
  {
    AutologLibsAfterMatch(s, i);
  }

  /** The scan's invariant survives moving past a position holding no match. */
  lemma ScanPastPosition(s: string, i: nat, libs: seq<string>)
    requires i < |s| && MatchAutologAt(s, i).None?
    requires libs + AutologLibs(s, i) == AutologLibs(s, 0)
    ensures libs + AutologLibs(s, i + 1) == AutologLibs(s, 0)
  {
    var rest := AutologLibs(s, i + 1);
    assert LibAt(s, i) == [];
    assert AutologLibs(s, i) == [] + rest;
    assert [] + rest == rest;
  }

  /** `f` is scanned and its text holds the call `mlflow.<lib>.autolog()`. */
  predicate WrittenIn(f: SourceFile, lib: string) {
    && !IsExcludedPath(f.path)
    && f.content.Some?
    && IsIdentifier(lib)
    && Contains(f.content.value, AutologPrefix + lib + AutologSuffix)
  }

  /** Every reported pair names a scanned file and an autolog call written in it. */
  lemma {:induction false} AutologCallsSound(files: seq<SourceFile>, n: nat)
    requires n < |AutologCalls(files)|
    ensures exists k :: 0 <= k < |files| && files[k].path == AutologCalls(files)[n].0
                        && WrittenIn(files[k], AutologCalls(files)[n].1)
  {
    var init := files[..|files| - 1];
    var last := files[|files| - 1];
    var pair := AutologCalls(files)[n];
    if n < |AutologCalls(init)| {
      assert pair == AutologCalls(init)[n];
      AutologCallsSound(init, n);
      var k :| 0 <= k < |init| && init[k].path == pair.0 && WrittenIn(init[k], pair.1);
      assert files[k] == init[k];
    } else {
      var s := last.content.value;
      var libs := AutologLibs(s, 0);
      var q := n - |AutologCalls(init)|;
      assert pair == FileAutologCalls(last)[q] == (last.path, libs[q]);
      AutologLibsSound(s, 0, q);
      var p: nat :| p <= |s| && MatchAutologAt(s, p).Some? && MatchAutologAt(s, p).value.lib == libs[q];
      OccursAtContains(s, AutologPrefix + libs[q] + AutologSuffix, p);
      assert WrittenIn(files[|files| - 1], pair.1);
    }
  }

  lemma {:induction false} AutologLibsSound(s: string, pos: nat, n: nat)
    requires pos <= |s| && n < |AutologLibs(s, pos)|
    ensures exists p: nat :: p <= |s| && MatchAutologAt(s, p).Some? && MatchAutologAt(s, p).value.lib == AutologLibs(s, pos)[n]
    decreases |s| - pos
  {
    var here := LibAt(s, pos);
    if n < |here| {
      assert AutologLibs(s, pos)[n] == MatchAutologAt(s, pos).value.lib;
    } else {
      AutologLibsSound(s, pos + 1, n - |here|);
      assert AutologLibs(s, pos)[n] == AutologLibs(s, pos + 1)[n - |here|];
    }
  }

  /** Every autolog call written in a scanned file is reported. */
  lemma {:induction false} AutologCallsComplete(files: seq<SourceFile>, k: nat, p: nat)
    requires k < |files| && !IsExcludedPath(files[k].path) && files[k].content.Some?
    requires p <= |files[k].content.value| && MatchAutologAt(files[k].content.value, p).Some?
    ensures (files[k].path, MatchAutologAt(files[k].content.value, p).value.lib) in AutologCalls(files)
  {
    var init := files[..|files| - 1];
    if k < |files| - 1 {
      assert init[k] == files[k];
      AutologCallsComplete(init, k, p);
    } else {
      FileAutologCallsComplete(files[k], p);
    }
  }

  /** Every autolog match in a non-excluded, readable file is among that file's calls. */
  lemma FileAutologCallsComplete(f: SourceFile, p: nat)
    requires !IsExcludedPath(f.path) && f.content.Some?
    requires p <= |f.content.value| && MatchAutologAt(f.content.value, p).Some?
    ensures (f.path, MatchAutologAt(f.content.value, p).value.lib) in FileAutologCalls(f)
  {
    var s := f.content.value;
    AutologLibsComplete(s, 0, p);
    var lib := MatchAutologAt(s, p).value.lib;
    var n :| 0 <= n < |AutologLibs(s, 0)| && AutologLibs(s, 0)[n] == lib;
    assert FileAutologCalls(f)[n] == (f.path, lib);
  }

  lemma {:induction false} AutologLibsComplete(s: string, pos: nat, p: nat)
    requires pos <= p <= |s| && MatchAutologAt(s, p).Some?
    ensures MatchAutologAt(s, p).value.lib in AutologLibs(s, pos)
    decreases |s| - pos
  {
    if pos < p {
      AutologLibsComplete(s, pos + 1, p);
    }
  }

  /** Excluded or unreadable files contribute no pair. */
  lemma {:induction false} AutologCallsSkipExcluded(files: seq<SourceFile>, path: string)
    requires IsExcludedPath(path)
    ensures forall n :: 0 <= n < |AutologCalls(files)| ==> AutologCalls(files)[n].0 != path
  {
    forall n | 0 <= n < |AutologCalls(files)| ensures AutologCalls(files)[n].0 != path {
      AutologCallsSound(files, n);
    }
  }

  // ===========================================================================
  // find_trace_decorators

  const TraceDecorator: string := "@mlflow.trace"

  /** The end of the maximal whitespace run of `s` that starts at `j`. */
  function SpaceRunEnd(s: string, j: nat): (k: nat)
    requires j <= |s|
    ensures j <= k <= |s|
    ensures forall m :: j <= m < k ==> IsSpace(s[m])
    ensures k == |s| || !IsSpace(s[k])
    decreases |s| - j
  {
    if j < |s| && IsSpace(s[j]) then SpaceRunEnd(s, j + 1) else j
  }

  /** `re.match(r"def\s+(\w+)\s*\(", line[p:])`: the captured function name. */
  function MatchDefAt(line: string, p: nat): (r: Option<string>)
    requires p <= |line|
    ensures r.Some? ==> IsIdentifier(r.value) && StartsWithAt(line, p, "def")
  {
    if !StartsWithAt(line, p, "def") then None
    else
      var a := SpaceRunEnd(line, p + 3);
      var b := WordRunEnd(line, a);
      var c := SpaceRunEnd(line, b);
      if a > p + 3 && b > a && c < |line| && line[c] == '(' then Some(line[a..b]) else None
  }

  /** The text at `p` is `def`, a whitespace run `gap1`, the word `name`, the whitespace run `gap2` and "(". */
  predicate DefText(line: string, p: nat, name: string, gap1: string, gap2: string) {
    && gap1 != [] && AllSpace(gap1) && AllSpace(gap2) && IsIdentifier(name)
    && StartsWithAt(line, p, "def" + gap1 + name + gap2 + "(")
  }

  /** The matcher captures `name` exactly when `def\s+(\w+)\s*\(` matches at `p` with that group. */
  lemma {:induction false} MatchDefAtIff(line: string, p: nat, name: string)
    requires p <= |line|
    ensures MatchDefAt(line, p) == Some(name) <==> exists gap1, gap2 :: DefText(line, p, name, gap1, gap2)
  {
    if MatchDefAt(line, p) == Some(name) {
      var gap1, gap2 := MatchDefAtText(line, p);
    }
    if exists gap1, gap2 :: DefText(line, p, name, gap1, gap2) {
      var gap1, gap2 :| DefText(line, p, name, gap1, gap2);
      DefTextMatches(line, p, name, gap1, gap2);
    }
  }

  /** A match found by the matcher is the text `DefText` describes, with its two whitespace runs. */
  lemma MatchDefAtText(line: string, p: nat) returns (gap1: string, gap2: string)
    requires p <= |line| && MatchDefAt(line, p).Some?
    ensures DefText(line, p, MatchDefAt(line, p).value, gap1, gap2)
  {
    var a := SpaceRunEnd(line, p + 3);
    var b := WordRunEnd(line, a);
    var c := SpaceRunEnd(line, b);
    var name := line[a..b];
    gap1, gap2 := line[p + 3..a], line[b..c];
    assert line[p..p + 3] == "def";
    assert line[c..c + 1] == "(";
    SliceSplit5(line, p, p + 3, a, b, c, c + 1);
  }

  /** A slice cut at four inner points is the concatenation of the five pieces. */
  lemma SliceSplit5(s: string, i0: nat, i1: nat, i2: nat, i3: nat, i4: nat, i5: nat)
    requires i0 <= i1 <= i2 <= i3 <= i4 <= i5 <= |s|
    ensures s[i0..i5] == s[i0..i1] + s[i1..i2] + s[i2..i3] + s[i3..i4] + s[i4..i5]
  {
    SliceSplit(s, i0, i4, i5);
    SliceSplit(s, i0, i3, i4);
    SliceSplit(s, i0, i2, i3);
    SliceSplit(s, i0, i1, i2);
  }

  lemma SliceSplit(s: string, i: nat, j: nat, k: nat)
    requires i <= j <= k <= |s|
    ensures s[i..k] == s[i..j] + s[j..k]
  {
  }

  /** The matcher finds the text `DefText` describes. */
  lemma DefTextMatches(line: string, p: nat, name: string, gap1: string, gap2: string)
    requires p <= |line| && DefText(line, p, name, gap1, gap2)
    ensures MatchDefAt(line, p) == Some(name)
  {
    var whole := "def" + gap1 + name + gap2 + "(";
    var a := p + 3 + |gap1|;
    var b := a + |name|;
    var c := b + |gap2|;
    assert line[p..c + 1] == whole;
    forall m | p <= m <= c
      ensures line[m] == if m < p + 3 then "def"[m - p]
                         else if m < a then gap1[m - p - 3]
                         else if m < b then name[m - a]
                         else if m < c then gap2[m - b] else '('
    {
      assert line[m] == whole[m - p];
    }
    assert line[p..p + 3] == "def";
    assert line[a..b] == name;
    SpaceRunEndAt(line, p + 3, a);
    WordRunEndAt(line, a, b);
    SpaceRunEndAt(line, b, c);
  }

  /** A whitespace run ended by a non-space character is the maximal run. */
  lemma {:induction false} SpaceRunEndAt(s: string, j: nat, e: nat)
    requires j <= e <= |s|
    requires forall m :: j <= m < e ==> IsSpace(s[m])
    requires e == |s| || !IsSpace(s[e])
    ensures SpaceRunEnd(s, j) == e
    decreases e - j
  {
    if j < e {
      SpaceRunEndAt(s, j + 1, e);
    }
  }

  /** No position of `line[from..to]` starts a `def` match. */
  predicate NoDefMatchIn(line: string, from: nat, to: nat)
    requires to <= |line|
  {
    forall q :: from <= q < to ==> MatchDefAt(line, q).None?
  }

  /** `re.search(r"def\s+(\w+)\s*\(", line[p:])`: the leftmost match's function name. */
  function SearchDef(line: string, p: nat): (r: Option<string>)
    requires p <= |line|
    ensures r.Some? ==> IsIdentifier(r.value)
    decreases |line| - p
  {
    match MatchDefAt(line, p)
    case Some(name) => Some(name)
    case None => if p == |line| then None else SearchDef(line, p + 1)
  }

  /** The search reports the match at the leftmost matching position, and nothing when no position matches. */
  lemma {:induction false} SearchDefLeftmost(line: string, p: nat)
    requires p <= |line|
    ensures SearchDef(line, p).Some? ==>
      exists q :: p <= q <= |line| && MatchDefAt(line, q) == SearchDef(line, p) && NoDefMatchIn(line, p, q)
    ensures SearchDef(line, p).None? ==> forall q :: p <= q <= |line| ==> MatchDefAt(line, q).None?
    decreases |line| - p
  {
    if MatchDefAt(line, p).Some? {
      assert NoDefMatchIn(line, p, p);
    } else if p < |line| {
      SearchDefLeftmost(line, p + 1);
      if SearchDef(line, p).Some? {
        var q :| p + 1 <= q <= |line| && MatchDefAt(line, q) == SearchDef(line, p) && NoDefMatchIn(line, p + 1, q);
        assert NoDefMatchIn(line, p, q);
      }
    }
  }

  /** A line the finder takes as the decorated function's definition. */
  predicate IsDefLine(line: string) {
    Contains(line, "def ") && SearchDef(line, 0).Some?
  }

  /** The first definition line in `lines[from..to]`. */
  function FirstDefLine(lines: seq<string>, from: nat, to: nat): (r: Option<nat>)
    requires from <= to <= |lines|
    ensures r.Some? ==> from <= r.value < to && IsDefLine(lines[r.value])
    ensures r.Some? ==> forall k :: from <= k < r.value ==> !IsDefLine(lines[k])
    ensures r.None? ==> (forall k :: from <= k < to ==> !IsDefLine(lines[k]))
    decreases |lines| - from
  {
    if from == to then None
    else if IsDefLine(lines[from]) then Some(from)
    else FirstDefLine(lines, from + 1, to)
  }

  /**
   * Line index `j` is the first definition line after the decorator on 1-based
   * line `lineNo`, within the four lines the finder inspects, and defines `name`.
   */
  predicate DefFoundAt(lines: seq<string>, lineNo: nat, j: nat, name: string) {
    && lineNo <= j < Min(lineNo + 4, |lines|)
    && IsDefLine(lines[j]) && SearchDef(lines[j], 0) == Some(name)
    && forall k :: lineNo <= k < j ==> !IsDefLine(lines[k])
  }

  /** A decorated function: the file, the function name and the 1-based decorator line. */
  datatype Decorated = Decorated(path: string, name: string, lineNo: nat)

  function Min(a: int, b: int): int {
    if a <= b then a else b
  }

  /** The lines the finder inspects after the decorator on line index `i`. */
  function WindowEnd(i: nat, n: nat): nat {
    Min(i + 5, n)
  }

  /** What the decorator candidate on line index `i` contributes. */
  function DecoratorAt(path: string, lines: seq<string>, i: nat): seq<Decorated>
    requires i < |lines|
  {
    if !Contains(lines[i], TraceDecorator) then []
    else
      match FirstDefLine(lines, i + 1, WindowEnd(i, |lines|))
      case Some(j) => [Decorated(path, SearchDef(lines[j], 0).value, i + 1)]
      case None => []
  }

  /** The decorated functions found from line index `i` on. */
  function DecoratorsFrom(path: string, lines: seq<string>, i: nat): seq<Decorated>
    requires i <= |lines|
    decreases |lines| - i
  {
    if i == |lines| then [] else DecoratorAt(path, lines, i) + DecoratorsFrom(path, lines, i + 1)
  }

  /** What one file contributes to `find_trace_decorators`. */
  function FileDecorators(f: SourceFile): seq<Decorated> {
    if IsExcludedPath(f.path) || f.content.None? then []
    else DecoratorsFrom(f.path, Split(f.content.value, '\n'), 0)
  }

  /** The result of `find_trace_decorators` over the files in walk order. */
  function TraceDecorators(files: seq<SourceFile>): seq<Decorated> {
    if files == [] then []
    else TraceDecorators(files[..|files| - 1]) + FileDecorators(files[|files| - 1])
  }

  /** `find_trace_decorators`. */
  method FindTraceDecorators(files: seq<SourceFile>) returns (decorated: seq<Decorated>)
    ensures decorated == TraceDecorators(files)
  {
    decorated := [];
    for f := 0 to |files|
      invariant decorated == TraceDecorators(files[..f])
    {
      assert files[..f + 1][..f] == files[..f];
      var file := files[f];
      if IsExcludedPath(file.path) || file.content.None? {
        continue;
      }
      var lines := Split(file.content.value, '\n');
      var entries := DecoratorsInLines(file.path, lines);
      decorated := decorated + entries;
    }
    assert files[..|files|] == files;
  }

  /** The loop of `find_trace_decorators` over the lines of one file. */
  method DecoratorsInLines(path: string, lines: seq<string>) returns (decorated: seq<Decorated>)
    ensures decorated == DecoratorsFrom(path, lines, 0)
  {
    decorated := [];
    for i := 0 to |lines|
      invariant decorated + DecoratorsFrom(path, lines, i) == DecoratorsFrom(path, lines, 0)
    {
      var here := DecoratorOnLine(path, lines, i);
      assert DecoratorsFrom(path, lines, i) == here + DecoratorsFrom(path, lines, i + 1);
      decorated := decorated + here;
    }
  }

  /** One pass of that loop: the entry for the decorator candidate on line index `i`. */
  method DecoratorOnLine(path: string, lines: seq<string>, i: nat) returns (here: seq<Decorated>)
    requires i < |lines|
    ensures here == DecoratorAt(path, lines, i)
  {
    here := [];
    if Contains(lines[i], TraceDecorator) {
      var j := FindDefInWindow(lines, i + 1, WindowEnd(i, |lines|));
      if j.Some? {
        here := [Decorated(path, SearchDef(lines[j.value], 0).value, i + 1)];
      }
    }
  }

  /** The inner loop of `find_trace_decorators`: the first definition line in `lines[from..to]`. */
  method FindDefInWindow(lines: seq<string>, from: nat, to: nat) returns (r: Option<nat>)
    requires from <= to <= |lines|
    ensures r == FirstDefLine(lines, from, to)
  {
    var j := from;
    while j < to
      invariant from <= j <= to
      invariant FirstDefLine(lines, j, to) == FirstDefLine(lines, from, to)
    {
      if Contains(lines[j], "def ") {
        var funcMatch := SearchDef(lines[j], 0);
        if funcMatch.Some? {
          return Some(j);
        }
      }
      j := j + 1;
    }
    return None;
  }

  /** Each entry's line number is strictly above the previous one's: at most one entry per decorator line. */
  lemma {:induction false} DecoratorsFromOrdered(path: string, lines: seq<string>, i: nat)
    requires i <= |lines|
    ensures forall n :: 0 <= n < |DecoratorsFrom(path, lines, i)| ==> DecoratorsFrom(path, lines, i)[n].lineNo > i
    ensures forall n, m :: 0 <= n < m < |DecoratorsFrom(path, lines, i)| ==>
              DecoratorsFrom(path, lines, i)[n].lineNo < DecoratorsFrom(path, lines, i)[m].lineNo
    decreases |lines| - i
  {
    if i < |lines| {
      DecoratorsFromOrdered(path, lines, i + 1);
    }
  }

  /** `d` is in `path`, sits on a decorator line and names the first definition within the next four lines. */
  ghost predicate SoundEntry(path: string, lines: seq<string>, d: Decorated) {
    && d.path == path
    && 1 <= d.lineNo <= |lines|
    && Contains(lines[d.lineNo - 1], TraceDecorator)
    && exists j :: DefFoundAt(lines, d.lineNo, j, d.name)
  }

  /** Each entry sits on a decorator line and names the first definition within the next four lines. */
  lemma {:induction false} DecoratorsFromSound(path: string, lines: seq<string>, i: nat)
    requires i <= |lines|
    ensures forall d :: d in DecoratorsFrom(path, lines, i) ==> SoundEntry(path, lines, d)
    decreases |lines| - i
  {
    if i < |lines| {
      DecoratorsFromSound(path, lines, i + 1);
      if DecoratorAt(path, lines, i) != [] {
        DecoratorAtSound(path, lines, i);
      }
      assert DecoratorsFrom(path, lines, i) == DecoratorAt(path, lines, i) + DecoratorsFrom(path, lines, i + 1);
    }
  }

  /** The entry for a decorator line, when there is one, is the only one and is sound. */
  lemma DecoratorAtSound(path: string, lines: seq<string>, i: nat)
    requires i < |lines| && DecoratorAt(path, lines, i) != []
    ensures |DecoratorAt(path, lines, i)| == 1 && SoundEntry(path, lines, DecoratorAt(path, lines, i)[0])
  {
    var j := FirstDefLine(lines, i + 1, WindowEnd(i, |lines|)).value;
    assert DefFoundAt(lines, i + 1, j, DecoratorAt(path, lines, i)[0].name);
  }

  /** Some entry of `ds` reports the decorator on line number `lineNo`. */
  predicate Reports(ds: seq<Decorated>, lineNo: nat) {
    exists n :: 0 <= n < |ds| && ds[n].lineNo == lineNo
  }

  /** A decorator line whose next four lines hold a definition is always reported. */
  lemma {:induction false} DecoratorsFromComplete(path: string, lines: seq<string>, i: nat, d: nat)
    requires i <= d < |lines| && Contains(lines[d], TraceDecorator)
    requires exists j :: d + 1 <= j < Min(d + 5, |lines|) && IsDefLine(lines[j])
    ensures Reports(DecoratorsFrom(path, lines, i), d + 1)
    decreases |lines| - i
  {
    var here := DecoratorAt(path, lines, i);
    var rest := DecoratorsFrom(path, lines, i + 1);
    assert DecoratorsFrom(path, lines, i) == here + rest;
    if i < d {
      DecoratorsFromComplete(path, lines, i + 1, d);
    } else {
      DecoratorAtReported(path, lines, d);
    }
    ReportsConcat(here, rest, d + 1);
  }

  /** A report in either part is a report in the concatenation. */
  lemma ReportsConcat(a: seq<Decorated>, b: seq<Decorated>, lineNo: nat)
    requires Reports(a, lineNo) || Reports(b, lineNo)
    ensures Reports(a + b, lineNo)
  {
    if Reports(a, lineNo) {
      var n :| 0 <= n < |a| && a[n].lineNo == lineNo;
      assert (a + b)[n] == a[n];
    } else {
      var n :| 0 <= n < |b| && b[n].lineNo == lineNo;
      assert (a + b)[|a| + n] == b[n];
    }
  }

  lemma DecoratorAtReported(path: string, lines: seq<string>, d: nat)
    requires d < |lines| && Contains(lines[d], TraceDecorator)
    requires exists j :: d + 1 <= j < Min(d + 5, |lines|) && IsDefLine(lines[j])
    ensures Reports(DecoratorAt(path, lines, d), d + 1)
  {
    var j :| d + 1 <= j < Min(d + 5, |lines|) && IsDefLine(lines[j]);
    assert FirstDefLine(lines, d + 1, WindowEnd(d, |lines|)).Some?;
    assert DecoratorAt(path, lines, d)[0].lineNo == d + 1;
  }

  /** `f` is scanned and readable, and `d` is a sound entry for its lines. */
  ghost predicate DecoratedIn(f: SourceFile, d: Decorated) {
    && !IsExcludedPath(f.path)
    && f.content.Some?
    && SoundEntry(f.path, Split(f.content.value, '\n'), d)
  }

  /** Every reported decorator comes from a scanned, readable file and is sound for its lines. */
  lemma {:induction false} TraceDecoratorsSound(files: seq<SourceFile>, d: Decorated)
    requires d in TraceDecorators(files)
    ensures exists k :: 0 <= k < |files| && files[k].path == d.path && DecoratedIn(files[k], d)
  {
    var init := files[..|files| - 1];
    var last := files[|files| - 1];
    if d in TraceDecorators(init) {
      TraceDecoratorsSound(init, d);
      var k :| 0 <= k < |init| && init[k].path == d.path && DecoratedIn(init[k], d);
      assert files[k] == init[k];
    } else {
      assert d in FileDecorators(last);
      DecoratorsFromSound(last.path, Split(last.content.value, '\n'), 0);
      assert DecoratedIn(files[|files| - 1], d);
    }
  }

  /** Excluded paths contribute no decorator. */
  lemma DecoratorsSkipExcluded(files: seq<SourceFile>, path: string)
    requires IsExcludedPath(path)
    ensures forall d :: d in TraceDecorators(files) ==> d.path != path
  {
    forall d | d in TraceDecorators(files) ensures d.path != path {
      TraceDecoratorsSound(files, d);
    }
  }

  /** A decorator line of a scanned, readable file with a definition among its next four lines is reported. */
  lemma {:induction false} TraceDecoratorsComplete(files: seq<SourceFile>, k: nat, d: nat)
    requires k < |files| && !IsExcludedPath(files[k].path) && files[k].content.Some?
    requires d < |Split(files[k].content.value, '\n')|
    requires Contains(Split(files[k].content.value, '\n')[d], TraceDecorator)
    requires exists j :: d + 1 <= j < Min(d + 5, |Split(files[k].content.value, '\n')|)
                        && IsDefLine(Split(files[k].content.value, '\n')[j])
    ensures exists n :: 0 <= n < |TraceDecorators(files)|
                        && TraceDecorators(files)[n].path == files[k].path
                        && TraceDecorators(files)[n].lineNo == d + 1
  {
    var init := files[..|files| - 1];
    var here := FileDecorators(files[|files| - 1]);
    assert TraceDecorators(files) == TraceDecorators(init) + here;
    if k < |files| - 1 {
      assert init[k] == files[k];
      TraceDecoratorsComplete(init, k, d);
      var n :| 0 <= n < |TraceDecorators(init)| && TraceDecorators(init)[n].path == files[k].path
                && TraceDecorators(init)[n].lineNo == d + 1;
      assert TraceDecorators(files)[n] == TraceDecorators(init)[n];
    } else {
      var lines := Split(files[k].content.value, '\n');
      DecoratorsFromComplete(files[k].path, lines, 0, d);
      DecoratorsFromSound(files[k].path, lines, 0);
      var n :| 0 <= n < |here| && here[n].lineNo == d + 1;
      assert here[n] in here;
      assert TraceDecorators(files)[|TraceDecorators(init)| + n] == here[n];
    }
  }

  // ===========================================================================
  // check_import_order

  /** The verdict of `check_import_order`, with the line numbers its message reports. */
  datatype ImportOrder =
    | BeforeImports(autologLine: nat, importLine: nat)
    | AfterImports(autologLine: nat, importLine: nat)
    | AutologOnly(autologLine: nat)
    | AutologNotFound
    | Unreadable

  /** The boolean `check_import_order` returns. */
  predicate IsCorrect(v: ImportOrder) {
    !v.AfterImports? && !v.AutologNotFound?
  }

  /**
   * A line that ends the search for imports: it contains "from" and "import" and,
   * when a pattern was given, the pattern matches it.
   */
  predicate IsQualifyingImport(line: string, pattern: Option<string -> bool>) {
    Contains(line, "from") && Contains(line, "import") && (pattern.Some? ==> pattern.value(line))
  }

  /**
   * The scan from line index `i` on, with `autolog` the last autolog line seen so
   * far: the final autolog line and the qualifying import line that stopped the scan.
   */
  function ImportScan(lines: seq<string>, pattern: Option<string -> bool>, i: nat, autolog: Option<nat>)
    : (Option<nat>, Option<nat>)
    requires i <= |lines|
    decreases |lines| - i
  {
    if i == |lines| then (autolog, None)
    else
      var a := ScanStep(lines, i, autolog);
      if a.Some? && IsQualifyingImport(lines[i], pattern) then (a, Some(i + 1))
      else ImportScan(lines, pattern, i + 1, a)
  }

  function ImportOrderOf(lines: seq<string>, pattern: Option<string -> bool>): ImportOrder {
    var (a, m) := ImportScan(lines, pattern, 0, None);
    if a.Some? && m.Some? then
      if a.value < m.value then BeforeImports(a.value, m.value) else AfterImports(a.value, m.value)
    else if a.Some? then AutologOnly(a.value)
    else AutologNotFound
  }

  /** `check_import_order` on a file's text (`None` when reading it raised). */
  function ImportOrderSpec(content: Option<string>, pattern: Option<string -> bool>): ImportOrder {
    if content.None? then Unreadable else ImportOrderOf(Split(content.value, '\n'), pattern)
  }

  /** `check_import_order`. */
  method CheckImportOrder(content: Option<string>, pattern: Option<string -> bool>) returns (verdict: ImportOrder)
    ensures verdict == ImportOrderSpec(content, pattern)
  {
    if content.None? {
      return Unreadable;
    }
    var lines := Split(content.value, '\n');
    var autologLine: Option<nat> := None;
    var firstImportLine: Option<nat> := None;
    var i := 0;
    while i < |lines|
      invariant i <= |lines| && firstImportLine.None?
      invariant ImportScan(lines, pattern, i, autologLine) == ImportScan(lines, pattern, 0, None)
    {
      if Contains(lines[i], "autolog()") {
        autologLine := Some(i + 1);
      }
      if autologLine.Some? && Contains(lines[i], "from") && Contains(lines[i], "import") {
        if pattern.Some? {
          if pattern.value(lines[i]) {
            firstImportLine := Some(i + 1);
            break;
          }
        } else {
          firstImportLine := Some(i + 1);
          break;
        }
      }
      i := i + 1;
    }
    assert (autologLine, firstImportLine) == ImportScan(lines, pattern, 0, None);
    if autologLine.Some? && firstImportLine.Some? {
      if autologLine.value < firstImportLine.value {
        verdict := BeforeImports(autologLine.value, firstImportLine.value);
      } else {
        verdict := AfterImports(autologLine.value, firstImportLine.value);
      }
    } else if autologLine.Some? {
      verdict := AutologOnly(autologLine.value);
    } else {
      verdict := AutologNotFound;
    }
  }

  /** The state of the scan after line index `i`, given the state before it. */
  function ScanStep(lines: seq<string>, i: nat, autolog: Option<nat>): Option<nat>
    requires i < |lines|
  {
    if Contains(lines[i], "autolog()") then Some(i + 1) else autolog
  }

  /**
   * What the scan carries into line index `i`: `autolog` is the last autolog line
   * above `i`, and no line from it down to `i` qualifies as an import.
   */
  predicate ScanInvariant(lines: seq<string>, pattern: Option<string -> bool>, i: nat, autolog: Option<nat>) {
    && i <= |lines|
    && (autolog.Some? ==> 1 <= autolog.value <= i && Contains(lines[autolog.value - 1], "autolog()"))
    && (autolog.Some? ==> forall k :: autolog.value - 1 <= k < i ==> !IsQualifyingImport(lines[k], pattern))
    && (autolog.Some? ==> forall k :: autolog.value <= k < i ==> !Contains(lines[k], "autolog()"))
  }

  /** The scan finds no autolog line exactly when none is seen before or from `i`. */
  lemma {:induction false} ImportScanNone(lines: seq<string>, pattern: Option<string -> bool>, i: nat, autolog: Option<nat>)
    requires i <= |lines|
    ensures ImportScan(lines, pattern, i, autolog).0.None?
        <==> autolog.None? && forall k :: i <= k < |lines| ==> !Contains(lines[k], "autolog()")
    ensures ImportScan(lines, pattern, i, autolog).0.None? ==> ImportScan(lines, pattern, i, autolog).1.None?
    decreases |lines| - i
  {
    if i < |lines| {
      var a := ScanStep(lines, i, autolog);
      if !(a.Some? && IsQualifyingImport(lines[i], pattern)) {
        ImportScanNone(lines, pattern, i + 1, a);
      }
    }
  }

  /** A scan that stops at an import reports the last autolog line and the first qualifying line from it. */
  lemma {:induction false} ImportScanStopped(lines: seq<string>, pattern: Option<string -> bool>, i: nat, autolog: Option<nat>)
    requires ScanInvariant(lines, pattern, i, autolog)
    ensures var r := ImportScan(lines, pattern, i, autolog);
      r.1.Some? ==>
        && r.0.Some? && 1 <= r.0.value <= r.1.value <= |lines|
        && Contains(lines[r.0.value - 1], "autolog()")
        && IsQualifyingImport(lines[r.1.value - 1], pattern)
        && (forall k :: r.0.value - 1 <= k < r.1.value - 1 ==> !IsQualifyingImport(lines[k], pattern))
        && (forall k :: r.0.value <= k < r.1.value ==> !Contains(lines[k], "autolog()"))
    decreases |lines| - i
  {
    if i < |lines| {
      var a := ScanStep(lines, i, autolog);
      if !(a.Some? && IsQualifyingImport(lines[i], pattern)) {
        assert ScanInvariant(lines, pattern, i + 1, a);
        ImportScanStopped(lines, pattern, i + 1, a);
      }
    }
  }

  /** A scan that runs out of lines reports the last autolog line, with no qualifying line from it on. */
  lemma {:induction false} ImportScanExhausted(lines: seq<string>, pattern: Option<string -> bool>, i: nat, autolog: Option<nat>)
    requires ScanInvariant(lines, pattern, i, autolog)
    ensures var r := ImportScan(lines, pattern, i, autolog);
      r.0.Some? && r.1.None? ==>
        && 1 <= r.0.value <= |lines|
        && Contains(lines[r.0.value - 1], "autolog()")
        && (forall k :: r.0.value - 1 <= k < |lines| ==> !IsQualifyingImport(lines[k], pattern))
        && (forall k :: r.0.value <= k < |lines| ==> !Contains(lines[k], "autolog()"))
    decreases |lines| - i
  {
    if i < |lines| {
      var a := ScanStep(lines, i, autolog);
      if !(a.Some? && IsQualifyingImport(lines[i], pattern)) {
        assert ScanInvariant(lines, pattern, i + 1, a);
        ImportScanExhausted(lines, pattern, i + 1, a);
      }
    }
  }

  /** No autolog line at all is the only way to get "Autolog not found". */
  lemma ImportOrderNotFoundIff(lines: seq<string>, pattern: Option<string -> bool>)
    ensures ImportOrderOf(lines, pattern) == AutologNotFound
        <==> forall k :: 0 <= k < |lines| ==> !Contains(lines[k], "autolog()")
  {
    ImportScanNone(lines, pattern, 0, None);
  }

  /**
   * The import line is never above the autolog line: the search for imports
   * starts at the autolog line, so "after imports" means both are on one line.
   */
  lemma ImportOrderLines(lines: seq<string>, pattern: Option<string -> bool>)
    ensures ImportOrderOf(lines, pattern).BeforeImports? ==>
      ImportOrderOf(lines, pattern).autologLine < ImportOrderOf(lines, pattern).importLine
    ensures ImportOrderOf(lines, pattern).AfterImports? ==>
      ImportOrderOf(lines, pattern).autologLine == ImportOrderOf(lines, pattern).importLine
  {
    ImportScanStopped(lines, pattern, 0, None);
  }

  /**
   * When autolog is found, the reported autolog line is the last one at or before
   * the reported import line, and that import line is the first qualifying line
   * from the autolog line on; without a qualifying line the verdict holds.
   */
  lemma ImportOrderWitness(lines: seq<string>, pattern: Option<string -> bool>)
    ensures var v := ImportOrderOf(lines, pattern);
      (v.BeforeImports? || v.AfterImports?) ==>
        && 1 <= v.autologLine <= v.importLine <= |lines|
        && Contains(lines[v.autologLine - 1], "autolog()")
        && IsQualifyingImport(lines[v.importLine - 1], pattern)
        && (forall k :: v.autologLine <= k < v.importLine ==> !Contains(lines[k], "autolog()"))
        && (forall k :: v.autologLine - 1 <= k < v.importLine - 1 ==> !IsQualifyingImport(lines[k], pattern))
    ensures var v := ImportOrderOf(lines, pattern);
      v.AutologOnly? ==>
        && 1 <= v.autologLine <= |lines|
        && Contains(lines[v.autologLine - 1], "autolog()")
        && (forall k :: v.autologLine <= k < |lines| ==> !Contains(lines[k], "autolog()"))
        && (forall k :: v.autologLine - 1 <= k < |lines| ==> !IsQualifyingImport(lines[k], pattern))
  {
    ImportScanStopped(lines, pattern, 0, None);
    ImportScanExhausted(lines, pattern, 0, None);
  }

  /** An import placed above every autolog line never reaches the verdict. */
  lemma ImportAboveAutologPasses(lines: seq<string>, pattern: Option<string -> bool>, a: nat)
    requires a < |lines| && Contains(lines[a], "autolog()")
    requires forall k :: 0 <= k < a ==> !Contains(lines[k], "autolog()")
    requires forall k :: a <= k < |lines| ==> !IsQualifyingImport(lines[k], pattern)
    ensures ImportOrderOf(lines, pattern).AutologOnly?
    ensures IsCorrect(ImportOrderOf(lines, pattern))
  {
    ImportScanNone(lines, pattern, 0, None);
    ImportScanStopped(lines, pattern, 0, None);
  }

  /** The index of the first line from `i` on that contains "autolog()". */
  function FirstAutologLine(lines: seq<string>, i: nat): (r: Option<nat>)
    requires i <= |lines|
    ensures r.Some? ==> i <= r.value < |lines| && Contains(lines[r.value], "autolog()")
    ensures r.Some? ==> forall k :: i <= k < r.value ==> !Contains(lines[k], "autolog()")
    ensures r.None? ==> forall k :: i <= k < |lines| ==> !Contains(lines[k], "autolog()")
    decreases |lines| - i
  {
    if i == |lines| then None
    else if Contains(lines[i], "autolog()") then Some(i)
    else FirstAutologLine(lines, i + 1)
  }

  /** The index of the first qualifying import line from `i` on. */
  function FirstImportLine(lines: seq<string>, pattern: Option<string -> bool>, i: nat): (r: Option<nat>)
    requires i <= |lines|
    ensures r.Some? ==> i <= r.value < |lines| && IsQualifyingImport(lines[r.value], pattern)
    ensures r.Some? ==> forall k :: i <= k < r.value ==> !IsQualifyingImport(lines[k], pattern)
    ensures r.None? ==> forall k :: i <= k < |lines| ==> !IsQualifyingImport(lines[k], pattern)
    decreases |lines| - i
  {
    if i == |lines| then None
    else if IsQualifyingImport(lines[i], pattern) then Some(i)
    else FirstImportLine(lines, pattern, i + 1)
  }

  /**
   * The rule `check_import_order` is documented to enforce: autolog is switched
   * on above every qualifying import, that is, the first autolog line lies
   * strictly above the first qualifying import line of the whole file.
   */
  predicate ImportOrderIntended(lines: seq<string>, pattern: Option<string -> bool>) {
    var a := FirstAutologLine(lines, 0);
    var m := FirstImportLine(lines, pattern, 0);
    a.Some? && (m.None? || a.value < m.value)
  }

  /** The intended rule holds exactly when some autolog line has no qualifying import at or above it. */
  lemma ImportOrderIntendedIff(lines: seq<string>, pattern: Option<string -> bool>)
    ensures ImportOrderIntended(lines, pattern) <==>
      exists a :: 0 <= a < |lines| && Contains(lines[a], "autolog()")
                  && forall k :: 0 <= k <= a ==> !IsQualifyingImport(lines[k], pattern)
  {
    var a := FirstAutologLine(lines, 0);
    var m := FirstImportLine(lines, pattern, 0);
    if ImportOrderIntended(lines, pattern) {
      assert Contains(lines[a.value], "autolog()");
      assert forall k :: 0 <= k <= a.value ==> !IsQualifyingImport(lines[k], pattern);
    }
    if exists a' :: 0 <= a' < |lines| && Contains(lines[a'], "autolog()")
                    && forall k :: 0 <= k <= a' ==> !IsQualifyingImport(lines[k], pattern) {
      var a' :| 0 <= a' < |lines| && Contains(lines[a'], "autolog()")
                && forall k :: 0 <= k <= a' ==> !IsQualifyingImport(lines[k], pattern);
      assert a.Some? && a.value <= a';
      assert m.Some? ==> a' < m.value;
    }
  }

  /**
   * A file whose import sits above its only autolog line: the function as
   * written accepts it, the intended rule rejects it.
   */
  lemma ImportAboveAutologAccepted()
    ensures var lines := ["from m import x", "mlflow.autolog()"];
      IsCorrect(ImportOrderOf(lines, None)) && !ImportOrderIntended(lines, None)
  {
    var lines := ["from m import x", "mlflow.autolog()"];
    assert StartsWithAt(lines[0], 0, "from") && StartsWithAt(lines[0], 7, "import");
    assert StartsWithAt(lines[1], 7, "autolog()");
    MissingCharNotContained(lines[0], "autolog()", 0);
    MissingCharNotContained(lines[1], "from", 1);
    assert IsQualifyingImport(lines[0], None);
    ImportAboveAutologPasses(lines, None, 1);
  }

  // ===========================================================================
  // check_session_id_capture and verify_mlflow_imports

  /** The three session patterns; each is an escaped literal, so a match is a substring. */
  const SessionPatterns: seq<string> := ["mlflow.get_last_active_trace_id()", "mlflow.set_trace_tag(", "session_id"]

  /** `check_session_id_capture` (`None` when reading the file raised). */
  function CheckSessionIdCapture(content: Option<string>): (r: bool)
    ensures r <==> content.Some? && forall k :: 0 <= k < |SessionPatterns| ==> Contains(content.value, SessionPatterns[k])
  {
    content.Some?
    && Contains(content.value, SessionPatterns[0])
    && Contains(content.value, SessionPatterns[1])
    && Contains(content.value, SessionPatterns[2])
  }

  /** Adding code around a file that passes keeps it passing. */
  lemma SessionIdCaptureMonotone(small: string, big: string)
    requires Contains(big, small) && CheckSessionIdCapture(Some(small))
    ensures CheckSessionIdCapture(Some(big))
  {
    forall k | 0 <= k < |SessionPatterns| ensures Contains(big, SessionPatterns[k]) {
      ContainsTransitive(big, small, SessionPatterns[k]);
    }
  }

  /** The value `verify_mlflow_imports` records for one file. */
  predicate HasMlflowImport(content: Option<string>) {
    content.Some? && Contains(content.value, "import mlflow")
  }

  /** The dictionary `verify_mlflow_imports` builds; a later entry for a path overwrites an earlier one. */
  function ImportsMap(files: seq<SourceFile>): map<string, bool> {
    if files == [] then map[]
    else ImportsMap(files[..|files| - 1])[files[|files| - 1].path := HasMlflowImport(files[|files| - 1].content)]
  }

  /** `verify_mlflow_imports`. */
  method VerifyMlflowImports(files: seq<SourceFile>) returns (results: map<string, bool>)
    ensures results == ImportsMap(files)
  {
    results := map[];
    for f := 0 to |files|
      invariant results == ImportsMap(files[..f])
    {
      assert files[..f + 1][..f] == files[..f];
      var file := files[f];
      if file.content.Some? {
        results := results[file.path := Contains(file.content.value, "import mlflow")];
      } else {
        results := results[file.path := false];
      }
    }
    assert files[..|files|] == files;
  }

  /** No later entry has the same path as entry `k`. */
  predicate IsLastFor(files: seq<SourceFile>, k: nat)
    requires k < |files|
  {
    forall j :: k < j < |files| ==> files[j].path != files[k].path
  }

  /** The keys are exactly the given paths. */
  lemma {:induction false} ImportsMapKeys(files: seq<SourceFile>)
    ensures ImportsMap(files).Keys == set k | 0 <= k < |files| :: files[k].path
  {
    if files != [] {
      var init := files[..|files| - 1];
      ImportsMapKeys(init);
      var keys := set k | 0 <= k < |files| :: files[k].path;
      var initKeys := set k | 0 <= k < |init| :: init[k].path;
      assert keys == initKeys + {files[|files| - 1].path} by {
        forall p | p in keys ensures p in initKeys + {files[|files| - 1].path} {
          var k :| 0 <= k < |files| && files[k].path == p;
          if k < |init| { assert init[k].path == p; }
        }
        forall p | p in initKeys ensures p in keys {
          var k :| 0 <= k < |init| && init[k].path == p;
          assert files[k].path == p;
        }
      }
    }
  }

  /** Each path is valued by the read of its last entry. */
  lemma {:induction false} ImportsMapValues(files: seq<SourceFile>, k: nat)
    requires k < |files| && IsLastFor(files, k)
    ensures files[k].path in ImportsMap(files)
    ensures ImportsMap(files)[files[k].path] == HasMlflowImport(files[k].content)
  {
    var init := files[..|files| - 1];
    if k < |init| {
      assert init[k] == files[k];
      assert IsLastFor(init, k) by {
        forall j | k < j < |init| ensures init[j].path != init[k].path {
          assert init[j] == files[j];
        }
      }
      ImportsMapValues(init, k);
      assert files[|files| - 1].path != files[k].path;
    }
  }
}

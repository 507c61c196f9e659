/**
 * The module-docstring checker of validate_docstrings.py. File contents are
 * handed in as text (or the reason a read failed); directory listings are
 * handed in as the entries the glob yields.
 */
module DocstringCheck {
  import Text
  import opened Wrappers

  /** What reading a file gives: its text, or the text of the exception that stopped the read. */
  datatype FileRead = Read(content: string) | ReadFailed(reason: string)

  const Triple2: string := "\"\"\""
  const Triple1: string := "'''"

  const EmptyFile: string := "文件为空"
  const OnlyComments: string := "文件只包含注释"
  const EmptyDocstring: string := "Docstring为空"
  const Unclosed: string := "Docstring未正确闭合"
  const NoDocstring: string := "缺少docstring"

  /** A line that is neither blank nor a comment once stripped. */
  predicate IsCode(line: string)
  {
    var t := Text.Strip(line);
    t != [] && t[0] != '#'
  }

  /** The index of the first code line at or after i, or -1 when there is none. */
  function FirstCodeFrom(lines: seq<string>, i: nat): (k: int)
    ensures k == -1 || (i <= k < |lines| && IsCode(lines[k]))
    ensures forall j :: i <= j < |lines| && (k == -1 || j < k) ==> !IsCode(lines[j])
    decreases |lines| - i
  {
    if i >= |lines| then -1 else if IsCode(lines[i]) then i else FirstCodeFrom(lines, i + 1)
  }

  /**
   * first_code_line: the first code line, or 0 when every line is blank or a
   * comment. It is always a valid index of the non-empty line list, so the
   * "only comments" exit is never taken.
   */
  function FirstCodeLine(lines: seq<string>): (k: nat)
    requires |lines| >= 1
    ensures k < |lines|
    ensures forall j :: 0 <= j < k ==> !IsCode(lines[j])
    ensures IsCode(lines[k]) || forall j :: 0 <= j < |lines| ==> !IsCode(lines[j])
  {
    var k := FirstCodeFrom(lines, 0);
    if k < 0 then 0 else k
  }

  /** The line starts with three equal quote characters: the regex ^(["'])\1\1. */
  predicate OpensTriple(line: string)
  {
    |line| >= 3 && (line[0] == '"' || line[0] == '\'') && line[1] == line[0] && line[2] == line[0]
  }

  /** The whole line is ^(["'])\1\1(.+?)\1\1\1$: opened and closed by the same triple quote around at least one character. */
  predicate SingleLine(line: string)
  {
    OpensTriple(line) && |line| >= 7 && line[|line| - 3] == line[0] && line[|line| - 2] == line[0] && line[|line| - 1] == line[0]
  }

  /** Either triple quote occurs in the line, whichever one opened the docstring. */
  predicate HasTripleQuote(line: string)
  {
    Text.Contains(line, Triple2) || Text.Contains(line, Triple1)
  }

  /** The end of the window searched for the closing quote: at most nine lines after the opening one. */
  function WindowEnd(lines: seq<string>, first: nat): nat
  {
    if first + 10 < |lines| then first + 10 else |lines|
  }

  /** The first line in [i, end) holding a triple quote, or -1. */
  function ClosingFrom(lines: seq<string>, i: nat, end: nat): (k: int)
    requires end <= |lines|
    ensures k == -1 || (i <= k < end && HasTripleQuote(lines[k]))
    ensures forall j :: i <= j < end && (k == -1 || j < k) ==> !HasTripleQuote(lines[j])
    decreases end - i
  {
    if i >= end then -1 else if HasTripleQuote(lines[i]) then i else ClosingFrom(lines, i + 1, end)
  }

  /** The closing line of a docstring opened on line `first`: searched from the next line to the window's end. */
  function ClosingLine(lines: seq<string>, first: nat): int
  {
    ClosingFrom(lines, first + 1, WindowEnd(lines, first))
  }

  /** The lines from `lo` up to, not including, `hi`, each stripped. */
  function StrippedLines(lines: seq<string>, lo: nat, hi: nat): (r: seq<string>)
    requires lo <= hi <= |lines|
    ensures |r| == hi - lo
    decreases hi
  {
    if hi == lo then [] else StrippedLines(lines, lo, hi - 1) + [Text.Strip(lines[hi - 1])]
  }

  /**
   * The pieces a multi-line docstring is joined from: the rest of the opening
   * line once stripped (`head`) when it is not blank, then each line before
   * the closing one, stripped.
   */
  function DocPieces(lines: seq<string>, first: nat, close: nat, head: string): (pieces: seq<string>)
    requires first < close <= |lines|
    ensures |pieces| == (if head != [] then 1 else 0) + (close - first - 1)
  {
    (if head != [] then [head] else []) + StrippedLines(lines, first + 1, close)
  }

  /** The answer for a docstring's raw text: it must not be blank once stripped. */
  function DocResult(raw: string): (r: (bool, string))
    ensures r.0 <==> !Text.IsBlank(raw)
    ensures r.0 ==> r.1 == Text.Strip(raw) && Text.Trimmed(r.1)
    ensures !r.0 ==> r.1 == EmptyDocstring
  {
    var doc := Text.Strip(raw);
    if doc == [] then (false, EmptyDocstring) else (true, doc)
  }

  /** The answer once the stripped first code line opened a multi-line docstring. */
  function MultiLineVerdict(lines: seq<string>, first: nat, line: string): (r: (bool, string))
    requires first < |lines| && OpensTriple(line)
  {
    var close := ClosingLine(lines, first);
    if close < 0 then (false, Unclosed)
    else DocResult(Text.Join(DocPieces(lines, first, close, Text.Strip(line[3..])), " "))
  }

  /** The answer once line `first`, stripped to `line`, is known to be the first code line: a one-line docstring, a multi-line one, or none. */
  function LineVerdict(lines: seq<string>, first: nat, line: string): (r: (bool, string))
    requires first < |lines|
    ensures r != (false, OnlyComments) && r != (false, EmptyFile)
    ensures r.0 ==> Text.Trimmed(r.1)
  {
    if SingleLine(line) then DocResult(line[3..|line| - 3])
    else if OpensTriple(line) then MultiLineVerdict(lines, first, line)
    else (false, NoDocstring)
  }

  /** The answer for the lines of a non-blank file. */
  function LinesVerdict(lines: seq<string>): (r: (bool, string))
    requires |lines| >= 1
    ensures r != (false, OnlyComments) && r != (false, EmptyFile)
    ensures r.0 ==> Text.Trimmed(r.1)
  {
    var first := FirstCodeLine(lines);
    LineVerdict(lines, first, Text.Strip(lines[first]))
  }

  /**
   * validate_file's answer for text that was read: "文件为空" exactly for
   * blank text, never the "only comments" message, and a success carries a
   * non-empty stripped docstring.
   */
  function Verdict(content: string): (r: (bool, string))
    ensures r != (false, OnlyComments)
    ensures r.0 ==> Text.Trimmed(r.1)
    ensures Text.IsBlank(content) <==> r == (false, EmptyFile)
  {
    if Text.Strip(content) == [] then (false, EmptyFile) else LinesVerdict(Text.Split(content, '\n'))
  }

  /** A non-blank file of only blank and comment lines is reported as missing its docstring. */
  lemma CommentOnlyFile(content: string)
    requires !Text.IsBlank(content)
    requires forall j :: 0 <= j < |Text.Split(content, '\n')| ==> !IsCode(Text.Split(content, '\n')[j])
    ensures Verdict(content) == (false, NoDocstring)
  {
    var lines := Text.Split(content, '\n');
    assert FirstCodeLine(lines) == 0;
    assert !IsCode(lines[0]);
  }

  /** A docstring that passes is already stripped: stripping it again changes nothing. */
  lemma AcceptedDocstringStripped(content: string)
    ensures Verdict(content).0 ==> Text.Strip(Verdict(content).1) == Verdict(content).1
  {
    var r := Verdict(content);
    if r.0 {
      Text.StripKeepsTrimmed(r.1);
    }
  }

  /** validate_file on a file as read: a failed read reports its reason. */
  function ValidateResult(file: FileRead): (bool, string)
  {
    match file
    case ReadFailed(reason) => (false, "读取文件失败: " + reason)
    case Read(content) => Verdict(content)
  }

  /**
   * The closing line's own text and everything after it play no part in a
   * multi-line docstring: a file that agrees up to the closing line and holds
   * a triple quote on that line, whatever follows, gets the same verdict.
   */
  lemma ClosingLineTextIgnored(lines: seq<string>, lines2: seq<string>, close: nat)
    requires close < |lines| && close < |lines2| && HasTripleQuote(lines2[close])
    requires forall j :: 0 <= j < close ==> lines2[j] == lines[j]
    requires OpensTriple(Text.Strip(lines[FirstCodeLine(lines)]))
    requires FirstCodeLine(lines) < close && ClosingLine(lines, FirstCodeLine(lines)) == close
    ensures LinesVerdict(lines2) == LinesVerdict(lines)
  {
    var first := FirstCodeLine(lines);
    FirstCodeSamePrefix(lines, lines2, first);
    SameClosing(lines, lines2, first, close);
    SameVerdictAt(lines, lines2, first, close);
  }

  /** The closing search of the second file stops at the same line as the first's. */
  lemma SameClosing(a: seq<string>, b: seq<string>, first: nat, close: nat)
    requires first < close < |a| && close < |b| && HasTripleQuote(b[close])
    requires forall j :: 0 <= j < close ==> b[j] == a[j]
    requires ClosingLine(a, first) == close
    ensures ClosingLine(b, first) == close
  {
    ClosingSamePrefix(a, b, first + 1, WindowEnd(a, first), WindowEnd(b, first), close);
  }

  /** Two files that agree before a common closing line get the same verdict at a common first line that opens a multi-line docstring. */
  lemma SameVerdictAt(a: seq<string>, b: seq<string>, first: nat, close: nat)
    requires first < close < |a| && close < |b|
    requires forall j :: 0 <= j < close ==> b[j] == a[j]
    requires OpensTriple(Text.Strip(a[first]))
    requires ClosingLine(a, first) == close && ClosingLine(b, first) == close
    ensures LineVerdict(b, first, Text.Strip(b[first])) == LineVerdict(a, first, Text.Strip(a[first]))
  {
    assert b[first] == a[first];
    var line := Text.Strip(a[first]);
    SamePieces(a, b, first, close, Text.Strip(line[3..]));
    assert MultiLineVerdict(b, first, line) == MultiLineVerdict(a, first, line);
  }

  /** The pieces of a docstring depend only on the lines before its closing line. */
  lemma SamePieces(a: seq<string>, b: seq<string>, first: nat, close: nat, head: string)
    requires first < close <= |a| && close <= |b|
    requires forall j :: 0 <= j < close ==> a[j] == b[j]
    ensures DocPieces(a, first, close, head) == DocPieces(b, first, close, head)
  {
    SameStrippedLines(a, b, first + 1, close);
  }

  /** Stripping a stretch of lines depends only on those lines. */
  lemma SameStrippedLines(a: seq<string>, b: seq<string>, lo: nat, hi: nat)
    requires lo <= hi <= |a| && hi <= |b|
    requires forall j :: lo <= j < hi ==> a[j] == b[j]
    ensures StrippedLines(a, lo, hi) == StrippedLines(b, lo, hi)
  {
    var x, y := StrippedLines(a, lo, hi), StrippedLines(b, lo, hi);
    StrippedLinesAt(a, lo, hi);
    StrippedLinesAt(b, lo, hi);
    forall k | 0 <= k < |x|
      ensures x[k] == y[k]
    {
      assert a[lo + k] == b[lo + k];
    }
  }


  /** Each stripped line sits at its line's offset from `lo`. */
  lemma {:induction false} StrippedLinesAt(lines: seq<string>, lo: nat, hi: nat)
    requires lo <= hi <= |lines|
    ensures forall k :: 0 <= k < hi - lo ==> StrippedLines(lines, lo, hi)[k] == Text.Strip(lines[lo + k])
    decreases hi
  {
    if hi > lo {
      StrippedLinesAt(lines, lo, hi - 1);
      var prev := StrippedLines(lines, lo, hi - 1);
      assert StrippedLines(lines, lo, hi) == prev + [Text.Strip(lines[hi - 1])];
    }
  }

  /** The first code line depends only on the lines up to it. */
  lemma FirstCodeSamePrefix(a: seq<string>, b: seq<string>, k: nat)
    requires |a| >= 1 && k < |a| && k < |b|
    requires k == FirstCodeLine(a) && IsCode(a[k])
    requires forall j :: 0 <= j <= k ==> a[j] == b[j]
    ensures FirstCodeLine(b) == k
  {
    assert IsCode(b[k]);
    var kb := FirstCodeFrom(b, 0);
    assert kb != -1;
  }

  /** The closing search over a window stops at the same line when the lines up to it agree. */
  lemma {:induction false} ClosingSamePrefix(a: seq<string>, b: seq<string>, i: nat, endA: nat, endB: nat, close: nat)
    requires endA <= |a| && endB <= |b| && i <= close < endA && close < endB
    requires forall j :: i <= j < close ==> a[j] == b[j]
    requires HasTripleQuote(b[close]) && ClosingFrom(a, i, endA) == close
    ensures ClosingFrom(b, i, endB) == close
    decreases close - i
  {
    if i < close {
      assert !HasTripleQuote(a[i]);
      ClosingSamePrefix(a, b, i + 1, endA, endB, close);
    }
  }

  /** One entry of a directory glob: the file name, its path relative to the project root, and what reading it gives. */
  datatype DirEntry = DirEntry(name: string, relativePath: string, file: FileRead)

  /** The error a report lists: the file and the message. */
  datatype Problem = Problem(file: string, message: string)

  /** The problems scan_directory records for a listing, in glob order, skipping excluded names and valid files. */
  function DirectoryProblems(entries: seq<DirEntry>, excludes: seq<string>): (ps: seq<Problem>)
    ensures |ps| <= |entries|
  {
    if entries == [] then []
    else DirectoryProblems(entries[..|entries| - 1], excludes) + EntryProblems(entries[|entries| - 1], excludes)
  }

  /** The problem one listed file adds: none when excluded or valid, else its path with the message. */
  function EntryProblems(e: DirEntry, excludes: seq<string>): (ps: seq<Problem>)
    ensures |ps| <= 1
  {
    var r := ValidateResult(e.file);
    if e.name in excludes || r.0 then [] else [Problem(e.relativePath, r.1)]
  }

  /** One more listed file adds its own problem, if any, after the earlier ones. */
  lemma DirectoryProblemsSnoc(entries: seq<DirEntry>, e: DirEntry, excludes: seq<string>)
    ensures DirectoryProblems(entries + [e], excludes) == DirectoryProblems(entries, excludes) + EntryProblems(e, excludes)
  {
    var all := entries + [e];
    assert all[..|all| - 1] == entries && all[|all| - 1] == e;
  }

  /** Every recorded problem belongs to a listed, non-excluded file whose validation failed with that message. */
  lemma {:induction false} DirectoryProblemsSound(entries: seq<DirEntry>, excludes: seq<string>)
    ensures forall p :: p in DirectoryProblems(entries, excludes) ==>
      exists e :: e in entries && e.name !in excludes && p == Problem(e.relativePath, ValidateResult(e.file).1) && !ValidateResult(e.file).0
  {
    if entries != [] {
      var init := entries[..|entries| - 1];
      DirectoryProblemsSound(init, excludes);
      forall p | p in DirectoryProblems(entries, excludes)
        ensures exists e :: e in entries && e.name !in excludes && p == Problem(e.relativePath, ValidateResult(e.file).1) && !ValidateResult(e.file).0
      {
        if p in DirectoryProblems(init, excludes) {
          var e :| e in init && e.name !in excludes && p == Problem(e.relativePath, ValidateResult(e.file).1) && !ValidateResult(e.file).0;
          assert e in entries;
        } else {
          assert entries[|entries| - 1] in entries;
        }
      }
    }
  }

  /** The report's lines: the title, then the problem count and one bullet per problem, or the all-clear line. */
  function ReportLines(errors: seq<Problem>): (lines: seq<string>)
    ensures |lines| == 2 + |errors|
    ensures lines[0] == "# Docstring 校验报告\n"
    ensures forall k :: 0 <= k < |errors| ==> lines[2 + k] == "- **" + errors[k].file + "**: " + errors[k].message
  {
    ["# Docstring 校验报告\n"]
    + (if errors == [] then ["##  所有文件校验通过\n"]
       else (["##  发现 " + Text.IntToString(|errors|) + " 个问题\n"]
             + seq(|errors|, k requires 0 <= k < |errors| => "- **" + errors[k].file + "**: " + errors[k].message)))
  }

  /** generate_report's text. */
  function Report(errors: seq<Problem>): string
  {
    Text.Join(ReportLines(errors), "\n")
  }

  /** The report always opens with its title line, and without problems it is the title and the all-clear line only. */
  lemma ReportShape(errors: seq<Problem>)
    ensures "# Docstring 校验报告\n" <= Report(errors)
    ensures errors == [] ==> Report(errors) == "# Docstring 校验报告\n" + "\n" + "##  所有文件校验通过\n"
  {
    var lines := ReportLines(errors);
    Text.JoinCons(lines[0], lines[1..], "\n");
    assert [lines[0]] + lines[1..] == lines;
  }

  /** DocstringValidator: the problems recorded so far. */
  class DocstringValidator {
    var errors: seq<Problem>

    constructor ()
      ensures errors == []
    {
      errors := [];
    }

    /** validate_file: skips blank text, finds the first code line, then checks for a one-line or a closed multi-line docstring. */
    method ValidateFile(file: FileRead) returns (valid: bool, message: string)
      ensures (valid, message) == ValidateResult(file)
    {
      if file.ReadFailed? {
        return false, "读取文件失败: " + file.reason;
      }
      var content := file.content;
      if Text.Strip(content) == [] {
        return false, EmptyFile;
      }
      valid, message := CheckLines(Text.Split(content, '\n'));
    }

    /** The checks once the text is known not to be blank: the first code line and its docstring. */
    static method CheckLines(lines: seq<string>) returns (valid: bool, message: string)
      requires |lines| >= 1
      ensures (valid, message) == LinesVerdict(lines)
    {
      var first := FindFirstCode(lines);
      valid, message := CheckAt(lines, first, Text.Strip(lines[first]));
    }

    /** The checks of the first code line, stripped to `line`: a one-line docstring, the start of a multi-line one, or neither. */
    static method CheckAt(lines: seq<string>, first: nat, line: string) returns (valid: bool, message: string)
      requires first < |lines|
      ensures (valid, message) == LineVerdict(lines, first, line)
    {
      if SingleLine(line) {
        valid, message := Docstring(line[3..|line| - 3]);
      } else if OpensTriple(line) {
        valid, message := MultiLine(lines, first, line);
      } else {
        valid, message := false, NoDocstring;
      }
    }

    /** The scan for the first line that is neither blank nor a comment, defaulting to line 0. */
    static method FindFirstCode(lines: seq<string>) returns (first: nat)
      requires |lines| >= 1
      ensures first == FirstCodeLine(lines)
    {
      var i := 0;
      while i < |lines| && !IsCode(lines[i])
        invariant 0 <= i <= |lines|
        invariant FirstCodeFrom(lines, i) == FirstCodeFrom(lines, 0)
      {
        i := i + 1;
      }
      first := if i < |lines| then i else 0;
    }

    /** The check of a docstring's raw text. */
    static method Docstring(raw: string) returns (valid: bool, message: string)
      ensures (valid, message) == DocResult(raw)
    {
      var doc := Text.Strip(raw);
      if doc == [] {
        return false, EmptyDocstring;
      }
      return true, doc;
    }

    /** The search for the closing line of a multi-line docstring, at most nine lines on, and the joining of its pieces. */
    static method MultiLine(lines: seq<string>, first: nat, line: string) returns (valid: bool, message: string)
      requires first < |lines| && OpensTriple(line)
      ensures (valid, message) == MultiLineVerdict(lines, first, line)
    {
      var end := if first + 10 < |lines| then first + 10 else |lines|;
      var k := first + 1;
      while k < end
        invariant first + 1 <= k
        invariant ClosingFrom(lines, k, end) == ClosingLine(lines, first)
      {
        if HasTripleQuote(lines[k]) {
          var pieces := CollectPieces(lines, first, k, line[3..]);
          valid, message := Docstring(Text.Join(pieces, " "));
          return;
        }
        k := k + 1;
      }
      return false, Unclosed;
    }

    /** The stripped opening text, when any, then the stripped lines strictly between the opening and the closing line. */
    static method CollectPieces(lines: seq<string>, first: nat, close: nat, opening: string) returns (pieces: seq<string>)
      requires first < close <= |lines|
      ensures pieces == DocPieces(lines, first, close, Text.Strip(opening))
    {
      var body := StripLines(lines, first + 1, close);
      var head := Text.Strip(opening);
      pieces := (if head != [] then [head] else []) + body;
    }

    /** The stripped lines from lo up to hi. */
    static method StripLines(lines: seq<string>, lo: nat, hi: nat) returns (body: seq<string>)
      requires lo <= hi <= |lines|
      ensures body == StrippedLines(lines, lo, hi)
    {
      body := [];
      var j := lo;
      while j < hi
        invariant lo <= j <= hi
        invariant body == StrippedLines(lines, lo, j)
      {
        var stripped := Text.Strip(lines[j]);
        assert StrippedLines(lines, lo, j + 1) == StrippedLines(lines, lo, j) + [stripped];
        body := body + [stripped];
        j := j + 1;
      }
    }

    /** scan_file: a missing file is skipped; a failing one adds its problem under the given name. */
    method ScanFile(filename: string, file: Option<FileRead>)
      modifies this
      ensures errors == old(errors) + (if file.None? || ValidateResult(file.value).0 then [] else [Problem(filename, ValidateResult(file.value).1)])
    {
      if file.None? {
        return;
      }
      var valid, message := ValidateFile(file.value);
      if !valid {
        errors := errors + [Problem(filename, message)];
      }
    }

    /** scan_directory: a missing directory is skipped; otherwise every non-excluded failing file adds a problem, in glob order. */
    method ScanDirectory(listing: Option<seq<DirEntry>>, excludeFiles: Option<seq<string>>)
      modifies this
      ensures var excludes := if excludeFiles.None? then ["__init__.py"] else excludeFiles.value;
        errors == old(errors) + if listing.None? then [] else DirectoryProblems(listing.value, excludes)
    {
      var excludes := if excludeFiles.None? then ["__init__.py"] else excludeFiles.value;
      if listing.None? {
        return;
      }
      var entries := listing.value;
      var i := 0;
      while i < |entries|
        invariant 0 <= i <= |entries|
        invariant errors == old(errors) + DirectoryProblems(entries[..i], excludes)
      {
        var found := CheckEntry(entries[i], excludes);
        assert entries[..i + 1] == entries[..i] + [entries[i]];
        DirectoryProblemsSnoc(entries[..i], entries[i], excludes);
        errors := errors + found;
        i := i + 1;
      }
      assert entries[..i] == entries;
    }

    /** The loop body of scan_directory for one listed file. */
    method CheckEntry(entry: DirEntry, excludes: seq<string>) returns (found: seq<Problem>)
      ensures found == EntryProblems(entry, excludes)
    {
      found := [];
      if entry.name !in excludes {
        var valid, message := ValidateFile(entry.file);
        if !valid {
          found := [Problem(entry.relativePath, message)];
        }
      }
    }

    /**
     * validate_all: scans business/ and core/ with the default exclusion,
     * then utils.py and test_xhs.py at the root; all valid exactly when no
     * problem has been recorded, counting any recorded before.
     */
    method ValidateAll(business: Option<seq<DirEntry>>, core: Option<seq<DirEntry>>,
                       utilsFile: Option<FileRead>, testFile: Option<FileRead>) returns (ok: bool)
      modifies this
      ensures errors == old(errors)
        + (if business.None? then [] else DirectoryProblems(business.value, ["__init__.py"]))
        + (if core.None? then [] else DirectoryProblems(core.value, ["__init__.py"]))
        + (if utilsFile.None? || ValidateResult(utilsFile.value).0 then [] else [Problem("utils.py", ValidateResult(utilsFile.value).1)])
        + (if testFile.None? || ValidateResult(testFile.value).0 then [] else [Problem("test_xhs.py", ValidateResult(testFile.value).1)])
      ensures ok <==> errors == []
    {
      ScanDirectory(business, None);
      ScanDirectory(core, None);
      ScanFile("utils.py", utilsFile);
      ScanFile("test_xhs.py", testFile);
      ok := errors == [];
    }

    /** generate_report */
    method GenerateReport() returns (report: string)
      ensures report == Report(errors)
    {
      var errs := errors;
      var lines := ["# Docstring 校验报告\n"];
      if errs != [] {
        var bullets := [];
        var k := 0;
        while k < |errs|
          invariant 0 <= k <= |errs|
          invariant bullets == seq(k, m requires 0 <= m < k => "- **" + errs[m].file + "**: " + errs[m].message)
        {
          bullets := bullets + ["- **" + errs[k].file + "**: " + errs[k].message];
          k := k + 1;
        }
        lines := lines + ["##  发现 " + Text.IntToString(|errs|) + " 个问题\n"] + bullets;
      } else {
        lines := lines + ["##  所有文件校验通过\n"];
      }
      assert lines == ReportLines(errors);
      report := Text.Join(lines, "\n");
    }
  }
}

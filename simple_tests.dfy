/**
 * The environment-independent checks of the tic-tac-toe project
 * (`simple_tests.py`, with an identical copy under `tictactoe/`): the
 * comment-ratio check, the required-files check and the runner's
 * counters. The file system is a map from the paths that exist to their
 * lines; whether Python's parser and compiler accept a file are sets of
 * paths, because `ast.parse` and `compile` are not modelled.
 */
module SimpleTests {
  import opened Wrappers
  import opened Text

  // ---------------------------------------------------------------------
  // check_educational_comments
  // ---------------------------------------------------------------------

  /** How the comment check counts a line. */
  datatype LineKind = Blank | Comment | Code

  /** The line holds a triple quote, the mark of a docstring. */
  predicate HoldsTripleQuote(stripped: string) {
    In("\"\"\"", stripped) || In("'''", stripped)
  }

  /**
   * A stripped line that is empty is blank; one starting with '#' is a
   * comment, and so is one holding a triple quote; every other line,
   * including the inside of a docstring, is code.
   */
  function Classify(line: string): LineKind {
    var stripped := Strip(line);
    if stripped == [] then Blank
    else if stripped[0] == '#' then Comment
    else if HoldsTripleQuote(stripped) then Comment
    else Code
  }

  /**
   * The classification in terms of the stripped line: blank iff empty, a
   * '#' line is a comment even when it holds a triple quote, and code iff
   * it neither starts with '#' nor holds a triple quote.
   */
  lemma ClassifyCases(line: string)
    ensures Classify(line) == Blank <==> Strip(line) == []
    ensures Strip(line) != [] && Strip(line)[0] == '#' ==> Classify(line) == Comment
    ensures Classify(line) == Code <==>
      Strip(line) != [] && Strip(line)[0] != '#' && !Contains(Strip(line), "\"\"\"") && !Contains(Strip(line), "'''")
  {
  }

  /** The number of lines of the given kind. */
  function CountKind(lines: seq<string>, k: LineKind): (n: nat)
    ensures n <= |lines|
    decreases |lines|
  {
    if lines == [] then 0
    else CountKind(lines[..|lines| - 1], k) + (if Classify(lines[|lines| - 1]) == k then 1 else 0)
  }

  /** Every line is blank, a comment or code, and counted once. */
  lemma {:induction false} KindsPartition(lines: seq<string>)
    ensures CountKind(lines, Blank) + CountKind(lines, Comment) + CountKind(lines, Code) == |lines|
    decreases |lines|
  {
    if lines != [] {
      var init := lines[..|lines| - 1];
      KindsPartition(init);
      var k := Classify(lines[|lines| - 1]);
      assert CountKind(lines, Blank) == CountKind(init, Blank) + (if k == Blank then 1 else 0);
      assert CountKind(lines, Comment) == CountKind(init, Comment) + (if k == Comment then 1 else 0);
      assert CountKind(lines, Code) == CountKind(init, Code) + (if k == Code then 1 else 0);
    }
  }

  /** The ratio test `comment_lines / code_lines >= 0.5`, in integers, and false when there is no code. */
  predicate EnoughComments(comments: nat, code: nat) {
    code > 0 && 2 * comments >= code
  }

  /**
   * `check_educational_comments`: `None` stands for a missing file. The
   * check passes iff there is code and at least one comment line for
   * every two code lines.
   */
  method CheckEducationalComments(file: Option<seq<string>>) returns (ok: bool)
    ensures ok <==> file.Some? && EnoughComments(CountKind(file.value, Comment), CountKind(file.value, Code))
  {
    if file.None? {
      return false;
    }
    var lines := file.value;
    var commentLines := 0;
    var codeLines := 0;
    for i := 0 to |lines|
      invariant commentLines == CountKind(lines[..i], Comment)
      invariant codeLines == CountKind(lines[..i], Code)
    {
      assert lines[..i + 1][..i] == lines[..i];
      var stripped := Strip(lines[i]);
      if stripped == [] {
        continue;
      } else if stripped[0] == '#' {
        commentLines := commentLines + 1;
      } else if HoldsTripleQuote(stripped) {
        commentLines := commentLines + 1;
      } else {
        codeLines := codeLines + 1;
      }
    }
    assert lines[..|lines|] == lines;
    ok := codeLines > 0 && 2 * commentLines >= codeLines;
  }

  /** A file without code fails the check, however many comments it has. */
  lemma NoCodeFails(lines: seq<string>)
    requires CountKind(lines, Code) == 0
    ensures !EnoughComments(CountKind(lines, Comment), CountKind(lines, Code))
  {
  }

  /** Adding a comment line never turns a passing file into a failing one. */
  lemma {:induction false} CommentKeepsPass(lines: seq<string>, comment: string)
    requires Classify(comment) == Comment
    requires EnoughComments(CountKind(lines, Comment), CountKind(lines, Code))
    ensures EnoughComments(CountKind(lines + [comment], Comment), CountKind(lines + [comment], Code))
  {
    assert (lines + [comment])[..|lines|] == lines;
  }

  // ---------------------------------------------------------------------
  // test_file_completeness
  // ---------------------------------------------------------------------

  const RequiredFiles: seq<string> := [
    "README.md", "main.py", "tictactoe_lists.py", "tictactoe_dict.py",
    "docs/python-concepts.md", "docs/data-structures-guide.md", "docs/exercises.md",
    "docs/common-errors.md", "docs/testing-guide.md"]

  /** The paths of `paths` that exist (`present`) or do not (`!present`), in order. */
  function Select(paths: seq<string>, fs: map<string, seq<string>>, present: bool): (r: seq<string>)
    ensures |r| <= |paths|
    decreases |paths|
  {
    if paths == [] then []
    else
      var last := paths[|paths| - 1];
      Select(paths[..|paths| - 1], fs, present) + (if (last in fs) == present then [last] else [])
  }

  /** Every selected path exists (`present`) or does not (`!present`). */
  lemma {:induction false} SelectSound(paths: seq<string>, fs: map<string, seq<string>>, present: bool)
    ensures forall i :: 0 <= i < |Select(paths, fs, present)| ==> (Select(paths, fs, present)[i] in fs) == present
    decreases |paths|
  {
    if paths != [] {
      SelectSound(paths[..|paths| - 1], fs, present);
    }
  }

  /** Present and missing split the paths: each path lands in exactly one of them. */
  lemma {:induction false} SelectPartition(paths: seq<string>, fs: map<string, seq<string>>)
    ensures |Select(paths, fs, true)| + |Select(paths, fs, false)| == |paths|
    ensures multiset(Select(paths, fs, true)) + multiset(Select(paths, fs, false)) == multiset(paths)
    decreases |paths|
  {
    if paths != [] {
      var init := paths[..|paths| - 1];
      var last := paths[|paths| - 1];
      SelectPartition(init, fs);
      var present, missing := Select(init, fs, true), Select(init, fs, false);
      assert paths == init + [last];
      MultisetSnoc(init, last);
      if last in fs {
        assert Select(paths, fs, true) == present + [last];
        MultisetSnoc(present, last);
      } else {
        assert Select(paths, fs, false) == missing + [last];
        MultisetSnoc(missing, last);
      }
    }
  }

  /** One more item at the end adds one occurrence of it. */
  lemma MultisetSnoc<T>(s: seq<T>, x: T)
    ensures multiset(s + [x]) == multiset(s) + multiset{x}
  {
  }

  /** Nothing is missing exactly when every path exists. */
  lemma {:induction false} NoneMissing(paths: seq<string>, fs: map<string, seq<string>>)
    ensures Select(paths, fs, false) == [] <==> forall i :: 0 <= i < |paths| ==> paths[i] in fs
    decreases |paths|
  {
    if paths != [] {
      NoneMissing(paths[..|paths| - 1], fs);
      var init := paths[..|paths| - 1];
      if forall i :: 0 <= i < |init| ==> init[i] in fs {
        if paths[|paths| - 1] in fs {
          forall i | 0 <= i < |paths| ensures paths[i] in fs {
            if i < |init| {
              assert paths[i] == init[i];
            }
          }
        }
      } else {
        var i :| 0 <= i < |init| && init[i] !in fs;
        assert paths[i] == init[i];
      }
    }
  }

  /** `test_file_completeness`: the required files split into present and missing, in order; it passes iff none is missing. */
  method TestFileCompleteness(fs: map<string, seq<string>>) returns (ok: bool, presentFiles: seq<string>, missingFiles: seq<string>)
    ensures presentFiles == Select(RequiredFiles, fs, true)
    ensures missingFiles == Select(RequiredFiles, fs, false)
    ensures ok <==> forall i :: 0 <= i < |RequiredFiles| ==> RequiredFiles[i] in fs
  {
    var required := RequiredFiles;
    missingFiles, presentFiles := [], [];
    for i := 0 to |required|
      invariant presentFiles == Select(required[..i], fs, true)
      invariant missingFiles == Select(required[..i], fs, false)
    {
      assert required[..i + 1][..i] == required[..i];
      if required[i] in fs {
        presentFiles := presentFiles + [required[i]];
      } else {
        missingFiles := missingFiles + [required[i]];
      }
    }
    assert required[..|required|] == required;
    NoneMissing(required, fs);
    ok := missingFiles == [];
  }

  // ---------------------------------------------------------------------
  // run_all_tests
  // ---------------------------------------------------------------------

  const PythonFiles: seq<string> := ["main.py", "tictactoe_lists.py", "tictactoe_dict.py"]

  /** What Python's parser and compiler make of each file: the paths they accept. */
  datatype Toolchain = Toolchain(parses: set<string>, compiles: set<string>)

  /** The number of the paths that exist. */
  function Existing(paths: seq<string>, fs: map<string, seq<string>>): (n: nat)
    ensures n <= |paths|
    decreases |paths|
  {
    if paths == [] then 0 else Existing(paths[..|paths| - 1], fs) + (if paths[|paths| - 1] in fs then 1 else 0)
  }

  /** The tests one existing Python file passes: syntax, compilation, structure analysis, comments. */
  function FileScore(f: string, fs: map<string, seq<string>>, tc: Toolchain): (n: nat)
    requires f in fs
    ensures n <= 4
  {
    (if f in tc.parses then 1 else 0) + (if f in tc.compiles then 1 else 0) +
    (if f in tc.parses then 1 else 0) +
    (if EnoughComments(CountKind(fs[f], Comment), CountKind(fs[f], Code)) then 1 else 0)
  }

  /** The tests the existing ones among `paths` pass. */
  function Score(paths: seq<string>, fs: map<string, seq<string>>, tc: Toolchain): (n: nat)
    ensures n <= 4 * Existing(paths, fs)
    decreases |paths|
  {
    if paths == [] then 0
    else
      var f := paths[|paths| - 1];
      Score(paths[..|paths| - 1], fs, tc) + (if f in fs then FileScore(f, fs, tc) else 0)
  }

  /** Every existing file passes all four tests exactly when the score is the maximum. */
  lemma {:induction false} FullScore(paths: seq<string>, fs: map<string, seq<string>>, tc: Toolchain)
    ensures Score(paths, fs, tc) == 4 * Existing(paths, fs) <==>
      forall i :: 0 <= i < |paths| && paths[i] in fs ==> FileScore(paths[i], fs, tc) == 4
    decreases |paths|
  {
    if paths != [] {
      var init := paths[..|paths| - 1];
      FullScore(init, fs, tc);
      assert forall i :: 0 <= i < |init| ==> paths[i] == init[i];
    }
  }

  /** `test_syntax`, `test_imports` and `analyze_code_structure`: each fails on a missing file, otherwise it asks the parser or the compiler. */
  method TestSyntax(f: string, fs: map<string, seq<string>>, tc: Toolchain) returns (ok: bool)
    ensures ok <==> f in fs && f in tc.parses
  {
    ok := f in fs && f in tc.parses;
  }

  method TestImports(f: string, fs: map<string, seq<string>>, tc: Toolchain) returns (ok: bool)
    ensures ok <==> f in fs && f in tc.compiles
  {
    ok := f in fs && f in tc.compiles;
  }

  method AnalyzeCodeStructure(f: string, fs: map<string, seq<string>>, tc: Toolchain) returns (ok: bool)
    ensures ok <==> f in fs && f in tc.parses
  {
    ok := f in fs && f in tc.parses;
  }

  /** The body of the per-file loop of `run_all_tests`: four tests of an existing file, each counted when run and when passed. */
  method TestPythonFile(f: string, fs: map<string, seq<string>>, tc: Toolchain) returns (run: nat, passed: nat)
    requires f in fs
    ensures run == 4 && passed == FileScore(f, fs, tc)
  {
    run, passed := 0, 0;
    run := run + 1;
    var syntax := TestSyntax(f, fs, tc);
    if syntax {
      passed := passed + 1;
    }
    run := run + 1;
    var imports := TestImports(f, fs, tc);
    if imports {
      passed := passed + 1;
    }
    run := run + 1;
    var structure := AnalyzeCodeStructure(f, fs, tc);
    if structure {
      passed := passed + 1;
    }
    run := run + 1;
    var comments := CheckEducationalComments(Some(fs[f]));
    if comments {
      passed := passed + 1;
    }
  }

  /**
   * `run_all_tests`: one completeness test, then four tests per existing
   * Python file; the counters record how many ran and how many passed.
   */
  method RunAllTests(fs: map<string, seq<string>>, tc: Toolchain) returns (testsRun: nat, testsPassed: nat)
    ensures testsRun == 1 + 4 * Existing(PythonFiles, fs)
    ensures testsPassed == (if forall i :: 0 <= i < |RequiredFiles| ==> RequiredFiles[i] in fs then 1 else 0)
                           + Score(PythonFiles, fs, tc)
    ensures testsPassed <= testsRun
  {
    testsRun, testsPassed := 0, 0;
    testsRun := testsRun + 1;
    var complete, _, _ := TestFileCompleteness(fs);
    if complete {
      testsPassed := testsPassed + 1;
    }
    var base := testsPassed;
    var files := PythonFiles;
    for i := 0 to |files|
      invariant testsRun == 1 + 4 * Existing(files[..i], fs)
      invariant testsPassed == base + Score(files[..i], fs, tc)
    {
      assert files[..i + 1][..i] == files[..i];
      var f := files[i];
      if f in fs {
        var run, passed := TestPythonFile(f, fs, tc);
        testsRun, testsPassed := testsRun + run, testsPassed + passed;
      }
    }
    assert files[..|files|] == files;
  }
}

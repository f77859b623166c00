/**
 * Prompt patterns (src/db/patterns.rs): a pattern is the system file inside a directory named
 * after it, and a history file lists pattern names one per line. Printing is modelled by
 * returning the lines that would be printed, in order.
 */
module DbPatterns {
  import opened Wrappers
  import opened Files
  import opened DbStorage

  /** `Patterns`: the pattern storage, the name of each pattern's system file and the history file. */
  datatype Patterns = Patterns(storage: Storage, systemPatternFile: string, uniquePatternsFilePath: Path)

  /** `Pattern`. */
  datatype Pattern = Pattern(name: string, description: string, pattern: string)

  // ---------------------------------------------------------------- get_pattern

  /** `storage.dir.join(name).join(system_pattern_file)`. */
  function PatternPath(p: Patterns, name: string): Path
  {
    p.storage.dir + [name, p.systemPatternFile]
  }

  /** `get_pattern`: read the pattern's system file and decode it as UTF-8. */
  function GetPattern(p: Patterns, fs: FileSystem, name: string, utf8: Bytes -> Option<string>): Result<Pattern, IoError>
  {
    match ReadFile(fs, PatternPath(p, name))
    case Err(e) => Err(e)
    case Ok(bytes) =>
      match utf8(bytes)
      case None => Err(InvalidData)
      case Some(text) => Ok(Pattern(name, "", text))
  }

  /**
   * A pattern is found exactly when its system file exists and decodes; it then carries the
   * requested name, an empty description and the decoded text. A missing path gives NotFound, a
   * directory in its place IsADirectory, and undecodable bytes InvalidData.
   */
  lemma GetPatternOutcome(p: Patterns, fs: FileSystem, name: string, utf8: Bytes -> Option<string>)
    requires WellFormed(fs)
    ensures var path := PatternPath(p, name);
      var r := GetPattern(p, fs, name, utf8);
      && (r.Ok? <==> path in fs.files && utf8(fs.files[path]).Some?)
      && (r.Ok? ==> r.value == Pattern(name, "", utf8(fs.files[path]).value))
      && (r == Err(NotFound) <==> !PathExists(fs, path))
      && (r == Err(IsADirectory) <==> path in fs.dirs)
      && (r == Err(InvalidData) <==> path in fs.files && utf8(fs.files[path]).None?)
  {
  }

  // ---------------------------------------------------------------- print_latest_patterns

  /** The number of line breaks in a text. */
  function CountNewlines(s: string): nat
    decreases |s|
  {
    if s == [] then 0 else (if s[0] == '\n' then 1 else 0) + CountNewlines(s[1..])
  }

  /** `str::split('\n')`: the pieces between line breaks, empty pieces included. */
  function Split(s: string): (r: seq<string>)
    ensures |r| > 0
    decreases |s|
  {
    if s == [] then [""]
    else if s[0] == '\n' then [""] + Split(s[1..])
    else
      var rest := Split(s[1..]);
      [[s[0]] + rest[0]] + rest[1..]
  }

  /** The pieces put back together with a line break between neighbours. */
  function Join(parts: seq<string>): string
    decreases |parts|
  {
    if parts == [] then ""
    else if |parts| == 1 then parts[0]
    else parts[0] + "\n" + Join(parts[1..])
  }

  /** A text with n line breaks splits into n + 1 pieces, none of which contains a line break. */
  lemma {:induction false} SplitCount(s: string)
    ensures |Split(s)| == CountNewlines(s) + 1
    ensures forall i :: 0 <= i < |Split(s)| ==> '\n' !in Split(s)[i]
    decreases |s|
  {
    if s != [] {
      SplitCount(s[1..]);
      var rest := Split(s[1..]);
      if s[0] != '\n' {
        forall i | 0 <= i < |Split(s)|
          ensures '\n' !in Split(s)[i]
        {
          if i == 0 {
            assert '\n' !in rest[0];
          } else {
            assert Split(s)[i] == rest[i];
          }
        }
      }
    }
  }

  /** Joining the pieces gives the text back. */
  lemma {:induction false} JoinSplit(s: string)
    ensures Join(Split(s)) == s
    decreases |s|
  {
    if s != [] {
      JoinSplit(s[1..]);
      var rest := Split(s[1..]);
      if s[0] == '\n' {
        assert Split(s) == [""] + rest;
        assert Split(s)[1..] == rest;
        assert s == "" + "\n" + s[1..];
      } else {
        var parts := Split(s);
        assert parts == [[s[0]] + rest[0]] + rest[1..];
        if |rest| == 1 {
          assert Join(rest) == rest[0];
          assert parts == [[s[0]] + rest[0]];
        } else {
          assert parts[1..] == rest[1..];
          assert Join(rest) == rest[0] + "\n" + Join(rest[1..]);
        }
      }
    }
  }

  /** A text without line breaks, the empty text included, is one piece. */
  lemma NoNewlineOnePiece(s: string)
    requires '\n' !in s
    ensures Split(s) == [s]
  {
    JoinSplit(s);
    SplitCount(s);
    assert CountNewlines(s) == 0 by { CountNoNewlines(s); }
  }

  lemma {:induction false} CountNoNewlines(s: string)
    requires '\n' !in s
    ensures CountNewlines(s) == 0
    decreases |s|
  {
    if s != [] {
      assert s[0] in s;
      assert forall c :: c in s[1..] ==> c in s;
      CountNoNewlines(s[1..]);
    }
  }

  /** The sequence in reverse order (`iter().rev()`). */
  function Reverse<T>(xs: seq<T>): seq<T>
    decreases |xs|
  {
    if xs == [] then [] else Reverse(xs[1..]) + [xs[0]]
  }

  /** Reversing keeps the length and puts element i of the result at position n - 1 - i of the input. */
  lemma {:induction false} ReverseIndex<T>(xs: seq<T>)
    ensures |Reverse(xs)| == |xs|
    ensures forall i :: 0 <= i < |xs| ==> Reverse(xs)[i] == xs[|xs| - 1 - i]
    decreases |xs|
  {
    if xs != [] {
      ReverseIndex(xs[1..]);
    }
  }

  function Min(a: nat, b: nat): nat
  {
    if a < b then a else b
  }

  /** `lines.iter().rev().take(min(k, lines.len()))`: the last k lines, most recent first. */
  function LatestLines(lines: seq<string>, k: nat): seq<string>
  {
    ReverseIndex(lines);
    Reverse(lines)[..Min(k, |lines|)]
  }

  /**
   * Exactly min(k, n) lines are selected, line i of the output is line n - 1 - i of the input, and
   * k = 0 selects nothing.
   */
  lemma LatestLinesShape(lines: seq<string>, k: nat)
    ensures var out := LatestLines(lines, k);
      && |out| == Min(k, |lines|)
      && (forall i :: 0 <= i < |out| ==> out[i] == lines[|lines| - 1 - i])
      && (k == 0 ==> out == [])
      && (k >= |lines| ==> out == Reverse(lines))
  {
    ReverseIndex(lines);
  }

  /** The lines `print_latest_patterns` prints for a history text. */
  function LatestPatterns(text: string, k: nat): seq<string>
  {
    LatestLines(Split(text), k)
  }

  /** A history text without line breaks prints as itself when k > 0, and prints nothing when k = 0. */
  lemma SingleLineHistory(text: string, k: nat)
    requires '\n' !in text
    ensures LatestPatterns(text, k) == (if k == 0 then [] else [text])
  {
    NoNewlineOnePiece(text);
    LatestLinesShape([text], k);
  }

  /**
   * `print_latest_patterns`: read the history file as text, split it into lines, and print the last
   * `latestNumber` of them from the most recent back. The printed lines are returned in order.
   */
  method PrintLatestPatterns(p: Patterns, fs: FileSystem, latestNumber: nat, utf8: Bytes -> Option<string>)
    returns (r: Result<seq<string>, IoError>)
    ensures r.Err? <==> ReadToString(fs, p.uniquePatternsFilePath, utf8).Err?
    ensures r.Err? ==> r.error == ReadToString(fs, p.uniquePatternsFilePath, utf8).error
    ensures r.Ok? ==> r.value == LatestPatterns(ReadToString(fs, p.uniquePatternsFilePath, utf8).value, latestNumber)
  {
    var contents := ReadToString(fs, p.uniquePatternsFilePath, utf8);
    if contents.Err? {
      return Err(contents.error);
    }
    var uniquePatterns := Split(contents.value);
    var n := Min(latestNumber, |uniquePatterns|);
    var printed: seq<string> := [];
    var i := 0;
    while i < n
      invariant i <= n
      invariant |printed| == i
      invariant forall j :: 0 <= j < i ==> printed[j] == uniquePatterns[|uniquePatterns| - 1 - j]
    {
      printed := printed + [uniquePatterns[|uniquePatterns| - 1 - i]];
      i := i + 1;
    }
    LatestLinesShape(uniquePatterns, latestNumber);
    r := Ok(printed);
  }
}

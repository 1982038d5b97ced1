/**
 * The SD-card helpers: the directory listing loop of `list_files`, which
 * skips the dot entries, indents by level and reports wav files, and the
 * first-line read of `s_example_read_file`, which cuts the line at its
 * newline. The directory and the file are inputs: what successive
 * `f_readdir` calls return, whether the open succeeds, and the file's text.
 */
module SdCardFs {
  import opened Bytes

  /** What one `f_readdir` call yields: an entry name, or an error result. */
  datatype DirRead = Entry(name: string) | ReadError

  /** The console and log output of a listing. */
  datatype Listing = Listing(console: string, found: seq<string>)

  /** `f_readdir` on the `k`-th call: past the last entry FatFs returns an empty name. */
  function ReadDirAt(entries: seq<DirRead>, k: nat): DirRead
  {
    if k < |entries| then entries[k] else Entry("")
  }

  /** Whether `pat` occurs in `s` at or after the first position: `strstr(s, pat) != NULL`. */
  function Contains(s: string, pat: string): bool
    decreases |s|
  {
    if |s| < |pat| then false else s[..|pat|] == pat || Contains(s[1..], pat)
  }

  /** `pat` occurs in `s` starting at position `i`. */
  predicate OccursAt(s: string, pat: string, i: int)
  {
    0 <= i <= |s| - |pat| && s[i..i + |pat|] == pat
  }

  /** The scan of `Contains` finds `pat` exactly when it occurs at some position of `s`. */
  lemma {:induction false} ContainsIffOccurs(s: string, pat: string)
    ensures Contains(s, pat) <==> exists i :: OccursAt(s, pat, i)
    decreases |s|
  {
    if |s| < |pat| {
      assert forall i :: !OccursAt(s, pat, i);
    } else if s[..|pat|] == pat {
      assert OccursAt(s, pat, 0);
    } else {
      ContainsIffOccurs(s[1..], pat);
      if Contains(s[1..], pat) {
        var i :| OccursAt(s[1..], pat, i);
        assert s[i + 1..i + 1 + |pat|] == s[1..][i..i + |pat|];
        assert OccursAt(s, pat, i + 1);
      }
      if exists i :: OccursAt(s, pat, i) {
        var i :| OccursAt(s, pat, i);
        assert i != 0;
        assert s[1..][i - 1..i - 1 + |pat|] == s[i..i + |pat|];
        assert OccursAt(s[1..], pat, i - 1);
      }
    }
  }

  /** The test of `list_files` for an audio file: ".wav" or ".WAV" anywhere in the name. */
  predicate IsWav(name: string)
  {
    Contains(name, ".wav") || Contains(name, ".WAV")
  }

  /** The test is a substring test, not a suffix test, and it is case-sensitive. */
  lemma IsWavExamples()
    ensures IsWav("a.wav") && IsWav("A.WAV") && IsWav("a.wav.bak")
    ensures !IsWav("a.Wav") && !IsWav("wav") && !IsWav("")
  {
    assert "a.wav"[1..][..4] == ".wav";
    assert "A.WAV"[1..][..4] == ".WAV";
    assert "a.wav.bak"[1..][..4] == ".wav";
    assert "a.Wav"[..4][0] != ".wav"[0] && "a.Wav"[..4][0] != ".WAV"[0];
    assert "a.Wav"[1..][..4][1] != ".wav"[1] && "a.Wav"[1..][..4][2] != ".WAV"[2];
  }

  predicate IsDotEntry(name: string) { name == "." || name == ".." }

  /** What `for (i = 0; i < level; i++) printf("  ");` prints. */
  function Indent(level: int): (r: string)
    ensures |r| == 2 * Max(0, level) && forall i :: 0 <= i < |r| ==> r[i] == ' '
    decreases Max(0, level)
  {
    if level <= 0 then "" else Indent(level - 1) + "  "
  }

  /** The output of `list_files` for the directory whose reads are `entries`, once it is open. */
  function Scan(entries: seq<DirRead>, level: int): Listing
    decreases |entries|
  {
    if entries == [] then Listing("", [])
    else match entries[0]
      case ReadError => Listing("", [])
      case Entry(name) =>
        if name == "" then Listing("", [])
        else if IsDotEntry(name) then Scan(entries[1..], level)
        else
          var rest := Scan(entries[1..], level);
          Listing(Indent(level) + rest.console, (if IsWav(name) then [name] else []) + rest.found)
  }

  /** Where the listing stops: the first error or empty name, or the end of the entries. */
  function StopIndex(entries: seq<DirRead>): (k: nat)
    ensures k <= |entries|
    ensures forall i :: 0 <= i < k ==> entries[i].Entry? && entries[i].name != ""
    ensures k < |entries| ==> entries[k] == ReadError || entries[k] == Entry("")
    decreases |entries|
  {
    if entries == [] || entries[0] == ReadError || entries[0] == Entry("") then 0
    else 1 + StopIndex(entries[1..])
  }

  /** The names `list_files` indents for: the entries before the stop that are not dot entries. */
  function Listed(entries: seq<DirRead>): (r: seq<string>)
    ensures forall n :: n in r ==> n != "" && !IsDotEntry(n)
    decreases |entries|
  {
    if entries == [] || entries[0] == ReadError || entries[0] == Entry("") then []
    else if IsDotEntry(entries[0].name) then Listed(entries[1..])
    else [entries[0].name] + Listed(entries[1..])
  }

  /** The listing from entry `k` on, in terms of the listing from entry `k + 1` on. */
  lemma ScanUnfold(entries: seq<DirRead>, k: nat, level: int)
    requires k < |entries| && entries[k].Entry? && entries[k].name != ""
    ensures var name := entries[k].name; var rest := Scan(entries[k + 1..], level);
      Scan(entries[k..], level) ==
        if IsDotEntry(name) then rest
        else Listing(Indent(level) + rest.console, (if IsWav(name) then [name] else []) + rest.found)
  {
    assert entries[k..][1..] == entries[k + 1..];
  }

  /** Nothing read after the first error or empty name changes the listing. */
  lemma {:induction false} ScanStopsAtFirstEnd(entries: seq<DirRead>, level: int)
    ensures Scan(entries, level) == Scan(entries[..StopIndex(entries)], level)
    decreases |entries|
  {
    var stop := StopIndex(entries);
    if stop > 0 {
      var tail := entries[1..];
      ScanStopsAtFirstEnd(tail, level);
      assert entries[..stop][1..] == tail[..StopIndex(tail)];
    }
  }

  /** `n` indents of `level`, one after another. */
  function Indents(level: int, n: nat): (r: string)
    ensures forall i :: 0 <= i < |r| ==> r[i] == ' '
  {
    if n == 0 then "" else Indent(level) + Indents(level, n - 1)
  }

  lemma {:induction false} IndentsLength(level: int, n: nat)
    ensures |Indents(level, n)| == 2 * Max(0, level) * n
  {
    if n > 0 {
      IndentsLength(level, n - 1);
      assert 2 * Max(0, level) * n == 2 * Max(0, level) + 2 * Max(0, level) * (n - 1);
    }
  }

  /** The console output is one indent of 2 * level spaces for every listed name, and nothing else. */
  lemma {:induction false} ScanConsole(entries: seq<DirRead>, level: int)
    ensures Scan(entries, level).console == Indents(level, |Listed(entries)|)
    ensures |Scan(entries, level).console| == 2 * Max(0, level) * |Listed(entries)|
    decreases |entries|
  {
    if entries != [] && entries[0] != ReadError && entries[0] != Entry("") {
      ScanConsole(entries[1..], level);
    }
    IndentsLength(level, |Listed(entries)|);
  }

  /** The reported names are exactly the listed names that pass the wav test, in order. */
  lemma {:induction false} ScanFound(entries: seq<DirRead>, level: int)
    ensures Scan(entries, level).found == WavOnly(Listed(entries))
    ensures forall n :: n in Scan(entries, level).found ==> IsWav(n) && n != "" && !IsDotEntry(n)
    decreases |entries|
  {
    if entries != [] && entries[0] != ReadError && entries[0] != Entry("") {
      ScanFound(entries[1..], level);
      var name := entries[0].name;
      if !IsDotEntry(name) {
        var l := Listed(entries[1..]);
        assert Listed(entries) == [name] + l;
        assert ([name] + l)[1..] == l;
      }
    }
  }

  /** The names that pass the wav test, in order. */
  function WavOnly(names: seq<string>): (r: seq<string>)
    ensures forall n :: n in r ==> n in names && IsWav(n)
    ensures forall n :: n in names && IsWav(n) ==> n in r
  {
    if names == [] then []
    else (if IsWav(names[0]) then [names[0]] else []) + WavOnly(names[1..])
  }

  /** The first line as far as `fgets(line, size, f)` stores it: up to and including a newline, at most size - 1 characters. */
  function FgetsLine(content: string, size: nat): (r: string)
    requires size > 0
    ensures |r| <= size - 1 && |r| <= |content| && r == content[..|r|]
    ensures forall i :: 0 <= i < |r| - 1 ==> r[i] != '\n'
    ensures |r| == size - 1 || r == content || (|r| > 0 && r[|r| - 1] == '\n')
    decreases |content|
  {
    if size == 1 || content == [] then ""
    else if content[0] == '\n' then "\n"
    else [content[0]] + FgetsLine(content[1..], size - 1)
  }

  /** Position of the first `c` in `s`, or |s| when there is none (`strchr`, `strlen`). */
  function FirstIndex(s: string, c: char): (i: nat)
    ensures i <= |s| && (i < |s| ==> s[i] == c) && forall j :: 0 <= j < i ==> s[j] != c
    decreases |s|
  {
    if s == [] then 0 else if s[0] == c then 0 else 1 + FirstIndex(s[1..], c)
  }

  /** A position before which `c` does not occur, and holding `c` or the end, is the first index. */
  lemma {:induction false} FirstIndexUnique(s: string, c: char, i: nat)
    requires i <= |s| && (i < |s| ==> s[i] == c) && forall j :: 0 <= j < i ==> s[j] != c
    ensures FirstIndex(s, c) == i
    decreases |s|
  {
    if s != [] && i > 0 {
      FirstIndexUnique(s[1..], c, i - 1);
    }
  }

  /** The C string held by a character buffer: everything before the first NUL. */
  function CString(buf: seq<char>): string
  {
    buf[..FirstIndex(buf, '\0')]
  }

  /** A line with everything from its first newline on removed. */
  function Strip(s: string): (r: string)
    ensures |r| <= |s| && '\n' !in r && r == s[..|r|]
    ensures '\n' !in s ==> r == s
    ensures |r| < |s| ==> s[|r|] == '\n'
  {
    s[..FirstIndex(s, '\n')]
  }

  /**
   * A line read by `fgets` into a buffer of `size` and cut at its newline is
   * a prefix of the file without a newline, at most size - 1 characters, and
   * cut short of both the end and size - 1 characters only at a newline.
   */
  lemma FgetsThenStrip(content: string, size: nat)
    requires '\0' !in content && size > 0
    ensures var text := Strip(CString(FgetsLine(content, size)));
      && |text| <= |content| && text == content[..|text|] && |text| <= size - 1 && '\n' !in text
      && (|text| < |content| && |text| < size - 1 ==> content[|text|] == '\n')
  {
    var line := FgetsLine(content, size);
    assert CString(line) == line;
    var text := Strip(line);
    assert text == line[..|text|];
    if |text| < |content| && |text| < size - 1 {
      assert content[|text|] == line[|text|];
    }
  }

  /** What `s_example_read_file` logs, for a file without NUL characters: at most 63 characters of its first line. */
  lemma ReadLineMeaning(content: string)
    requires '\0' !in content
    ensures var text := Strip(CString(FgetsLine(content, MAX_CHAR_SIZE)));
      && text == content[..|text|] && |text| <= 63 && '\n' !in text
      && (|text| < |content| && |text| < 63 ==> content[|text|] == '\n')
  {
    FgetsThenStrip(content, MAX_CHAR_SIZE);
  }

  /** `EXAMPLE_MAX_CHAR_SIZE`, the size of the line buffer. */
  const MAX_CHAR_SIZE: nat := 64

  class SdCard {
    /** What `list_files` has printed and logged so far. */
    var console: string
    var found: seq<string>
    /** The number of `f_closedir` calls made. */
    var closedirs: nat

    constructor ()
      ensures console == "" && found == [] && closedirs == 0
    {
      console := "";
      found := [];
      closedirs := 0;
    }

    /** `list_files(path, level)`; `isOpen` is whether `f_opendir` succeeds. */
    method ListFiles(isOpen: bool, entries: seq<DirRead>, level: int)
      modifies this
      ensures !isOpen ==> console == old(console) && found == old(found) && closedirs == old(closedirs)
      ensures isOpen ==> console == old(console) + Scan(entries, level).console
      ensures isOpen ==> found == old(found) + Scan(entries, level).found
      ensures isOpen ==> closedirs == old(closedirs) + 1
    {
      if !isOpen {
        return;
      }
      ghost var target := Scan(entries, level);
      ghost var todo := target;
      var k := 0;
      while true
        invariant 0 <= k <= |entries| && todo == Scan(entries[k..], level)
        invariant console + todo.console == old(console) + target.console
        invariant found + todo.found == old(found) + target.found
        invariant closedirs == old(closedirs)
        decreases |entries| - k
      {
        var res := ReadDirAt(entries, k);
        if res.ReadError? || res.name == "" {
          assert todo == Listing("", []) by {
            assert entries[k..] == [] || entries[k..][0] == res;
          }
          break;
        }
        ScanUnfold(entries, k, level);
        k := k + 1;
        if res.name == "." || res.name == ".." {
          todo := Scan(entries[k..], level);
          continue;
        }
        ghost var c0, f0, rest := console, found, Scan(entries[k..], level);
        ReportEntry(res.name, level);
        assert console + rest.console == c0 + todo.console;
        assert found + rest.found == f0 + todo.found;
        todo := rest;
      }
      closedirs := closedirs + 1;
    }

    /** The body of the `list_files` loop for an entry it does not skip: indent, then the wav test. */
    method ReportEntry(name: string, level: int)
      modifies this
      ensures console == old(console) + Indent(level)
      ensures found == old(found) + (if IsWav(name) then [name] else [])
      ensures closedirs == old(closedirs)
    {
      PrintIndent(level);
      if Contains(name, ".wav") || Contains(name, ".WAV") {
        found := found + [name];
      }
    }

    /** `for (int i = 0; i < level; i++) printf("  ");` */
    method PrintIndent(level: int)
      modifies this
      ensures console == old(console) + Indent(level)
      ensures found == old(found) && closedirs == old(closedirs)
    {
      var i := 0;
      while i < level
        invariant found == old(found) && closedirs == old(closedirs)
        invariant console == old(console) + Indent(i)
        invariant i <= Max(0, level)
      {
        console := console + "  ";
        i := i + 1;
      }
    }

    /**
     * `s_example_read_file`: `isOpen` is whether `fopen` succeeds and `content`
     * the file's text. Returns the status and the line it logs.
     */
    method ReadFile(isOpen: bool, content: string) returns (err: EspErr, text: string)
      ensures !isOpen ==> err == EspFail && text == ""
      ensures isOpen ==> err == EspOk && text == Strip(CString(FgetsLine(content, MAX_CHAR_SIZE)))
    {
      if !isOpen {
        return EspFail, "";
      }
      var line := new char[MAX_CHAR_SIZE];
      Fgets(line, content);
      StripNewline(line);
      text := ReadCString(line);
      return EspOk, text;
    }

    /** `fgets(line, sizeof(line), f)`: the first line, NUL-terminated. */
    static method Fgets(line: array<char>, content: string)
      requires line.Length > 0
      modifies line
      ensures CString(line[..]) == CString(FgetsLine(content, line.Length))
      ensures FirstIndex(line[..], '\0') < line.Length
    {
      var s := FgetsLine(content, line.Length);
      for i := 0 to |s|
        invariant forall j :: 0 <= j < i ==> line[j] == s[j]
      {
        line[i] := s[i];
      }
      line[|s|] := '\0';
      var k := FirstIndex(s, '\0');
      assert forall j :: 0 <= j < k ==> line[..][j] == s[j];
      FirstIndexUnique(line[..], '\0', k);
      assert line[..][..k] == s[..k];
    }

    /** `strchr(line, '\n')` and, when found, `*pos = '\0'`. */
    static method StripNewline(line: array<char>)
      requires FirstIndex(line[..], '\0') < line.Length
      modifies line
      ensures CString(line[..]) == Strip(CString(old(line[..])))
      ensures FirstIndex(line[..], '\0') < line.Length
    {
      ghost var s := CString(line[..]);
      var i := 0;
      while line[i] != '\0' && line[i] != '\n'
        invariant 0 <= i <= FirstIndex(line[..], '\0')
        invariant forall j :: 0 <= j < i ==> line[j] != '\n'
        decreases line.Length - i
      {
        i := i + 1;
      }
      FirstIndexUnique(s, '\n', i);
      if line[i] == '\n' {
        ghost var before := line[..];
        line[i] := '\0';
        FirstIndexUnique(line[..], '\0', i);
        assert line[..][..i] == before[..i];
      } else {
        assert i == FirstIndex(line[..], '\0');
      }
    }

    /** The logged `%s` of a buffer: its characters up to the NUL. */
    static method ReadCString(line: array<char>) returns (s: string)
      requires FirstIndex(line[..], '\0') < line.Length
      ensures s == CString(line[..])
    {
      s := [];
      var i := 0;
      while line[i] != '\0'
        invariant 0 <= i <= FirstIndex(line[..], '\0')
        invariant s == line[..i]
        decreases line.Length - i
      {
        s := s + [line[i]];
        i := i + 1;
      }
    }
  }
}

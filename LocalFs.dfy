/**
 * The local filesystem as the core uses it (through simple_fs and std::fs):
 * files with their contents, directories, path joining, and BufRead::lines.
 */
module LocalFs {
  import Seqs
  import opened Wrappers
  import opened Api

  type Path = string

  /** Path::join on Unix: an absolute `name` replaces `dir`; otherwise exactly one '/' separates them. */
  function Join(dir: Path, name: string): (r: Path)
    ensures |name| > 0 && name[0] != '/' && |dir| > 0 && dir[|dir| - 1] != '/' ==> r == dir + "/" + name
  {
    if |name| > 0 && name[0] == '/' then name
    else if dir == "" then name
    else if dir[|dir| - 1] == '/' then dir + name
    else dir + "/" + name
  }

  /** What a path on disk holds, as far as reading it goes. */
  datatype FileData =
    | Text(content: string)    // a readable text file
    | Garbled(before: string)  // valid UTF-8 text `before`, then bytes that are not
    | Unreadable               // present, but opening it for reading fails

  /** The position of the first `c` in `s`. */
  function IndexOf(s: string, c: char): (r: Option<nat>)
    ensures r.Some? ==> r.value < |s| && s[r.value] == c && c !in s[..r.value]
    ensures r.None? ==> c !in s
  {
    if s == [] then None
    else if s[0] == c then Some(0)
    else match IndexOf(s[1..], c)
      case None => None
      case Some(i) => assert s[..i + 1] == [s[0]] + s[1..][..i]; Some(i + 1)
  }

  /** Drops one trailing '\r'. */
  function StripCR(s: string): (r: string)
    ensures r == s || (s == r + "\r")
  {
    if |s| > 0 && s[|s| - 1] == '\r' then s[..|s| - 1] else s
  }

  /**
   * BufRead::lines: the text split at each '\n', the '\n' dropped, and a '\r'
   * right before it dropped too; a last line with no '\n' is kept as it is.
   */
  function Lines(text: string): (r: seq<string>)
    ensures forall i :: 0 <= i < |r| ==> '\n' !in r[i]
    decreases |text|
  {
    if text == [] then []
    else match IndexOf(text, '\n')
      case None => [text]
      case Some(i) => [StripCR(text[..i])] + Lines(text[i + 1..])
  }

  /**
   * The complete lines at the start of `s`: up to and including its last '\n'.
   * BufRead::lines yields these before it reaches a line it cannot decode.
   */
  function WholeLines(s: string): (r: string)
    ensures |r| <= |s| && r == s[..|r|]
    ensures r == [] || r[|r| - 1] == '\n'
    ensures '\n' !in s[|r|..]
  {
    if s == [] then []
    else if s[|s| - 1] == '\n' then s
    else
      var r := WholeLines(s[..|s| - 1]);
      assert s[..|s| - 1][..|r|] == s[..|r|];
      assert s[|r|..] == s[..|s| - 1][|r|..] + [s[|s| - 1]];
      r
  }

  /** Text after the last complete line, holding no '\n', is not part of the complete lines. */
  lemma {:induction false} WholeLinesDropsPartial(t: string, u: string)
    requires t == [] || t[|t| - 1] == '\n'
    requires '\n' !in u
    ensures WholeLines(t + u) == t
    decreases |u|
  {
    if u == [] {
      assert t + u == t;
    } else {
      var s := t + u;
      assert s[|s| - 1] == u[|u| - 1];
      assert s[..|s| - 1] == t + u[..|u| - 1];
      var v := u[..|u| - 1];
      assert '\n' !in v by {
        forall i | 0 <= i < |v| ensures v[i] != '\n' {
          assert v[i] == u[i];
        }
      }
      WholeLinesDropsPartial(t, v);
    }
  }

  /** Each line followed by one '\n', in order: what writing the lines with writeln! produces. */
  function JoinLines(lines: seq<string>): (r: string)
    ensures r == [] <==> lines == []
    ensures r == [] || r[|r| - 1] == '\n'
  {
    if lines == [] then "" else lines[0] + "\n" + JoinLines(lines[1..])
  }

  lemma {:induction false} JoinLinesAppend(lines: seq<string>, line: string)
    ensures JoinLines(lines + [line]) == JoinLines(lines) + line + "\n"
  {
    if lines != [] {
      assert (lines + [line])[1..] == lines[1..] + [line];
      JoinLinesAppend(lines[1..], line);
    }
  }

  /** Lines that hold no '\n' and do not end in '\r' are read back exactly. */
  lemma {:induction false} LinesJoinLines(lines: seq<string>)
    requires forall i :: 0 <= i < |lines| ==> '\n' !in lines[i]
    requires forall i :: 0 <= i < |lines| ==> lines[i] == [] || lines[i][|lines[i]| - 1] != '\r'
    ensures Lines(JoinLines(lines)) == lines
  {
    if lines != [] {
      var t := JoinLines(lines);
      var l := lines[0];
      assert t == l + "\n" + JoinLines(lines[1..]);
      assert t[..|l|] == l && t[|l|] == '\n';
      assert IndexOf(t, '\n') == Some(|l|);
      assert t[|l| + 1..] == JoinLines(lines[1..]);
      LinesJoinLines(lines[1..]);
    }
  }

  /**
   * For text with no '\r', writing its lines back gives the text itself, with a
   * '\n' added when the last line had none.
   */
  lemma {:induction false} JoinLinesOfLines(text: string)
    requires '\r' !in text
    ensures JoinLines(Lines(text)) == if text == [] || text[|text| - 1] == '\n' then text else text + "\n"
    decreases |text|
  {
    if text != [] {
      match IndexOf(text, '\n')
      case None =>
        assert JoinLines([text]) == text + "\n" + JoinLines([]);
      case Some(i) =>
        var line, rest := text[..i], text[i + 1..];
        NoneInSlice(text, '\r', 0, i);
        NoneInSlice(text, '\r', i + 1, |text|);
        JoinLinesOfLines(rest);
        SplitAt(text, i);
        assert JoinLines(Lines(text)) == line + "\n" + JoinLines(Lines(rest)) by {
          assert Lines(text) == [line] + Lines(rest);
          assert ([line] + Lines(rest))[1..] == Lines(rest);
        }
        if rest != [] && rest[|rest| - 1] != '\n' {
          Seqs.Associative(line + "\n", rest, "\n");
        }
        if rest != [] {
          assert text[|text| - 1] == rest[|rest| - 1];
        }
    }
  }

  /** A character absent from a sequence is absent from each of its slices. */
  lemma NoneInSlice(s: string, c: char, from: nat, to: nat)
    requires c !in s && from <= to <= |s|
    ensures c !in s[from..to]
  {
    forall k | 0 <= k < to - from ensures s[from..to][k] != c {
      assert s[from..to][k] == s[from + k];
    }
  }

  /** The text around a position, put back together. */
  lemma SplitAt(s: string, i: nat)
    requires i < |s|
    ensures s == s[..i] + [s[i]] + s[i + 1..]
  {
  }

  /** A "\r\n" line ending reads the same as "\n". */
  lemma CarriageReturnDropped(line: string, rest: string)
    requires '\n' !in line
    ensures Lines(line + "\r\n" + rest) == [line] + Lines(rest)
  {
    var t := line + "\r\n" + rest;
    assert t[..|line| + 1] == line + "\r";
    assert '\n' !in t[..|line| + 1];
    assert t[|line| + 1] == '\n';
    assert IndexOf(t, '\n') == Some(|line| + 1);
    assert t[|line| + 2..] == rest;
  }

  class Disk {
    var files: map<Path, FileData>
    var dirs: set<Path>

    /** No path is both a file and a directory. */
    ghost predicate Valid()
      reads this
    {
      files.Keys !! dirs
    }

    /** A filesystem whose files are `files` and whose directories are `dirs`. */
    constructor (files: map<Path, FileData>, dirs: set<Path>)
      requires files.Keys !! dirs
      ensures Valid()
      ensures this.files == files && this.dirs == dirs
    {
      this.files := files;
      this.dirs := dirs;
    }

    /** Path::exists: a file or a directory is there. */
    predicate Exists(p: Path)
      reads this
    {
      p in files || p in dirs
    }

    /** read_to_string: the whole text of a readable file. */
    function ReadToString(p: Path): (r: Result<string, Error>)
      reads this
      ensures r.Ok? <==> p in files && files[p].Text?
      ensures r.Ok? ==> r.value == files[p].content
      ensures r.Err? ==> r.error == Io(p)
    {
      if p in files && files[p].Text? then Ok(files[p].content) else Err(Io(p))
    }

    /** ensure_dir: the directory is there afterwards, unless a file is in the way. */
    method EnsureDir(p: Path) returns (r: Result<(), Error>)
      requires Valid()
      modifies this
      ensures Valid()
      ensures r.Ok? <==> p !in old(files)
      ensures r.Err? ==> r.error == Io(p)
      ensures files == old(files)
      ensures dirs == if r.Ok? then old(dirs) + {p} else old(dirs)
    {
      if p in files {
        return Err(Io(p));
      }
      dirs := dirs + {p};
      r := Ok(());
    }

    /** remove_file: removes a file; a directory or a missing path is an error. */
    method RemoveFile(p: Path) returns (r: Result<(), Error>)
      requires Valid()
      modifies this
      ensures Valid()
      ensures r.Ok? <==> p in old(files)
      ensures r.Err? ==> r.error == Io(p)
      ensures files == old(files) - {p} && dirs == old(dirs)
    {
      if p !in files {
        return Err(Io(p));
      }
      files := files - {p};
      r := Ok(());
    }

    /** Writes a whole file, replacing what was there; a directory in the way is an error. */
    method WriteFile(p: Path, content: string) returns (r: Result<(), Error>)
      requires Valid()
      modifies this
      ensures Valid()
      ensures r.Ok? <==> p !in old(dirs)
      ensures r.Err? ==> r.error == Io(p)
      ensures files == if r.Ok? then old(files)[p := FileData.Text(content)] else old(files)
      ensures dirs == old(dirs)
    {
      if p in dirs {
        return Err(Io(p));
      }
      files := files[p := FileData.Text(content)];
      r := Ok(());
    }
  }
}

/**
 * bundle_to_file: concatenates source files into one destination file, each
 * under a "// ==== file path:" header and followed by blank lines.
 */
module Files {
  import Seqs
  import opened Wrappers
  import opened Api
  import opened LocalFs

  /** The header written before a file's lines. */
  function Header(p: Path): string
  {
    "\n// ==== file path: " + p + "\n\n"
  }

  /** The blank lines written after a file's lines. */
  const TRAILER: string := "\n\n\n"

  /** The whole block written for one file that was read to the end. */
  function Section(p: Path, lines: seq<string>): string
  {
    Header(p) + JoinLines(lines) + TRAILER
  }

  /**
   * What is written for one source that can be opened: all of it, or the
   * header and the complete lines before the one that cannot be decoded.
   */
  function SourceText(p: Path, data: FileData): string
    requires !data.Unreadable?
  {
    match data
    case Text(content) => Section(p, Lines(content))
    case Garbled(before) => Header(p) + JoinLines(Lines(WholeLines(before)))
  }

  /**
   * What bundle_to_file leaves in the destination for `paths`, given the files
   * it reads, and the error that stopped it, if any. A path that is not a
   * readable file stops it before its header; a file whose text breaks off
   * stops it after the header and the complete lines before the break.
   */
  function BundleOutput(paths: seq<Path>, files: map<Path, FileData>): (r: (string, Option<Error>))
    ensures paths == [] ==> r == ("", None)
    ensures r.1.Some? ==> r.1.value.Io? && r.1.value.path in paths
    decreases |paths|
  {
    if paths == [] then ("", None)
    else
      var p := paths[0];
      if p !in files || files[p].Unreadable? then ("", Some(Io(p)))
      else if files[p].Garbled? then (SourceText(p, files[p]), Some(Io(p)))
      else
        var rest := BundleOutput(paths[1..], files);
        (SourceText(p, files[p]) + rest.0, rest.1)
  }

  predicate AllText(paths: seq<Path>, files: map<Path, FileData>)
  {
    forall p :: p in paths ==> p in files && files[p].Text?
  }

  /** The source at `p` opens and reads to the end as text. */
  predicate IsText(files: map<Path, FileData>, p: Path)
  {
    p in files && files[p].Text?
  }

  /** A list of sources is all text exactly when its first one and the rest are. */
  lemma AllTextCons(paths: seq<Path>, files: map<Path, FileData>)
    requires paths != []
    ensures AllText(paths, files) <==> IsText(files, paths[0]) && AllText(paths[1..], files)
  {
    assert paths == [paths[0]] + paths[1..];
  }

  /** Past a readable first source, the bundle stops with the error of the rest. */
  lemma ErrorAfterTextHead(paths: seq<Path>, files: map<Path, FileData>)
    requires paths != [] && IsText(files, paths[0])
    ensures BundleOutput(paths, files).1 == BundleOutput(paths[1..], files).1
  {
  }

  /** The bundle fails exactly when some source is not readable text. */
  lemma {:induction false} BundleFailsExactlyOnBadSource(paths: seq<Path>, files: map<Path, FileData>)
    ensures BundleOutput(paths, files).1.None? <==> AllText(paths, files)
    decreases |paths|
  {
    if paths != [] {
      AllTextCons(paths, files);
      if IsText(files, paths[0]) {
        ErrorAfterTextHead(paths, files);
        BundleFailsExactlyOnBadSource(paths[1..], files);
      }
    }
  }

  /** When the bundle fails, its error is that of the first source that is not readable text. */
  lemma {:induction false} BundleErrorIsFirstBadSource(paths: seq<Path>, files: map<Path, FileData>)
    ensures BundleOutput(paths, files).1.Some? ==>
              exists i :: 0 <= i < |paths| && BundleOutput(paths, files).1.value == Io(paths[i])
                          && !IsText(files, paths[i]) && AllText(paths[..i], files)
    decreases |paths|
  {
    if paths != [] && BundleOutput(paths, files).1.Some? {
      var p := paths[0];
      if !IsText(files, p) {
        assert paths[..0] == [];
        assert BundleOutput(paths, files).1.value == Io(paths[0]);
      } else {
        var tail := paths[1..];
        ErrorAfterTextHead(paths, files);
        BundleErrorIsFirstBadSource(tail, files);
        var i :| 0 <= i < |tail| && BundleOutput(tail, files).1.value == Io(tail[i])
                 && !IsText(files, tail[i]) && AllText(tail[..i], files);
        assert paths[i + 1] == tail[i];
        assert paths[..i + 1][1..] == tail[..i];
        AllTextCons(paths[..i + 1], files);
      }
    }
  }

  /** BundleOutput of a non-empty list whose first source is readable text. */
  lemma BundleHead(ps: seq<Path>, files: map<Path, FileData>)
    requires ps != [] && ps[0] in files && files[ps[0]].Text?
    ensures var rest := BundleOutput(ps[1..], files);
      BundleOutput(ps, files) == (SourceText(ps[0], files[ps[0]]) + rest.0, rest.1)
  {
  }

  /** When every source in `a` is readable text, bundling `a + b` writes a's sections, then b's bundle. */
  lemma {:induction false} BundleConcat(a: seq<Path>, b: seq<Path>, files: map<Path, FileData>)
    requires AllText(a, files)
    ensures BundleOutput(a + b, files).1 == BundleOutput(b, files).1
    ensures BundleOutput(a + b, files).0 == BundleOutput(a, files).0 + BundleOutput(b, files).0
    decreases |a|
  {
    if a == [] {
      assert a + b == b;
      assert "" + BundleOutput(b, files).0 == BundleOutput(b, files).0;
    } else {
      assert (a + b)[1..] == a[1..] + b;
      assert a[0] in a;
      BundleConcat(a[1..], b, files);
      BundleHead(a, files);
      BundleHead(a + b, files);
      Seqs.Associative(SourceText(a[0], files[a[0]]), BundleOutput(a[1..], files).0, BundleOutput(b, files).0);
    }
  }

  /** A single readable file gives exactly its section. */
  lemma OneFile(p: Path, content: string, files: map<Path, FileData>)
    requires p in files && files[p] == FileData.Text(content)
    ensures BundleOutput([p], files) == (Section(p, Lines(content)), None)
  {
    assert [p][1..] == [];
    assert BundleOutput([], files) == ("", None);
    assert Section(p, Lines(content)) + "" == Section(p, Lines(content));
  }

  /** For a text file with Unix line endings and a final '\n', its section holds the file verbatim. */
  lemma SectionIsVerbatim(p: Path, content: string)
    requires '\r' !in content
    requires content == [] || content[|content| - 1] == '\n'
    ensures Section(p, Lines(content)) == Header(p) + content + TRAILER
  {
    JoinLinesOfLines(content);
  }

  /**
   * A source whose text breaks off inside a line contributes its header and
   * exactly the lines before that one.
   */
  lemma BrokenSourceKeepsWholeLines(p: Path, lines: seq<string>, partial: string)
    requires forall i :: 0 <= i < |lines| ==> '\n' !in lines[i]
    requires forall i :: 0 <= i < |lines| ==> lines[i] == [] || lines[i][|lines[i]| - 1] != '\r'
    requires '\n' !in partial
    ensures SourceText(p, Garbled(JoinLines(lines) + partial)) == Header(p) + JoinLines(lines)
  {
    WholeLinesDropsPartial(JoinLines(lines), partial);
    LinesJoinLines(lines);
  }

  /** Writes each line followed by '\n', in order, after `written`. */
  method WriteLines(written: string, lines: seq<string>) returns (w: string)
    ensures w == written + JoinLines(lines)
  {
    w := written;
    var j := 0;
    while j < |lines|
      invariant 0 <= j <= |lines|
      invariant w == written + JoinLines(lines[..j])
    {
      JoinLinesAppend(lines[..j], lines[j]);
      assert lines[..j + 1] == lines[..j] + [lines[j]];
      w := w + lines[j] + "\n";
      j := j + 1;
    }
    assert lines[..j] == lines;
  }

  /** Writes what one openable source contributes, after `written`. */
  method WriteSource(written: string, p: Path, data: FileData) returns (w: string)
    requires !data.Unreadable?
    ensures w == written + SourceText(p, data)
  {
    var lines := if data.Garbled? then Lines(WholeLines(data.before)) else Lines(data.content);
    w := WriteLines(written + Header(p), lines);
    if data.Text? {
      w := w + TRAILER;
    }
  }

  /**
   * The loop of bundle_to_file: reads each source in turn, writing its header,
   * its lines and the trailer, and stops at the first source that cannot be read.
   */
  method WriteBundle(files: map<Path, FileData>, paths: seq<Path>) returns (written: string, err: Option<Error>)
    ensures (written, err) == BundleOutput(paths, files)
  {
    ghost var full := BundleOutput(paths, files);
    written := "";
    var i := 0;
    while i < |paths|
      invariant 0 <= i <= |paths|
      invariant full.0 == written + BundleOutput(paths[i..], files).0
      invariant full.1 == BundleOutput(paths[i..], files).1
    {
      var p := paths[i];
      assert paths[i..][0] == p && paths[i..][1..] == paths[i + 1..];
      if p !in files || files[p].Unreadable? {
        assert written + "" == written;
        return written, Some(Io(p));
      }
      var w := WriteSource(written, p, files[p]);
      Seqs.Associative(written, SourceText(p, files[p]), BundleOutput(paths[i + 1..], files).0);
      if files[p].Garbled? {
        return w, Some(Io(p));
      }
      written := w;
      i := i + 1;
    }
    assert paths[i..] == [];
    assert written + "" == written;
    err := None;
  }

  /**
   * bundle_to_file: writes the bundle of `paths` to `dst`. Creating `dst`
   * truncates it (a directory there is an error) before any source is read;
   * on an error the output written so far stays in `dst`.
   */
  method BundleToFile(disk: Disk, paths: seq<Path>, dst: Path) returns (r: Result<(), Error>)
    requires disk.Valid()
    modifies disk
    ensures disk.Valid()
    ensures dst in old(disk.dirs) ==> r == Err(Io(dst)) && disk.files == old(disk.files)
    ensures disk.dirs == old(disk.dirs)
    ensures dst !in old(disk.dirs) ==>
      var out := BundleOutput(paths, old(disk.files)[dst := FileData.Text("")]);
      && disk.files == old(disk.files)[dst := FileData.Text(out.0)]
      && (r.Ok? <==> out.1.None?)
      && (r.Err? ==> r.error == out.1.value)
  {
    if dst in disk.dirs {
      return Err(Io(dst));
    }
    disk.files := disk.files[dst := FileData.Text("")];
    var written, err := WriteBundle(disk.files, paths);
    disk.files := disk.files[dst := FileData.Text(written)];
    match err
    case None => r := Ok(());
    case Some(e) => r := Err(e);
  }
}

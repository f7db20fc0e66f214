/**
 * The second step of the context tooling: reads the list of relative paths written by
 * the collector, and writes the frames of those files, in list order, to a new aggregate.
 */
module Replayer {
  import opened Wrappers
  import opened JsText
  import C = Collector

  const NamesFilename: string := "file_names.txt"
  const OutputFilename: string := "filtered_project_context.txt"

  /**
   * The characters at which Python's line iteration over a decoded text file ends a line
   * (the boundaries of `str.splitlines`; `\r\n` counts as one, which only adds blank pieces).
   */
  predicate IsLineBoundary(c: char) {
    var n := c as int;
    0x0A <= n <= 0x0D || 0x1C <= n <= 0x1E || n == 0x85 || n == 0x2028 || n == 0x2029
  }

  /** Every line boundary is whitespace to `str.strip`, so stripping a line removes its ending. */
  lemma BoundaryIsSpace(c: char)
    ensures IsLineBoundary(c) ==> IsPySpace(c)
  {
  }

  /** `[line.strip() for line in namesfile if line.strip()]` over the pieces between boundaries. */
  function StrippedNonBlank(lines: seq<string>): (r: seq<string>)
    ensures |r| <= |lines|
    ensures forall k :: 0 <= k < |r| ==> r[k] != [] && PyStrip(r[k]) == r[k]
  {
    if lines == [] then []
    else
      var t := PyStrip(lines[0]);
      TrimIdempotent(lines[0], IsPySpace);
      (if t != [] then [t] else []) + StrippedNonBlank(lines[1..])
  }

  /** The paths listed in the names file, in file order. */
  function Entries(names: string): (r: seq<string>)
    ensures forall k :: 0 <= k < |r| ==> r[k] != [] && PyStrip(r[k]) == r[k]
  {
    StrippedNonBlank(SplitWhere(names, IsLineBoundary))
  }

  /** A directory entry as `os.path.isfile` and reading see it. */
  datatype Entry = RegularFile(content: C.Content) | OtherEntry

  /** What the replay does with one listed path. */
  datatype Action =
    | Copied(text: string)
    | SkippedMissing
    | SkippedEmpty
    | ReadFailed

  datatype Outcome = Outcome(path: string, action: Action)

  /** The handling of one listed path against the files below the root. */
  function ReplayOne(fs: map<string, Entry>, path: string): (o: Outcome)
    ensures o.path == path
    ensures o.action.SkippedMissing? <==> !(path in fs && fs[path].RegularFile?)
    ensures o.action.Copied? <==>
      path in fs && fs[path].RegularFile? && fs[path].content.Readable?
      && PyStrip(fs[path].content.text) != []
    ensures o.action.Copied? ==> o.action.text == fs[path].content.text
    ensures o.action.ReadFailed? <==> path in fs && fs[path] == RegularFile(C.Unreadable)
  {
    var action :=
      if path !in fs || !fs[path].RegularFile? then SkippedMissing
      else match fs[path].content
        case Unreadable => ReadFailed
        case Readable(text) => if PyStrip(text) != [] then Copied(text) else SkippedEmpty;
    Outcome(path, action)
  }

  /** The outcomes of the listed paths, one each, in list order. */
  function ReplayAll(fs: map<string, Entry>, paths: seq<string>): (r: seq<Outcome>)
    ensures |r| == |paths|
    ensures forall k :: 0 <= k < |paths| ==> r[k] == ReplayOne(fs, paths[k])
  {
    if paths == [] then [] else [ReplayOne(fs, paths[0])] + ReplayAll(fs, paths[1..])
  }

  /** The new aggregate: the frames of the copied files, in list order. */
  function OutputText(outcomes: seq<Outcome>): string {
    if outcomes == [] then [] else OutputFrame(outcomes[0]) + OutputText(outcomes[1..])
  }

  /** The frame one outcome contributes: a copied file's block, nothing otherwise. */
  function OutputFrame(o: Outcome): string {
    match o.action
    case Copied(text) => C.Block(o.path, text)
    case _ => []
  }

  lemma {:induction false} OutputTextAppend(a: seq<Outcome>, b: seq<Outcome>)
    ensures OutputText(a + b) == OutputText(a) + OutputText(b)
  {
    if a == [] {
      assert a + b == b;
    } else {
      assert (a + b)[0] == a[0];
      assert (a + b)[1..] == a[1..] + b;
      OutputTextAppend(a[1..], b);
      C.Assoc(OutputFrame(a[0]), OutputText(a[1..]), OutputText(b));
    }
  }

  /** The outcome of one run of the replay. */
  datatype Run =
    | RootNotADirectory
    | NamesFileMissing
    | Completed(output: string, log: seq<Outcome>)

  /**
   * The files below the root as the loop reads them: opening the output for writing has
   * created it or emptied it, and what the loop writes stays in the writer's buffer.
   */
  function Truncated(fs: map<string, Entry>): map<string, Entry> {
    fs[OutputFilename := RegularFile(C.Readable([]))]
  }

  /**
   * What a run produces, given whether the root is a directory, the names file if it is a
   * file, and the files below the root before the run.
   */
  function Replay(rootIsDir: bool, names: Option<string>, fs: map<string, Entry>): (r: Run)
    ensures r.Completed? <==> rootIsDir && names.Some?
    ensures r.Completed? ==> |r.log| == |Entries(names.value)|
    ensures r.Completed? ==> forall k :: 0 <= k < |r.log| ==> r.log[k].path == Entries(names.value)[k]
  {
    if !rootIsDir then RootNotADirectory
    else match names
      case None => NamesFileMissing
      case Some(text) =>
        var outcomes := ReplayAll(Truncated(fs), Entries(text));
        Completed(OutputText(outcomes), outcomes)
  }

  /** Whatever the output held before the run, a run that lists it skips it as empty. */
  lemma ReplaySkipsOwnOutput(names: string, fs: map<string, Entry>, k: nat)
    requires k < |Entries(names)| && Entries(names)[k] == OutputFilename
    ensures Replay(true, Some(names), fs).log[k] == Outcome(OutputFilename, SkippedEmpty)
  {
    OwnOutputReadsEmpty(fs);
  }

  /** The run reads its own output as the empty file it has just opened, and skips it. */
  lemma OwnOutputReadsEmpty(fs: map<string, Entry>)
    ensures ReplayOne(Truncated(fs), OutputFilename) == Outcome(OutputFilename, SkippedEmpty)
  {
    assert PyStrip([]) == [];
  }

  /** The body of the loop over the listed paths: handles one path, copying its frame when due. */
  method CopyEntry(outfile: C.Sink, fs: map<string, Entry>, path: string) returns (o: Outcome)
    modifies outfile
    ensures o == ReplayOne(fs, path)
    ensures outfile.written == old(outfile.written) + OutputText([o])
  {
    if path !in fs || !fs[path].RegularFile? {
      o := Outcome(path, SkippedMissing);
    } else {
      match fs[path].content {
        case Unreadable =>
          o := Outcome(path, ReadFailed);
        case Readable(text) =>
          if PyStrip(text) != [] {
            var header, footer := "--- Filename: " + path + " ---\n", "\n\n---\n\n";
            ghost var before := outfile.written;
            outfile.Write(header);
            outfile.Write(text);
            outfile.Write(footer);
            C.AppendThree(before, header, text, footer);
            o := Outcome(path, Copied(text));
          } else {
            o := Outcome(path, SkippedEmpty);
          }
      }
    }
    assert [o][1..] == [];
  }

  /** The loop over the listed paths, writing into a freshly opened output. */
  method CopyAll(outfile: C.Sink, fs: map<string, Entry>, paths: seq<string>) returns (log: seq<Outcome>)
    requires outfile.written == []
    modifies outfile
    ensures log == ReplayAll(fs, paths)
    ensures outfile.written == OutputText(log)
  {
    log := [];
    for i := 0 to |paths|
      invariant |log| == i
      invariant forall k :: 0 <= k < i ==> log[k] == ReplayOne(fs, paths[k])
      invariant outfile.written == OutputText(log)
    {
      var o := CopyEntry(outfile, fs, paths[i]);
      OutputTextAppend(log, [o]);
      log := log + [o];
    }
  }

  /**
   * `main`: checks the root and the names file, opens the output (which empties it), reads
   * the listed paths, and handles them one at a time in list order.
   */
  method RunReplayer(rootIsDir: bool, names: Option<string>, fs: map<string, Entry>) returns (r: Run)
    ensures r == Replay(rootIsDir, names, fs)
  {
    if !rootIsDir {
      return RootNotADirectory;
    }
    if names.None? {
      return NamesFileMissing;
    }
    var outfile := new C.Sink.Open();
    var seen := Truncated(fs);
    var paths := Entries(names.value);
    var log := CopyAll(outfile, seen, paths);
    r := Completed(outfile.written, log);
  }

  /** A path the names file carries through unchanged: not blank, stripped, on one line. */
  predicate CleanPath(p: string) {
    p != [] && PyStrip(p) == p && forall i :: 0 <= i < |p| ==> !IsLineBoundary(p[i])
  }

  /** Stripping and dropping blanks keeps clean paths and drops the trailing empty piece. */
  lemma {:induction false} StrippedClean(paths: seq<string>)
    requires forall k :: 0 <= k < |paths| ==> CleanPath(paths[k])
    ensures StrippedNonBlank(paths + [""]) == paths
  {
    if paths == [] {
      assert StrippedNonBlank([""]) == [] + StrippedNonBlank([]);
    } else {
      assert (paths + [""])[0] == paths[0];
      assert (paths + [""])[1..] == paths[1..] + [""];
      StrippedClean(paths[1..]);
    }
  }

  /** Every added file of the collector still holds the text the collector read. */
  predicate StillOnDisk(fs: map<string, Entry>, outcomes: seq<C.Outcome>) {
    forall o :: o in outcomes && o.action.Added? ==>
      C.RelPath(o.dir, o.name) in fs
      && fs[C.RelPath(o.dir, o.name)] == RegularFile(C.Readable(o.action.text))
  }

  /** The names file of a collector run lists exactly the added paths. */
  lemma EntriesOfNames(outcomes: seq<C.Outcome>)
    requires forall p :: p in C.AddedPaths(outcomes) ==> CleanPath(p)
    ensures Entries(C.NamesText(outcomes)) == C.AddedPaths(outcomes)
  {
    var paths := C.AddedPaths(outcomes);
    var parts := paths + [""];
    C.NamesTextJoin(outcomes);
    forall k, i | 0 <= k < |parts| && 0 <= i < |parts[k]| ensures !IsLineBoundary(parts[k][i]) {
      assert k < |paths| && parts[k] == paths[k];
      assert paths[k] in paths;
    }
    SplitWhereJoin(parts, '\n', IsLineBoundary);
    forall k | 0 <= k < |paths| ensures CleanPath(paths[k]) {
      assert paths[k] in paths;
    }
    StrippedClean(paths);
  }

  /** Replaying the added paths against unchanged files rebuilds the collector's aggregate. */
  lemma {:induction false} OutputOfAdded(outcomes: seq<C.Outcome>, fs: map<string, Entry>)
    requires forall o :: o in outcomes ==> C.PassedFilters(o)
    requires StillOnDisk(fs, outcomes)
    ensures OutputText(ReplayAll(fs, C.AddedPaths(outcomes))) == C.AggregateText(outcomes)
  {
    if outcomes != [] {
      var o := outcomes[0];
      var rest := outcomes[1..];
      assert forall x :: x in rest ==> x in outcomes;
      OutputOfAdded(rest, fs);
      if o.action.Added? {
        var p := C.RelPath(o.dir, o.name);
        assert o in outcomes && C.PassedFilters(o);
        var paths := [p] + C.AddedPaths(rest);
        assert C.AddedPaths(outcomes) == paths;
        assert paths[0] == p && paths[1..] == C.AddedPaths(rest);
        var replayed := ReplayAll(fs, paths);
        assert replayed == [ReplayOne(fs, p)] + ReplayAll(fs, C.AddedPaths(rest));
        assert ReplayOne(fs, p) == Outcome(p, Copied(o.action.text));
        assert replayed[1..] == ReplayAll(fs, C.AddedPaths(rest));
        assert OutputFrame(replayed[0]) == C.Frame(o);
        assert OutputText(replayed) == C.Frame(o) + OutputText(replayed[1..]);
      } else {
        assert C.AddedPaths(outcomes) == C.AddedPaths(rest);
        assert C.Frame(o) == [];
      }
      assert C.AggregateText(outcomes) == C.Frame(o) + C.AggregateText(rest);
    }
  }

  /**
   * Replaying the names file of a walk, over files that still hold what was read, writes
   * the walk's aggregate again and copies every listed path.
   */
  lemma ReplayCollected(outcomes: seq<C.Outcome>, fs: map<string, Entry>)
    requires forall o :: o in outcomes ==> C.PassedFilters(o)
    requires forall p :: p in C.AddedPaths(outcomes) ==> CleanPath(p)
    requires OutputFilename !in C.AddedPaths(outcomes)
    requires StillOnDisk(fs, outcomes)
    ensures Replay(true, Some(C.NamesText(outcomes)), fs)
      == Completed(C.AggregateText(outcomes), ReplayAll(fs, C.AddedPaths(outcomes)))
    ensures forall o :: o in ReplayAll(fs, C.AddedPaths(outcomes)) ==> o.action.Copied?
  {
    EntriesOfNames(outcomes);
    OutputOfAdded(outcomes, fs);
    TruncationUnseen(fs, C.AddedPaths(outcomes));
    var replayed := ReplayAll(fs, C.AddedPaths(outcomes));
    forall o | o in replayed ensures o.action.Copied? {
      var k :| 0 <= k < |replayed| && replayed[k] == o;
      AddedPathCopied(outcomes, fs, k);
    }
  }

  /**
   * The two steps compose: replaying the names file of a completed collector run, over
   * the same files, writes the collector's aggregate again and copies every listed path,
   * provided the run did not list the replay's own output.
   */
  lemma CollectThenReplay(root: C.Node, fs: map<string, Entry>)
    requires root.Dir?
    requires forall p :: p in C.AddedPaths(C.Collect(root).log) ==> CleanPath(p)
    requires OutputFilename !in C.AddedPaths(C.Collect(root).log)
    requires StillOnDisk(fs, C.Collect(root).log)
    ensures Replay(true, Some(C.Collect(root).names), fs).Completed?
    ensures Replay(true, Some(C.Collect(root).names), fs).output == C.Collect(root).aggregate
    ensures forall o :: o in Replay(true, Some(C.Collect(root).names), fs).log ==> o.action.Copied?
  {
    var outcomes := C.WalkOutcomes([], root.children);
    assert C.Collect(root) == C.Completed(C.AggregateText(outcomes), C.NamesText(outcomes), outcomes);
    ReplayCollected(outcomes, fs);
  }

  /** Emptying the output changes nothing for a list that does not name it. */
  lemma TruncationUnseen(fs: map<string, Entry>, paths: seq<string>)
    requires OutputFilename !in paths
    ensures ReplayAll(Truncated(fs), paths) == ReplayAll(fs, paths)
  {
    forall k | 0 <= k < |paths| ensures ReplayOne(Truncated(fs), paths[k]) == ReplayOne(fs, paths[k]) {
      assert paths[k] in paths;
    }
  }

  /** Every added path names a file that still holds its non-blank text. */
  lemma AddedPathCopied(outcomes: seq<C.Outcome>, fs: map<string, Entry>, k: nat)
    requires forall o :: o in outcomes ==> C.PassedFilters(o)
    requires StillOnDisk(fs, outcomes)
    requires k < |C.AddedPaths(outcomes)|
    ensures ReplayOne(fs, C.AddedPaths(outcomes)[k]).action.Copied?
  {
    var j := AddedPathSource(outcomes, k);
    assert outcomes[j] in outcomes;
  }

  /** Each added path is the relative path of some added outcome. */
  lemma {:induction false} AddedPathSource(outcomes: seq<C.Outcome>, k: nat) returns (j: nat)
    requires k < |C.AddedPaths(outcomes)|
    ensures j < |outcomes| && outcomes[j].action.Added?
    ensures C.RelPath(outcomes[j].dir, outcomes[j].name) == C.AddedPaths(outcomes)[k]
  {
    var o := outcomes[0];
    var head := if o.action.Added? then [C.RelPath(o.dir, o.name)] else [];
    assert C.AddedPaths(outcomes) == head + C.AddedPaths(outcomes[1..]);
    if k < |head| {
      j := 0;
    } else {
      var i := AddedPathSource(outcomes[1..], k - |head|);
      j := i + 1;
    }
  }

  /**
   * The limit of the round trip: a listed name is stripped before it is looked up, so a
   * file whose name starts with a space is replayed under the name without it, and is
   * skipped as missing when only the spaced name exists.
   */
  lemma SpacedNameSkipped(p: string, fs: map<string, Entry>)
    requires CleanPath(p) && " " + p in fs && p !in fs
    ensures Entries(" " + p + "\n") == [p]
    ensures Replay(true, Some(" " + p + "\n"), fs)
      == Completed([], [Outcome(p, if p == OutputFilename then SkippedEmpty else SkippedMissing)])
  {
    SpacedNameListed(p);
    var seen := Truncated(fs);
    var o := ReplayOne(seen, p);
    if p == OutputFilename {
      OwnOutputReadsEmpty(fs);
    } else {
      assert p !in seen;
    }
    assert ReplayAll(seen, [p]) == [o];
    assert OutputText([o]) == OutputFrame(o) + OutputText([]);
  }

  /** The line of a name with one leading space lists the name without it. */
  lemma SpacedNameListed(p: string)
    requires CleanPath(p)
    ensures Entries(" " + p + "\n") == [p]
  {
    var spaced := " " + p;
    assert spaced + "\n" == spaced + (['\n'] + []);
    SplitWherePrefix(spaced, [], '\n', IsLineBoundary);
    assert SplitWhere(spaced + "\n", IsLineBoundary) == [spaced, []];
    assert TrimStart(spaced, IsPySpace) == TrimStart(p, IsPySpace) by {
      assert spaced[1..] == p;
    }
    assert StrippedNonBlank([spaced, []]) == [p] + StrippedNonBlank([[]]);
  }

  /** A line separator inside a collected name splits it into two listed paths. */
  lemma SeparatorSplitsName(p: string, q: string)
    requires CleanPath(p) && CleanPath(q)
    ensures Entries(p + "\U{2028}" + q + "\n") == [p, q]
  {
    assert p + "\U{2028}" + q + "\n" == p + (['\U{2028}'] + (q + (['\n'] + [])));
    SplitWherePrefix(q, [], '\n', IsLineBoundary);
    SplitWherePrefix(p, q + (['\n'] + []), '\U{2028}', IsLineBoundary);
    assert SplitWhere(p + "\U{2028}" + q + "\n", IsLineBoundary) == [p, q] + [[]];
    StrippedClean([p, q]);
  }

  /** The collector's filters let the replay's output through when it sits in the root. */
  lemma OutputIsCollected(text: string)
    requires PyStrip(text) != []
    ensures C.Classify([], OutputFilename, C.Readable(text)).action == C.Added(text)
  {
    OutputLooksLikeText();
    OutputNameNotExcluded();
  }

  /** The replay's output is neither of the collector's own files nor an excluded name. */
  lemma OutputNameNotExcluded()
    ensures !C.IsOwnOutput([], OutputFilename) && OutputFilename !in C.ExcludedFiles
  {
    assert |OutputFilename| == 28 && |C.OutputFilename| == 19 && |C.NamesFilename| == 14;
    OutputNotInExcludedFiles();
  }

  lemma OutputNotInExcludedFiles() ensures OutputFilename !in C.ExcludedFiles {}

  /** The replay's output has the extension `.txt`, which is not excluded. */
  lemma OutputLooksLikeText()
    ensures C.IsLikelyText(OutputFilename)
  {
    OutputExtension();
    assert C.PyLower(".txt") == ".txt";
    TxtNotExcluded();
  }

  lemma OutputExtension()
    ensures C.Extension(OutputFilename) == ".txt"
  {
    var name := OutputFilename;
    assert name[24] == '.' && name[25] == 't' && name[26] == 'x' && name[27] == 't';
    var k := LastIndexOf(name, '.');
    assert k == 24;
    assert name[..k][0] == 'f';
  }

  lemma TxtNotExcluded()
    ensures ".txt" !in C.ExcludedExtensions
  {
    TxtNotInGroups();
  }

  /** `.txt` is in none of the five groups of the extension table. */
  lemma TxtNotInGroups()
    ensures ".txt" !in C.CompiledExtensions && ".txt" !in C.ImageAudioExtensions
    ensures ".txt" !in C.VideoArchiveExtensions && ".txt" !in C.DocumentDataExtensions
    ensures ".txt" !in C.ModelExtensions
  {
    TxtNotCompiled();
    TxtNotImageAudio();
    TxtNotVideoArchive();
    TxtNotDocumentData();
    TxtNotModel();
  }

  lemma TxtNotCompiled() ensures ".txt" !in C.CompiledExtensions {}
  lemma TxtNotImageAudio() ensures ".txt" !in C.ImageAudioExtensions {}
  lemma TxtNotVideoArchive() ensures ".txt" !in C.VideoArchiveExtensions {}
  lemma TxtNotDocumentData() ensures ".txt" !in C.DocumentDataExtensions {}
  lemma TxtNotModel() ensures ".txt" !in C.ModelExtensions {}

  /**
   * The round trip as written fails once a collector run lists the replay's own output:
   * the replay empties that file before it reads it, so its frame, which is in the
   * collector's aggregate, is missing from the replayed one.
   */
  lemma CollectedOutputLost(outcomes: seq<C.Outcome>, fs: map<string, Entry>)
    requires forall o :: o in outcomes ==> C.PassedFilters(o)
    requires forall p :: p in C.AddedPaths(outcomes) ==> CleanPath(p)
    requires OutputFilename in C.AddedPaths(outcomes)
    requires StillOnDisk(fs, outcomes)
    ensures Replay(true, Some(C.NamesText(outcomes)), fs).Completed?
    ensures |Replay(true, Some(C.NamesText(outcomes)), fs).output| < |C.AggregateText(outcomes)|
  {
    EntriesOfNames(outcomes);
    ShorterOutput(outcomes, fs);
    var r := Replay(true, Some(C.NamesText(outcomes)), fs);
    assert r.output == OutputText(ReplayAll(Truncated(fs), C.AddedPaths(outcomes)));
  }

  /** Replaying with the output emptied writes no more than the aggregate, and less once the output is listed. */
  lemma {:induction false} ShorterOutput(outcomes: seq<C.Outcome>, fs: map<string, Entry>)
    requires forall o :: o in outcomes ==> C.PassedFilters(o)
    requires StillOnDisk(fs, outcomes)
    ensures |OutputText(ReplayAll(Truncated(fs), C.AddedPaths(outcomes)))| <= |C.AggregateText(outcomes)|
    ensures OutputFilename in C.AddedPaths(outcomes) ==>
      |OutputText(ReplayAll(Truncated(fs), C.AddedPaths(outcomes)))| < |C.AggregateText(outcomes)|
  {
    if outcomes != [] {
      var o := outcomes[0];
      var rest := outcomes[1..];
      assert forall x :: x in rest ==> x in outcomes;
      ShorterOutput(rest, fs);
      var seen := Truncated(fs);
      if o.action.Added? {
        var p := C.RelPath(o.dir, o.name);
        assert o in outcomes && C.PassedFilters(o);
        var paths := [p] + C.AddedPaths(rest);
        assert C.AddedPaths(outcomes) == paths;
        assert paths[0] == p && paths[1..] == C.AddedPaths(rest);
        var replayed := ReplayAll(seen, paths);
        assert replayed[1..] == ReplayAll(seen, C.AddedPaths(rest));
        assert OutputText(replayed) == OutputFrame(replayed[0]) + OutputText(replayed[1..]);
        if p == OutputFilename {
          OwnOutputReadsEmpty(fs);
          assert OutputFrame(replayed[0]) == [];
          assert |C.Frame(o)| > 0;
        } else {
          assert ReplayOne(seen, p) == Outcome(p, Copied(o.action.text));
          assert OutputFrame(replayed[0]) == C.Frame(o);
        }
      } else {
        assert C.AddedPaths(outcomes) == C.AddedPaths(rest);
        assert C.Frame(o) == [];
      }
      assert C.AggregateText(outcomes) == C.Frame(o) + C.AggregateText(rest);
    }
  }
}

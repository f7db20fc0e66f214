/**
 * The project-context collector: a top-down walk of a directory tree that prunes excluded
 * directories, filters files by own-output path, excluded name, excluded extension and
 * blank content, and appends each surviving file to an aggregate text with a fixed frame
 * while appending its relative path to a parallel list of names.
 *
 * The file system is an abstract tree whose directory listings are in the order the walk
 * sees them; a file either has readable text or fails to read.
 */
module Collector {
  import opened Wrappers
  import opened JsText
  import opened Seqs

  /** What reading a file yields: its decoded text, or a failure that raises in the reader. */
  datatype Content = Readable(text: string) | Unreadable

  /** A directory entry. */
  datatype Node = File(name: string, content: Content) | Dir(name: string, children: seq<Node>)

  const OutputFilename: string := "project_context.txt"
  const NamesFilename: string := "file_names.txt"

  const ExcludedDirs: set<string> := {
    "ui", "arcive", ".mypy_cache", ".bolt", ".git", ".idea", "venv", ".venv", "__pycache__",
    "node_modules", "build", "dist", "env", ".env", "db", "log"
  }

  const ExcludedFiles: set<string> := {
    "bun.lockb", "package-lock.json", "README.md", "LICENSE", "requirements.txt", "setup.py",
    "data_context.py", "project_context.txt", "file_names.txt"
  }

  /** The excluded extensions, in the five groups the table is written in. */
  const CompiledExtensions: set<string> :=
    {".pyc", ".pem", ".stl", ".pyo", ".pyd", ".dll", ".exe", ".so", ".o", ".a", ".lib", ".jar", ".class"}
  const ImageAudioExtensions: set<string> :=
    {".png", ".jpg", ".jpeg", ".gif", ".bmp", ".ico", ".svg", ".tiff", ".mp3", ".wav", ".ogg", ".flac"}
  const VideoArchiveExtensions: set<string> :=
    {".mp4", ".avi", ".mov", ".wmv", ".mkv", ".zip", ".rar", ".tar", ".gz", ".7z"}
  const DocumentDataExtensions: set<string> :=
    {".pdf", ".doc", ".docx", ".xls", ".xlsx", ".ppt", ".pptx", ".db", ".sqlite", ".sqlite3"}
  const ModelExtensions: set<string> :=
    {".pkl", ".joblib", ".h5", ".pth", ".onnx", ".ipynb_checkpoints"}
  const ExcludedExtensions: set<string> :=
    CompiledExtensions + ImageAudioExtensions + VideoArchiveExtensions + DocumentDataExtensions + ModelExtensions

  predicate AllDots(s: string) {
    forall i :: 0 <= i < |s| ==> s[i] == '.'
  }

  /**
   * The extension `os.path.splitext` finds in a file name: from the last dot to the end,
   * provided something other than a dot precedes that dot; otherwise none.
   */
  function Extension(name: string): (ext: string)
    ensures ext == [] || (ext[0] == '.' && '.' !in ext[1..] && |ext| <= |name| && name[|name| - |ext|..] == ext)
  {
    var k := LastIndexOf(name, '.');
    if k > 0 && !AllDots(name[..k]) then
      name[k..]
    else []
  }

  /**
   * Python's `str.lower()` as far as it matters for matching the ASCII extension table:
   * the ASCII capitals, and the KELVIN SIGN, which lower-cases to `k`. Every other
   * character either maps to a non-ASCII result or is unchanged, and neither can match.
   */
  function PyLowerChar(c: char): char {
    if c == '\U{212A}' then 'k' else LowerChar(c)
  }

  function PyLower(s: string): (r: string)
    ensures |r| == |s| && forall i :: 0 <= i < |s| ==> r[i] == PyLowerChar(s[i])
  {
    seq(|s|, i requires 0 <= i < |s| => PyLowerChar(s[i]))
  }

  /**
   * `is_likely_text_file`: the lower-cased extension is not an excluded one, so a name
   * without an extension always counts as text.
   */
  predicate IsLikelyText(name: string)
    ensures Extension(name) == [] ==> IsLikelyText(name)
  {
    EmptyNotExcluded();
    assert PyLower([]) == [];
    PyLower(Extension(name)) !in ExcludedExtensions
  }

  /** A name without a dot, or whose only dots lead it (`.gitignore`), counts as text. */
  lemma NoExtensionIsText(name: string)
    requires '.' !in name || (name != [] && AllDots(name[..LastIndexOf(name, '.')]))
    ensures Extension(name) == []
    ensures IsLikelyText(name)
  {
    var k := LastIndexOf(name, '.');
    assert !(k > 0 && !AllDots(name[..k]));
    assert PyLower([]) == [];
    EmptyNotExcluded();
  }

  /** Every excluded extension is a dot followed by something, so none is empty. */
  lemma EmptyNotExcluded()
    ensures [] !in ExcludedExtensions
  {
    EmptyNotCompiled();
    EmptyNotImageAudio();
    EmptyNotVideoArchive();
    EmptyNotDocumentData();
    EmptyNotModel();
  }

  lemma EmptyNotCompiled()
    ensures [] !in CompiledExtensions
  {
  }

  lemma EmptyNotImageAudio()
    ensures [] !in ImageAudioExtensions
  {
  }

  lemma EmptyNotVideoArchive()
    ensures [] !in VideoArchiveExtensions
  {
  }

  lemma EmptyNotDocumentData()
    ensures [] !in DocumentDataExtensions
  {
  }

  lemma EmptyNotModel()
    ensures [] !in ModelExtensions
  {
  }

  /** Two names that share a lower-cased extension are treated alike. */
  lemma TextDependsOnlyOnExtension(a: string, b: string)
    requires PyLower(Extension(a)) == PyLower(Extension(b))
    ensures IsLikelyText(a) == IsLikelyText(b)
  {
  }

  /** What the walk does with one file. */
  datatype Action =
    | Added(text: string)
    | SkippedOwnOutput
    | SkippedExcludedName
    | SkippedExtension
    | SkippedEmpty
    | ReadFailed

  /** The action taken on the file `name` in the directory reached through `dir`. */
  datatype Outcome = Outcome(dir: seq<string>, name: string, action: Action)

  /** `os.path.relpath` of a file below the root: its directory names and its name joined by `/`. */
  function RelPath(dir: seq<string>, name: string): string {
    Join(dir + [name], "/")
  }

  /** One of the two files the collector writes, which sit directly in the root. */
  predicate IsOwnOutput(dir: seq<string>, name: string) {
    dir == [] && (name == OutputFilename || name == NamesFilename)
  }

  /**
   * The filter chain applied to one file: own output, excluded name, extension, then
   * reading and the blank-content test. Each skip reports the first test that failed.
   */
  function Classify(dir: seq<string>, name: string, content: Content): (o: Outcome)
    ensures o.dir == dir && o.name == name
    ensures o.action.Added? <==>
      !IsOwnOutput(dir, name) && name !in ExcludedFiles && IsLikelyText(name)
      && content.Readable? && PyStrip(content.text) != []
    ensures o.action.Added? ==> o.action.text == content.text
    ensures o.action.SkippedExcludedName? ==> !IsOwnOutput(dir, name) && name in ExcludedFiles
    ensures o.action.ReadFailed? <==>
      !IsOwnOutput(dir, name) && name !in ExcludedFiles && IsLikelyText(name) && content.Unreadable?
  {
    var action :=
      if IsOwnOutput(dir, name) then SkippedOwnOutput
      else if name in ExcludedFiles then SkippedExcludedName
      else if !IsLikelyText(name) then SkippedExtension
      else match content
        case Unreadable => ReadFailed
        case Readable(text) => if PyStrip(text) != [] then Added(text) else SkippedEmpty;
    Outcome(dir, name, action)
  }

  /** The outcomes for the files listed directly in a directory, in listing order. */
  function DirectOutcomes(dir: seq<string>, children: seq<Node>): seq<Outcome> {
    if children == [] then []
    else
      (match children[0]
        case File(name, content) => [Classify(dir, name, content)]
        case Dir(_, _) => [])
      + DirectOutcomes(dir, children[1..])
  }

  /**
   * The outcomes of a walk of the directory reached through `dir`: its own files first,
   * then each subdirectory whose name is not excluded, in listing order.
   */
  function WalkOutcomes(dir: seq<string>, children: seq<Node>): seq<Outcome>
    decreases children, 1
  {
    DirectOutcomes(dir, children) + SubdirOutcomes(dir, children)
  }

  function SubdirOutcomes(dir: seq<string>, children: seq<Node>): seq<Outcome>
    decreases children, 0
  {
    if children == [] then []
    else
      (match children[0]
        case Dir(name, grandchildren) =>
          if name in ExcludedDirs then [] else WalkOutcomes(dir + [name], grandchildren)
        case File(_, _) => [])
      + SubdirOutcomes(dir, children[1..])
  }

  /** The frame written to the aggregate for one file. */
  function Block(path: string, text: string): string {
    "--- Filename: " + path + " ---\n" + text + "\n\n---\n\n"
  }

  /** The aggregate text: the frames of the added files, in walk order. */
  function AggregateText(outcomes: seq<Outcome>): string {
    if outcomes == [] then [] else Frame(outcomes[0]) + AggregateText(outcomes[1..])
  }

  /** What one outcome adds to the aggregate: the frame of an added file, else nothing. */
  function Frame(o: Outcome): string {
    match o.action
    case Added(text) => Block(RelPath(o.dir, o.name), text)
    case _ => []
  }

  /** The names text: one line per added file, in walk order. */
  function NamesText(outcomes: seq<Outcome>): string {
    if outcomes == [] then [] else NameLine(outcomes[0]) + NamesText(outcomes[1..])
  }

  /** What one outcome adds to the names text: the line of an added file, else nothing. */
  function NameLine(o: Outcome): string {
    if o.action.Added? then RelPath(o.dir, o.name) + "\n" else []
  }

  /** The paths of the added files, in walk order. */
  function AddedPaths(outcomes: seq<Outcome>): seq<string> {
    if outcomes == [] then []
    else
      (if outcomes[0].action.Added? then [RelPath(outcomes[0].dir, outcomes[0].name)] else [])
      + AddedPaths(outcomes[1..])
  }

  /** The outcome of one run of the collector. */
  datatype Run =
    | RootNotADirectory
    | Completed(aggregate: string, names: string, log: seq<Outcome>)

  /**
   * What a run over `root` produces: nothing when the root is not a directory; otherwise
   * the walk's log, in which nothing comes from inside an excluded directory and every
   * added file passed the filters, with the aggregate and the names built from it.
   */
  function Collect(root: Node): (r: Run)
    ensures r.RootNotADirectory? <==> root.File?
    ensures r.Completed? ==> forall o :: o in r.log ==> FromWalkOf([], o)
    ensures r.Completed? ==> r.aggregate == AggregateText(r.log) && r.names == NamesText(r.log)
  {
    match root
    case File(_, _) => RootNotADirectory
    case Dir(_, children) =>
      var outcomes := WalkOutcomes([], children);
      WalkIsPruned([], children);
      Completed(AggregateText(outcomes), NamesText(outcomes), outcomes)
  }

  /**
   * Where an outcome of the walk of `dir` may come from: a directory at or below `dir`
   * reached without entering an excluded directory, and for an added file, a file that
   * passed every filter and whose text is not blank.
   */
  predicate FromWalkOf(dir: seq<string>, o: Outcome) {
    ReachedFrom(dir, o.dir) && PassedFilters(o)
  }

  /** `path` is `dir` or lies below it without passing through an excluded directory. */
  predicate ReachedFrom(dir: seq<string>, path: seq<string>) {
    |dir| <= |path| && path[..|dir|] == dir
    && forall k :: |dir| <= k < |path| ==> path[k] !in ExcludedDirs
  }

  /** An added file passed every filter of the chain and its text is not blank. */
  predicate PassedFilters(o: Outcome) {
    o.action.Added? ==>
      !IsOwnOutput(o.dir, o.name) && o.name !in ExcludedFiles && IsLikelyText(o.name)
      && PyStrip(o.action.text) != []
  }

  lemma ReachedThrough(dir: seq<string>, name: string, path: seq<string>)
    requires name !in ExcludedDirs
    requires ReachedFrom(dir + [name], path)
    ensures ReachedFrom(dir, path)
  {
    assert path[..|dir|] == path[..|dir| + 1][..|dir|];
    assert path[|dir|] == (dir + [name])[|dir|];
  }

  /**
   * The pruning of `dirnames` and the filter chain: nothing is reported from inside an
   * excluded directory, and every added file passed the filters.
   */
  lemma {:induction false} WalkIsPruned(dir: seq<string>, children: seq<Node>)
    ensures forall o :: o in WalkOutcomes(dir, children) ==> FromWalkOf(dir, o)
    decreases children, 1
  {
    DirectIsPruned(dir, children);
    SubdirIsPruned(dir, children);
  }

  lemma {:induction false} DirectIsPruned(dir: seq<string>, children: seq<Node>)
    ensures forall o :: o in DirectOutcomes(dir, children) ==> o.dir == dir && FromWalkOf(dir, o)
  {
    if children != [] {
      DirectIsPruned(dir, children[1..]);
    }
  }

  lemma {:induction false} SubdirIsPruned(dir: seq<string>, children: seq<Node>)
    ensures forall o :: o in SubdirOutcomes(dir, children) ==> FromWalkOf(dir, o)
    decreases children, 0
  {
    if children != [] {
      SubdirIsPruned(dir, children[1..]);
      match children[0]
      case File(_, _) =>
      case Dir(name, grandchildren) =>
        if name !in ExcludedDirs {
          WalkIsPruned(dir + [name], grandchildren);
          forall o | o in WalkOutcomes(dir + [name], grandchildren) ensures FromWalkOf(dir, o) {
            ReachedThrough(dir, name, o.dir);
          }
        }
    }
  }

  /** Every file of a listing, and only those, has one outcome among the listing's own. */
  lemma {:induction false} DirectCountsFiles(dir: seq<string>, children: seq<Node>)
    ensures |DirectOutcomes(dir, children)| == Count(children, (n: Node) => n.File?)
  {
    if children != [] {
      DirectCountsFiles(dir, children[1..]);
    }
  }

  /** The names file is the added paths, each ended by a line break. */
  lemma {:induction false} NamesTextJoin(outcomes: seq<Outcome>)
    ensures NamesText(outcomes) == Join(AddedPaths(outcomes) + [""], "\n")
  {
    if outcomes != [] {
      NamesTextJoin(outcomes[1..]);
      var rest := AddedPaths(outcomes[1..]) + [""];
      if outcomes[0].action.Added? {
        var p := RelPath(outcomes[0].dir, outcomes[0].name);
        assert AddedPaths(outcomes) + [""] == [p] + rest;
        assert ([p] + rest)[1..] == rest;
        AppendThree([], p, "\n", Join(rest, "\n"));
      } else {
        assert AddedPaths(outcomes) + [""] == rest;
      }
    }
  }

  /**
   * Read back line by line, the names file gives the added paths in walk order, followed by
   * the empty piece after the last line break, provided no path holds a line break.
   */
  lemma NamesLines(outcomes: seq<Outcome>)
    requires forall p :: p in AddedPaths(outcomes) ==> '\n' !in p
    ensures Split(NamesText(outcomes), '\n') == AddedPaths(outcomes) + [""]
  {
    NamesTextJoin(outcomes);
    var parts := AddedPaths(outcomes) + [""];
    forall k | 0 <= k < |parts| ensures '\n' !in parts[k] {
      if k < |AddedPaths(outcomes)| {
        assert parts[k] in AddedPaths(outcomes);
      }
    }
    SplitJoin(parts, '\n');
  }

  /** A directory waiting to be walked: the names leading to it and its listing. */
  datatype Pending = Pending(dir: seq<string>, children: seq<Node>)

  /** The outcomes of walking every pending directory, first entry first. */
  function WorkOutcomes(stack: seq<Pending>): seq<Outcome> {
    FlatMap(stack, PendingOutcomes)
  }

  function PendingOutcomes(p: Pending): seq<Outcome> {
    WalkOutcomes(p.dir, p.children)
  }

  /** The subdirectories a walk descends into after pruning (`dirnames[:] = [...]`), in order. */
  function PrunedSubdirs(dir: seq<string>, children: seq<Node>): (r: seq<Pending>)
    ensures forall k :: 0 <= k < |r| ==>
      |r[k].dir| == |dir| + 1 && r[k].dir[..|dir|] == dir && r[k].dir[|dir|] !in ExcludedDirs
  {
    if children == [] then []
    else
      (match children[0]
        case Dir(name, grandchildren) =>
          if name in ExcludedDirs then [] else [Pending(dir + [name], grandchildren)]
        case File(_, _) => [])
      + PrunedSubdirs(dir, children[1..])
  }

  lemma WorkOutcomesAppend(a: seq<Pending>, b: seq<Pending>)
    ensures WorkOutcomes(a + b) == WorkOutcomes(a) + WorkOutcomes(b)
  {
    FlatMapAppend(a, b, PendingOutcomes);
  }

  /** The pending directory on top of the stack is walked first. */
  lemma WorkOutcomesCons(stack: seq<Pending>)
    requires stack != []
    ensures WorkOutcomes(stack) == WalkOutcomes(stack[0].dir, stack[0].children) + WorkOutcomes(stack[1..])
  {
  }

  /** Walking the pruned subdirectories in order is the second half of a directory's walk. */
  lemma {:induction false} WorkOutcomesPruned(dir: seq<string>, children: seq<Node>)
    ensures WorkOutcomes(PrunedSubdirs(dir, children)) == SubdirOutcomes(dir, children)
  {
    if children != [] {
      var head := match children[0]
        case Dir(name, grandchildren) =>
          if name in ExcludedDirs then [] else [Pending(dir + [name], grandchildren)]
        case File(_, _) => [];
      WorkOutcomesAppend(head, PrunedSubdirs(dir, children[1..]));
      WorkOutcomesPruned(dir, children[1..]);
    }
  }

  /** The number of entries in a listing, counted through every level. */
  function Size(children: seq<Node>): nat
    decreases children
  {
    if children == [] then 0
    else
      (match children[0]
        case File(_, _) => 1
        case Dir(_, grandchildren) => 1 + Size(grandchildren))
      + Size(children[1..])
  }

  function StackSize(stack: seq<Pending>): nat {
    if stack == [] then 0 else 1 + Size(stack[0].children) + StackSize(stack[1..])
  }

  lemma {:induction false} StackSizeAppend(a: seq<Pending>, b: seq<Pending>)
    ensures StackSize(a + b) == StackSize(a) + StackSize(b)
  {
    if a == [] {
      assert a + b == b;
    } else {
      assert (a + b)[1..] == a[1..] + b;
      StackSizeAppend(a[1..], b);
    }
  }

  lemma {:induction false} PrunedSmaller(dir: seq<string>, children: seq<Node>)
    ensures StackSize(PrunedSubdirs(dir, children)) <= Size(children)
  {
    if children != [] {
      var head := match children[0]
        case Dir(name, grandchildren) =>
          if name in ExcludedDirs then [] else [Pending(dir + [name], grandchildren)]
        case File(_, _) => [];
      StackSizeAppend(head, PrunedSubdirs(dir, children[1..]));
      PrunedSmaller(dir, children[1..]);
    }
  }

  lemma AggregateAppend(a: seq<Outcome>, b: seq<Outcome>)
    ensures AggregateText(a + b) == AggregateText(a) + AggregateText(b)
    ensures NamesText(a + b) == NamesText(a) + NamesText(b)
  {
    AggregateTextAppend(a, b);
    NamesTextAppend(a, b);
  }

  lemma {:induction false} AggregateTextAppend(a: seq<Outcome>, b: seq<Outcome>)
    ensures AggregateText(a + b) == AggregateText(a) + AggregateText(b)
  {
    if a == [] {
      assert a + b == b;
    } else {
      var ab := a + b;
      assert ab[0] == a[0] && ab[1..] == a[1..] + b;
      AggregateTextAppend(a[1..], b);
      Assoc(Frame(a[0]), AggregateText(a[1..]), AggregateText(b));
    }
  }

  lemma {:induction false} NamesTextAppend(a: seq<Outcome>, b: seq<Outcome>)
    ensures NamesText(a + b) == NamesText(a) + NamesText(b)
  {
    if a == [] {
      assert a + b == b;
    } else {
      var ab := a + b;
      assert ab[0] == a[0] && ab[1..] == a[1..] + b;
      NamesTextAppend(a[1..], b);
      Assoc(NameLine(a[0]), NamesText(a[1..]), NamesText(b));
    }
  }

  /** What one outcome contributes to each output. */
  lemma OutputsOfOne(o: Outcome)
    ensures AggregateText([o]) == if o.action.Added? then Block(RelPath(o.dir, o.name), o.action.text) else []
    ensures NamesText([o]) == if o.action.Added? then RelPath(o.dir, o.name) + "\n" else []
  {
    assert [o][1..] == [];
  }

  lemma Assoc<T>(a: seq<T>, b: seq<T>, c: seq<T>)
    ensures a + (b + c) == a + b + c
  {
  }

  lemma AppendThree(w: string, a: string, b: string, c: string)
    ensures w + a + b + c == w + (a + b + c)
  {
  }

  /** An output file opened for writing: truncated when opened, then appended to. */
  class Sink {
    var written: string

    constructor Open()
      ensures written == []
    {
      written := [];
    }

    method Write(s: string)
      modifies this
      ensures written == old(written) + s
    {
      written := written + s;
    }
  }

  /**
   * The body of the loop over `filenames`: runs the filter chain on one file and, when the
   * file is added, writes its frame to the aggregate and its path to the names file.
   */
  method HandleFile(outfile: Sink, namesfile: Sink, dir: seq<string>, name: string, content: Content)
    returns (o: Outcome)
    requires outfile != namesfile
    modifies outfile, namesfile
    ensures o == Classify(dir, name, content)
    ensures outfile.written == old(outfile.written) + AggregateText([o])
    ensures namesfile.written == old(namesfile.written) + NamesText([o])
  {
    o := Classify(dir, name, content);
    OutputsOfOne(o);
    if o.action.Added? {
      var path := RelPath(dir, name);
      var header, footer := "--- Filename: " + path + " ---\n", "\n\n---\n\n";
      ghost var before := outfile.written;
      outfile.Write(header);
      outfile.Write(o.action.text);
      outfile.Write(footer);
      AppendThree(before, header, o.action.text, footer);
      namesfile.Write(path + "\n");
    }
  }

  /**
   * The loop over `filenames` of one directory: handles its files in listing order,
   * appending one outcome per file to the log.
   */
  method HandleListing(outfile: Sink, namesfile: Sink, dir: seq<string>, children: seq<Node>,
                       log0: seq<Outcome>) returns (log: seq<Outcome>)
    requires outfile != namesfile
    requires outfile.written == AggregateText(log0) && namesfile.written == NamesText(log0)
    modifies outfile, namesfile
    ensures log == log0 + DirectOutcomes(dir, children)
    ensures outfile.written == AggregateText(log) && namesfile.written == NamesText(log)
  {
    log := log0;
    var i := 0;
    assert children[0..] == children;
    assert log0 + [] == log0;
    while i < |children|
      invariant 0 <= i <= |children|
      invariant log + DirectOutcomes(dir, children[i..]) == log0 + DirectOutcomes(dir, children)
      invariant outfile.written == AggregateText(log)
      invariant namesfile.written == NamesText(log)
      decreases |children| - i
    {
      assert children[i..][1..] == children[i + 1..];
      match children[i] {
        case Dir(_, _) =>
          assert DirectOutcomes(dir, children[i..]) == DirectOutcomes(dir, children[i + 1..]);
        case File(name, content) =>
          var o := HandleFile(outfile, namesfile, dir, name, content);
          assert DirectOutcomes(dir, children[i..]) == [o] + DirectOutcomes(dir, children[i + 1..]);
          AggregateAppend(log, [o]);
          Assoc(log, [o], DirectOutcomes(dir, children[i + 1..]));
          log := log + [o];
      }
      i := i + 1;
    }
    assert children[i..] == [];
    assert log + [] == log;
  }

  /**
   * `main`: checks that the root is a directory, opens both outputs, and walks the tree
   * top-down with a stack of pending directories, handling the files of each directory
   * in listing order before descending into its pruned subdirectories.
   */
  method RunCollector(root: Node) returns (r: Run)
    ensures r == Collect(root)
  {
    if !root.Dir? {
      return RootNotADirectory;
    }
    var outfile := new Sink.Open();
    var namesfile := new Sink.Open();
    var log: seq<Outcome> := [];
    var stack := [Pending([], root.children)];
    ghost var all := WalkOutcomes([], root.children);
    WorkOutcomesCons(stack);
    assert WorkOutcomes(stack[1..]) == [];
    assert log + WorkOutcomes(stack) == all;
    while stack != []
      invariant log + WorkOutcomes(stack) == all
      invariant outfile.written == AggregateText(log)
      invariant namesfile.written == NamesText(log)
      invariant outfile != namesfile
      decreases StackSize(stack)
    {
      var dir, children := stack[0].dir, stack[0].children;
      var rest := stack[1..];
      ghost var direct, nested, later := DirectOutcomes(dir, children), SubdirOutcomes(dir, children), WorkOutcomes(rest);
      WorkOutcomesCons(stack);
      assert log + (direct + nested + later) == all;
      Assoc(log, direct + nested, later);
      Assoc(log, direct, nested);
      log := HandleListing(outfile, namesfile, dir, children, log);
      Assoc(log, nested, later);
      WorkOutcomesPruned(dir, children);
      WorkOutcomesAppend(PrunedSubdirs(dir, children), rest);
      PrunedSmaller(dir, children);
      StackSizeAppend(PrunedSubdirs(dir, children), rest);
      stack := PrunedSubdirs(dir, children) + rest;
    }
    assert log + [] == log;
    r := Completed(outfile.written, namesfile.written, log);
  }
}

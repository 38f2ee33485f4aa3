/**
 * amend_leg_md.py: for every amendment markdown file of a session, the
 * bill's markdown and the amendment's markdown are put into one prompt and
 * the model's answer is saved as `{bill}_amended.md`, unless that file
 * already exists.  The markdown directory is a map from path to contents.
 */
module AmendLegMd {
  import opened Wrappers
  import opened Oracles
  import opened Text

  // ---------------------------------------------------------------------
  // gemini_query and PROMPT_TEMPLATE
  // ---------------------------------------------------------------------

  const AmendModel := "gemini-2.5-pro"

  /**
   * gemini_query(client, contents): the text of the reply of model
   * gemini-2.5-pro, which is None when the reply has no text part;
   * generate(model, contents) is the service.
   */
  function GeminiQuery(generate: (string, string) -> Reply<Option<string>>): (query: string -> Reply<Option<string>>)
    ensures forall contents :: query(contents) == generate(AmendModel, contents)
  {
    contents => generate(AmendModel, contents)
  }

  /** A template with two `{}` fields, as the literal text before, between and after them. */
  datatype Template = Template(intro: string, middle: string, outro: string)

  /** PROMPT_TEMPLATE */
  const PromptTemplate := Template(
    "Below you will find bill markdown wrapped in the tags <bill></bill>, followed by amendment markdown wrapped in the tags <amendment></amendment>. Read the bill and amendment markdown carefully, and then apply the instructions found in the amendment markdown to the bill markdown. Respond only with the markdown that results from applying the amendment to the bill. The markdown contents are as follows:\n<bill>\n",
    "\n</bill>\n\n<amendment>\n",
    "\n</amendment>")

  /** template.format(bill_md, amendment_md) */
  function AmendPrompt(template: Template, billMd: string, amendmentMd: string): string {
    Fill([template.intro, template.middle, template.outro], [billMd, amendmentMd])
  }

  /**
   * Both texts stand verbatim in the prompt: for PROMPT_TEMPLATE the bill
   * right after the opening <bill> tag and before the closing one, the
   * amendment between the <amendment> tags, and the prompt ends with the
   * closing tag.
   */
  lemma PromptCarriesTexts(template: Template, billMd: string, amendmentMd: string)
    ensures var p := AmendPrompt(template, billMd, amendmentMd);
      var i := |template.intro|;
      var j := i + |billMd| + |template.middle|;
      && |p| == j + |amendmentMd| + |template.outro|
      && p[..i] == template.intro && p[i..i + |billMd|] == billMd
      && p[i + |billMd|..j] == template.middle && p[j..j + |amendmentMd|] == amendmentMd
      && p[j + |amendmentMd|..] == template.outro
  {
    var pieces := [template.intro, template.middle, template.outro];
    assert AmendPrompt(template, billMd, amendmentMd) == Fill(pieces, [billMd, amendmentMd]);
    FillTwoFields(pieces, billMd, amendmentMd);
    assert pieces[0] == template.intro && pieces[1] == template.middle && pieces[2] == template.outro;
  }

  // ---------------------------------------------------------------------
  // File names
  // ---------------------------------------------------------------------

  predicate AmdAt(name: string, i: nat) {
    i + 4 <= |name| && name[i..i + 4] == "_amd"
  }

  /** The glob `*_amd*.md` inside the directory: a visible name with `_amd` before the `.md` ending. */
  predicate IsAmendmentName(name: string) {
    && '/' !in name
    && !StartsWith(name, ".")
    && EndsWith(name, ".md")
    && exists i: nat :: i + 4 <= |name| - 3 && AmdAt(name, i)
  }

  /** os.path.basename, os.path.splitext, then split('_')[0]. */
  function BillNumberOf(amendmentFile: string): string {
    Split(StripExtension(Basename(amendmentFile)), '_')[0]
  }

  /**
   * The bill number is the start of the file's basename, with no '_' and no
   * '/': the extension-less basename up to its first '_', or all of it.
   */
  lemma BillNumberOfShape(amendmentFile: string)
    ensures var bill := BillNumberOf(amendmentFile);
      var stem := StripExtension(Basename(amendmentFile));
      && '_' !in bill && '/' !in bill
      && StartsWith(Basename(amendmentFile), bill)
      && StartsWith(stem, bill)
      && (|bill| == |stem| || stem[|bill|] == '_')
  {
    var base := Basename(amendmentFile);
    var name := StripExtension(base);
    var bill := Split(name, '_')[0];
    BasenameShape(amendmentFile);
    StripExtensionShape(base);
    assert name == base[..|name|];
    assert bill == name[..|bill|];
    forall k | 0 <= k < |bill| ensures bill[k] != '/' {
      assert bill[k] == base[k];
    }
  }

  function BillFileName(bill: string): string {
    bill + ".md"
  }

  function AmendedName(bill: string): string {
    bill + "_amended.md"
  }

  /** Where the amended bill of an amendment file goes: `{bill}_amended.md` in the same directory. */
  function AmendedPath(inputDir: string, amendmentFile: string): string {
    PathJoin(inputDir, AmendedName(BillNumberOf(amendmentFile)))
  }

  function BillPath(inputDir: string, amendmentFile: string): string {
    PathJoin(inputDir, BillFileName(BillNumberOf(amendmentFile)))
  }

  /** An amendment file named `{bill}_amd{k}.md` in the directory belongs to bill `bill`. */
  lemma BillNumberOfAmendmentFile(inputDir: string, bill: string, k: string)
    requires '_' !in bill && '/' !in bill && '.' !in bill
    requires '/' !in k && '.' !in k
    requires bill != "" && bill[0] != '.'
    ensures IsAmendmentName(bill + "_amd" + k + ".md")
    ensures BillNumberOf(PathJoin(inputDir, bill + "_amd" + k + ".md")) == bill
  {
    var stem := bill + "_amd" + k;
    AmendmentStemFree(bill, k);
    AmendmentNameMatches(stem, |bill|);
    BasenameOfJoined(inputDir, stem + ".md");
    StripMdExtension(stem);
    BillPartOfStem(bill, k);
  }

  lemma BillPartOfStem(bill: string, k: string)
    requires '_' !in bill
    ensures Split(bill + "_amd" + k, '_')[0] == bill
  {
    assert bill + "_amd" + k == bill + ['_'] + ("amd" + k);
    SplitAtSeparator(bill, '_', "amd" + k);
  }

  /** The file glob lists in a directory has its own name as basename, whether or not the directory ends in '/'. */
  lemma BasenameOfJoined(inputDir: string, name: string)
    requires '/' !in name && |name| > 0
    ensures Basename(PathJoin(inputDir, name)) == name
  {
    assert !StartsWith(name, "/") by { assert name[0] != '/'; }
    if inputDir == "" {
      assert PathJoin(inputDir, name) == name;
      assert RFind(name, '/') == -1;
      assert name[0..] == name;
    } else if EndsWith(inputDir, "/") {
      assert PathJoin(inputDir, name) == inputDir + name;
      BasenameAfterSlash(inputDir, name);
    } else {
      assert PathJoin(inputDir, name) == (inputDir + "/") + name;
      BasenameAfterSlash(inputDir + "/", name);
    }
  }

  lemma AmendmentStemFree(bill: string, k: string)
    requires '/' !in bill && '.' !in bill && '/' !in k && '.' !in k
    ensures var stem := bill + "_amd" + k;
      && '/' !in stem && '.' !in stem && stem[|bill|..|bill| + 4] == "_amd"
  {
    var stem := bill + "_amd" + k;
    forall j | 0 <= j < |stem| ensures stem[j] != '/' && stem[j] != '.' {
      if j < |bill| { assert stem[j] == bill[j]; }
      else if |bill| + 4 <= j { assert stem[j] == k[j - |bill| - 4]; }
    }
  }

  lemma AmendmentNameMatches(stem: string, i: nat)
    requires '/' !in stem && i + 4 <= |stem| && stem[i..i + 4] == "_amd"
    requires |stem| > 0 && stem[0] != '.'
    ensures IsAmendmentName(stem + ".md")
  {
    var name := stem + ".md";
    assert name[i..i + 4] == stem[i..i + 4];
    assert AmdAt(name, i);
    assert name[..1] == stem[..1];
    forall j | 0 <= j < |name| ensures name[j] != '/' {
      if j < |stem| { assert name[j] == stem[j]; }
    }
  }

  /** splitext drops the `.md` of a name whose stem has no dot and no slash. */
  lemma StripMdExtension(stem: string)
    requires '/' !in stem && '.' !in stem && |stem| > 0
    ensures StripExtension(stem + ".md") == stem
  {
    var name := stem + ".md";
    forall j | 0 <= j < |name| ensures name[j] != '/' {
      if j < |stem| { assert name[j] == stem[j]; }
    }
    assert RFind(name, '/') == -1;
    assert name[|stem|] == '.';
    assert RFind(name, '.') == |stem|;
    assert name[0..|stem|] == stem;
    assert !AllDots(stem) by { assert stem[0] != '.'; }
  }

  /** A path ending in a '/'-free name after a directory ending in '/' has that name as its basename. */
  lemma BasenameAfterSlash(dir: string, name: string)
    requires dir != "" && EndsWith(dir, "/")
    requires '/' !in name
    ensures Basename(dir + name) == name
  {
    var p := dir + name;
    assert p[|dir| - 1] == '/';
    forall j | |dir| <= j < |p| ensures p[j] != '/' {
      assert p[j] == name[j - |dir|];
    }
    assert p[|dir|..] == name;
  }

  /** The output file of a bill never matches the amendment glob, so outputs are not taken for amendments. */
  lemma AmendedNameNotAmendment(bill: string)
    requires '_' !in bill
    ensures !IsAmendmentName(AmendedName(bill))
  {
    var name := AmendedName(bill);
    assert name[|bill|..] == "_amended.md";
    forall i: nat | i + 4 <= |name| - 3 ensures !AmdAt(name, i) {
      assert name[i..i + 4][0] == name[i] && name[i..i + 4][3] == name[i + 3];
      if i < |bill| {
        assert name[i] == bill[i];
      } else {
        assert name[i] == name[|bill|..][i - |bill|];
        assert name[i + 3] == name[|bill|..][i + 3 - |bill|];
      }
    }
  }

  /** The bill file and the output file of an amendment are different files. */
  lemma BillAndOutputDiffer(inputDir: string, amendmentFile: string)
    ensures BillPath(inputDir, amendmentFile) != AmendedPath(inputDir, amendmentFile)
  {
    var bill := BillNumberOf(amendmentFile);
    var a := BillFileName(bill);
    var b := AmendedName(bill);
    assert a[|bill|] == '.' && b[|bill|] == '_';
    assert StartsWith(a, "/") == StartsWith(b, "/") by {
      if |bill| == 0 {
        assert a[0] != '/' && b[0] != '/';
      } else {
        assert a[0] == bill[0] && b[0] == bill[0];
      }
    }
    PathJoinInjective(inputDir, a, b);
  }

  /** A path the glob `os.path.join(inputDir, '*_amd*.md')` matches. */
  ghost predicate GlobMatches(inputDir: string, p: string) {
    exists n :: IsAmendmentName(n) && p == PathJoin(inputDir, n)
  }

  /**
   * What glob can return for the directory: every file that matches the
   * amendment pattern, each once, in an order of its own.
   */
  ghost predicate GlobListing(inputDir: string, files: map<string, string>, listing: seq<string>) {
    && (forall i, j :: 0 <= i < j < |listing| ==> listing[i] != listing[j])
    && (forall p :: p in listing <==> p in files && GlobMatches(inputDir, p))
  }

  /** No output file `{bill}_amended.md` is ever matched by the amendment glob. */
  lemma OutputNeverGlobbed(inputDir: string, amendmentFile: string)
    ensures !GlobMatches(inputDir, AmendedPath(inputDir, amendmentFile))
  {
    var bill := BillNumberOf(amendmentFile);
    var out := AmendedName(bill);
    BillNumberOfShape(amendmentFile);
    AmendedNameNotAmendment(bill);
    assert out[0] != '/' by {
      if |bill| == 0 { assert out[0] == '_'; } else { assert out[0] == bill[0]; }
    }
    forall n | IsAmendmentName(n) ensures AmendedPath(inputDir, amendmentFile) != PathJoin(inputDir, n) {
      assert n[0] != '/';
      PathJoinInjective(inputDir, n, out);
    }
  }

  // ---------------------------------------------------------------------
  // The loop of main, as a specification
  // ---------------------------------------------------------------------

  /** The directory after the amendments processed so far, and the exception that stopped the script, if any. */
  datatype Progress = Progress(files: map<string, string>, crashed: Option<ErrorKind>)

  /** One iteration of the loop for one amendment file. */
  function AmendStep(inputDir: string, query: string -> Reply<Option<string>>, template: Template,
                     files: map<string, string>, amendmentFile: string): (r: Progress)
    ensures forall p :: p in files ==> p in r.files && r.files[p] == files[p]
    ensures forall p :: p in r.files && p !in files ==> p == AmendedPath(inputDir, amendmentFile)
    ensures BillPath(inputDir, amendmentFile) !in files || amendmentFile !in files ==> r == Progress(files, Some(FileNotFoundError))
    ensures BillPath(inputDir, amendmentFile) in files && amendmentFile in files ==>
      var reply := query(AmendPrompt(template, files[BillPath(inputDir, amendmentFile)], files[amendmentFile]));
      var dest := AmendedPath(inputDir, amendmentFile);
      && (dest in files ==> r == Progress(files, None))
      && (dest !in files && reply.Err? ==> r == Progress(files, Some(reply.error)))
      && (dest !in files && reply == Ok(None) ==> r == Progress(files[dest := ""], Some(TypeError)))
      && (dest !in files && reply.Ok? && reply.value.Some? ==> r == Progress(files[dest := reply.value.value], None))
  {
    var billFile := BillPath(inputDir, amendmentFile);
    if billFile !in files || amendmentFile !in files then Progress(files, Some(FileNotFoundError))
    else
      var dest := AmendedPath(inputDir, amendmentFile);
      if dest in files then Progress(files, None)
      else
        match query(AmendPrompt(template, files[billFile], files[amendmentFile]))
        case Err(e) => Progress(files, Some(e))
        case Ok(None) => Progress(files[dest := ""], Some(TypeError))
        case Ok(Some(text)) => Progress(files[dest := text], None)
  }

  /** The loop over the amendment files, in the order glob listed them; an exception ends it. */
  function AmendAll(inputDir: string, query: string -> Reply<Option<string>>, template: Template,
                    files: map<string, string>, amendmentFiles: seq<string>): Progress
  {
    if |amendmentFiles| == 0 then Progress(files, None)
    else
      var before := AmendAll(inputDir, query, template, files, amendmentFiles[..|amendmentFiles| - 1]);
      if before.crashed.Some? then before
      else AmendStep(inputDir, query, template, before.files, amendmentFiles[|amendmentFiles| - 1])
  }

  /**
   * No existing file is ever overwritten or removed, and every file the
   * loop creates is the `_amended.md` output of one of the amendment files.
   */
  lemma {:induction false} NeverOverwrites(inputDir: string, query: string -> Reply<Option<string>>, template: Template,
                                           files: map<string, string>, amendmentFiles: seq<string>)
    ensures var r := AmendAll(inputDir, query, template, files, amendmentFiles);
      && (forall p :: p in files ==> p in r.files && r.files[p] == files[p])
      && (forall p :: p in r.files && p !in files ==>
            exists i :: 0 <= i < |amendmentFiles| && p == AmendedPath(inputDir, amendmentFiles[i]))
  {
    if |amendmentFiles| > 0 {
      var init := amendmentFiles[..|amendmentFiles| - 1];
      NeverOverwrites(inputDir, query, template, files, init);
      assert forall i :: 0 <= i < |init| ==> init[i] == amendmentFiles[i];
    }
  }

  /**
   * The loop creates no file the amendment glob matches, so after it the
   * glob of the directory still lists exactly the amendments it ran over.
   */
  lemma GlobListingKept(inputDir: string, query: string -> Reply<Option<string>>, template: Template,
                        files: map<string, string>, amendmentFiles: seq<string>)
    requires GlobListing(inputDir, files, amendmentFiles)
    ensures GlobListing(inputDir, AmendAll(inputDir, query, template, files, amendmentFiles).files, amendmentFiles)
  {
    var r := AmendAll(inputDir, query, template, files, amendmentFiles);
    NeverOverwrites(inputDir, query, template, files, amendmentFiles);
    forall p | p in r.files && p !in files ensures !GlobMatches(inputDir, p) {
      var i :| 0 <= i < |amendmentFiles| && p == AmendedPath(inputDir, amendmentFiles[i]);
      OutputNeverGlobbed(inputDir, amendmentFiles[i]);
    }
  }

  lemma StepAfterCrash(inputDir: string, query: string -> Reply<Option<string>>, template: Template,
                       files: map<string, string>, amendmentFiles: seq<string>)
    requires |amendmentFiles| > 0
    requires AmendAll(inputDir, query, template, files, amendmentFiles[..|amendmentFiles| - 1]).crashed.Some?
    ensures AmendAll(inputDir, query, template, files, amendmentFiles) == AmendAll(inputDir, query, template, files, amendmentFiles[..|amendmentFiles| - 1])
  {
  }

  lemma StepWithoutCrash(inputDir: string, query: string -> Reply<Option<string>>, template: Template,
                         files: map<string, string>, amendmentFiles: seq<string>, k: nat)
    requires k < |amendmentFiles|
    requires AmendAll(inputDir, query, template, files, amendmentFiles[..k]).crashed.None?
    ensures AmendAll(inputDir, query, template, files, amendmentFiles[..k + 1])
         == AmendStep(inputDir, query, template, AmendAll(inputDir, query, template, files, amendmentFiles[..k]).files, amendmentFiles[k])
  {
    assert amendmentFiles[..k + 1][..k] == amendmentFiles[..k];
  }

  /**
   * What the loop has written by step k stays as written to the end, and
   * once an exception has stopped the loop nothing further happens.
   */
  lemma {:induction false} EarlierWritesKept(inputDir: string, query: string -> Reply<Option<string>>, template: Template,
                                             files: map<string, string>, amendmentFiles: seq<string>, k: nat)
    requires k <= |amendmentFiles|
    ensures var mid := AmendAll(inputDir, query, template, files, amendmentFiles[..k]);
      var r := AmendAll(inputDir, query, template, files, amendmentFiles);
      && (forall p :: p in mid.files ==> p in r.files && r.files[p] == mid.files[p])
      && (mid.crashed.Some? ==> r == mid)
    decreases |amendmentFiles| - k
  {
    if k == |amendmentFiles| {
      assert amendmentFiles[..k] == amendmentFiles;
    } else {
      var mid := AmendAll(inputDir, query, template, files, amendmentFiles[..k]);
      var next := AmendAll(inputDir, query, template, files, amendmentFiles[..k + 1]);
      assert amendmentFiles[..k + 1][..k] == amendmentFiles[..k];
      if mid.crashed.Some? {
        StepAfterCrash(inputDir, query, template, files, amendmentFiles[..k + 1]);
      } else {
        StepWithoutCrash(inputDir, query, template, files, amendmentFiles, k);
      }
      EarlierWritesKept(inputDir, query, template, files, amendmentFiles, k + 1);
    }
  }

  /**
   * Of several amendments to one bill only the first is applied: once the
   * amendment at position i has produced `{bill}_amended.md`, the file keeps
   * the model's answer to that amendment's prompt, and later amendments of
   * the bill are skipped without a query.
   */
  lemma FirstAmendmentWins(inputDir: string, query: string -> Reply<Option<string>>, template: Template,
                           files: map<string, string>, amendmentFiles: seq<string>, i: nat)
    requires i < |amendmentFiles|
    requires var before := AmendAll(inputDir, query, template, files, amendmentFiles[..i]);
      var a := amendmentFiles[i];
      && before.crashed.None?
      && AmendedPath(inputDir, a) !in before.files
      && BillPath(inputDir, a) in before.files && a in before.files
    ensures var before := AmendAll(inputDir, query, template, files, amendmentFiles[..i]);
      var a := amendmentFiles[i];
      var reply := query(AmendPrompt(template, before.files[BillPath(inputDir, a)], before.files[a]));
      var r := AmendAll(inputDir, query, template, files, amendmentFiles);
      var dest := AmendedPath(inputDir, a);
      && (reply.Err? ==> r.crashed == Some(reply.error) && dest !in r.files)
      && (reply == Ok(None) ==> r.crashed == Some(TypeError) && dest in r.files && r.files[dest] == "")
      && (reply.Ok? && reply.value.Some? ==> dest in r.files && r.files[dest] == reply.value.value)
  {
    StepWithoutCrash(inputDir, query, template, files, amendmentFiles, i);
    EarlierWritesKept(inputDir, query, template, files, amendmentFiles, i + 1);
  }

  // ---------------------------------------------------------------------
  // The markdown directory and the loop itself
  // ---------------------------------------------------------------------

  /** data/{year}rs/md: the files in it, by path. */
  class Directory {
    var files: map<string, string>

    constructor (initial: map<string, string>)
      ensures files == initial
    {
      files := initial;
    }

    /** open(path).read(): the contents, or FileNotFoundError. */
    method Read(path: string) returns (r: Reply<string>)
      ensures path in files <==> r.Ok?
      ensures r.Ok? ==> r.value == files[path]
      ensures r.Err? ==> r.error == FileNotFoundError
    {
      if path in files {
        r := Ok(files[path]);
      } else {
        r := Err(FileNotFoundError);
      }
    }

    predicate Exists(path: string)
      reads this
    {
      path in files
    }

    /** open(path, 'w').write(text) */
    method Write(path: string, text: string)
      modifies this
      ensures files == old(files)[path := text]
    {
      files := files[path := text];
    }
  }

  /** The body of the loop of main for one amendment file. */
  method AmendOne(dir: Directory, query: string -> Reply<Option<string>>, template: Template, inputDir: string, amendmentFile: string)
    returns (crashed: Option<ErrorKind>)
    modifies dir
    ensures AmendStep(inputDir, query, template, old(dir.files), amendmentFile) == Progress(dir.files, crashed)
  {
    ghost var step := AmendStep(inputDir, query, template, dir.files, amendmentFile);
    var billNumber := BillNumberOf(amendmentFile);
    var billFile := PathJoin(inputDir, BillFileName(billNumber));
    assert billFile == BillPath(inputDir, amendmentFile);
    var billMd := dir.Read(billFile);
    var amendmentMd := dir.Read(amendmentFile);
    if billMd.Err? || amendmentMd.Err? {
      assert step == Progress(dir.files, Some(FileNotFoundError));
      return Some(FileNotFoundError);
    }
    var destination := PathJoin(inputDir, AmendedName(billNumber));
    assert destination == AmendedPath(inputDir, amendmentFile);
    if dir.Exists(destination) {
      assert step == Progress(dir.files, None);
      return None;
    }
    var reply := query(AmendPrompt(template, billMd.value, amendmentMd.value));
    if reply.Err? {
      assert step == Progress(dir.files, Some(reply.error));
      return Some(reply.error);
    }
    if reply.value.None? {
      // open(..., 'w') creates the file empty, then write(None) raises
      assert step == Progress(dir.files[destination := ""], Some(TypeError));
      dir.Write(destination, "");
      return Some(TypeError);
    }
    assert step == Progress(dir.files[destination := reply.value.value], None);
    dir.Write(destination, reply.value.value);
    crashed := None;
  }

  /**
   * main(client, session_year), over the amendment files glob listed, in its
   * order.  Afterwards the glob would list the same files.
   */
  method ApplyAmendments(dir: Directory, query: string -> Reply<Option<string>>, template: Template,
                         inputDir: string, amendmentFiles: seq<string>)
    returns (crashed: Option<ErrorKind>)
    requires GlobListing(inputDir, dir.files, amendmentFiles)
    modifies dir
    ensures AmendAll(inputDir, query, template, old(dir.files), amendmentFiles) == Progress(dir.files, crashed)
    ensures GlobListing(inputDir, dir.files, amendmentFiles)
  {
    ghost var start := dir.files;
    GlobListingKept(inputDir, query, template, start, amendmentFiles);
    for k := 0 to |amendmentFiles|
      invariant AmendAll(inputDir, query, template, start, amendmentFiles[..k]) == Progress(dir.files, None)
    {
      StepWithoutCrash(inputDir, query, template, start, amendmentFiles, k);
      var c := AmendOne(dir, query, template, inputDir, amendmentFiles[k]);
      if c.Some? {
        EarlierWritesKept(inputDir, query, template, start, amendmentFiles, k + 1);
        return c;
      }
    }
    assert amendmentFiles[..|amendmentFiles|] == amendmentFiles;
    crashed := None;
  }

  datatype AmendOutcome = MissingApiKey | Finished | Crashed(error: ErrorKind)

  /**
   * The script: without GEMINI_API_KEY nothing is read, queried or written;
   * otherwise main runs over the amendment files.
   */
  method AmendScript(dir: Directory, generate: (string, string) -> Reply<Option<string>>, geminiKey: Option<string>,
                     inputDir: string, amendmentFiles: seq<string>)
    returns (outcome: AmendOutcome)
    requires GlobListing(inputDir, dir.files, amendmentFiles)
    modifies dir
    ensures GlobListing(inputDir, dir.files, amendmentFiles)
    ensures geminiKey.None? ==> outcome == MissingApiKey && dir.files == old(dir.files)
    ensures geminiKey.Some? ==>
      var r := AmendAll(inputDir, GeminiQuery(generate), PromptTemplate, old(dir.files), amendmentFiles);
      && dir.files == r.files
      && outcome == (if r.crashed.Some? then Crashed(r.crashed.value) else Finished)
  {
    if geminiKey.None? {
      return MissingApiKey;
    }
    var crashed := ApplyAmendments(dir, GeminiQuery(generate), PromptTemplate, inputDir, amendmentFiles);
    outcome := if crashed.Some? then Crashed(crashed.value) else Finished;
  }
}

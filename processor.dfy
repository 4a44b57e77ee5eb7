/** `Doc2mdProcessor` (src/claude_clis/tools/doc2md/processor.py), run
    sequentially. A processor holds the readers that loaded (a reader is a
    function from a path to the extracted text or the error it raises); the
    file system is a `Files.Store`; the language model is a `Completer`; the
    conversion date is a parameter. Console logging is not modelled. */
module Processor {
  import opened Base
  import opened Text
  import Paths
  import Files
  import Chunking
  import Conversion
  import Utils

  type Reader = string -> Result<string, string>

  const NoContentMsg := "No readable content found in document"
  const Wrap := "Conversion failed: "

  /** The default output directory of a batch. */
  const BatchDirName := "markdown"

  /** The text `_generate_metadata` returns for the file name, provider name,
      style and date given. */
  function MetadataComment(name: string, provider: string, style: string, date: string): string
  {
    CommentStart + (MetaIntro + name + MetaSettings)
    + Setting(ProviderLine, provider) + Setting(StyleLine, style) + Setting(FileLine, name)
    + (DateLine + date + MetaFooter) + CommentEnd
  }

  /** One settings line: its key, the value and the line break. */
  function Setting(key: string, value: string): string
  {
    key + value + "\n"
  }

  const CommentStart := "<!-- "
  const CommentEnd := "-->"
  const MetaIntro := "\nThis document was converted from "
  const MetaSettings := " to Markdown\nusing Claude CLI Tools with the following settings:\n\n"
  const ProviderLine := "- AI Provider: "
  const StyleLine := "- Style: "
  const FileLine := "- Original file: "
  const DateLine := "- Conversion date: "
  const MetaFooter := "\n\nGenerated by Claude CLI Tools - https://github.com/your-username/claude-clis\n"

  /** The comment opens with "<!-- ", closes with "-->", and carries the
      file name, the provider and the style each on a settings line of its
      own. */
  lemma MetadataShape(name: string, provider: string, style: string, date: string)
    ensures var c := MetadataComment(name, provider, style, date);
      StartsWith(c, CommentStart) && |c| >= |CommentEnd| && c[|c| - |CommentEnd|..] == CommentEnd
      && Contains(c, Setting(ProviderLine, provider))
      && Contains(c, Setting(StyleLine, style))
      && Contains(c, Setting(FileLine, name))
  {
    Layout(CommentStart, MetaIntro + name + MetaSettings,
           Setting(ProviderLine, provider), Setting(StyleLine, style), Setting(FileLine, name),
           DateLine + date + MetaFooter, CommentEnd);
  }

  /** Where the pieces of a comment of three settings lines sit, whatever
      the pieces are. */
  lemma Layout(open: string, head: string, l1: string, l2: string, l3: string, tail: string, close: string)
    ensures var c := open + head + l1 + l2 + l3 + tail + close;
      StartsWith(c, open) && |c| >= |close| && c[|c| - |close|..] == close
      && Contains(c, l1) && Contains(c, l2) && Contains(c, l3)
  {
    var c := open + head + l1 + l2 + l3 + tail + close;
    var u := |open + head|;
    assert c[..|open|] == open;
    assert c[u..u + |l1|] == l1;
    ContainsAt(c, l1, u);
    assert c[u + |l1|..u + |l1| + |l2|] == l2;
    ContainsAt(c, l2, u + |l1|);
    assert c[u + |l1| + |l2|..u + |l1| + |l2| + |l3|] == l3;
    ContainsAt(c, l3, u + |l1| + |l2|);
  }

  /** The five suffix names are pairwise different. */
  lemma SuffixNamesDistinct()
    ensures ".pdf" != ".docx" && ".pdf" != ".doc" && ".pdf" != ".txt" && ".pdf" != ".md"
    ensures ".docx" != ".doc" && ".docx" != ".txt" && ".docx" != ".md"
    ensures ".doc" != ".txt" && ".doc" != ".md" && ".txt" != ".md"
  {
    assert ".pdf"[1] != ".doc"[1] && ".pdf"[1] != ".txt"[1] && ".doc"[1] != ".txt"[1];
  }

  /** ".md" is a plain suffix. */
  lemma MdSuffixPlain()
    ensures Paths.ValidSuffix(".md") && |".md"| >= 2 && ".md"[0] == '.'
    ensures '.' !in ".md"[1..] && '/' !in ".md"
  {
    assert ".md"[1..] == "md";
  }

  /** The provider named in the comment: "default" when none is given. */
  function ProviderName(provider: Option<string>): (n: string)
    ensures n != ""
    ensures provider.Some? && provider.value != "" ==> n == provider.value
  {
    if provider.Some? && provider.value != "" then provider.value else "default"
  }

  /** The bookkeeping of a batch: the paths written, the number of
      failures, and the file contents. */
  datatype Tally = Tally(successful: seq<string>, failed: nat, files: map<string, string>)

  /** The Markdown conversion of extracted text: `process_large_content`
      with the provider, chunk size, style and formatting flag fixed. */
  type Converter = string -> Result<string, string>

  function Converting(size: int, style: string, preserve: bool, complete: Conversion.Completer): Converter
    requires size >= 1
  {
    (content: string) => Conversion.ProcessLarge(content, size, style, preserve, complete)
  }

  /** One conversion of a batch: from the file contents and the input
      path to the result and the new file contents. */
  type Step = (map<string, string>, string) -> (Result<string, string>, map<string, string>)

  /** The state after converting the first n batch files in turn. */
  function Run(files0: map<string, string>, batch: seq<string>, n: nat, step: Step): (t: Tally)
    requires n <= |batch|
    ensures |t.successful| + t.failed == n
  {
    if n == 0 then Tally([], 0, files0)
    else
      var t := Run(files0, batch, n - 1, step);
      var c := step(t.files, batch[n - 1]);
      if c.0.Success? then Tally(t.successful + [c.0.value], t.failed, c.1)
      else Tally(t.successful, t.failed + 1, c.1)
  }

  /** The indexes of the batch files among the first n whose conversion
      succeeded, in order. */
  function Picked(files0: map<string, string>, batch: seq<string>, n: nat, step: Step): (ks: seq<nat>)
    requires n <= |batch|
    ensures forall j :: 0 <= j < |ks| ==> ks[j] < n
  {
    if n == 0 then []
    else
      var t := Run(files0, batch, n - 1, step);
      Picked(files0, batch, n - 1, step) + (if step(t.files, batch[n - 1]).0.Success? then [n - 1] else [])
  }

  /** When each success reports its file's output path, the successful
      paths come in the order of the files: the j-th belongs to the j-th
      file that succeeded. */
  lemma {:induction false} SuccessesInFileOrder(files0: map<string, string>, batch: seq<string>, n: nat,
                                                step: Step, output: string -> string)
    requires n <= |batch|
    requires forall fs: map<string, string>, f: string :: step(fs, f).0.Success? ==> step(fs, f).0.value == output(f)
    ensures var t := Run(files0, batch, n, step);
      var ks := Picked(files0, batch, n, step);
      |ks| == |t.successful|
      && (forall j :: 0 <= j < |ks| ==> t.successful[j] == output(batch[ks[j]]))
      && (forall i, j :: 0 <= i < j < |ks| ==> ks[i] < ks[j])
  {
    if n > 0 {
      SuccessesInFileOrder(files0, batch, n - 1, step, output);
      var t := Run(files0, batch, n - 1, step);
      var ks := Picked(files0, batch, n - 1, step);
      var c := step(t.files, batch[n - 1]);
      var t' := Run(files0, batch, n, step);
      var ks' := Picked(files0, batch, n, step);
      if c.0.Success? {
        assert t'.successful == t.successful + [output(batch[n - 1])] && ks' == ks + [n - 1];
      } else {
        assert t'.successful == t.successful && ks' == ks;
      }
    }
  }

  class Doc2mdProcessor {
    /** The readers that loaded; `None` for one whose library is missing. */
    const pdfReader: Option<Reader>
    const wordReader: Option<Reader>

    constructor (pdf: Option<Reader>, word: Option<Reader>)
      ensures pdfReader == pdf && wordReader == word
    {
      pdfReader := pdf;
      wordReader := word;
    }

    /** The supported suffixes, in the order they are listed. */
    function Formats(): (fs: seq<string>)
      ensures |fs| >= 2 && fs[|fs| - 2..] == [".txt", ".md"]
    {
      (if pdfReader.Some? then [".pdf"] else [])
      + (if wordReader.Some? then [".docx", ".doc"] else [])
      + [".txt", ".md"]
    }

    /** A suffix is listed exactly when it is always supported or its
        reader loaded. */
    lemma FormatsMembers(ext: string)
      ensures ext in Formats() <==>
        (ext == ".pdf" && pdfReader.Some?)
        || ((ext == ".docx" || ext == ".doc") && wordReader.Some?)
        || ext == ".txt" || ext == ".md"
    {
    }

    /** `get_supported_formats`: the list built by successive extends. */
    method GetSupportedFormats() returns (formats: seq<string>)
      ensures formats == Formats()
    {
      formats := [];
      if pdfReader.Some? {
        formats := formats + [".pdf"];
      }
      if wordReader.Some? {
        formats := formats + [".docx", ".doc"];
      }
      formats := formats + [".txt", ".md"];
    }

    /** `is_supported_format`: the lowercased last suffix is listed. */
    predicate IsSupportedFormat(path: string)
    {
      Lower(Paths.Suffix(path)) in Formats()
    }

    /** A supported path always has a name, so it can take another suffix. */
    lemma SupportedHasName(path: string)
      requires IsSupportedFormat(path)
      ensures Paths.Name(path) != []
      ensures Paths.WithSuffix(path, ".md").Some?
    {
      var ext := Paths.Suffix(path);
      assert |Lower(ext)| >= 3 by {
        FormatsMembers(Lower(ext));
      }
      assert |ext| <= |Paths.Name(path)|;
      MdSuffixPlain();
    }

    /** With both readers loaded, the processor's format check and the
        general document check of the utilities agree. */
    lemma FormatCheckAgrees(path: string)
      requires pdfReader.Some? && wordReader.Some?
      ensures IsSupportedFormat(path) <==> Utils.IsSupportedDocument(path)
    {
      FormatsMembers(Lower(Paths.Suffix(path)));
    }

    /** The processor's output path is the one `validate_output_path` gives
        for the extension ".md". */
    lemma OutputPathAgrees(input: string, output: Option<string>)
      requires IsSupportedFormat(input)
      ensures Utils.ValidateOutputPath(output, input, ".md") == Some(OutputPath(input, output))
    {
      SupportedHasName(input);
    }

    /** `_extract_content`: dispatch on the lowercased suffix; plain text is
        read from the file itself. */
    function Extract(files: map<string, string>, path: string): Result<string, string>
    {
      var ext := Lower(Paths.Suffix(path));
      if ext == ".pdf" then
        if pdfReader.None? then Failure("PDF reader not available") else pdfReader.value(path)
      else if ext == ".docx" || ext == ".doc" then
        if wordReader.None? then Failure("Word reader not available") else wordReader.value(path)
      else if ext == ".txt" || ext == ".md" then
        if path in files then Success(files[path]) else Failure("[Errno 21] Is a directory: '" + path + "'")
      else Failure("Unsupported file format: " + ext)
    }

    /** The dispatch succeeds only on the five suffixes, and an unknown
        suffix gets the dispatch's own error. */
    lemma ExtractKnownOnly(files: map<string, string>, path: string)
      ensures var ext := Lower(Paths.Suffix(path));
        (Extract(files, path).Success? ==> ext in [".pdf", ".docx", ".doc", ".txt", ".md"])
        && (ext !in [".pdf", ".docx", ".doc", ".txt", ".md"] ==>
              Extract(files, path) == Failure("Unsupported file format: " + ext))
    {
    }

    /** Past the format check, the dispatch reaches a reader that loaded:
        neither the "not available" errors nor its own unsupported error can
        occur. */
    lemma SupportedReachesReader(files: map<string, string>, path: string)
      requires IsSupportedFormat(path)
      ensures var ext := Lower(Paths.Suffix(path));
        (ext == ".pdf" ==> pdfReader.Some? && Extract(files, path) == pdfReader.value(path))
        && (ext == ".docx" || ext == ".doc" ==> wordReader.Some? && Extract(files, path) == wordReader.value(path))
        && (ext != ".pdf" && ext != ".docx" && ext != ".doc" ==> ext == ".txt" || ext == ".md")
        && ((ext == ".txt" || ext == ".md") && path in files ==> Extract(files, path) == Success(files[path]))
    {
      SuffixNamesDistinct();
      FormatsMembers(Lower(Paths.Suffix(path)));
    }

    /** The output path: the given one if non-empty, else the input with the
        suffix ".md". */
    function OutputPath(input: string, output: Option<string>): (out: string)
      requires IsSupportedFormat(input)
      ensures output.Some? && output.value != "" ==> out == output.value
      ensures output.None? || output.value == "" ==>
        Paths.Suffix(out) == ".md" && Paths.Dir(out) == Paths.Dir(input) && Paths.Stem(out) == Paths.Stem(input)
    {
      SupportedHasName(input);
      if output.Some? && output.value != "" then output.value
      else
        MdSuffixPlain();
        Paths.WithSuffixSetsSuffix(input, ".md");
        Paths.WithSuffix(input, ".md").value
    }

    /** What `convert_file` has decided to write, before it writes: the
        output path and the whole text, or the error it raises. */
    function Planned(files: map<string, string>, dirs: set<string>, input: string, output: Option<string>,
                     provider: Option<string>, style: string, convert: Converter, date: string)
      : (r: Result<(string, string), string>)
      ensures input !in files && input !in dirs ==> r == Failure("Input file not found: " + input)
      ensures (input in files || input in dirs) && !IsSupportedFormat(input) ==>
        r == Failure("Unsupported file format: " + Paths.Suffix(input) + ". Supported formats: " + Join(Formats(), ", "))
      ensures r.Success? ==>
        (input in files || input in dirs) && IsSupportedFormat(input) && r.value.0 == OutputPath(input, output)
    {
      if input !in files && input !in dirs then Failure("Input file not found: " + input)
      else if !IsSupportedFormat(input) then
        Failure("Unsupported file format: " + Paths.Suffix(input) + ". Supported formats: " + Join(Formats(), ", "))
      else
        var out := OutputPath(input, output);
        match Extract(files, input)
        case Failure(e) => Failure(Wrap + e)
        case Success(content) =>
          if IsBlank(content) then Failure(Wrap + NoContentMsg)
          else
            match convert(content)
            case Failure(e) => Failure(Wrap + e)
            case Success(md) =>
              Success((out, MetadataComment(Paths.Name(input), ProviderName(provider), style, date) + "\n\n" + md))
    }

    /** Past the two guards, every failure is wrapped as a conversion
        failure, a blank extraction included; a success writes the comment,
        a blank line and the converted text. */
    lemma PlannedPipeline(files: map<string, string>, dirs: set<string>, input: string, output: Option<string>,
                          provider: Option<string>, style: string, convert: Converter, date: string)
      requires (input in files || input in dirs) && IsSupportedFormat(input)
      ensures var r := Planned(files, dirs, input, output, provider, style, convert, date);
        var x := Extract(files, input);
        (r.Failure? <==>
          (x.Failure? || IsBlank(x.value) || convert(x.value).Failure?))
        && (r.Failure? ==> StartsWith(r.error, Wrap))
        && (x.Success? && IsBlank(x.value) ==> r == Failure(Wrap + NoContentMsg))
        && (r.Success? ==>
          r.value.1 == MetadataComment(Paths.Name(input), ProviderName(provider), style, date)
                       + "\n\n" + convert(x.value).value)
    {
    }

    /** `convert_file` on the file contents as values: the result and the
        file contents afterwards. The file is written once, with the whole
        text, and a failure of the write is a conversion failure too. */
    function Convert(files: map<string, string>, dirs: set<string>, unwritable: map<string, string>,
                     input: string, output: Option<string>, provider: Option<string>, style: string,
                     convert: Converter, date: string)
      : (r: (Result<string, string>, map<string, string>))
      ensures var plan := Planned(files, dirs, input, output, provider, style, convert, date);
        (r.0.Success? <==> (plan.Success? && Files.OpenError(dirs, unwritable, plan.value.0).None?))
        && (r.0.Success? ==> (r.0.value == plan.value.0 && r.1 == files[plan.value.0 := plan.value.1]))
        && (r.0.Failure? ==> r.1 == files)
    {
      match Planned(files, dirs, input, output, provider, style, convert, date)
      case Failure(e) => (Failure(e), files)
      case Success(plan) =>
        match Files.OpenError(dirs, unwritable, plan.0)
        case Some(e) => (Failure(Wrap + e), files)
        case None => (Success(plan.0), files[plan.0 := plan.1])
    }

    /** `convert_file`: the guards, the output path, extraction, the blank
        check, conversion, and the single write at the end. */
    method ConvertFile(store: Files.Store, input: string, output: Option<string>, provider: Option<string>,
                       style: string, preserve: bool, size: int, complete: Conversion.Completer, date: string)
      returns (r: Result<string, string>)
      requires size >= 1
      modifies store
      ensures (r, store.files) == Convert(old(store.files), store.dirs, store.unwritable, input, output, provider,
                                          style, Converting(size, style, preserve, complete), date)
      ensures store.dirs == old(store.dirs) && store.unwritable == old(store.unwritable)
    {
      if !store.Exists(input) {
        return Failure("Input file not found: " + input);
      }
      var supported := IsSupportedFormat(input);
      if !supported {
        var formats := GetSupportedFormats();
        return Failure("Unsupported file format: " + Paths.Suffix(input) + ". Supported formats: " + Join(formats, ", "));
      }
      var outputPath := OutputPath(input, output);
      var extracted := Extract(store.files, input);
      if extracted.Failure? {
        return Failure(Wrap + extracted.error);
      }
      var content := extracted.value;
      StripEmptyIffBlank(content);
      if Strip(content) == [] {
        return Failure(Wrap + NoContentMsg);
      }
      var converted, _ := Conversion.ProcessLargeContent(content, size, style, preserve, complete);
      assert converted == Converting(size, style, preserve, complete)(content);
      if converted.Failure? {
        return Failure(Wrap + converted.error);
      }
      var metadata := MetadataComment(Paths.Name(input), ProviderName(provider), style, date);
      var finalContent := metadata + "\n\n" + converted.value;
      var err := store.Write(outputPath, finalContent);
      if err.Some? {
        return Failure(Wrap + err.value);
      }
      r := Success(outputPath);
    }

    // -------------------------------------------------------------- batch

    /** `rglob` matches that are files of a supported format, in order. */
    function Selected(files: map<string, string>, found: seq<string>): (fs: seq<string>)
      ensures |fs| <= |found|
    {
      if found == [] then []
      else
        var f := found[|found| - 1];
        Selected(files, found[..|found| - 1]) + (if f in files && IsSupportedFormat(f) then [f] else [])
    }

    /** The batch holds exactly the supported files among the matches. */
    lemma {:induction false} SelectedMembers(files: map<string, string>, found: seq<string>)
      ensures forall f :: f in Selected(files, found) <==> f in found && f in files && IsSupportedFormat(f)
    {
      if found != [] {
        var init := found[..|found| - 1];
        SelectedMembers(files, init);
        assert found == init + [found[|found| - 1]];
      }
    }

    /** The output path of each batch file: flat, by stem. */
    function BatchOutput(outDir: string, f: string): string
    {
      Paths.JoinPath(outDir, Paths.Stem(f) + ".md")
    }

    /** Two inputs go to the same output file exactly when their stems agree,
        wherever they sit under the input directory. */
    lemma BatchOutputCollides(outDir: string, f: string, g: string)
      ensures BatchOutput(outDir, f) == BatchOutput(outDir, g) <==> Paths.Stem(f) == Paths.Stem(g)
    {
      var a, b := Paths.Stem(f) + ".md", Paths.Stem(g) + ".md";
      if Paths.JoinPath(outDir, a) == Paths.JoinPath(outDir, b) {
        assert a == b by {
          Paths.JoinPathInjective(outDir, a, b);
        }
        assert a[..|a| - 3] == Paths.Stem(f) && b[..|b| - 3] == Paths.Stem(g);
      }
    }

    /** The loop that keeps the files of a supported format. */
    method SelectFiles(store: Files.Store, found: seq<string>) returns (files: seq<string>)
      ensures files == Selected(store.files, found)
    {
      files := [];
      for i := 0 to |found|
        invariant files == Selected(store.files, found[..i])
      {
        SelectedStep(store.files, found, i);
        if store.IsFile(found[i]) && IsSupportedFormat(found[i]) {
          files := files + [found[i]];
        }
      }
      assert found[..|found|] == found;
    }

    /** One more match extends the selection by at most that match. */
    lemma SelectedStep(files: map<string, string>, found: seq<string>, i: nat)
      requires i < |found|
      ensures Selected(files, found[..i + 1])
        == Selected(files, found[..i]) + (if found[i] in files && IsSupportedFormat(found[i]) then [found[i]] else [])
    {
      var p := found[..i + 1];
      assert p[..|p| - 1] == found[..i] && p[|p| - 1] == found[i];
    }

    /** The output directory of a batch: the given one if non-empty, else
        "markdown" inside the input directory. */
    function BatchDir(inputDir: string, outputDir: Option<string>): (d: string)
      ensures outputDir.Some? && outputDir.value != "" ==> d == outputDir.value
      ensures outputDir.None? || outputDir.value == "" ==> d == Paths.JoinPath(inputDir, BatchDirName)
    {
      if outputDir.Some? && outputDir.value != "" then outputDir.value else Paths.JoinPath(inputDir, BatchDirName)
    }

    /** One batch conversion: the file goes to its flat output path. */
    function BatchStep(dirs: set<string>, unwritable: map<string, string>, outDir: string,
                       provider: Option<string>, style: string, convert: Converter, date: string): Step
    {
      (fs: map<string, string>, f: string) =>
        Convert(fs, dirs, unwritable, f, Some(BatchOutput(outDir, f)), provider, style, convert, date)
    }

    /** A conversion to a given non-empty path succeeds with that path. */
    lemma ConvertReturnsGivenPath(files: map<string, string>, dirs: set<string>, unwritable: map<string, string>,
                            input: string, out: string, provider: Option<string>, style: string,
                            convert: Converter, date: string)
      requires out != ""
      requires Convert(files, dirs, unwritable, input, Some(out), provider, style, convert, date).0.Success?
      ensures Convert(files, dirs, unwritable, input, Some(out), provider, style, convert, date).0.value == out
    {
    }

    /** A batch conversion that succeeds reports its flat output path. */
    lemma BatchStepOutput(dirs: set<string>, unwritable: map<string, string>, outDir: string,
                          provider: Option<string>, style: string, convert: Converter, date: string)
      ensures var step := BatchStep(dirs, unwritable, outDir, provider, style, convert, date);
        forall fs: map<string, string>, f: string :: step(fs, f).0.Success? ==> step(fs, f).0.value == BatchOutput(outDir, f)
    {
      forall fs: map<string, string>, f: string
        ensures var step := BatchStep(dirs, unwritable, outDir, provider, style, convert, date);
          step(fs, f).0.Success? ==> step(fs, f).0.value == BatchOutput(outDir, f)
      {
        BatchStepOne(fs, dirs, unwritable, outDir, f, provider, style, convert, date);
      }
    }

    lemma BatchStepOne(fs: map<string, string>, dirs: set<string>, unwritable: map<string, string>, outDir: string,
                       f: string, provider: Option<string>, style: string, convert: Converter, date: string)
      ensures var r := BatchStep(dirs, unwritable, outDir, provider, style, convert, date)(fs, f);
        r.0.Success? ==> r.0.value == BatchOutput(outDir, f)
    {
      var out := BatchOutput(outDir, f);
      var r := Convert(fs, dirs, unwritable, f, Some(out), provider, style, convert, date);
      assert BatchStep(dirs, unwritable, outDir, provider, style, convert, date)(fs, f) == r;
      if r.0.Success? {
        assert out != "" by {
          var name := Paths.Stem(f) + ".md";
          assert |name| >= 1 by {
            assert |".md"| == 3;
          }
          Paths.JoinPathEndsWithName(outDir, name);
        }
        ConvertReturnsGivenPath(fs, dirs, unwritable, f, out, provider, style, convert, date);
      }
    }

    /** `batch_convert`, sequentially: the guards, the file selection, the
        output directory, then one conversion per file in order, counting
        the successes and the failures. */
    method BatchConvert(store: Files.Store, inputDir: string, outputDir: Option<string>, found: seq<string>,
                        provider: Option<string>, style: string, preserve: bool, size: int,
                        complete: Conversion.Completer, date: string)
      returns (r: Result<seq<string>, string>, failed: nat)
      requires size >= 1
      modifies store
      ensures store.dirs == old(store.dirs) && store.unwritable == old(store.unwritable)
      ensures !old(store.Exists(inputDir)) ==>
        r == Failure("Input directory not found: " + inputDir) && store.files == old(store.files)
      ensures old(store.Exists(inputDir)) && !store.IsDir(inputDir) ==>
        r == Failure("Input path is not a directory: " + inputDir) && store.files == old(store.files)
      ensures store.IsDir(inputDir) && Selected(old(store.files), found) == [] ==>
        r == Failure("No supported files found in " + inputDir + ". Supported formats: " + Join(Formats(), ", "))
        && store.files == old(store.files)
      ensures store.IsDir(inputDir) && Selected(old(store.files), found) != [] ==>
        var batch := Selected(old(store.files), found);
        var step := BatchStep(store.dirs, store.unwritable, BatchDir(inputDir, outputDir), provider, style,
                              Converting(size, style, preserve, complete), date);
        var t := Run(old(store.files), batch, |batch|, step);
        r == Success(t.successful) && failed == t.failed && store.files == t.files
    {
      failed := 0;
      if !store.Exists(inputDir) {
        return Failure("Input directory not found: " + inputDir), 0;
      }
      if !store.IsDir(inputDir) {
        return Failure("Input path is not a directory: " + inputDir), 0;
      }
      var files := SelectFiles(store, found);
      if files == [] {
        var formats := GetSupportedFormats();
        return Failure("No supported files found in " + inputDir + ". Supported formats: " + Join(formats, ", ")), 0;
      }
      var outputPath := BatchDir(inputDir, outputDir);
      var successful;
      successful, failed := ConvertEach(store, files, outputPath, provider, style, preserve, size, complete, date);
      r := Success(successful);
    }

    /** The conversion loop of `batch_convert`: each file in turn, each
        success recorded by its output path, each failure counted. */
    method ConvertEach(store: Files.Store, files: seq<string>, outDir: string,
                       provider: Option<string>, style: string, preserve: bool, size: int,
                       complete: Conversion.Completer, date: string)
      returns (successful: seq<string>, failed: nat)
      requires size >= 1
      modifies store
      ensures store.dirs == old(store.dirs) && store.unwritable == old(store.unwritable)
      ensures var step := BatchStep(store.dirs, store.unwritable, outDir, provider, style,
                                    Converting(size, style, preserve, complete), date);
        Run(old(store.files), files, |files|, step) == Tally(successful, failed, store.files)
    {
      ghost var step := BatchStep(store.dirs, store.unwritable, outDir, provider, style,
                                  Converting(size, style, preserve, complete), date);
      successful, failed := [], 0;
      for i := 0 to |files|
        invariant store.dirs == old(store.dirs) && store.unwritable == old(store.unwritable)
        invariant Run(old(store.files), files, i, step) == Tally(successful, failed, store.files)
      {
        ghost var before := store.files;
        var result := ConvertFile(store, files[i], Some(BatchOutput(outDir, files[i])),
                                  provider, style, preserve, size, complete, date);
        assert (result, store.files) == step(before, files[i]) by {
          BatchStepIs(before, store.dirs, store.unwritable, outDir, files[i], provider, style,
                      Converting(size, style, preserve, complete), date);
        }
        if result.Success? {
          successful := successful + [result.value];
        } else {
          failed := failed + 1;
        }
      }
    }

    lemma BatchStepIs(fs: map<string, string>, dirs: set<string>, unwritable: map<string, string>, outDir: string,
                      f: string, provider: Option<string>, style: string, convert: Converter, date: string)
      ensures BatchStep(dirs, unwritable, outDir, provider, style, convert, date)(fs, f)
        == Convert(fs, dirs, unwritable, f, Some(BatchOutput(outDir, f)), provider, style, convert, date)
    {
    }
  }
}

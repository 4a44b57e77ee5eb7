/** `MarkdownWriter.add_metadata` and `write_markdown`
    (src/claude_clis/tools/doc2md/markdown_writer.py): the YAML frontmatter
    block and the fixed order in which the enhancements are applied before the
    text is written. The metadata mapping is a sequence of fields in insertion
    order; its values are the dynamic values of the configuration model. */
module MarkdownWriter {
  import opened Base
  import opened Text
  import Settings
  import MarkdownClean
  import MarkdownTables
  import MarkdownToc
  import Files

  /** One frontmatter line: a string value in double quotes, not escaped;
      any other value by its `str()` text. */
  function MetaLine(f: Settings.Field): string
  {
    if f.value.Str? then f.name + ": \"" + f.value.s + "\""
    else f.name + ": " + Settings.Render(f.value)
  }

  function MetaLines(meta: seq<Settings.Field>): (ls: seq<string>)
    ensures |ls| == |meta| && forall k :: 0 <= k < |meta| ==> ls[k] == MetaLine(meta[k])
  {
    seq(|meta|, k requires 0 <= k < |meta| => MetaLine(meta[k]))
  }

  /** `add_metadata`. */
  function AddMetadata(content: string, meta: seq<Settings.Field>): string
  {
    if meta == [] then content
    else Join(["---"] + MetaLines(meta) + ["---", ""], "\n") + content
  }

  /** A non-empty mapping puts an opening rule, one line per field and a
      closing rule in front of the text; a single newline follows the closing
      rule, so no blank line separates it from the text. */
  lemma FrontmatterLayout(content: string, meta: seq<Settings.Field>)
    ensures meta == [] ==> AddMetadata(content, meta) == content
    ensures meta != [] ==>
      AddMetadata(content, meta) == "---\n" + Join(MetaLines(meta), "\n") + "\n---\n" + content
  {
    if meta != [] {
      var rule, nl := "---", "\n";
      Framed(rule, MetaLines(meta), nl);
      assert rule + nl == "---\n" && nl + rule + nl == "\n---\n";
    }
  }

  /** The frontmatter join, over names so that no literal is unfolded. */
  lemma Framed(rule: string, ls: seq<string>, sep: string)
    requires ls != []
    ensures Join([rule] + ls + [rule, ""], sep) == rule + sep + Join(ls, sep) + sep + rule + sep
  {
    JoinAppend([rule] + ls, [rule, ""], sep);
    JoinAppend([rule], ls, sep);
    assert Join([rule, ""], sep) == rule + sep + Join([""], sep);
  }

  /** Read back line by line, a frontmatter whose lines and text hold no
      newline gives the rule, the field lines, the rule and then the text
      itself as the very next line. */
  lemma FrontmatterLines(content: string, meta: seq<Settings.Field>)
    requires meta != [] && '\n' !in content
    requires forall k :: 0 <= k < |meta| ==> '\n' !in MetaLine(meta[k])
    ensures Split(AddMetadata(content, meta), '\n') == ["---"] + MetaLines(meta) + ["---", content]
  {
    FramedLines("---", MetaLines(meta), content, '\n');
  }

  /** The same over names: splitting a framed join followed by a line. */
  lemma FramedLines(rule: string, ls: seq<string>, content: string, sep: char)
    requires sep !in rule && sep !in content
    requires forall k :: 0 <= k < |ls| ==> sep !in ls[k]
    ensures Split(Join([rule] + ls + [rule, ""], [sep]) + content, sep) == [rule] + ls + [rule, content]
  {
    var x := [rule] + ls + [rule];
    var parts := x + [content];
    assert Join([rule] + ls + [rule, ""], [sep]) + content == Join(parts, [sep]) by {
      ClosingLine(x, content, [sep]);
      assert [rule] + ls + [rule, ""] == x + [""];
    }
    assert Split(Join(parts, [sep]), sep) == parts by {
      FramedPartsPlain(rule, ls, content, sep);
      SplitJoin(parts, sep);
    }
  }

  lemma FramedPartsPlain(rule: string, ls: seq<string>, content: string, sep: char)
    requires sep !in rule && sep !in content
    requires forall k :: 0 <= k < |ls| ==> sep !in ls[k]
    ensures var parts := [rule] + ls + [rule] + [content];
      forall k :: 0 <= k < |parts| ==> sep !in parts[k]
  {
    var parts := [rule] + ls + [rule] + [content];
    forall k | 0 <= k < |parts|
      ensures sep !in parts[k]
    {
      if 0 < k < |parts| - 2 {
        assert parts[k] == ls[k - 1];
      }
    }
  }

  /** Text appended after a join that ends in an empty part becomes that
      last part. */
  lemma ClosingLine(x: seq<string>, content: string, sep: string)
    requires x != []
    ensures Join(x + [""], sep) + content == Join(x + [content], sep)
  {
    JoinAppend(x, [""], sep);
    JoinAppend(x, [content], sep);
  }

  /** A string value is written verbatim between the quotes. */
  lemma QuotedValue(name: string, v: string)
    ensures var line := MetaLine(Settings.Field(name, Settings.Str(v)));
      |line| == |name| + |v| + 4 && line[..|name|] == name
      && line[|name| + 3..|line| - 1] == v && line[|line| - 1] == '"'
  {
    var line := MetaLine(Settings.Field(name, Settings.Str(v)));
    assert line == name + ": \"" + v + "\"";
  }

  /** The text `write_markdown` writes: clean, then reflow tables, then add
      the table of contents, then the frontmatter, each only when asked for. */
  function Enhanced(content: string, addToc: bool, clean: bool, meta: seq<Settings.Field>, formatTables: bool)
    : string
  {
    var c1 := if clean then MarkdownClean.Clean(content) else content;
    var c2 := if formatTables then MarkdownTables.FormatTables(c1) else c1;
    var c3 := if addToc then MarkdownToc.AddToc(c2) else c2;
    AddMetadata(c3, meta)
  }

  /** The frontmatter is applied last, so whatever else is enabled it opens
      the written text, and the enhanced body follows it. */
  lemma FrontmatterFirst(content: string, addToc: bool, clean: bool, meta: seq<Settings.Field>, formatTables: bool)
    requires meta != []
    ensures var r := Enhanced(content, addToc, clean, meta, formatTables);
      var body := Enhanced(content, addToc, clean, [], formatTables);
      StartsWith(r, "---\n") && |body| <= |r| && r[|r| - |body|..] == body
  {
    var body := Enhanced(content, addToc, clean, [], formatTables);
    FrontmatterLayout(body, meta);
    var head := "---\n" + Join(MetaLines(meta), "\n") + "\n---\n";
    assert Enhanced(content, addToc, clean, meta, formatTables) == "---\n" + (Join(MetaLines(meta), "\n") + "\n---\n" + body);
    assert Enhanced(content, addToc, clean, meta, formatTables) == head + body;
  }

  /** With cleaning only, the written text ends in one newline with no
      whitespace before it. */
  lemma CleanOnlyEnding(content: string)
    ensures var r := Enhanced(content, false, true, [], false);
      |r| >= 1 && r[|r| - 1] == '\n' && (|r| == 1 || !IsSpace(r[|r| - 2]))
  {
    MarkdownClean.CleanShape(content);
  }

  /** `write_markdown`: the content is reassigned step by step and written
      whole, once, to the output path. */
  method WriteMarkdown(store: Files.Store, content: string, outputPath: string, addToc: bool, clean: bool,
                       meta: seq<Settings.Field>, formatTables: bool)
    returns (err: Option<string>)
    modifies store
    ensures err == old(store.WriteError(outputPath))
    ensures err.None? ==>
      store.files == old(store.files)[outputPath := Enhanced(content, addToc, clean, meta, formatTables)]
    ensures err.Some? ==> store.files == old(store.files)
    ensures store.dirs == old(store.dirs) && store.unwritable == old(store.unwritable)
  {
    var text := content;
    if clean {
      text := MarkdownClean.Clean(text);
    }
    if formatTables {
      text := MarkdownTables.FormatTables(text);
    }
    if addToc {
      text := MarkdownToc.AddToc(text);
    }
    if meta != [] {
      text := AddMetadata(text, meta);
    }
    err := store.Write(outputPath, text);
  }
}

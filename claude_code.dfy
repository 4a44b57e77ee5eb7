/** The Claude Code integration of src/claude_clis/commands/claude_code.py:
    the command record, the four commands `register` installs, the
    skip-or-write partition over the command files, and the file pattern
    `unregister` removes. The JSON text written for a record is a parameter
    (`json.dump` is not modelled). */
module ClaudeCode {
  import opened Base
  import opened Text
  import Paths
  import Files

  /** A Claude Code command configuration, as `create_claude_command`
      builds it. */
  datatype Command = Command(name: string, description: string, command: string,
                             workingDirectory: string, tags: seq<string>, version: string)

  const Version := "1.0.0"

  /** `create_claude_command`: a missing or empty working directory becomes
      ".", missing or empty tags become none. */
  function CreateClaudeCommand(name: string, description: string, command: string,
                               workingDir: Option<string>, tags: Option<seq<string>>): (c: Command)
    ensures c.name == name && c.description == description && c.command == command && c.version == Version
    ensures c.workingDirectory != ""
    ensures workingDir.Some? && workingDir.value != "" ==> c.workingDirectory == workingDir.value
    ensures workingDir.None? || workingDir.value == "" ==> c.workingDirectory == "."
    ensures tags.Some? ==> c.tags == tags.value
    ensures tags.None? ==> c.tags == []
  {
    Command(name, description, command,
            if workingDir.Some? && workingDir.value != "" then workingDir.value else ".",
            if tags.Some? && tags.value != [] then tags.value else [],
            Version)
  }

  /** Rebuilding a record from its own fields gives it back: the defaults
      never replace a value the builder produced. */
  lemma RebuildUnchanged(name: string, description: string, command: string,
                         workingDir: Option<string>, tags: Option<seq<string>>)
    ensures var c := CreateClaudeCommand(name, description, command, workingDir, tags);
      CreateClaudeCommand(c.name, c.description, c.command, Some(c.workingDirectory), Some(c.tags)) == c
  {
  }

  /** One command to register: its file name (without ".json") and its
      record. */
  datatype Entry = Entry(filename: string, config: Command)

  const Doc2mdName := "-doc2md"
  const BatchName := "-doc2md-batch"
  const ConfigName := "-config"
  const HelpName := "-help"
  const PromptArg := " {{prompt}}"

  /** The entry for one tool: the file name is the prefix and the tool's
      name, the command name is the file name after a '/'. */
  function MakeEntry(prefix: string, tool: string, description: string, command: string, dir: string,
                     tags: seq<string>): Entry
  {
    Entry(prefix + tool, CreateClaudeCommand("/" + (prefix + tool), description, command, Some(dir), Some(tags)))
  }

  /** The four commands `register` defines, for the name prefix, the path of
      the executable and the working directory. */
  function Entries(prefix: string, exe: string, dir: string): seq<Entry>
  {
    [ MakeEntry(prefix, Doc2mdName, "Convert documents to Markdown using AI", exe + " doc2md convert" + PromptArg, dir,
                ["document", "conversion", "ai", "markdown"]),
      MakeEntry(prefix, BatchName, "Batch convert documents to Markdown", exe + " doc2md batch" + PromptArg, dir,
                ["document", "conversion", "ai", "batch"]),
      MakeEntry(prefix, ConfigName, "Manage claude-clis configuration", exe + " config" + PromptArg, dir,
                ["configuration", "setup"]),
      MakeEntry(prefix, HelpName, "Show claude-clis help and available commands", exe + " --help", dir,
                ["help", "documentation"]) ]
  }

  /** Exactly four entries, with the files {prefix}-doc2md, -doc2md-batch,
      -config and -help; each command is named by its file with a leading
      '/', runs in the given directory (or "." for an empty one) and has
      version "1.0.0". */
  lemma EntriesShape(prefix: string, exe: string, dir: string)
    ensures var es := Entries(prefix, exe, dir);
      |es| == 4
      && es[0].filename == prefix + Doc2mdName && es[1].filename == prefix + BatchName
      && es[2].filename == prefix + ConfigName && es[3].filename == prefix + HelpName
      && (forall i :: 0 <= i < 4 ==> es[i].config.name == "/" + es[i].filename)
      && (forall i :: 0 <= i < 4 ==> es[i].config.workingDirectory == (if dir != "" then dir else "."))
      && (forall i :: 0 <= i < 4 ==> es[i].config.version == Version)
  {
  }

  /** The four file names are different, and so are the four command names. */
  lemma EntriesDistinct(prefix: string, exe: string, dir: string)
    ensures var es := Entries(prefix, exe, dir);
      (forall i, j :: 0 <= i < j < |es| ==> es[i].filename != es[j].filename)
      && (forall i, j :: 0 <= i < j < |es| ==> es[i].config.name != es[j].config.name)
  {
    EntriesShape(prefix, exe, dir);
    var n := |prefix|;
    var es := Entries(prefix, exe, dir);
    var a, b, c, d := es[0].filename, es[1].filename, es[2].filename, es[3].filename;
    assert |a| == n + 7 && |b| == n + 13 && |c| == n + 7 && |d| == n + 5;
    assert a[n + 1] == 'd' && c[n + 1] == 'c' by {
      assert a[n..] == Doc2mdName && c[n..] == ConfigName;
    }
    forall i, j | 0 <= i < j < 4
      ensures es[i].config.name != es[j].config.name
    {
      assert es[i].config.name[1..] == es[i].filename;
      assert es[j].config.name[1..] == es[j].filename;
    }
  }

  // ------------------------------------------------------------- register

  /** The JSON file of an entry in the commands directory. */
  function CommandFile(commandsDir: string, filename: string): string
  {
    Paths.JoinPath(commandsDir, filename + ".json")
  }

  /** Different file names give different command files. */
  lemma CommandFileInjective(commandsDir: string, a: string, b: string)
    requires CommandFile(commandsDir, a) == CommandFile(commandsDir, b)
    ensures a == b
  {
    Paths.JoinPathInjective(commandsDir, a + ".json", b + ".json");
    assert a == (a + ".json")[..|a|];
  }

  /** The bookkeeping of a registration: the names written, the names
      skipped, and the file contents afterwards. */
  datatype Registration = Registration(registered: seq<string>, skipped: seq<string>, files: map<string, string>)

  /** The state after the first n entries of the loop in `register`: an
      entry whose file exists is skipped unless forced; otherwise its record
      is written, and a failed write puts it in neither list. */
  function Registering(files0: map<string, string>, dirs: set<string>, unwritable: map<string, string>,
                       commandsDir: string, es: seq<Entry>, force: bool, render: Command -> string, n: nat)
    : (g: Registration)
    requires n <= |es|
    ensures |g.registered| + |g.skipped| <= n
  {
    if n == 0 then Registration([], [], files0)
    else
      var g := Registering(files0, dirs, unwritable, commandsDir, es, force, render, n - 1);
      var e := es[n - 1];
      var f := CommandFile(commandsDir, e.filename);
      if (f in g.files || f in dirs) && !force then Registration(g.registered, g.skipped + [e.config.name], g.files)
      else if Files.OpenError(dirs, unwritable, f).None? then
        Registration(g.registered + [e.config.name], g.skipped, g.files[f := render(e.config)])
      else g
  }

  /** Whether entry k's file existed before the registration. */
  predicate Existed(files0: map<string, string>, dirs: set<string>, commandsDir: string, es: seq<Entry>, k: nat)
    requires k < |es|
  {
    CommandFile(commandsDir, es[k].filename) in files0 || CommandFile(commandsDir, es[k].filename) in dirs
  }

  predicate DistinctEntries(es: seq<Entry>)
  {
    (forall i, j :: 0 <= i < j < |es| ==> es[i].filename != es[j].filename)
    && (forall i, j :: 0 <= i < j < |es| ==> es[i].config.name != es[j].config.name)
  }

  /** The loop only touches the files of the entries it has handled. */
  lemma {:induction false} RegisteringFrame(files0: map<string, string>, dirs: set<string>,
                                            unwritable: map<string, string>, commandsDir: string, es: seq<Entry>,
                                            force: bool, render: Command -> string, n: nat, f: string)
    requires n <= |es|
    requires forall j :: 0 <= j < n ==> f != CommandFile(commandsDir, es[j].filename)
    ensures f in Registering(files0, dirs, unwritable, commandsDir, es, force, render, n).files <==> f in files0
  {
    if n > 0 {
      RegisteringFrame(files0, dirs, unwritable, commandsDir, es, force, render, n - 1, f);
    }
  }

  /** The lists name only entries already handled. */
  lemma {:induction false} RegisteringNamesSoFar(files0: map<string, string>, dirs: set<string>,
                                                 unwritable: map<string, string>, commandsDir: string, es: seq<Entry>,
                                                 force: bool, render: Command -> string, n: nat, x: string)
    requires n <= |es|
    requires forall j :: 0 <= j < n ==> x != es[j].config.name
    ensures var g := Registering(files0, dirs, unwritable, commandsDir, es, force, render, n);
      x !in g.registered && x !in g.skipped
  {
    if n > 0 {
      RegisteringNamesSoFar(files0, dirs, unwritable, commandsDir, es, force, render, n - 1, x);
    }
  }

  /** With distinct file and command names, entry k is skipped exactly when
      its file existed and the run is not forced, and registered exactly when
      it was not skipped and its file could be opened for writing; an entry
      whose write fails is in neither list. */
  lemma {:induction false} RegisteringExactAt(files0: map<string, string>, dirs: set<string>,
                                              unwritable: map<string, string>, commandsDir: string, es: seq<Entry>,
                                              force: bool, render: Command -> string, n: nat, k: nat)
    requires k < n <= |es| && DistinctEntries(es)
    ensures var g := Registering(files0, dirs, unwritable, commandsDir, es, force, render, n);
      (es[k].config.name in g.skipped <==> Existed(files0, dirs, commandsDir, es, k) && !force)
      && (es[k].config.name in g.registered <==>
            !(Existed(files0, dirs, commandsDir, es, k) && !force)
            && Files.OpenError(dirs, unwritable, CommandFile(commandsDir, es[k].filename)).None?)
  {
    var e := es[k];
    if k < n - 1 {
      RegisteringExactAt(files0, dirs, unwritable, commandsDir, es, force, render, n - 1, k);
      assert es[n - 1].config.name != e.config.name;
    } else {
      var f := CommandFile(commandsDir, e.filename);
      assert f in Registering(files0, dirs, unwritable, commandsDir, es, force, render, k).files <==> f in files0 by {
        forall j | 0 <= j < k
          ensures f != CommandFile(commandsDir, es[j].filename)
        {
          if f == CommandFile(commandsDir, es[j].filename) {
            CommandFileInjective(commandsDir, e.filename, es[j].filename);
          }
        }
        RegisteringFrame(files0, dirs, unwritable, commandsDir, es, force, render, k, f);
      }
      assert e.config.name !in Registering(files0, dirs, unwritable, commandsDir, es, force, render, k).registered
        && e.config.name !in Registering(files0, dirs, unwritable, commandsDir, es, force, render, k).skipped by {
        RegisteringNamesSoFar(files0, dirs, unwritable, commandsDir, es, force, render, k, e.config.name);
      }
    }
  }

  /** A forced registration skips nothing. */
  lemma {:induction false} ForcedSkipsNothing(files0: map<string, string>, dirs: set<string>,
                                              unwritable: map<string, string>, commandsDir: string, es: seq<Entry>,
                                              render: Command -> string, n: nat)
    requires n <= |es|
    ensures Registering(files0, dirs, unwritable, commandsDir, es, true, render, n).skipped == []
  {
    if n > 0 {
      ForcedSkipsNothing(files0, dirs, unwritable, commandsDir, es, render, n - 1);
    }
  }

  const NotInstalledMsg := "Claude Code not found. Please install Claude Code first."
  const NotOnPathMsg := "claude-clis not found in PATH. Please ensure it's installed and accessible."

  /** `register`: the two abort guards (Claude Code's directory, the
      executable on PATH), then one write or skip per entry, in order. The
      working directory is the given one, else the current directory. */
  method Register(store: Files.Store, claudeDirExists: bool, commandsDir: string, prefix: string,
                  workingDir: Option<string>, cwd: string, which: Option<string>, force: bool,
                  render: Command -> string)
    returns (r: Result<(seq<string>, seq<string>), string>)
    modifies store
    ensures store.dirs == old(store.dirs) && store.unwritable == old(store.unwritable)
    ensures !claudeDirExists ==> r == Failure(NotInstalledMsg) && store.files == old(store.files)
    ensures claudeDirExists && (which.None? || which.value == "") ==>
      r == Failure(NotOnPathMsg) && store.files == old(store.files)
    ensures claudeDirExists && which.Some? && which.value != "" ==>
      var dir := if workingDir.Some? && workingDir.value != "" then workingDir.value else cwd;
      var g := Registering(old(store.files), store.dirs, store.unwritable, commandsDir,
                           Entries(prefix, which.value, dir), force, render, 4);
      r == Success((g.registered, g.skipped)) && store.files == g.files
  {
    if !claudeDirExists {
      return Failure(NotInstalledMsg);
    }
    var currentDir := if workingDir.Some? && workingDir.value != "" then workingDir.value else cwd;
    if which.None? || which.value == "" {
      return Failure(NotOnPathMsg);
    }
    var commands := Entries(prefix, which.value, currentDir);
    var registered, skipped := RegisterEach(store, commandsDir, commands, force, render);
    r := Success((registered, skipped));
  }

  /** The loop of `register`. */
  method RegisterEach(store: Files.Store, commandsDir: string, es: seq<Entry>, force: bool, render: Command -> string)
    returns (registered: seq<string>, skipped: seq<string>)
    modifies store
    ensures store.dirs == old(store.dirs) && store.unwritable == old(store.unwritable)
    ensures Registering(old(store.files), store.dirs, store.unwritable, commandsDir, es, force, render, |es|)
      == Registration(registered, skipped, store.files)
  {
    registered, skipped := [], [];
    for i := 0 to |es|
      invariant store.dirs == old(store.dirs) && store.unwritable == old(store.unwritable)
      invariant Registering(old(store.files), store.dirs, store.unwritable, commandsDir, es, force, render, i)
        == Registration(registered, skipped, store.files)
    {
      var cmdFile := CommandFile(commandsDir, es[i].filename);
      if store.Exists(cmdFile) && !force {
        skipped := skipped + [es[i].config.name];
        continue;
      }
      var err := store.Write(cmdFile, render(es[i].config));
      if err.None? {
        registered := registered + [es[i].config.name];
      }
    }
  }

  /** For the four commands: each is skipped exactly when its file exists
      and the run is not forced, and registered exactly when it is not
      skipped and its file can be written. */
  lemma RegisterPartition(files0: map<string, string>, dirs: set<string>, unwritable: map<string, string>,
                          commandsDir: string, prefix: string, exe: string, dir: string, force: bool,
                          render: Command -> string)
    ensures var es := Entries(prefix, exe, dir);
      var g := Registering(files0, dirs, unwritable, commandsDir, es, force, render, 4);
      forall k :: 0 <= k < 4 ==>
        (es[k].config.name in g.skipped <==> Existed(files0, dirs, commandsDir, es, k) && !force)
        && (es[k].config.name in g.registered <==>
              !(Existed(files0, dirs, commandsDir, es, k) && !force)
              && Files.OpenError(dirs, unwritable, CommandFile(commandsDir, es[k].filename)).None?)
  {
    EntriesDistinct(prefix, exe, dir);
    forall k | 0 <= k < 4 {
      RegisteringExactAt(files0, dirs, unwritable, commandsDir, Entries(prefix, exe, dir), force, render, 4, k);
    }
  }

  // ----------------------------------------------------------- unregister

  const AllPrefix := "claude-clis"

  /** The prefix of the files `unregister` removes: the given name, or
      "claude-clis" with --all whatever the name. */
  function UnregisterPrefix(prefix: string, all: bool): string
  {
    if all then AllPrefix else prefix
  }

  /** `unregister`'s glob: the prefix, a dash and anything. */
  function UnregisterPattern(prefix: string, all: bool): string
  {
    UnregisterPrefix(prefix, all) + "-*"
  }

  /** Whether a file name matches the glob "{prefix}-*.json". */
  predicate MatchesPattern(file: string, prefix: string)
  {
    StartsWith(file, prefix + "-") && |file| >= |prefix| + 1 + 5 && file[|file| - 5..] == ".json"
  }

  /** A name made of the prefix and a tool starting with a dash matches the
      prefix's pattern once ".json" is added. */
  lemma ToolFileMatches(prefix: string, tool: string)
    requires tool != [] && tool[0] == '-'
    ensures MatchesPattern(prefix + tool + ".json", prefix)
  {
    var f := prefix + tool + ".json";
    assert f[..|prefix| + 1] == prefix + "-";
  }

  /** Unregistering removes what registering wrote: every command file of
      the four matches the pattern for its prefix, and, for the default
      prefix, the --all pattern as well. */
  lemma UnregisterFindsRegistered(prefix: string, exe: string, dir: string, all: bool)
    requires all ==> prefix == AllPrefix
    ensures var es := Entries(prefix, exe, dir);
      forall k :: 0 <= k < |es| ==> MatchesPattern(es[k].filename + ".json", UnregisterPrefix(prefix, all))
  {
    EntriesShape(prefix, exe, dir);
    ToolFileMatches(prefix, Doc2mdName);
    ToolFileMatches(prefix, BatchName);
    ToolFileMatches(prefix, ConfigName);
    ToolFileMatches(prefix, HelpName);
  }

  /** What `json.load` of a command file gives, as far as `unregister` looks
      at it: an error, a JSON value that is not an object (it has no `.get`),
      or an object with or without a string "name". */
  datatype Loaded = Unloadable(error: string) | NotObject | Object(name: Option<string>)

  /** What one `unregister` run does: the file names and command names
      removed, and the file names whose removal failed. */
  datatype Unregistration = Unregistration(removed: seq<string>, failed: seq<string>, files: map<string, string>)

  /** The name a removed file is reported by: the "name" of its JSON
      object, or the file's stem when the object has none. */
  function ReportedName(file: string, name: Option<string>): string
  {
    if name.Some? then name.value else Paths.Stem(file)
  }

  /** The state after the first n listed files: a file that cannot be read
      or does not load as JSON is reported as failed and kept; a file whose
      JSON is not an object is deleted (the `unlink` comes before `.get`)
      and then reported as failed; any other file is deleted and its name
      reported. */
  function Unregistering(files0: map<string, string>, found: seq<string>,
                         load: string -> Loaded, n: nat): (u: Unregistration)
    requires n <= |found|
    ensures |u.removed| + |u.failed| == n
    ensures u.files.Keys <= files0.Keys
    ensures forall p :: p in u.files ==> u.files[p] == files0[p]
  {
    if n == 0 then Unregistration([], [], files0)
    else
      var u := Unregistering(files0, found, load, n - 1);
      var f := found[n - 1];
      if f !in u.files then Unregistration(u.removed, u.failed + [Paths.Name(f)], u.files)
      else match load(u.files[f])
        case Unloadable(_) => Unregistration(u.removed, u.failed + [Paths.Name(f)], u.files)
        case NotObject => Unregistration(u.removed, u.failed + [Paths.Name(f)], u.files - {f})
        case Object(name) => Unregistration(u.removed + [ReportedName(f, name)], u.failed, u.files - {f})
  }

  /** A file not listed keeps its text. */
  lemma {:induction false} UnregisteringFrame(files0: map<string, string>, found: seq<string>,
                                              load: string -> Loaded, n: nat, f: string)
    requires n <= |found| && f in files0
    requires forall j :: 0 <= j < n ==> found[j] != f
    ensures var u := Unregistering(files0, found, load, n);
      f in u.files && u.files[f] == files0[f]
  {
    if n > 0 {
      UnregisteringFrame(files0, found, load, n - 1, f);
    }
  }

  /** With each file listed once, listed file k is gone afterwards exactly
      when it was missing or its JSON loaded; a file not listed is left as
      it was. */
  lemma {:induction false} UnregisteringExactAt(files0: map<string, string>, found: seq<string>,
                                                load: string -> Loaded, n: nat, k: nat)
    requires k < n <= |found|
    requires forall i, j :: 0 <= i < j < |found| ==> found[i] != found[j]
    ensures var u := Unregistering(files0, found, load, n);
      found[k] !in u.files <==> found[k] !in files0 || !load(files0[found[k]]).Unloadable?
  {
    var f := found[k];
    if k < n - 1 {
      UnregisteringExactAt(files0, found, load, n - 1, k);
      assert found[n - 1] != f;
    } else if f in files0 {
      UnregisteringFrame(files0, found, load, k, f);
    }
  }

  /** Whether stored path p is an entry of directory dir that the glob
      "{prefix}-*.json" selects. */
  predicate Selected(p: string, dir: string, prefix: string)
  {
    |dir| + 1 < |p| && p[..|dir| + 1] == dir + "/" && '/' !in p[|dir| + 1..]
    && MatchesPattern(p[|dir| + 1..], prefix)
  }

  /** `found` lists, once each and in some order, exactly the stored paths
      the glob selects. */
  predicate Listing(paths: set<string>, dir: string, prefix: string, found: seq<string>)
  {
    (forall i, j :: 0 <= i < j < |found| ==> found[i] != found[j])
    && (forall i :: 0 <= i < |found| ==> found[i] in paths && Selected(found[i], dir, prefix))
    && (forall p :: p in paths && Selected(p, dir, prefix) ==> p in found)
  }

  /** After the loop over a listing, a file is gone exactly when the glob
      selected it and its text loads as JSON; every other file keeps its
      text, and no file appears. */
  lemma RemovedExactly(files0: map<string, string>, paths: set<string>, dir: string, prefix: string,
                       found: seq<string>, load: string -> Loaded)
    requires files0.Keys <= paths && Listing(paths, dir, prefix, found)
    ensures var u := Unregistering(files0, found, load, |found|);
      forall p :: p in files0 ==>
        (p !in u.files <==> Selected(p, dir, prefix) && !load(files0[p]).Unloadable?)
  {
    var u := Unregistering(files0, found, load, |found|);
    forall p | p in files0
      ensures p !in u.files <==> Selected(p, dir, prefix) && !load(files0[p]).Unloadable?
    {
      if Selected(p, dir, prefix) {
        var k :| 0 <= k < |found| && found[k] == p;
        UnregisteringExactAt(files0, found, load, |found|, k);
      } else {
        UnregisteringFrame(files0, found, load, |found|, p);
      }
    }
  }

  /** What `unregister` reports. */
  datatype Unregistered = NoCommandsDir | NoMatches(pattern: string) | Removed(removed: seq<string>, failed: seq<string>)

  /** `unregister`: nothing when the commands directory does not exist or
      the glob selects nothing; otherwise each listed file, in the order the
      glob lists them, is read for its name and deleted. `found` is that
      listing, and `load` stands for `json.load`. */
  method Unregister(store: Files.Store, commandsDir: string, prefix: string, all: bool, found: seq<string>,
                    load: string -> Loaded)
    returns (r: Unregistered)
    requires Listing(store.files.Keys + store.dirs, commandsDir, UnregisterPrefix(prefix, all), found)
    modifies store
    ensures store.dirs == old(store.dirs) && store.unwritable == old(store.unwritable)
    ensures !old(store.Exists(commandsDir)) ==> r == NoCommandsDir && store.files == old(store.files)
    ensures old(store.Exists(commandsDir)) && found == [] ==>
      r == NoMatches(UnregisterPattern(prefix, all)) && store.files == old(store.files)
    ensures old(store.Exists(commandsDir)) && found != [] ==>
      var u := Unregistering(old(store.files), found, load, |found|);
      r == Removed(u.removed, u.failed) && store.files == u.files
    ensures old(store.Exists(commandsDir)) ==>
      forall p :: p in old(store.files) ==>
        (p !in store.files <==> Selected(p, commandsDir, UnregisterPrefix(prefix, all)) && !load(old(store.files)[p]).Unloadable?)
    ensures forall p :: p in store.files ==> p in old(store.files) && store.files[p] == old(store.files)[p]
  {
    if !store.Exists(commandsDir) {
      return NoCommandsDir;
    }
    var pattern := UnregisterPattern(prefix, all);
    if found == [] {
      return NoMatches(pattern);
    }
    RemovedExactly(store.files, store.files.Keys + store.dirs, commandsDir, UnregisterPrefix(prefix, all), found, load);
    var removed, failed := UnregisterEach(store, found, load);
    r := Removed(removed, failed);
  }

  /** The loop of `unregister`. */
  method UnregisterEach(store: Files.Store, found: seq<string>, load: string -> Loaded)
    returns (removed: seq<string>, failed: seq<string>)
    modifies store
    ensures store.dirs == old(store.dirs) && store.unwritable == old(store.unwritable)
    ensures Unregistering(old(store.files), found, load, |found|) == Unregistration(removed, failed, store.files)
  {
    removed, failed := [], [];
    for i := 0 to |found|
      invariant store.dirs == old(store.dirs) && store.unwritable == old(store.unwritable)
      invariant Unregistering(old(store.files), found, load, i) == Unregistration(removed, failed, store.files)
    {
      var cmdFile := found[i];
      if !store.IsFile(cmdFile) {
        failed := failed + [Paths.Name(cmdFile)];
        continue;
      }
      var config := load(store.files[cmdFile]);
      if config.Unloadable? {
        failed := failed + [Paths.Name(cmdFile)];
        continue;
      }
      store.Remove(cmdFile);
      if config.NotObject? {
        failed := failed + [Paths.Name(cmdFile)];
      } else {
        removed := removed + [ReportedName(cmdFile, config.name)];
      }
    }
  }
}

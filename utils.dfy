/** The small helpers of src/claude_clis/shared/utils.py: file-name
    sanitising, the extension check, the output-path and relative-path rules,
    the backup-name search and the log-level filter of `CLIContext`. */
module Utils {
  import opened Base
  import opened Text
  import Paths
  import Files

  // ------------------------------------------------------------ file names

  /** The characters `sanitize_filename` replaces by '_'. */
  const Forbidden: set<char> := {'<', '>', ':', '"', '/', '\\', '|', '?', '*'}

  /** The characters it then strips from both ends. */
  const DotSpace: set<char> := {'.', ' '}

  /** The longest name it returns. */
  const MaxNameLength := 255

  /** The character-class substitution: one '_' for each forbidden character. */
  function ReplaceForbidden(s: string): (r: string)
    ensures |r| == |s|
    ensures forall k :: 0 <= k < |r| ==> r[k] !in Forbidden
    ensures forall k :: 0 <= k < |s| && s[k] !in Forbidden ==> r[k] == s[k]
    ensures forall k :: 0 <= k < |s| && s[k] in Forbidden ==> r[k] == '_'
  {
    seq(|s|, k requires 0 <= k < |s| => if s[k] in Forbidden then '_' else s[k])
  }

  /** `sanitize_filename`: substitute, strip dots and spaces, keep the first
      255 characters. */
  function SanitizeFilename(name: string): string
  {
    var t := Trim(ReplaceForbidden(name), DotSpace);
    if |t| > MaxNameLength then t[..MaxNameLength] else t
  }

  /** A sanitised name has no forbidden character. */
  lemma SanitizeNoForbidden(name: string)
    ensures forall k :: 0 <= k < |SanitizeFilename(name)| ==> SanitizeFilename(name)[k] !in Forbidden
  {
    var s := ReplaceForbidden(name);
    var l := TrimLeft(s, DotSpace);
    var t := TrimRight(l, DotSpace);
    var r := SanitizeFilename(name);
    forall k | 0 <= k < |r|
      ensures r[k] !in Forbidden
    {
      assert r[k] == t[k] == l[k];
      assert l[k] == s[|s| - |l| + k];
    }
  }

  /** It is the stripped substitution cut to at most 255 characters, and
      does not start with a dot or a space. */
  lemma SanitizeShape(name: string)
    ensures var r := SanitizeFilename(name);
      var t := Trim(ReplaceForbidden(name), DotSpace);
      |r| == Min(|t|, MaxNameLength) && r == t[..|r|] && (r == [] || r[0] !in DotSpace)
  {
    TrimEnds(ReplaceForbidden(name), DotSpace);
  }

  /** It is empty exactly when the name is all dots and spaces, once the
      forbidden characters are replaced (so a name of only forbidden
      characters becomes underscores, never empty). */
  lemma SanitizeEmptyIff(name: string)
    ensures SanitizeFilename(name) == [] <==> forall k :: 0 <= k < |name| ==> name[k] in DotSpace
  {
    var s := ReplaceForbidden(name);
    assert SanitizeFilename(name) == [] <==> Trim(s, DotSpace) == [];
    assert Trim(s, DotSpace) == [] <==> forall k :: 0 <= k < |s| ==> s[k] in DotSpace by {
      TrimEmptyIff(s, DotSpace);
    }
    assert (forall k :: 0 <= k < |s| ==> s[k] in DotSpace) <==> (forall k :: 0 <= k < |name| ==> name[k] in DotSpace) by {
      forall k | 0 <= k < |name|
        ensures s[k] in DotSpace <==> name[k] in DotSpace
      {
        if name[k] in Forbidden {
          assert s[k] == '_' && name[k] !in DotSpace by {
            ForbiddenNotStripped(name[k]);
          }
          assert '_' !in DotSpace;
        } else {
          assert s[k] == name[k];
        }
      }
    }
  }

  /** No forbidden character is one that is stripped. */
  lemma ForbiddenNotStripped(c: char)
    requires c in Forbidden
    ensures c !in DotSpace
  {
  }

  /** A name that is already safe (no forbidden character, no dot or space
      at either end, at most 255 long) is left as it is. */
  lemma SafeNameUnchanged(name: string)
    requires forall k :: 0 <= k < |name| ==> name[k] !in Forbidden
    requires name == [] || (name[0] !in DotSpace && name[|name| - 1] !in DotSpace)
    requires |name| <= MaxNameLength
    ensures SanitizeFilename(name) == name
  {
    var s := ReplaceForbidden(name);
    assert s == name;
    assert TrimLeft(s, DotSpace) == s;
    assert TrimRight(s, DotSpace) == s;
  }

  /** The cut can leave a dot or a space at the end, which a second pass
      strips: whenever the 255th character of the stripped substitution is a
      dot or a space, sanitising twice differs from sanitising once. */
  lemma SanitizeTwiceDiffers(name: string)
    requires var t := Trim(ReplaceForbidden(name), DotSpace); |t| > MaxNameLength && t[MaxNameLength - 1] in DotSpace
    ensures SanitizeFilename(SanitizeFilename(name)) != SanitizeFilename(name)
  {
    var r := SanitizeFilename(name);
    assert |r| == MaxNameLength && r[|r| - 1] in DotSpace;
    var s := ReplaceForbidden(r);
    assert s == r;
    assert |Trim(s, DotSpace)| < |r| by {
      var l := TrimLeft(s, DotSpace);
      if l != [] {
        assert l[|l| - 1] == s[|s| - 1];
      }
    }
  }

  /** Such names exist: 254 letters, a space and one more letter. */
  lemma SanitizeNotIdempotent()
    ensures exists name :: SanitizeFilename(SanitizeFilename(name)) != SanitizeFilename(name)
  {
    var name := Repeat('a', MaxNameLength - 1) + [' ', 'b'];
    var s := ReplaceForbidden(name);
    assert s == name;
    assert TrimLeft(s, DotSpace) == s;
    assert TrimRight(s, DotSpace) == s;
    assert name[MaxNameLength - 1] == ' ';
    SanitizeTwiceDiffers(name);
  }

  // ------------------------------------------------------------ extensions

  /** `get_file_extension`: the lowercased last suffix. */
  function FileExtension(path: string): (ext: string)
    ensures ext == [] || (|ext| >= 2 && ext[0] == '.')
    ensures forall k :: 0 <= k < |ext| ==> !IsUpper(ext[k])
  {
    Lower(Paths.Suffix(path))
  }

  /** The extensions `is_supported_document` accepts. */
  const DocumentExtensions: set<string> := {".pdf", ".docx", ".doc", ".txt", ".md"}

  /** `is_supported_document`. */
  predicate IsSupportedDocument(path: string)
  {
    FileExtension(path) in DocumentExtensions
  }

  // ----------------------------------------------------------- output path

  /** `validate_output_path`: the given path if non-empty, else the input
      with its suffix replaced; `None` where `with_suffix` raises. */
  function ValidateOutputPath(output: Option<string>, input: string, ext: string): (r: Option<string>)
    ensures output.Some? && output.value != "" ==> r == Some(output.value)
    ensures (output.None? || output.value == "") ==> (r.Some? <==> Paths.ValidSuffix(ext) && Paths.Name(input) != [])
  {
    if output.Some? && output.value != "" then Some(output.value) else Paths.WithSuffix(input, ext)
  }

  /** With no output given and a plain extension, the result sits beside the
      input, with the input's stem and the new extension. */
  lemma DefaultOutputBesideInput(input: string, ext: string)
    requires Paths.Name(input) != []
    requires |ext| >= 2 && ext[0] == '.' && '.' !in ext[1..] && '/' !in ext
    ensures var r := ValidateOutputPath(None, input, ext);
      r.Some? && Paths.Dir(r.value) == Paths.Dir(input) && Paths.Stem(r.value) == Paths.Stem(input)
      && Paths.Suffix(r.value) == ext
  {
    Paths.WithSuffixSetsSuffix(input, ext);
  }

  // --------------------------------------------------------- relative path

  /** `Path.relative_to` on parts: the parts after `base`'s, when `base`'s
      parts are a prefix of the path's. */
  function RelativeParts(path: string, base: string): (r: Option<seq<string>>)
    ensures r.Some? <==> |Paths.Parts(base)| <= |Paths.Parts(path)| && Paths.Parts(path)[..|Paths.Parts(base)|] == Paths.Parts(base)
    ensures r.Some? ==> Paths.Parts(base) + r.value == Paths.Parts(path)
  {
    var b, p := Paths.Parts(base), Paths.Parts(path);
    if |b| <= |p| && p[..|b|] == b then
      assert b + p[|b|..] == p;
      Some(p[|b|..])
    else None
  }

  /** `get_relative_path`: relative to the given base, or to the working
      directory when none (or an empty one) is given; the path itself when
      it does not lie under the base. */
  function GetRelativePath(path: string, base: Option<string>, cwd: string): string
  {
    var b := if base.Some? && base.value != "" then base.value else cwd;
    match RelativeParts(path, b)
    case None => path
    case Some(rest) => Paths.FromParts(rest)
  }

  /** No empty, "." or separator-holding part. */
  predicate PlainParts(parts: seq<string>)
  {
    forall k :: 0 <= k < |parts| ==> parts[k] != "" && parts[k] != "." && '/' !in parts[k]
  }

  /** Round trip: when the path lies strictly under the base (and its
      remaining parts are plain), reading the relative path's parts after
      the base's parts gives back the path's parts; a path not under the
      base comes back unchanged, and the base itself gives ".". */
  lemma RelativeRoundTrip(path: string, base: string, cwd: string)
    ensures var rest := RelativeParts(path, base);
      var r := GetRelativePath(path, Some(base), cwd);
      base != "" ==>
        (rest.None? ==> r == path)
        && (rest.Some? && rest.value == [] ==> r == ".")
        && (rest.Some? && rest.value != [] && PlainParts(rest.value) ==>
              Paths.Parts(base) + Paths.Parts(r) == Paths.Parts(path))
  {
    var rest := RelativeParts(path, base);
    if base != "" && rest.Some? && rest.value != [] && PlainParts(rest.value) {
      PartsOfPlainJoin(rest.value);
    }
  }

  /** The parts of plain parts joined by separators are those parts. */
  lemma PartsOfPlainJoin(parts: seq<string>)
    requires parts != [] && PlainParts(parts)
    ensures Paths.Parts(Paths.FromParts(parts)) == parts
  {
    var j := Join(parts, "/");
    assert parts[0] != "/" by {
      assert '/' in "/";
    }
    assert Paths.FromParts(parts) == j;
    JoinStartsWithFirst(parts, "/");
    assert parts[0][0] != '/';
    assert j[0] == parts[0][0];
    assert j != "" && j != "/";
    assert j != "." by {
      if |parts| == 1 {
        assert j == parts[0];
      } else {
        assert |j| >= |parts[0]| + 1;
      }
    }
    assert "/" == ['/'];
    SplitJoin(parts, '/');
  }

  lemma JoinStartsWithFirst(parts: seq<string>, sep: string)
    requires parts != []
    ensures StartsWith(Join(parts, sep), parts[0])
  {
    if |parts| > 1 {
      assert Join(parts, sep) == parts[0] + (sep + Join(parts[1..], sep));
    }
  }

  // ---------------------------------------------------------------- backup

  /** What the n-th backup candidate adds after the suffix: nothing for the
      first, then ".1", ".2", ... */
  function BackupTag(n: nat): (t: string)
    ensures n > 0 ==> |t| >= 2 && t[0] == '.' && t[1..] == NatToString(n)
  {
    if n == 0 then "" else "." + NatToString(n)
  }

  /** Different candidates have different tags. */
  lemma BackupTagInjective(a: nat, b: nat)
    requires BackupTag(a) == BackupTag(b)
    ensures a == b
  {
    if a != 0 && b != 0 {
      NatToStringInjective(a, b);
    }
  }

  /** n candidates that all exist are n different existing paths. */
  lemma CandidatesCounted(existing: set<string>, base: string, n: nat)
    requires forall j :: 0 <= j < n ==> base + BackupTag(j) in existing
    ensures n <= |existing|
  {
    CandidateSetSize(base, n);
    var c := set j | 0 <= j < n :: base + BackupTag(j);
    assert c <= existing;
    SubsetSize(c, existing);
  }

  lemma {:induction false} SubsetSize<T>(a: set<T>, b: set<T>)
    requires a <= b
    ensures |a| <= |b|
  {
    if a != {} {
      var x :| x in a;
      SubsetSize(a - {x}, b - {x});
    }
  }

  lemma {:induction false} CandidateSetSize(base: string, n: nat)
    ensures |set j | 0 <= j < n :: base + BackupTag(j)| == n
  {
    if n > 0 {
      CandidateSetSize(base, n - 1);
      var c0 := set j | 0 <= j < n - 1 :: base + BackupTag(j);
      var last := base + BackupTag(n - 1);
      assert (set j | 0 <= j < n :: base + BackupTag(j)) == c0 + {last};
      assert last !in c0 by {
        forall j | 0 <= j < n - 1
          ensures base + BackupTag(j) != last
        {
          if base + BackupTag(j) == last {
            assert BackupTag(j) == last[|base|..];
            BackupTagInjective(j, n - 1);
          }
        }
      }
    }
  }

  /** The index of the first candidate from n on that does not exist, given
      that those before n all do. */
  function FreeFrom(existing: set<string>, base: string, n: nat): (m: nat)
    requires forall j :: 0 <= j < n ==> base + BackupTag(j) in existing
    ensures n <= m && base + BackupTag(m) !in existing
    ensures forall j :: 0 <= j < m ==> base + BackupTag(j) in existing
    decreases |existing| - n
  {
    if base + BackupTag(n) !in existing then n
    else
      CandidatesCounted(existing, base, n + 1);
      FreeFrom(existing, base, n + 1)
  }

  /** The backup name `backup_file` settles on: the first candidate that does
      not exist. */
  function BackupName(existing: set<string>, base: string): string
  {
    base + BackupTag(FreeFrom(existing, base, 0))
  }

  /** The backup name does not exist yet, and every candidate before it does;
      when the plain name is free, it is the plain name. */
  lemma BackupNameFirstFree(existing: set<string>, base: string)
    ensures var b := BackupName(existing, base);
      b !in existing
      && (forall j :: 0 <= j < FreeFrom(existing, base, 0) ==> base + BackupTag(j) in existing)
      && (base !in existing ==> b == base)
  {
    assert base + BackupTag(0) == base;
  }

  /** With the file's own suffix in front, replacing the suffix appends. */
  lemma WithSuffixAppends(p: string, x: string)
    requires Paths.Name(p) != [] && Paths.ValidSuffix(Paths.Suffix(p) + x)
    ensures Paths.WithSuffix(p, Paths.Suffix(p) + x) == Some(p + x)
  {
    var d, st, sf := Paths.Dir(p), Paths.Stem(p), Paths.Suffix(p);
    assert p == d + (st + sf) by {
      Paths.DirName(p);
    }
    ConcatRegroup(d, st, sf, x);
  }

  lemma ConcatAssoc(a: string, b: string, c: string)
    ensures a + b + c == a + (b + c)
  {
  }

  lemma ConcatRegroup(a: string, b: string, c: string, d: string)
    ensures a + b + (c + d) == a + (b + c) + d
  {
  }

  /** Appending a tag keeps a valid suffix valid. */
  lemma TaggedValid(x: string, n: nat)
    requires Paths.ValidSuffix(x)
    ensures Paths.ValidSuffix(x + BackupTag(n))
  {
    if n > 0 {
      var t := BackupTag(n);
      assert '/' !in t by {
        assert t == "." + NatToString(n);
        assert forall k :: 0 <= k < |t| - 1 ==> t[1..][k] == NatToString(n)[k];
        assert forall k :: 0 <= k < |t| ==> t[k] == '.' || IsDigit(t[k]);
      }
      Paths.NotInConcat(x, t, '/');
      assert (x + t)[0] == '.';
    } else {
      assert x + BackupTag(n) == x;
    }
  }

  /** The ValueError `with_suffix` raises for the first candidate. */
  function SuffixError(path: string, suffix: string): string
  {
    if !Paths.ValidSuffix(suffix) then "Invalid suffix '" + suffix + "'"
    else "PosixPath('" + path + "') has an empty name"
  }

  /** `FileProcessor.backup_file`: search the candidates (the file name with
      the backup suffix, then with ".1", ".2", ...) for the first that does
      not exist, then rename the file to it; a missing file is an error, but
      only once the search is over. */
  method BackupFile(store: Files.Store, path: string, suffix: string) returns (r: Result<string, string>)
    requires store.Valid()
    modifies store
    ensures store.unwritable == old(store.unwritable)
    ensures var s := Paths.Suffix(path) + suffix;
      !(Paths.ValidSuffix(s) && Paths.Name(path) != []) ==>
        r == Failure(SuffixError(path, s)) && store.files == old(store.files) && store.dirs == old(store.dirs)
    ensures var s := Paths.Suffix(path) + suffix;
      Paths.ValidSuffix(s) && Paths.Name(path) != [] && !old(store.Exists(path)) ==>
        r == Failure("File " + path + " does not exist") && store.files == old(store.files) && store.dirs == old(store.dirs)
    ensures var s := Paths.Suffix(path) + suffix;
      Paths.ValidSuffix(s) && Paths.Name(path) != [] && old(store.Exists(path)) ==>
        var b := BackupName(old(store.files.Keys + store.dirs), path + suffix);
        r == Success(b)
        && Files.Vacant(old(store.files.Keys + store.dirs), b)
        && store.files == Files.MoveFiles(old(store.files), path, b)
        && store.dirs == Files.MoveDirs(old(store.dirs), path, b)
        && (path in old(store.files) ==>
              store.files == old(store.files) - {path} + map[b := old(store.files)[path]] && store.dirs == old(store.dirs))
  {
    var s := Paths.Suffix(path) + suffix;
    var first := Paths.WithSuffix(path, s);
    if first.None? {
      return Failure(SuffixError(path, s));
    }
    var backupPath := FindBackupName(store, path, suffix);
    if !store.Exists(path) {
      return Failure("File " + path + " does not exist");
    }
    ghost var files0, dirs0 := store.files, store.dirs;
    store.Rename(path, backupPath);
    if path in files0 {
      Files.RenameFile(files0, dirs0, path, backupPath);
    }
    r := Success(backupPath);
  }

  /** The search loop of `backup_file`, which only asks whether paths exist. */
  method FindBackupName(store: Files.Store, path: string, suffix: string) returns (backupPath: string)
    requires Paths.ValidSuffix(Paths.Suffix(path) + suffix) && Paths.Name(path) != []
    ensures backupPath == BackupName(store.files.Keys + store.dirs, path + suffix)
  {
    var s := Paths.Suffix(path) + suffix;
    var first := Paths.WithSuffix(path, s);
    ghost var existing := store.files.Keys + store.dirs;
    ghost var base := path + suffix;
    assert first == Some(base + BackupTag(0)) by {
      WithSuffixAppends(path, suffix);
      assert base + BackupTag(0) == base;
    }
    backupPath := first.value;
    var counter: nat := 1;
    while store.Exists(backupPath)
      invariant counter >= 1 && backupPath == base + BackupTag(counter - 1)
      invariant forall j :: 0 <= j < counter - 1 ==> base + BackupTag(j) in existing
      decreases |existing| - (counter - 1)
    {
      assert backupPath in existing;
      assert forall j :: 0 <= j < counter ==> base + BackupTag(j) in existing by {
        forall j | 0 <= j < counter
          ensures base + BackupTag(j) in existing
        {
          if j == counter - 1 {
            assert base + BackupTag(j) == backupPath;
          }
        }
      }
      CandidatesCounted(existing, base, counter);
      var next := Paths.WithSuffix(path, s + BackupTag(counter));
      assert next == Some(base + BackupTag(counter)) by {
        var t := BackupTag(counter);
        TaggedValid(s, counter);
        ConcatAssoc(Paths.Suffix(path), suffix, t);
        ConcatAssoc(path, suffix, t);
        WithSuffixAppends(path, suffix + t);
      }
      backupPath := next.value;
      counter := counter + 1;
    }
    assert backupPath !in existing;
  }

  // ------------------------------------------------------------ log filter

  const InfoBadge := "[blue]\U{2139}[/blue] "
  const SuccessBadge := "[green]\U{2705}[/green] "
  const WarningBadge := "[yellow]\U{26A0}[/yellow] "
  const ErrorBadge := "[red]\U{274C}[/red] "
  const DebugOpen := "[dim]\U{1F50D} "
  const DebugClose := "[/dim]"

  /** The levels `log` prints at whatever the verbosity. */
  predicate IsPlainLevel(level: string)
  {
    level == "info" || level == "success" || level == "warning" || level == "error"
  }

  /** The level names differ in their first letters. */
  lemma LevelNamesDistinct()
    ensures "debug" != "info" && "debug" != "success" && "debug" != "warning" && "debug" != "error"
  {
    assert "debug"[0] != "info"[0] && "debug"[0] != "success"[0];
    assert "debug"[0] != "warning"[0] && "debug"[0] != "error"[0];
  }

  /** `CLIContext`: the three flags, and the lines printed so far. */
  class CLIContext {
    var verbose: bool
    var quiet: bool
    var dryRun: bool
    /** What has been printed to the console, one entry per message. */
    var shown: seq<string>

    constructor ()
      ensures !verbose && !quiet && !dryRun && shown == []
    {
      verbose, quiet, dryRun := false, false, false;
      shown := [];
    }

    /** The line `log` prints for a message at a level, if it prints one:
        nothing at all when quiet (errors included), debug lines only when
        verbose, and nothing for a level it does not know. */
    function Rendered(message: string, level: string): (r: Option<string>)
      reads this
      ensures r.Some? <==> !quiet && (IsPlainLevel(level) || (level == "debug" && verbose))
    {
      LevelNamesDistinct();
      if quiet then None
      else if level == "debug" && !verbose then None
      else if level == "info" then Some(InfoBadge + message)
      else if level == "success" then Some(SuccessBadge + message)
      else if level == "warning" then Some(WarningBadge + message)
      else if level == "error" then Some(ErrorBadge + message)
      else if level == "debug" && verbose then Some(DebugOpen + message + DebugClose)
      else None
    }

    /** A printed line carries the message. */
    lemma RenderedCarriesMessage(message: string, level: string)
      requires Rendered(message, level).Some?
      ensures Contains(Rendered(message, level).value, message)
    {
      var v := Rendered(message, level).value;
      if level == "debug" {
        assert v[|DebugOpen|..|DebugOpen| + |message|] == message;
        ContainsAt(v, message, |DebugOpen|);
      } else {
        var badge := v[..|v| - |message|];
        assert v[|badge|..|badge| + |message|] == message;
        ContainsAt(v, message, |badge|);
      }
    }

    /** `console.print`. */
    method Show(line: string)
      modifies this
      ensures shown == old(shown) + [line]
      ensures verbose == old(verbose) && quiet == old(quiet) && dryRun == old(dryRun)
    {
      shown := shown + [line];
    }

    /** `log`: prints the rendered line, if any, and changes nothing else. */
    method Log(message: string, level: string)
      modifies this
      ensures verbose == old(verbose) && quiet == old(quiet) && dryRun == old(dryRun)
      ensures var out := old(Rendered(message, level));
        shown == old(shown) + (if out.Some? then [out.value] else [])
    {
      LevelNamesDistinct();
      if quiet {
        return;
      }
      if level == "debug" && !verbose {
        return;
      }
      if level == "info" {
        Show(InfoBadge + message);
      } else if level == "success" {
        Show(SuccessBadge + message);
      } else if level == "warning" {
        Show(WarningBadge + message);
      } else if level == "error" {
        Show(ErrorBadge + message);
      } else if level == "debug" && verbose {
        Show(DebugOpen + message + DebugClose);
      }
    }

    method Debug(message: string)
      modifies this
      ensures verbose == old(verbose) && quiet == old(quiet) && dryRun == old(dryRun)
      ensures shown == old(shown) + (if !quiet && verbose then [DebugOpen + message + DebugClose] else [])
    {
      Log(message, "debug");
    }

    method Info(message: string)
      modifies this
      ensures verbose == old(verbose) && quiet == old(quiet) && dryRun == old(dryRun)
      ensures shown == old(shown) + (if !quiet then [InfoBadge + message] else [])
    {
      Log(message, "info");
    }

    method Success(message: string)
      modifies this
      ensures verbose == old(verbose) && quiet == old(quiet) && dryRun == old(dryRun)
      ensures shown == old(shown) + (if !quiet then [SuccessBadge + message] else [])
    {
      Log(message, "success");
    }

    method Warning(message: string)
      modifies this
      ensures verbose == old(verbose) && quiet == old(quiet) && dryRun == old(dryRun)
      ensures shown == old(shown) + (if !quiet then [WarningBadge + message] else [])
    {
      Log(message, "warning");
    }

    method Error(message: string)
      modifies this
      ensures verbose == old(verbose) && quiet == old(quiet) && dryRun == old(dryRun)
      ensures shown == old(shown) + (if !quiet then [ErrorBadge + message] else [])
    {
      Log(message, "error");
    }
  }
}

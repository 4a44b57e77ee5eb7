/** The configuration of src/claude_clis/shared/config.py as a dynamic tree.
    The pydantic records (`Config`, `AIConfig`, `GeminiConfig`, ...) become an
    `Obj` whose fields keep their declaration order; `set_config_value` assigns
    without validation, so any leaf may later hold any scalar; the next load
    validates the file against the declared types (`Build`). */
module Settings {
  import opened Base
  import opened Text

  datatype Value =
    | Str(s: string)
    | Int(i: int)
    | Bool(b: bool)
    | Float(text: string)   // a float, by its `str()` text
    | Obj(fields: seq<Field>)

  datatype Field = Field(name: string, value: Value)

  /** The default configuration, field by field as declared. */
  function Defaults(): Value
  {
    Obj([Field("ai", AiDefaults()), Field("tools", ToolsDefaults())])
  }

  function AiDefaults(): Value
  {
    Obj([
      Field("provider", Str("gemini")),
      Field("gemini", GeminiDefaults()),
      Field("ollama", OllamaDefaults()),
      Field("anthropic", AnthropicDefaults())])
  }

  function GeminiDefaults(): Value
  {
    Obj([
      Field("api_key", Str("")),
      Field("model", Str("gemini-1.5-pro")),
      Field("temperature", Float("0.3")),
      Field("max_tokens", Int(4096))])
  }

  function OllamaDefaults(): Value
  {
    Obj([
      Field("base_url", Str("http://localhost:11434")),
      Field("model", Str("llama3.2:latest")),
      Field("temperature", Float("0.3")),
      Field("timeout", Int(120))])
  }

  function AnthropicDefaults(): Value
  {
    Obj([
      Field("api_key", Str("")),
      Field("model", Str("claude-3-sonnet-20240229")),
      Field("temperature", Float("0.3")),
      Field("max_tokens", Int(4096))])
  }

  function ToolsDefaults(): Value
  {
    Obj([Field("doc2md", Doc2mdDefaults())])
  }

  function Doc2mdDefaults(): Value
  {
    Obj([
      Field("default_style", Str("technical")),
      Field("chunk_size", Int(4000)),
      Field("preserve_formatting", Bool(true)),
      Field("output_format", Str("markdown"))])
  }

  /** The first field called `name`. */
  function Lookup(fields: seq<Field>, name: string): (r: Option<Value>)
    ensures r.Some? <==> exists k :: 0 <= k < |fields| && fields[k].name == name
  {
    if fields == [] then None
    else if fields[0].name == name then Some(fields[0].value)
    else Lookup(fields[1..], name)
  }

  /** `getattr(target, name)` on a record; any other target has no fields. */
  function Attr(v: Value, name: string): Option<Value>
  {
    match v
    case Obj(fs) => Lookup(fs, name)
    case _ => None
  }

  /** The walk `for k in keys: target = getattr(target, k)`. */
  function GetPath(v: Value, keys: seq<string>): Option<Value>
    decreases |keys|
  {
    if keys == [] then Some(v)
    else
      match Attr(v, keys[0])
      case None => None
      case Some(child) => GetPath(child, keys[1..])
  }

  /** Replaces the value of the first field called `name`. */
  function SetField(fields: seq<Field>, name: string, nv: Value): (r: seq<Field>)
    ensures |r| == |fields|
    ensures forall k :: 0 <= k < |r| ==> r[k].name == fields[k].name
  {
    if fields == [] then []
    else if fields[0].name == name then [Field(name, nv)] + fields[1..]
    else [fields[0]] + SetField(fields[1..], name, nv)
  }

  lemma {:induction false} LookupSetField(fields: seq<Field>, name: string, nv: Value, other: string)
    ensures Lookup(SetField(fields, name, nv), other)
      == if other == name && Lookup(fields, name).Some? then Some(nv) else Lookup(fields, other)
  {
    if fields != [] && fields[0].name != name {
      LookupSetField(fields[1..], name, nv, other);
      assert SetField(fields, name, nv)[1..] == SetField(fields[1..], name, nv);
    }
  }

  /** The walk over all keys but the last, then `setattr` of the last one;
      `None` where Python raises (a missing attribute on the way, or a target
      without that field). */
  function SetPath(v: Value, keys: seq<string>, nv: Value): Option<Value>
    requires keys != []
    decreases |keys|
  {
    match v
    case Obj(fs) =>
      (match Lookup(fs, keys[0])
       case None => None
       case Some(child) =>
         if |keys| == 1 then Some(Obj(SetField(fs, keys[0], nv)))
         else
           match SetPath(child, keys[1..], nv)
           case None => None
           case Some(c2) => Some(Obj(SetField(fs, keys[0], c2))))
    case _ => None
  }

  /** Setting succeeds exactly when the key already names something. */
  lemma {:induction false} SetPathDefinedIff(v: Value, keys: seq<string>, nv: Value)
    requires keys != []
    ensures SetPath(v, keys, nv).Some? <==> GetPath(v, keys).Some?
    decreases |keys|
  {
    if v.Obj? && Lookup(v.fields, keys[0]).Some? && |keys| > 1 {
      SetPathDefinedIff(Lookup(v.fields, keys[0]).value, keys[1..], nv);
    }
  }

  /** A value that was set reads back. */
  lemma {:induction false} GetAfterSet(v: Value, keys: seq<string>, nv: Value)
    requires keys != [] && SetPath(v, keys, nv).Some?
    ensures GetPath(SetPath(v, keys, nv).value, keys) == Some(nv)
    decreases |keys|
  {
    var fs := v.fields;
    var child := Lookup(fs, keys[0]).value;
    if |keys| == 1 {
      LookupSetField(fs, keys[0], nv, keys[0]);
    } else {
      GetAfterSet(child, keys[1..], nv);
      LookupSetField(fs, keys[0], SetPath(child, keys[1..], nv).value, keys[0]);
    }
  }

  /** Two key paths that differ at some position both reach into. */
  predicate Diverge(a: seq<string>, b: seq<string>)
    decreases |a|
  {
    a != [] && b != [] && (a[0] != b[0] || Diverge(a[1..], b[1..]))
  }

  /** Setting one key leaves every key that branches off from it unchanged. */
  lemma {:induction false} OtherKeysUnchanged(v: Value, keys: seq<string>, nv: Value, other: seq<string>)
    requires keys != [] && SetPath(v, keys, nv).Some?
    requires Diverge(keys, other)
    ensures GetPath(SetPath(v, keys, nv).value, other) == GetPath(v, other)
    decreases |keys|
  {
    var fs := v.fields;
    var child := Lookup(fs, keys[0]).value;
    if |keys| == 1 {
      LookupSetField(fs, keys[0], nv, other[0]);
    } else {
      var c2 := SetPath(child, keys[1..], nv).value;
      LookupSetField(fs, keys[0], c2, other[0]);
      if other[0] == keys[0] {
        OtherKeysUnchanged(child, keys[1..], nv, other[1..]);
      }
    }
  }

  /** The type a record declares for a leaf field. */
  datatype Kind =
    | Text                          // str
    | Whole                         // int
    | Real                          // float
    | Flag                          // bool
    | OneOf(options: seq<string>)   // a Literal of strings

  /** The declared type of the field `name` whose default is `d`: the type of
      its default, except that `provider`, the one field declared as a
      `Literal`, admits only the provider names. (A record has no leaf type;
      its case is never asked for.) */
  function KindOf(name: string, d: Value): Kind
  {
    match d
    case Str(_) => if name == "provider" then OneOf(Providers) else Text
    case Int(_) => Whole
    case Float(_) => Real
    case Bool(_) => Flag
    case Obj(_) => Text
  }

  predicate HasKind(v: Value, k: Kind)
  {
    match k
    case Text => v.Str?
    case Whole => v.Int?
    case Real => v.Float?
    case Flag => v.Bool?
    case OneOf(options) => v.Str? && v.s in options
  }

  predicate AllDigits(s: string)
  {
    forall k :: 0 <= k < |s| ==> IsDigit(s[k])
  }

  /** A string pydantic reads as an int: an optional sign and decimal
      digits. */
  function ParseInt(s: string): (r: Option<int>)
    ensures r.Some? ==> s != []
  {
    if s != [] && (s[0] == '-' || s[0] == '+') then
      if s[1..] != [] && AllDigits(s[1..]) then
        Some(if s[0] == '-' then -ParseDigits(s[1..]) else ParseDigits(s[1..]))
      else None
    else if s != [] && AllDigits(s) then Some(ParseDigits(s))
    else None
  }

  /** `str(i)` reads back as `i`. */
  lemma ParseIntToString(i: int)
    ensures ParseInt(IntToString(i)) == Some(i)
  {
    var n: nat := if i < 0 then -i else i;
    var r := NatToString(n);
    assert ParseDigits(r) == n by {
      ParseNatToString(n);
    }
    if i < 0 {
      assert IntToString(i) == "-" + r;
      ParseSigned(r);
    } else {
      assert IntToString(i) == r;
      ParseUnsigned(r);
    }
  }

  lemma ParseSigned(r: string)
    requires r != [] && forall k :: 0 <= k < |r| ==> IsDigit(r[k])
    ensures ParseInt("-" + r) == Some(-ParseDigits(r))
  {
    assert ("-" + r)[1..] == r;
  }

  lemma ParseUnsigned(r: string)
    requires r != [] && forall k :: 0 <= k < |r| ==> IsDigit(r[k])
    ensures ParseInt(r) == Some(ParseDigits(r))
  {
    assert IsDigit(r[0]);
  }

  /** The `str()` of a float with an integral value ("5.0", "-3.0") gives that
      integer. */
  function IntegralFloat(t: string): Option<int>
  {
    if |t| >= 2 && t[|t| - 2..] == ".0" then ParseInt(t[..|t| - 2]) else None
  }

  /** The float a string is read as, by its text: an integer gains
      ".0"; a decimal with a fractional part keeps its text. */
  function DecimalText(s: string): Option<string>
  {
    var k := IndexOf(s, '.');
    if k < 0 then
      (match ParseInt(s)
       case Some(i) => Some(IntToString(i) + ".0")
       case None => None)
    else if ParseInt(s[..k]).Some? && s[k + 1..] != [] && AllDigits(s[k + 1..]) then Some(s)
    else None
  }

  /** The strings pydantic reads as `True` and as `False` (after lowering). */
  const TrueWords: seq<string> := ["1", "on", "t", "true", "y", "yes"]
  const FalseWords: seq<string> := ["0", "off", "f", "false", "n", "no"]

  /** Validation of one leaf in pydantic's lax mode: a value of the declared
      type is taken as it is; a str or Literal field takes only a string (of
      the listed ones); the other types convert as `ToWhole`, `ToReal` and
      `ToFlag` say. A failure carries pydantic's error type. */
  function Coerce(k: Kind, d: Value): (r: Result<Value, string>)
    ensures r.Success? ==> HasKind(r.value, k)
    ensures HasKind(d, k) ==> r == Success(d)
  {
    match k
    case Text => if d.Str? then Success(d) else Failure("string_type")
    case OneOf(options) =>
      if d.Str? && d.s in options then Success(d)
      else Failure("literal_error")
    case Whole => ToWhole(d)
    case Real => ToReal(d)
    case Flag => ToFlag(d)
  }

  /** An int field also takes a bool, a float with an integral value and a
      string of an integer. */
  function ToWhole(d: Value): (r: Result<Value, string>)
    ensures r.Success? ==> r.value.Int?
    ensures d.Int? ==> r == Success(d)
  {
    match d
    case Int(_) => Success(d)
    case Bool(b) => Success(Int(if b then 1 else 0))
    case Float(t) =>
      (match IntegralFloat(t)
       case Some(i) => Success(Int(i))
       case None => Failure("int_from_float"))
    case Str(s) =>
      (match ParseInt(s)
       case Some(i) => Success(Int(i))
       case None => Failure("int_parsing"))
    case Obj(_) => Failure("int_type")
  }

  /** A float field also takes an int, a bool and a string of a decimal
      number. */
  function ToReal(d: Value): (r: Result<Value, string>)
    ensures r.Success? ==> r.value.Float?
    ensures d.Float? ==> r == Success(d)
  {
    match d
    case Float(_) => Success(d)
    case Int(i) => Success(Float(IntToString(i) + ".0"))
    case Bool(b) => Success(Float(if b then "1.0" else "0.0"))
    case Str(s) =>
      (match DecimalText(s)
       case Some(t) => Success(Float(t))
       case None => Failure("float_parsing"))
    case Obj(_) => Failure("float_type")
  }

  /** A bool field also takes 0 and 1, 0.0 and 1.0, and the yes/no words in
      any case. */
  function ToFlag(d: Value): (r: Result<Value, string>)
    ensures r.Success? ==> r.value.Bool?
    ensures d.Bool? ==> r == Success(d)
  {
    match d
    case Bool(_) => Success(d)
    case Int(i) =>
      if i == 0 || i == 1 then Success(Bool(i == 1))
      else Failure("bool_parsing")
    case Float(t) =>
      if t == "0.0" || t == "1.0" then Success(Bool(t == "1.0"))
      else Failure("bool_parsing")
    case Str(s) => FlagWord(Lower(s))
    case Obj(_) => Failure("bool_type")
  }

  function FlagWord(w: string): (r: Result<Value, string>)
    ensures r.Success? <==> w in TrueWords || w in FalseWords
    ensures r.Success? ==> r.value == Bool(w in TrueWords)
  {
    if w in TrueWords then Success(Bool(true))
    else if w in FalseWords then Success(Bool(false))
    else Failure("bool_parsing")
  }

  /** A numeric string given for an int field is read as that integer. */
  lemma IntTextCoerced(i: int)
    ensures Coerce(Whole, Str(IntToString(i))) == Success(Int(i))
  {
    ParseIntToString(i);
  }

  /** A string of a bool field is read by its word, in any case; other
      strings fail. */
  lemma FlagTextCoerced(s: string)
    ensures Lower(s) in TrueWords ==> Coerce(Flag, Str(s)) == Success(Bool(true))
    ensures Lower(s) in FalseWords ==> Coerce(Flag, Str(s)) == Success(Bool(false))
    ensures Lower(s) !in TrueWords && Lower(s) !in FalseWords ==> Coerce(Flag, Str(s)) == Failure("bool_parsing")
  {
    assert Coerce(Flag, Str(s)) == FlagWord(Lower(s));
    WordsDisjoint(Lower(s));
  }

  /** No word reads as both `True` and `False`. */
  lemma WordsDisjoint(w: string)
    ensures !(w in TrueWords && w in FalseWords)
  {
  }

  /** A Literal field takes exactly the listed strings. */
  lemma ChoiceCoerced(options: seq<string>, d: Value)
    ensures d.Str? && d.s in options ==> Coerce(OneOf(options), d) == Success(d)
    ensures !(d.Str? && d.s in options) ==> Coerce(OneOf(options), d) == Failure("literal_error")
  {
  }

  /** Validation of the data given for the field `name` whose default is
      `base`: a record takes a dict, whose keys override the defaults field by
      field and whose unknown keys are ignored (nested records keep pydantic's
      `extra='ignore'`); a leaf takes what `Coerce` accepts. */
  function Overlay(name: string, base: Value, data: Value): Result<Value, string>
    decreases base, 1
  {
    match base
    case Obj(fs) =>
      (match data
       case Obj(ds) =>
         (match OverlayFields(fs, ds)
          case Failure(e) => Failure(e)
          case Success(merged) => Success(Obj(merged)))
       case _ => Failure("model_type"))
    case _ => Coerce(KindOf(name, base), data)
  }

  /** One declared field: the data's entry for it, validated, or else its
      default. */
  function FieldStep(f: Field, ds: seq<Field>): Result<Value, string>
    decreases f, 0
  {
    match Lookup(ds, f.name)
    case None => Success(f.value)
    case Some(d) => Overlay(f.name, f.value, d)
  }

  /** The declared fields in order; the first field that fails validation
      fails the record. */
  function OverlayFields(fs: seq<Field>, ds: seq<Field>): Result<seq<Field>, string>
    decreases fs, 1
  {
    if fs == [] then Success([])
    else
      match FieldStep(fs[0], ds)
      case Failure(e) => Failure(e)
      case Success(v) =>
        match OverlayFields(fs[1..], ds)
        case Failure(e) => Failure(e)
        case Success(rest) => Success([Field(fs[0].name, v)] + rest)
  }

  /** The data names a field the record does not declare. */
  predicate HasExtra(fs: seq<Field>, ds: seq<Field>)
  {
    exists k :: 0 <= k < |ds| && Lookup(fs, ds[k].name).None?
  }

  /** `Config(**data)`: the top-level settings record, which, unlike the
      nested ones, forbids keys it does not declare. */
  function Validate(data: Value): Result<Value, string>
  {
    match data
    case Obj(ds) =>
      if HasExtra(Defaults().fields, ds) then Failure("extra_forbidden")
      else Overlay("", Defaults(), data)
    case _ => Failure("TypeError: argument after ** must be a mapping")
  }

  /** The configuration `load_config` builds from the file's data, or from
      `{}` when there is no file or its data is falsy (`safe_load(f) or {}`). */
  function Build(file: Option<Value>): Result<Value, string>
  {
    match file
    case None => Success(Defaults())
    case Some(data) => Validate(if Truthy(data) then data else Obj([]))
  }

  /** A missing file, and a file whose data is empty or falsy, give the
      defaults. */
  lemma EmptyFileGivesDefaults(data: Value)
    ensures Build(None) == Success(Defaults())
    ensures !Truthy(data) ==> Build(Some(data)) == Success(Defaults())
  {
    assert !HasExtra(Defaults().fields, []);
    OverlayNothing("", Defaults());
  }

  /** Overlaying an empty record changes nothing. */
  lemma OverlayNothing(name: string, base: Value)
    requires base.Obj?
    ensures Overlay(name, base, Obj([])) == Success(base)
  {
    OverlayFieldsNothing(base.fields);
  }

  lemma {:induction false} OverlayFieldsNothing(fs: seq<Field>)
    ensures OverlayFields(fs, []) == Success(fs)
  {
    if fs != [] {
      OverlayFieldsNothing(fs[1..]);
      assert fs == [Field(fs[0].name, fs[0].value)] + fs[1..];
    }
  }

  /** Declared fields that all validate give the record of their results. */
  lemma {:induction false} FieldsSucceed(fs: seq<Field>, ds: seq<Field>, out: seq<Field>)
    requires |out| == |fs|
    requires forall i :: 0 <= i < |fs| ==> out[i].name == fs[i].name && FieldStep(fs[i], ds) == Success(out[i].value)
    ensures OverlayFields(fs, ds) == Success(out)
  {
    if fs != [] {
      assert forall i :: 0 <= i < |fs| - 1 ==> fs[1..][i] == fs[i + 1] && out[1..][i] == out[i + 1];
      FieldsSucceed(fs[1..], ds, out[1..]);
      assert out == [Field(fs[0].name, out[0].value)] + out[1..];
    }
  }

  /** The first declared field that fails decides the record's error. */
  lemma {:induction false} FieldsFailAt(fs: seq<Field>, ds: seq<Field>, m: nat, e: string)
    requires m < |fs|
    requires forall i :: 0 <= i < m ==> FieldStep(fs[i], ds).Success?
    requires FieldStep(fs[m], ds) == Failure(e)
    ensures OverlayFields(fs, ds) == Failure(e)
  {
    if m > 0 {
      assert forall i :: 0 <= i < m - 1 ==> fs[1..][i] == fs[i + 1];
      FieldsFailAt(fs[1..], ds, m - 1, e);
    }
  }

  /** `v` is a valid value for the field `name` whose default is `base`:
      records field by field, leaves of their declared types. */
  predicate Fits(name: string, base: Value, v: Value)
    decreases base, 1
  {
    match base
    case Obj(fs) => v.Obj? && FitsFields(fs, v.fields)
    case _ => HasKind(v, KindOf(name, base))
  }

  predicate FitsFields(fs: seq<Field>, gs: seq<Field>)
    decreases fs, 0
  {
    |fs| == |gs|
    && (fs != [] ==>
          fs[0].name == gs[0].name && Fits(fs[0].name, fs[0].value, gs[0].value)
          && FitsFields(fs[1..], gs[1..]))
  }

  predicate SameNames(fs: seq<Field>, gs: seq<Field>)
  {
    |fs| == |gs| && forall i :: 0 <= i < |fs| ==> fs[i].name == gs[i].name
  }

  /** No record has two fields of the same name. */
  predicate DistinctNames(v: Value)
    decreases v, 1
  {
    match v
    case Obj(fs) => DistinctFields(fs)
    case _ => true
  }

  predicate DistinctFields(fs: seq<Field>)
    decreases fs, 0
  {
    fs != [] ==>
      Lookup(fs[1..], fs[0].name).None? && DistinctNames(fs[0].value) && DistinctFields(fs[1..])
  }

  /** A configuration of the types `Config` declares. */
  predicate Conforms(c: Value)
  {
    Fits("", Defaults(), c)
  }

  lemma DefaultsWellFormed()
    ensures DistinctNames(Defaults()) && Conforms(Defaults())
  {
    DefaultsDistinct();
    DefaultsFit();
  }

  lemma DefaultsDistinct()
    ensures DistinctNames(Defaults())
  {
    GeminiDistinct();
    OllamaDistinct();
    AnthropicDistinct();
    Doc2mdDistinct();
    DistinctOne("doc2md", Doc2mdDefaults());
    DistinctFour("provider", "gemini", "ollama", "anthropic",
      Str("gemini"), GeminiDefaults(), OllamaDefaults(), AnthropicDefaults());
    DistinctTwo("ai", "tools", AiDefaults(), ToolsDefaults());
  }

  lemma GeminiDistinct()
    ensures DistinctNames(GeminiDefaults())
  {
    DistinctFour("api_key", "model", "temperature", "max_tokens",
      Str(""), Str("gemini-1.5-pro"), Float("0.3"), Int(4096));
  }

  lemma OllamaDistinct()
    ensures DistinctNames(OllamaDefaults())
  {
    DistinctFour("base_url", "model", "temperature", "timeout",
      Str("http://localhost:11434"), Str("llama3.2:latest"), Float("0.3"), Int(120));
  }

  lemma AnthropicDistinct()
    ensures DistinctNames(AnthropicDefaults())
  {
    DistinctFour("api_key", "model", "temperature", "max_tokens",
      Str(""), Str("claude-3-sonnet-20240229"), Float("0.3"), Int(4096));
  }

  lemma Doc2mdDistinct()
    ensures DistinctNames(Doc2mdDefaults())
  {
    DistinctFour("default_style", "chunk_size", "preserve_formatting", "output_format",
      Str("technical"), Int(4000), Bool(true), Str("markdown"));
  }

  lemma DistinctOne(a: string, va: Value)
    requires DistinctNames(va)
    ensures DistinctNames(Obj([Field(a, va)]))
  {
    assert [Field(a, va)][1..] == [];
  }

  lemma DistinctTwo(a: string, b: string, va: Value, vb: Value)
    requires a != b && DistinctNames(va) && DistinctNames(vb)
    ensures DistinctNames(Obj([Field(a, va), Field(b, vb)]))
  {
    var fs := [Field(a, va), Field(b, vb)];
    assert fs[1..] == [Field(b, vb)] && fs[1..][1..] == [];
    assert Lookup(fs[1..], a) == None;
    assert DistinctFields(fs[1..]);
  }

  lemma DistinctFour(a: string, b: string, c: string, d: string, va: Value, vb: Value, vc: Value, vd: Value)
    requires a != b && a != c && a != d && b != c && b != d && c != d
    requires DistinctNames(va) && DistinctNames(vb) && DistinctNames(vc) && DistinctNames(vd)
    ensures DistinctNames(Obj([Field(a, va), Field(b, vb), Field(c, vc), Field(d, vd)]))
  {
    var fs := [Field(a, va), Field(b, vb), Field(c, vc), Field(d, vd)];
    assert fs[1..] == [Field(b, vb), Field(c, vc), Field(d, vd)];
    assert fs[1..][1..] == [Field(c, vc), Field(d, vd)];
    assert fs[1..][1..][1..] == [Field(d, vd)] && fs[1..][1..][1..][1..] == [];
    assert Lookup(fs[1..][1..][1..], c) == None;
    assert DistinctFields(fs[1..][1..][1..]);
    assert Lookup(fs[1..][1..], b) == None;
    assert DistinctFields(fs[1..][1..]);
    assert Lookup(fs[1..], a) == None;
    assert DistinctFields(fs[1..]);
  }

  /** Every default has its field's declared type. */
  lemma DefaultsFit()
    ensures Fits("", Defaults(), Defaults())
  {
    FitsFour("gemini", "api_key", "model", "temperature", "max_tokens",
      Str(""), Str("gemini-1.5-pro"), Float("0.3"), Int(4096));
    FitsFour("ollama", "base_url", "model", "temperature", "timeout",
      Str("http://localhost:11434"), Str("llama3.2:latest"), Float("0.3"), Int(120));
    FitsFour("anthropic", "api_key", "model", "temperature", "max_tokens",
      Str(""), Str("claude-3-sonnet-20240229"), Float("0.3"), Int(4096));
    FitsFour("doc2md", "default_style", "chunk_size", "preserve_formatting", "output_format",
      Str("technical"), Int(4000), Bool(true), Str("markdown"));
    assert "gemini" in Providers;
    FitsFour("ai", "provider", "gemini", "ollama", "anthropic",
      Str("gemini"), GeminiDefaults(), OllamaDefaults(), AnthropicDefaults());
    FitsOne("tools", "doc2md", Doc2mdDefaults());
    FitsTwo("", "ai", "tools", AiDefaults(), ToolsDefaults());
  }

  /** A record of one, two or four fields fits itself when its fields do. */
  lemma FitsOne(n: string, a: string, va: Value)
    requires Fits(a, va, va)
    ensures Fits(n, Obj([Field(a, va)]), Obj([Field(a, va)]))
  {
    var fs := [Field(a, va)];
    assert fs[1..] == [];
    assert FitsFields(fs, fs);
  }

  lemma FitsTwo(n: string, a: string, b: string, va: Value, vb: Value)
    requires Fits(a, va, va) && Fits(b, vb, vb)
    ensures Fits(n, Obj([Field(a, va), Field(b, vb)]), Obj([Field(a, va), Field(b, vb)]))
  {
    var fs := [Field(a, va), Field(b, vb)];
    var t1 := [Field(b, vb)];
    assert t1[1..] == [];
    assert FitsFields(t1, t1);
    assert fs[1..] == t1;
    assert FitsFields(fs, fs);
  }

  lemma FitsFour(n: string, a: string, b: string, c: string, d: string, va: Value, vb: Value, vc: Value, vd: Value)
    requires Fits(a, va, va) && Fits(b, vb, vb) && Fits(c, vc, vc) && Fits(d, vd, vd)
    ensures Fits(n, Obj([Field(a, va), Field(b, vb), Field(c, vc), Field(d, vd)]),
                    Obj([Field(a, va), Field(b, vb), Field(c, vc), Field(d, vd)]))
  {
    var fs := [Field(a, va), Field(b, vb), Field(c, vc), Field(d, vd)];
    var t3 := [Field(d, vd)];
    var t2 := [Field(c, vc)] + t3;
    var t1 := [Field(b, vb)] + t2;
    assert t3[1..] == [];
    assert FitsFields(t3, t3);
    assert t2[1..] == t3;
    assert FitsFields(t2, t2);
    assert t1[1..] == t2;
    assert FitsFields(t1, t1);
    assert fs == [Field(a, va)] + t1;
    assert fs[1..] == t1;
    assert FitsFields(fs, fs);
  }

  /** Fitting fields carry the declared names, in order. */
  lemma {:induction false} FitsNames(fs: seq<Field>, gs: seq<Field>)
    requires FitsFields(fs, gs)
    ensures SameNames(fs, gs)
    decreases fs
  {
    if fs != [] {
      FitsNames(fs[1..], gs[1..]);
      assert forall i :: 1 <= i < |fs| ==> fs[i] == fs[1..][i - 1] && gs[i] == gs[1..][i - 1];
    }
  }

  lemma {:induction false} FitAt(fs: seq<Field>, gs: seq<Field>, k: nat)
    requires FitsFields(fs, gs) && k < |fs|
    ensures Fits(fs[k].name, fs[k].value, gs[k].value)
    decreases k
  {
    if k > 0 { FitAt(fs[1..], gs[1..], k - 1); }
  }

  lemma {:induction false} DistinctAt(fs: seq<Field>, k: nat)
    requires DistinctFields(fs) && k < |fs|
    ensures DistinctNames(fs[k].value)
    decreases k
  {
    if k > 0 { DistinctAt(fs[1..], k - 1); }
  }

  lemma {:induction false} DistinctIndex(fs: seq<Field>, i: nat, j: nat)
    requires DistinctFields(fs) && i < j < |fs|
    ensures fs[i].name != fs[j].name
    decreases i
  {
    if i == 0 {
      assert fs[1..][j - 1] == fs[j];
    } else {
      DistinctIndex(fs[1..], i - 1, j - 1);
    }
  }

  /** `Lookup` finds a field no earlier field shares a name with. */
  lemma {:induction false} LookupAt(ds: seq<Field>, k: nat)
    requires k < |ds| && forall i :: 0 <= i < k ==> ds[i].name != ds[k].name
    ensures Lookup(ds, ds[k].name) == Some(ds[k].value)
    decreases k
  {
    if k > 0 {
      assert forall i :: 0 <= i < k - 1 ==> ds[1..][i] == ds[i + 1];
      LookupAt(ds[1..], k - 1);
    }
  }

  /** In fields named like distinct declared ones, the k-th declared name
      finds the k-th field. */
  lemma LookupSameNames(fs: seq<Field>, ds: seq<Field>, k: nat)
    requires DistinctFields(fs) && SameNames(fs, ds) && k < |fs|
    ensures Lookup(ds, fs[k].name) == Some(ds[k].value)
  {
    forall i | 0 <= i < k
      ensures ds[i].name != ds[k].name
    {
      DistinctIndex(fs, i, k);
    }
    LookupAt(ds, k);
  }

  /** Fields named as declared have no extra field. */
  lemma NoExtra(fs: seq<Field>, ds: seq<Field>)
    requires SameNames(fs, ds)
    ensures !HasExtra(fs, ds)
  {
    forall k | 0 <= k < |ds|
      ensures Lookup(fs, ds[k].name).Some?
    {
      assert fs[k].name == ds[k].name;
    }
  }

  /** Data that already has the declared types validates to itself: a saved
      configuration reloads unchanged. */
  lemma {:induction false} OverlayIdentity(name: string, base: Value, data: Value)
    requires DistinctNames(base) && Fits(name, base, data)
    ensures Overlay(name, base, data) == Success(data)
    decreases base, 1
  {
    if base.Obj? {
      var fs, ds := base.fields, data.fields;
      FitsNames(fs, ds);
      forall i | 0 <= i < |fs|
        ensures FieldStep(fs[i], ds) == Success(ds[i].value)
      {
        LookupSameNames(fs, ds, i);
        FitAt(fs, ds, i);
        DistinctAt(fs, i);
        OverlayIdentity(fs[i].name, fs[i].value, ds[i].value);
      }
      FieldsSucceed(fs, ds, ds);
    }
  }

  /** A successful validation has the declared types. */
  lemma {:induction false} OverlayFits(name: string, base: Value, data: Value)
    requires Fits(name, base, base) && Overlay(name, base, data).Success?
    ensures Fits(name, base, Overlay(name, base, data).value)
    decreases base, 1
  {
    if base.Obj? {
      OverlayFieldsFit(base.fields, data.fields);
    }
  }

  lemma {:induction false} OverlayFieldsFit(fs: seq<Field>, ds: seq<Field>)
    requires FitsFields(fs, fs) && OverlayFields(fs, ds).Success?
    ensures FitsFields(fs, OverlayFields(fs, ds).value)
    decreases fs, 0
  {
    if fs != [] {
      match Lookup(ds, fs[0].name) {
        case None =>
        case Some(d) => OverlayFits(fs[0].name, fs[0].value, d);
      }
      OverlayFieldsFit(fs[1..], ds);
      assert OverlayFields(fs, ds).value[1..] == OverlayFields(fs[1..], ds).value;
    }
  }

  /** Every configuration that loads has the declared types, and a
      configuration of those types, once saved, loads back unchanged. */
  lemma SaveLoadRoundTrip(file: Option<Value>, c: Value)
    ensures Build(file).Success? ==> Conforms(Build(file).value)
    ensures Conforms(c) ==> Build(Some(c)) == Success(c)
  {
    if Build(file).Success? {
      assert Fits("", Defaults(), Defaults()) by {
        DefaultsFit();
      }
      if file.Some? {
        var data := if Truthy(file.value) then file.value else Obj([]);
        assert Build(file) == Overlay("", Defaults(), data);
        OverlayFits("", Defaults(), data);
      }
    }
    if Conforms(c) {
      var top := Defaults().fields;
      assert !HasExtra(top, c.fields) by {
        FitsNames(top, c.fields);
        NoExtra(top, c.fields);
      }
      assert Overlay("", Defaults(), c) == Success(c) by {
        DefaultsDistinct();
        OverlayIdentity("", Defaults(), c);
      }
      assert Truthy(c) by {
        assert |c.fields| == 2;
      }
    }
  }

  /** Keys a record does not declare are ignored below the top level. */
  lemma {:induction false} UnknownKeysIgnored(fs: seq<Field>, ds: seq<Field>)
    requires forall k :: 0 <= k < |ds| ==> Lookup(fs, ds[k].name).None?
    ensures OverlayFields(fs, ds) == Success(fs)
  {
    if fs != [] {
      forall k | 0 <= k < |ds|
        ensures ds[k].name != fs[0].name && Lookup(fs[1..], ds[k].name).None?
      {
        assert Lookup(fs, ds[k].name).None?;
      }
      assert Lookup(ds, fs[0].name).None?;
      UnknownKeysIgnored(fs[1..], ds);
      assert fs == [Field(fs[0].name, fs[0].value)] + fs[1..];
    }
  }

  /** An unknown key inside a section is ignored. */
  lemma UnknownSectionKeyIgnored(key: string, x: Value)
    requires key !in ["provider", "gemini", "ollama", "anthropic"]
    ensures Build(Some(Obj([Field("ai", Obj([Field(key, x)]))]))) == Success(Defaults())
  {
    var top := Defaults().fields;
    var ds := [Field("ai", Obj([Field(key, x)]))];
    assert Build(Some(Obj(ds))) == Overlay("", Defaults(), Obj(ds)) by {
      assert Truthy(Obj(ds));
      assert Lookup(top, ds[0].name).Some?;
    }
    assert Overlay("ai", AiDefaults(), Obj([Field(key, x)])) == Success(AiDefaults()) by {
      assert Lookup(AiDefaults().fields, key).None?;
      IgnoredIn("ai", AiDefaults().fields, key, x);
    }
    FirstOnly(top, Obj([Field(key, x)]));
  }

  /** A record ignores an entry it does not declare. */
  lemma IgnoredIn(n: string, fs: seq<Field>, key: string, x: Value)
    requires Lookup(fs, key).None?
    ensures Overlay(n, Obj(fs), Obj([Field(key, x)])) == Success(Obj(fs))
  {
    var inner := [Field(key, x)];
    assert inner[0].name == key;
    UnknownKeysIgnored(fs, inner);
  }

  /** Data for the first of two fields that validates to its default gives
      the defaults. */
  lemma FirstOnly(fs: seq<Field>, d: Value)
    requires |fs| == 2 && fs[0].name != fs[1].name
    requires Overlay(fs[0].name, fs[0].value, d) == Success(fs[0].value)
    ensures OverlayFields(fs, [Field(fs[0].name, d)]) == Success(fs)
  {
    var ds := [Field(fs[0].name, d)];
    assert FieldStep(fs[0], ds) == Success(fs[0].value);
    assert FieldStep(fs[1], ds) == Success(fs[1].value);
    FieldsSucceed(fs, ds, fs);
  }

  /** An unknown key at the top level fails validation. */
  lemma UnknownTopKeyRejected(key: string, x: Value)
    requires key != "ai" && key != "tools"
    ensures Build(Some(Obj([Field(key, x)]))) == Failure("extra_forbidden")
  {
    var top, ds := Defaults().fields, [Field(key, x)];
    assert HasExtra(top, ds) by {
      assert Lookup(top, ds[0].name).None?;
    }
  }

  /** On fields named like distinct declared ones, `SetField` replaces the
      m-th field and keeps the others. */
  lemma {:induction false} SetFieldAt(cs: seq<Field>, m: nat, x: Value)
    requires m < |cs| && forall i :: 0 <= i < m ==> cs[i].name != cs[m].name
    ensures var r := SetField(cs, cs[m].name, x);
      r[m] == Field(cs[m].name, x) && forall i :: 0 <= i < |cs| && i != m ==> r[i] == cs[i]
    decreases m
  {
    var r := SetField(cs, cs[m].name, x);
    if m > 0 {
      var t := cs[1..];
      assert t[m - 1] == cs[m];
      forall i | 0 <= i < m - 1
        ensures t[i].name != t[m - 1].name
      {
        assert t[i] == cs[i + 1];
      }
      SetFieldAt(t, m - 1, x);
      var rt := SetField(t, cs[m].name, x);
      assert r == [cs[0]] + rt;
      forall i | 0 <= i < |cs| && i != m
        ensures r[i] == cs[i]
      {
        if i > 0 {
          assert r[i] == rt[i - 1] && t[i - 1] == cs[i];
        }
      }
    }
  }

  /** Validating a record whose data was valid except at one field gives that
      field's result: its error, or the record with the validated value. */
  lemma FieldsSet(fs: seq<Field>, cs: seq<Field>, m: nat, x: Value)
    requires DistinctFields(fs) && FitsFields(fs, cs) && m < |fs|
    ensures var r := Overlay(fs[m].name, fs[m].value, x);
      r.Failure? ==> OverlayFields(fs, SetField(cs, fs[m].name, x)) == Failure(r.error)
    ensures var r := Overlay(fs[m].name, fs[m].value, x);
      r.Success? ==> OverlayFields(fs, SetField(cs, fs[m].name, x)) == Success(SetField(cs, fs[m].name, r.value))
  {
    var n := fs[m].name;
    FitsNames(fs, cs);
    forall i | 0 <= i < m
      ensures cs[i].name != cs[m].name
    {
      DistinctIndex(fs, i, m);
    }
    var ds := SetField(cs, n, x);
    SetFieldAt(cs, m, x);
    assert SameNames(fs, ds);
    forall i | 0 <= i < |fs| && i != m
      ensures FieldStep(fs[i], ds) == Success(cs[i].value)
    {
      LookupSameNames(fs, ds, i);
      FitAt(fs, cs, i);
      DistinctAt(fs, i);
      OverlayIdentity(fs[i].name, fs[i].value, cs[i].value);
    }
    LookupSameNames(fs, ds, m);
    assert FieldStep(fs[m], ds) == Overlay(n, fs[m].value, x);
    match Overlay(n, fs[m].value, x) {
      case Success(v) =>
        SetFieldAt(cs, m, v);
        FieldsSucceed(fs, ds, SetField(cs, n, v));
      case Failure(e) =>
        FieldsFailAt(fs, ds, m, e);
    }
  }

  /** A key path names a leaf of a valid value exactly when it names one of
      the declared record, and the two leaves fit. */
  lemma {:induction false} PathFits(name: string, base: Value, c: Value, keys: seq<string>)
    requires DistinctNames(base) && Fits(name, base, c) && keys != []
    ensures GetPath(base, keys).Some? <==> GetPath(c, keys).Some?
    ensures GetPath(base, keys).Some? ==>
      Fits(keys[|keys| - 1], GetPath(base, keys).value, GetPath(c, keys).value)
    ensures GetPath(base, keys).Some? ==>
      (GetPath(base, keys).value.Obj? <==> GetPath(c, keys).value.Obj?)
    decreases |keys|
  {
    if base.Obj? {
      var fs, cs := base.fields, c.fields;
      FitsNames(fs, cs);
      if m :| 0 <= m < |fs| && fs[m].name == keys[0] {
        LookupSameNames(fs, fs, m);
        LookupSameNames(fs, cs, m);
        FitAt(fs, cs, m);
        DistinctAt(fs, m);
        if |keys| > 1 {
          PathFits(keys[0], fs[m].value, cs[m].value, keys[1..]);
          assert keys[1..][|keys| - 2] == keys[|keys| - 1];
        }
      } else {
        assert Lookup(fs, keys[0]).None?;
        assert Lookup(cs, keys[0]).None?;
      }
    }
  }

  /** `FieldsSet` for the whole record. */
  lemma RecordSet(name: string, base: Value, c: Value, m: nat, x: Value)
    requires DistinctNames(base) && Fits(name, base, c) && base.Obj? && m < |base.fields|
    ensures var k := base.fields[m].name; var r := Overlay(k, base.fields[m].value, x);
      r.Failure? ==> Overlay(name, base, Obj(SetField(c.fields, k, x))) == Failure(r.error)
    ensures var k := base.fields[m].name; var r := Overlay(k, base.fields[m].value, x);
      r.Success? ==> Overlay(name, base, Obj(SetField(c.fields, k, x))) == Success(Obj(SetField(c.fields, k, r.value)))
  {
    FieldsSet(base.fields, c.fields, m, x);
  }

  /** One level of `SetPath`: the named field of the record is replaced. */
  lemma SetPathStep(c: Value, keys: seq<string>, w: Value)
    requires keys != [] && GetPath(c, keys).Some?
    ensures c.Obj? && Lookup(c.fields, keys[0]).Some?
    ensures |keys| == 1 ==> SetPath(c, keys, w) == Some(Obj(SetField(c.fields, keys[0], w)))
    ensures |keys| > 1 ==>
      GetPath(Lookup(c.fields, keys[0]).value, keys[1..]).Some? &&
      SetPath(Lookup(c.fields, keys[0]).value, keys[1..], w).Some? &&
      SetPath(c, keys, w) ==
        Some(Obj(SetField(c.fields, keys[0], SetPath(Lookup(c.fields, keys[0]).value, keys[1..], w).value)))
  {
    if |keys| > 1 {
      SetPathDefinedIff(Lookup(c.fields, keys[0]).value, keys[1..], w);
    }
  }

  /** Replacing what a key path of a valid value names by `nv` and
      validating gives the failure of `nv` for that key's declared field, or
      the value with the validated `nv` in place. */
  lemma {:induction false} OverlaySetPath(name: string, base: Value, c: Value, keys: seq<string>, nv: Value)
    requires DistinctNames(base) && Fits(name, base, c)
    requires keys != [] && GetPath(c, keys).Some?
    ensures GetPath(base, keys).Some?
    ensures forall w :: SetPath(c, keys, w).Some?
    ensures var r := Overlay(keys[|keys| - 1], GetPath(base, keys).value, nv);
      r.Failure? ==> Overlay(name, base, SetPath(c, keys, nv).value) == Failure(r.error)
    ensures var r := Overlay(keys[|keys| - 1], GetPath(base, keys).value, nv);
      r.Success? ==> Overlay(name, base, SetPath(c, keys, nv).value) == Success(SetPath(c, keys, r.value).value)
    decreases |keys|
  {
    assert GetPath(base, keys).Some? by {
      PathFits(name, base, c, keys);
    }
    forall w
      ensures SetPath(c, keys, w).Some?
    {
      SetPathDefinedIff(c, keys, w);
    }
    var fs, cs := base.fields, c.fields;
    var m :| 0 <= m < |cs| && cs[m].name == keys[0];
    assert m < |fs| && fs[m].name == keys[0] && Lookup(fs, keys[0]) == Some(fs[m].value)
        && Lookup(cs, keys[0]) == Some(cs[m].value) by {
      FitsNames(fs, cs);
      LookupSameNames(fs, fs, m);
      LookupSameNames(fs, cs, m);
    }
    var r := Overlay(keys[|keys| - 1], GetPath(base, keys).value, nv);
    SetPathStep(c, keys, nv);
    if r.Success? {
      SetPathStep(c, keys, r.value);
    }
    if |keys| == 1 {
      assert GetPath(base, keys) == Some(fs[m].value);
      RecordSet(name, base, c, m, nv);
    } else {
      var child, rest := cs[m].value, keys[1..];
      assert DistinctNames(fs[m].value) && Fits(keys[0], fs[m].value, child) by {
        FitAt(fs, cs, m);
        DistinctAt(fs, m);
      }
      assert GetPath(base, keys) == GetPath(fs[m].value, rest);
      assert rest[|rest| - 1] == keys[|keys| - 1];
      OverlaySetPath(keys[0], fs[m].value, child, rest, nv);
      RecordSet(name, base, c, m, SetPath(child, rest, nv).value);
    }
  }

  /** Python truthiness of a leaf; a float is truthy when its text has a
      non-zero digit. */
  predicate Truthy(v: Value)
  {
    match v
    case Str(s) => s != ""
    case Int(i) => i != 0
    case Bool(b) => b
    case Float(t) => exists k :: 0 <= k < |t| && '1' <= t[k] <= '9'
    case Obj(fs) => fs != []
  }

  /** `str(value)`: a string is itself, a bool is `True`/`False`, a record is
      its dict display. */
  function Render(v: Value): string
    decreases v, 1
  {
    match v
    case Str(s) => s
    case Int(i) => IntToString(i)
    case Bool(b) => if b then "True" else "False"
    case Float(t) => t
    case Obj(fs) => "{" + RenderItems(fs) + "}"
  }

  /** `repr` inside a dict display: strings are single-quoted (escapes are not
      modelled). */
  function Repr(v: Value): string
    decreases v, 2
  {
    if v.Str? then "'" + v.s + "'" else Render(v)
  }

  function RenderItems(fs: seq<Field>): string
    decreases fs, 0
  {
    if fs == [] then ""
    else
      "'" + fs[0].name + "': " + Repr(fs[0].value)
      + (if |fs| > 1 then ", " + RenderItems(fs[1..]) else "")
  }

  /** `x or y` on optional strings: `None` and "" are falsy. */
  predicate Given(o: Option<string>)
  {
    o.Some? && o.value != ""
  }

  /** `config.ai.provider`, rendered as text. */
  function ConfiguredProvider(c: Value): Result<string, string>
  {
    match GetPath(c, ["ai", "provider"])
    case None => Failure("AttributeError: ai.provider")
    case Some(p) => Success(Render(p))
  }

  /** `get_ai_provider`: the override, else the environment variable, else the
      configured provider (loading only in that last case). */
  function ProviderFrom(override: Option<string>, env: Option<string>, loaded: Result<Value, string>)
    : (r: Result<string, string>)
    ensures Given(override) ==> r == Success(override.value)
    ensures !Given(override) && Given(env) ==> r == Success(env.value)
    ensures !Given(override) && !Given(env) && loaded.Success? ==> r == ConfiguredProvider(loaded.value)
  {
    if Given(override) then Success(override.value)
    else if Given(env) then Success(env.value)
    else
      match loaded
      case Failure(e) => Failure(e)
      case Success(c) => ConfiguredProvider(c)
  }

  const Providers: seq<string> := ["gemini", "ollama", "anthropic"]

  /** The section `get_ai_config` dumps for a provider name. */
  function Section(c: Value, provider: string): (r: Result<Value, string>)
    ensures provider !in Providers ==> r == Failure("Unknown AI provider: " + provider)
    ensures r.Success? ==> provider in Providers && GetPath(c, ["ai", provider]) == Some(r.value) && r.value.Obj?
  {
    if provider !in Providers then Failure("Unknown AI provider: " + provider)
    else
      match GetPath(c, ["ai", provider])
      case Some(Obj(fs)) => Success(Obj(fs))
      case _ => Failure("AttributeError: ai." + provider)
  }

  /** The value of `get_ai_config(provider)`: loading comes first, then the
      provider (`provider or get_ai_provider()`), then the section. */
  function AiConfig(provider: Option<string>, env: Option<string>, loaded: Result<Value, string>)
    : Result<Value, string>
  {
    match loaded
    case Failure(e) => Failure(e)
    case Success(c) =>
      match (if Given(provider) then Success(provider.value) else ProviderFrom(None, env, loaded))
      case Failure(e) => Failure(e)
      case Success(p) => Section(c, p)
  }

  /** With the defaults, an unknown name fails with ValueError, and a missing
      or empty name falls back to the configured default provider. */
  lemma AiConfigDispatch(provider: Option<string>, env: Option<string>, c: Value)
    ensures Given(provider) && provider.value !in Providers ==>
      AiConfig(provider, env, Success(c)) == Failure("Unknown AI provider: " + provider.value)
    ensures !Given(provider) && Given(env) ==> AiConfig(provider, env, Success(c)) == Section(c, env.value)
    ensures !Given(provider) && !Given(env) && ConfiguredProvider(c).Success? ==>
      AiConfig(provider, env, Success(c)) == Section(c, ConfiguredProvider(c).value)
  {
  }

  /** Out of the box the provider is gemini, and each known provider's section
      is its declared defaults. */
  lemma DefaultProvider()
    ensures ConfiguredProvider(Defaults()) == Success("gemini")
  {
  }

  lemma DefaultGeminiSection(env: Option<string>)
    ensures AiConfig(Some("gemini"), env, Success(Defaults())) == Success(GeminiDefaults())
  {
    assert Providers[0] == "gemini";
  }

  lemma DefaultOllamaSection(env: Option<string>)
    ensures AiConfig(Some("ollama"), env, Success(Defaults())) == Success(OllamaDefaults())
  {
    assert Providers[1] == "ollama";
  }

  lemma DefaultAnthropicSection(env: Option<string>)
    ensures AiConfig(Some("anthropic"), env, Success(Defaults())) == Success(AnthropicDefaults())
  {
    assert Providers[2] == "anthropic";
  }

  /** A fresh configuration: provider gemini with model "gemini-1.5-pro",
      Ollama at "http://localhost:11434" with timeout 120, and doc2md with
      style "technical" and chunks of 4000 characters. */
  lemma FreshConfigValues()
    ensures GetPath(Defaults(), ["ai", "provider"]) == Some(Str("gemini"))
    ensures GetPath(Defaults(), ["ai", "gemini", "model"]) == Some(Str("gemini-1.5-pro"))
    ensures GetPath(Defaults(), ["ai", "ollama", "base_url"]) == Some(Str("http://localhost:11434"))
    ensures GetPath(Defaults(), ["ai", "ollama", "timeout"]) == Some(Int(120))
    ensures GetPath(Defaults(), ["tools", "doc2md", "default_style"]) == Some(Str("technical"))
    ensures GetPath(Defaults(), ["tools", "doc2md", "chunk_size"]) == Some(Int(4000))
  {
    TopAttrs();
    AiAttrs();
    OllamaAttrs();
    Doc2mdAttrs();
    PathOfTwo(Defaults(), "ai", "provider", AiDefaults(), Str("gemini"));
    PathOfThree(Defaults(), "ai", "gemini", "model", AiDefaults(), GeminiDefaults(), Str("gemini-1.5-pro"));
    PathOfThree(Defaults(), "ai", "ollama", "base_url", AiDefaults(), OllamaDefaults(),
                Str("http://localhost:11434"));
    PathOfThree(Defaults(), "ai", "ollama", "timeout", AiDefaults(), OllamaDefaults(), Int(120));
    PathOfThree(Defaults(), "tools", "doc2md", "default_style", ToolsDefaults(), Doc2mdDefaults(),
                Str("technical"));
    PathOfThree(Defaults(), "tools", "doc2md", "chunk_size", ToolsDefaults(), Doc2mdDefaults(), Int(4000));
  }

  lemma TopAttrs()
    ensures Attr(Defaults(), "ai") == Some(AiDefaults())
    ensures Attr(Defaults(), "tools") == Some(ToolsDefaults())
    ensures Attr(ToolsDefaults(), "doc2md") == Some(Doc2mdDefaults())
  {
  }

  lemma AiAttrs()
    ensures Attr(AiDefaults(), "provider") == Some(Str("gemini"))
    ensures Attr(AiDefaults(), "gemini") == Some(GeminiDefaults())
    ensures Attr(AiDefaults(), "ollama") == Some(OllamaDefaults())
    ensures Attr(GeminiDefaults(), "model") == Some(Str("gemini-1.5-pro"))
  {
  }

  lemma OllamaAttrs()
    ensures Attr(OllamaDefaults(), "base_url") == Some(Str("http://localhost:11434"))
    ensures Attr(OllamaDefaults(), "timeout") == Some(Int(120))
  {
    OllamaTimeout();
  }

  lemma Doc2mdAttrs()
    ensures Attr(Doc2mdDefaults(), "default_style") == Some(Str("technical"))
    ensures Attr(Doc2mdDefaults(), "chunk_size") == Some(Int(4000))
    ensures Attr(Doc2mdDefaults(), "preserve_formatting") == Some(Bool(true))
  {
  }

  lemma OllamaTimeout()
    ensures Attr(OllamaDefaults(), "timeout") == Some(Int(120))
  {
    var fs := OllamaDefaults().fields;
    assert fs[0].name != "timeout" && fs[1].name != "timeout" && fs[2].name != "timeout";
    assert fs[1..][1..][1..] == [fs[3]];
  }

  lemma PathOfTwo(v: Value, a: string, b: string, va: Value, vb: Value)
    requires Attr(v, a) == Some(va) && Attr(va, b) == Some(vb)
    ensures GetPath(v, [a, b]) == Some(vb)
  {
    assert [a, b][0] == a && [a, b][1..] == [b];
    assert [b][0] == b && [b][1..] == [];
    assert GetPath(vb, []) == Some(vb);
    assert GetPath(va, [b]) == Some(vb);
  }

  lemma PathOfThree(v: Value, a: string, b: string, c: string, va: Value, vb: Value, vc: Value)
    requires Attr(v, a) == Some(va) && Attr(va, b) == Some(vb) && Attr(vb, c) == Some(vc)
    ensures GetPath(v, [a, b, c]) == Some(vc)
  {
    assert [a, b, c][0] == a && [a, b, c][1..] == [b, c];
    PathOfTwo(va, b, c, vb, vc);
  }

  /** The configuration a manager sees: its cache, else what the file builds. */
  function Loaded(cache: Option<Value>, file: Option<Value>): Result<Value, string>
  {
    if cache.Some? then Success(cache.value) else Build(file)
  }

  /** The error `set_config_value(key, ...)` raises when the key names
      nothing: `setattr` of an undeclared field on a record raises
      ValueError; a missing attribute on the way, or setting an attribute of a
      leaf, raises AttributeError. */
  function SetError(c: Value, key: string): string
  {
    var keys := Split(key, '.');
    match GetPath(c, keys[..|keys| - 1])
    case Some(Obj(_)) => "ValueError: object has no field \"" + keys[|keys| - 1] + "\""
    case _ => "AttributeError: " + key
  }

  /** The new configuration after `set_config_value(key, value)`, or the
      error. */
  function SetValue(c: Value, key: string, value: Value): Result<Value, string>
  {
    match SetPath(c, Split(key, '.'), value)
    case None => Failure(SetError(c, key))
    case Some(c2) => Success(c2)
  }

  /** The value of `get_config_value(key)`. */
  function GetValue(c: Value, key: string): Result<Value, string>
  {
    match GetPath(c, Split(key, '.'))
    case None => Failure("AttributeError: " + key)
    case Some(v) => Success(v)
  }

  /** Setting fails exactly where reading fails, and it fails with ValueError
      exactly when the parent is a record that lacks the last key. */
  lemma SetFailsWhere(c: Value, key: string, value: Value)
    ensures SetValue(c, key, value).Failure? <==> GetValue(c, key).Failure?
    ensures var keys := Split(key, '.');
      SetValue(c, key, value).Failure? && GetPath(c, keys[..|keys| - 1]).Some?
        && GetPath(c, keys[..|keys| - 1]).value.Obj? ==>
      Lookup(GetPath(c, keys[..|keys| - 1]).value.fields, keys[|keys| - 1]).None?
  {
    var keys := Split(key, '.');
    assert SetPath(c, keys, value).Some? <==> GetPath(c, keys).Some? by {
      SetPathDefinedIff(c, keys, value);
    }
    var parent := GetPath(c, keys[..|keys| - 1]);
    if parent.Some? {
      assert GetPath(c, keys) == Attr(parent.value, keys[|keys| - 1]) by {
        WalkStep(c, keys, |keys| - 1, parent.value);
        assert keys[..|keys|] == keys;
      }
    }
  }

  /** `set_config_value` then `get_config_value` on the same key returns the
      value; keys branching off elsewhere keep theirs. */
  lemma SetThenGet(c: Value, key: string, value: Value, other: string)
    requires SetValue(c, key, value).Success?
    ensures GetValue(SetValue(c, key, value).value, key) == Success(value)
    ensures Diverge(Split(key, '.'), Split(other, '.')) ==>
      GetValue(SetValue(c, key, value).value, other) == GetValue(c, other)
  {
    GetAfterSet(c, Split(key, '.'), value);
    if Diverge(Split(key, '.'), Split(other, '.')) {
      OtherKeysUnchanged(c, Split(key, '.'), value, Split(other, '.'));
    }
  }

  /** Setting a path of a record keeps the record's field names. */
  lemma SetPathNames(c: Value, keys: seq<string>, nv: Value)
    requires keys != [] && SetPath(c, keys, nv).Some?
    ensures c.Obj? && SetPath(c, keys, nv).value.Obj?
    ensures SameNames(c.fields, SetPath(c, keys, nv).value.fields)
  {
  }

  /** `set_config_value` stores the value unvalidated; loading the saved
      file validates it against the key's declared type, so the reload fails
      with that validation's error or gives the configuration with the
      converted value set. */
  lemma SetThenReload(c: Value, key: string, value: Value)
    requires Conforms(c) && GetValue(c, key).Success?
    ensures SetValue(c, key, value).Success?
    ensures GetPath(Defaults(), Split(key, '.')).Some?
    ensures var keys := Split(key, '.');
      var r := Overlay(keys[|keys| - 1], GetPath(Defaults(), keys).value, value);
      r.Failure? ==> Build(Some(SetValue(c, key, value).value)) == Failure(r.error)
    ensures var keys := Split(key, '.');
      var r := Overlay(keys[|keys| - 1], GetPath(Defaults(), keys).value, value);
      r.Success? ==> Build(Some(SetValue(c, key, value).value)) == SetValue(c, key, r.value)
  {
    var keys := Split(key, '.');
    ReloadSetPath(c, keys, value);
    SetValueIsSetPath(c, key, value);
    var r := Overlay(keys[|keys| - 1], GetPath(Defaults(), keys).value, value);
    if r.Success? {
      SetValueIsSetPath(c, key, r.value);
    }
  }

  /** On a key that names something, `SetValue` is `SetPath`. */
  lemma SetValueIsSetPath(c: Value, key: string, w: Value)
    requires GetPath(c, Split(key, '.')).Some?
    ensures SetPath(c, Split(key, '.'), w).Some?
    ensures SetValue(c, key, w) == Success(SetPath(c, Split(key, '.'), w).value)
  {
    SetPathDefinedIff(c, Split(key, '.'), w);
  }

  /** `SetThenReload` on a key path. */
  lemma ReloadSetPath(c: Value, keys: seq<string>, nv: Value)
    requires Conforms(c) && keys != [] && GetPath(c, keys).Some?
    ensures GetPath(Defaults(), keys).Some?
    ensures forall w :: SetPath(c, keys, w).Some?
    ensures var r := Overlay(keys[|keys| - 1], GetPath(Defaults(), keys).value, nv);
      r.Failure? ==> Build(Some(SetPath(c, keys, nv).value)) == Failure(r.error)
    ensures var r := Overlay(keys[|keys| - 1], GetPath(Defaults(), keys).value, nv);
      r.Success? ==> Build(Some(SetPath(c, keys, nv).value)) == Success(SetPath(c, keys, r.value).value)
  {
    assert DistinctNames(Defaults()) by {
      DefaultsDistinct();
    }
    OverlaySetPath("", Defaults(), c, keys, nv);
    ReloadIsOverlay(c, keys, nv);
  }

  /** A configuration with one path set is still a record of the top-level
      fields, so reloading it validates it field by field. */
  lemma ReloadIsOverlay(c: Value, keys: seq<string>, nv: Value)
    requires Conforms(c) && keys != [] && SetPath(c, keys, nv).Some?
    ensures Build(Some(SetPath(c, keys, nv).value)) == Overlay("", Defaults(), SetPath(c, keys, nv).value)
  {
    var top := Defaults().fields;
    var c2 := SetPath(c, keys, nv).value;
    assert SameNames(top, c2.fields) by {
      SetPathNames(c, keys, nv);
      FitsNames(top, c.fields);
    }
    assert !HasExtra(top, c2.fields) by {
      NoExtra(top, c2.fields);
    }
    assert Truthy(c2) by {
      assert |c2.fields| == 2;
    }
  }

  /** The declared leaves the concrete cases below set. */
  lemma ChunkSizeLeaf()
    ensures GetPath(Defaults(), ["tools", "doc2md", "chunk_size"]) == Some(Int(4000))
  {
    TopAttrs();
    Doc2mdAttrs();
    PathOfThree(Defaults(), "tools", "doc2md", "chunk_size", ToolsDefaults(), Doc2mdDefaults(), Int(4000));
  }

  lemma PreserveFormattingLeaf()
    ensures GetPath(Defaults(), ["tools", "doc2md", "preserve_formatting"]) == Some(Bool(true))
  {
    TopAttrs();
    Doc2mdAttrs();
    PathOfThree(Defaults(), "tools", "doc2md", "preserve_formatting", ToolsDefaults(), Doc2mdDefaults(),
                Bool(true));
  }

  lemma ProviderLeaf()
    ensures GetPath(Defaults(), ["ai", "provider"]) == Some(Str("gemini"))
  {
    TopAttrs();
    AiAttrs();
    PathOfTwo(Defaults(), "ai", "provider", AiDefaults(), Str("gemini"));
  }

  /** A declared key of a valid configuration can be read. */
  lemma DeclaredKeyReadable(c: Value, key: string)
    requires Conforms(c) && GetPath(Defaults(), Split(key, '.')).Some?
    ensures GetValue(c, key).Success?
  {
    DefaultsDistinct();
    PathFits("", Defaults(), c, Split(key, '.'));
  }

  /** `SetThenReload` for a declared leaf whose validation is known. */
  lemma ReloadLeaf(c: Value, key: string, value: Value, d: Value, r: Result<Value, string>)
    requires Conforms(c) && GetPath(Defaults(), Split(key, '.')) == Some(d)
    requires Overlay(Split(key, '.')[|Split(key, '.')| - 1], d, value) == r
    ensures SetValue(c, key, value).Success?
    ensures r.Failure? ==> Build(Some(SetValue(c, key, value).value)) == Failure(r.error)
    ensures r.Success? ==> Build(Some(SetValue(c, key, value).value)) == SetValue(c, key, r.value)
  {
    DeclaredKeyReadable(c, key);
    SetThenReload(c, key, value);
  }

  /** `config set tools.doc2md.chunk_size 5000` saves the string "5000",
      which the next load reads as the integer 5000. */
  lemma ChunkSizeFromCli(c: Value, key: string, n: int)
    requires Conforms(c) && Split(key, '.') == ["tools", "doc2md", "chunk_size"]
    ensures SetValue(c, key, Str(IntToString(n))).Success?
    ensures Build(Some(SetValue(c, key, Str(IntToString(n))).value)) == SetValue(c, key, Int(n))
  {
    assert GetPath(Defaults(), Split(key, '.')) == Some(Int(4000)) by {
      ChunkSizeLeaf();
    }
    assert Overlay(Split(key, '.')[2], Int(4000), Str(IntToString(n))) == Success(Int(n)) by {
      IntTextCoerced(n);
    }
    ReloadLeaf(c, key, Str(IntToString(n)), Int(4000), Success(Int(n)));
  }

  /** The string "false" saved for `preserve_formatting` loads as `False`
      (a non-empty string would be truthy). */
  lemma PreserveFormattingFromCli(c: Value, key: string, word: string)
    requires Conforms(c) && Split(key, '.') == ["tools", "doc2md", "preserve_formatting"]
    requires Lower(word) in FalseWords
    ensures SetValue(c, key, Str(word)).Success?
    ensures Build(Some(SetValue(c, key, Str(word)).value)) == SetValue(c, key, Bool(false))
  {
    assert GetPath(Defaults(), Split(key, '.')) == Some(Bool(true)) by {
      PreserveFormattingLeaf();
    }
    assert Overlay(Split(key, '.')[2], Bool(true), Str(word)) == Success(Bool(false)) by {
      FlagTextCoerced(word);
    }
    ReloadLeaf(c, key, Str(word), Bool(true), Success(Bool(false)));
  }

  /** An unknown provider name is saved, but the saved file no longer
      loads. */
  lemma UnknownProviderFromCli(c: Value, key: string, name: string)
    requires Conforms(c) && Split(key, '.') == ["ai", "provider"] && name !in Providers
    ensures SetValue(c, key, Str(name)).Success?
    ensures Build(Some(SetValue(c, key, Str(name)).value)) == Failure("literal_error")
  {
    assert GetPath(Defaults(), Split(key, '.')) == Some(Str("gemini")) by {
      ProviderLeaf();
    }
    assert Overlay(Split(key, '.')[1], Str("gemini"), Str(name)) == Failure("literal_error") by {
      ChoiceCoerced(Providers, Str(name));
    }
    ReloadLeaf(c, key, Str(name), Str("gemini"), Failure("literal_error"));
  }

  /** `ConfigManager`: a cache of the loaded configuration and the content of
      the config file (`None` while there is no file). */
  class ConfigManager {
    var cache: Option<Value>
    var file: Option<Value>

    constructor(file: Option<Value>)
      ensures cache == None && this.file == file
    {
      cache := None;
      this.file := file;
    }

    /** `load_config`: the cached configuration, else one built once from the
        file and cached. */
    method LoadConfig() returns (r: Result<Value, string>)
      modifies this
      ensures r == Loaded(old(cache), old(file))
      ensures file == old(file)
      ensures cache == if r.Success? then Some(r.value) else old(cache)
    {
      if cache.Some? {
        return Success(cache.value);
      }
      r := Build(file);
      if r.Success? {
        cache := Some(r.value);
      }
    }

    /** `save_config`: a passed configuration becomes the cached one; with none
        cached it fails; otherwise the cached configuration is written. */
    method SaveConfig(config: Option<Value>) returns (r: Result<(), string>)
      modifies this
      ensures cache == if config.Some? then config else old(cache)
      ensures r.Failure? <==> cache.None?
      ensures r.Failure? ==> r.error == "No config to save" && file == old(file)
      ensures r.Success? ==> file == cache
    {
      if config.Some? {
        cache := config;
      }
      if cache.None? {
        return Failure("No config to save");
      }
      file := cache;
      r := Success(());
    }

    /** `get_ai_provider(override)`; `env` is CLAUDE_CLIS_AI_PROVIDER. */
    method GetAiProvider(override: Option<string>, env: Option<string>) returns (r: Result<string, string>)
      modifies this
      ensures r == ProviderFrom(override, env, Loaded(old(cache), old(file)))
      ensures file == old(file)
      ensures Given(override) || Given(env) ==> cache == old(cache)
    {
      if Given(override) {
        return Success(override.value);
      }
      if Given(env) {
        return Success(env.value);
      }
      var loaded := LoadConfig();
      match loaded {
        case Failure(e) => r := Failure(e);
        case Success(c) => r := ConfiguredProvider(c);
      }
    }

    /** `get_ai_config(provider)`. */
    method GetAiConfig(provider: Option<string>, env: Option<string>) returns (r: Result<Value, string>)
      modifies this
      ensures r == AiConfig(provider, env, Loaded(old(cache), old(file)))
      ensures file == old(file)
    {
      var loaded := LoadConfig();
      if loaded.Failure? {
        return Failure(loaded.error);
      }
      var p: Result<string, string>;
      if Given(provider) {
        p := Success(provider.value);
      } else {
        p := GetAiProvider(None, env);
      }
      match p {
        case Failure(e) => r := Failure(e);
        case Success(name) => r := Section(loaded.value, name);
      }
    }

    /** `set_config_value(key, value)`: walk to the parent, assign the last
        attribute, then save. */
    method SetConfigValue(key: string, value: Value) returns (r: Result<(), string>)
      modifies this
      ensures match Loaded(old(cache), old(file))
        case Failure(e) => r == Failure(e) && cache == old(cache) && file == old(file)
        case Success(c) =>
          match SetValue(c, key, value)
          case Failure(e) => r == Failure(e) && cache == Some(c) && file == old(file)
          case Success(c2) => r == Success(()) && cache == Some(c2) && file == Some(c2)
    {
      var loaded := LoadConfig();
      if loaded.Failure? {
        return Failure(loaded.error);
      }
      var config := loaded.value;
      var keys := Split(key, '.');
      var target := config;
      var i := 0;
      while i < |keys| - 1
        invariant 0 <= i <= |keys| - 1
        invariant GetPath(config, keys[..i]) == Some(target)
        invariant cache == Some(config) && file == old(file)
        invariant Loaded(old(cache), old(file)) == Success(config)
      {
        WalkStep(config, keys, i, target);
        var next := Attr(target, keys[i]);
        if next.None? {
          SetFailsMidway(config, key, value, i + 1);
          return Failure("AttributeError: " + key);
        }
        target := next.value;
        i := i + 1;
      }
      WalkStep(config, keys, i, target);
      if Attr(target, keys[i]).None? {
        SetFailsAtEnd(config, key, value, target);
        if target.Obj? {
          return Failure("ValueError: object has no field \"" + keys[i] + "\"");
        }
        return Failure("AttributeError: " + key);
      }
      assert keys[..i + 1] == keys;
      SetPathDefinedIff(config, keys, value);
      var updated := SetPath(config, keys, value).value;
      var saved := SaveConfig(Some(updated));
      r := Success(());
    }

    /** `get_config_value(key)`. */
    method GetConfigValue(key: string) returns (r: Result<Value, string>)
      modifies this
      ensures match Loaded(old(cache), old(file))
        case Failure(e) => r == Failure(e) && cache == old(cache)
        case Success(c) => r == GetValue(c, key) && cache == Some(c)
      ensures file == old(file)
    {
      var loaded := LoadConfig();
      if loaded.Failure? {
        return Failure(loaded.error);
      }
      var config := loaded.value;
      var keys := Split(key, '.');
      var target := config;
      var i := 0;
      while i < |keys|
        invariant 0 <= i <= |keys|
        invariant GetPath(config, keys[..i]) == Some(target)
        invariant cache == Some(config) && file == old(file)
        invariant Loaded(old(cache), old(file)) == Success(config)
      {
        WalkStep(config, keys, i, target);
        var next := Attr(target, keys[i]);
        if next.None? {
          MissingPrefix(config, keys, i + 1);
          return Failure("AttributeError: " + key);
        }
        target := next.value;
        i := i + 1;
      }
      assert keys[..i] == keys;
      r := Success(target);
    }
  }

  /** One more step of the attribute walk. */
  lemma {:induction false} WalkStep(v: Value, keys: seq<string>, i: nat, target: Value)
    requires i < |keys| && GetPath(v, keys[..i]) == Some(target)
    ensures GetPath(v, keys[..i + 1]) == match Attr(target, keys[i])
      case None => None
      case Some(t) => Some(t)
    decreases i
  {
    if i > 0 {
      var child := Attr(v, keys[0]).value;
      assert keys[..i][1..] == keys[1..][..i - 1];
      assert keys[..i + 1][1..] == keys[1..][..i];
      WalkStep(child, keys[1..], i - 1, target);
    }
  }

  /** A missing attribute on the way to the parent fails the set with
      AttributeError. */
  lemma SetFailsMidway(c: Value, key: string, value: Value, n: nat)
    requires 0 < n <= |Split(key, '.')| - 1 && GetPath(c, Split(key, '.')[..n]) == None
    ensures SetValue(c, key, value) == Failure("AttributeError: " + key)
  {
    var keys := Split(key, '.');
    SetFailsOnMissingPrefix(c, keys, n, value);
    assert keys[..|keys| - 1][..n] == keys[..n];
    MissingPrefix(c, keys[..|keys| - 1], n);
  }

  /** A parent without the last attribute fails the set: with ValueError for a
      record, with AttributeError for a leaf. */
  lemma SetFailsAtEnd(c: Value, key: string, value: Value, target: Value)
    requires GetPath(c, Split(key, '.')[..|Split(key, '.')| - 1]) == Some(target)
    requires Attr(target, Split(key, '.')[|Split(key, '.')| - 1]).None?
    ensures SetValue(c, key, value) == Failure(
      if target.Obj? then "ValueError: object has no field \"" + Split(key, '.')[|Split(key, '.')| - 1] + "\""
      else "AttributeError: " + key)
  {
    var keys := Split(key, '.');
    WalkStep(c, keys, |keys| - 1, target);
    assert keys[..|keys|] == keys;
    SetPathDefinedIff(c, keys, value);
  }

  /** If a prefix of the key names nothing, setting fails. */
  lemma {:induction false} SetFailsOnMissingPrefix(v: Value, keys: seq<string>, n: nat, nv: Value)
    requires 0 < n <= |keys| && GetPath(v, keys[..n]) == None
    ensures SetPath(v, keys, nv) == None
    decreases n
  {
    SetPathDefinedIff(v, keys, nv);
    MissingPrefix(v, keys, n);
  }

  /** If a prefix of the key names nothing, neither does the key. */
  lemma MissingPrefix(v: Value, keys: seq<string>, n: nat)
    requires n <= |keys| && GetPath(v, keys[..n]) == None
    ensures GetPath(v, keys) == None
  {
    if GetPath(v, keys).Some? {
      PrefixDefined(v, keys, n);
      assert false;
    }
  }

  /** A path that names something passes through every prefix. */
  lemma {:induction false} PrefixDefined(v: Value, keys: seq<string>, n: nat)
    requires n <= |keys| && GetPath(v, keys).Some?
    ensures GetPath(v, keys[..n]).Some?
    decreases n
  {
    if n > 0 {
      var child := Attr(v, keys[0]).value;
      assert keys[..n][1..] == keys[1..][..n - 1];
      PrefixDefined(child, keys[1..], n - 1);
    }
  }
}

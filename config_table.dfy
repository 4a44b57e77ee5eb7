/** The key/value rows `_print_config_table` (src/claude_clis/main.py) shows
    for a configuration: its nested `flatten_dict` walks the dumped record
    and appends one row per scalar leaf to the enclosing `rows` list. */
module ConfigTable {
  import opened Base
  import opened Text
  import opened Settings

  datatype Row = Row(key: string, shown: string)

  /** `f"{parent_key}.{key}" if parent_key else key`. */
  function FullKey(parent: string, key: string): string
  {
    if parent != "" then parent + "." + key else key
  }

  /** Whether a leaf is hidden: its own key contains "key" in any case and its
      value is truthy. */
  predicate Masked(key: string, v: Value)
  {
    Contains(Lower(key), "key") && Truthy(v)
  }

  /** The value column: "***" for a hidden leaf, else `str(value)`. */
  function Display(key: string, v: Value): (r: string)
    ensures Masked(key, v) ==> r == "***"
    ensures !Masked(key, v) ==> r == Render(v)
  {
    if Masked(key, v) then "***" else Render(v)
  }

  /** The rows one field contributes. */
  function FlattenOne(f: Field, parent: string): seq<Row>
    decreases f, 1
  {
    var full := FullKey(parent, f.name);
    match f.value
    case Obj(sub) => Flatten(sub, full)
    case v => [Row(full, Display(f.name, v))]
  }

  /** The rows `flatten_dict(d, parent_key)` appends, in order. */
  function Flatten(fs: seq<Field>, parent: string): seq<Row>
    decreases fs, 0
  {
    if fs == [] then [] else FlattenOne(fs[0], parent) + Flatten(fs[1..], parent)
  }

  /** Independent description of the rows: the scalar leaves in depth-first
      order, each with its path of field names from the record. */
  function Leaves(fs: seq<Field>): (r: seq<(seq<string>, Value)>)
    ensures forall k :: 0 <= k < |r| ==> r[k].0 != [] && !r[k].1.Obj?
    decreases fs
  {
    if fs == [] then []
    else
      var here := match fs[0].value
        case Obj(sub) => Under(fs[0].name, Leaves(sub))
        case v => [([fs[0].name], v)];
      here + Leaves(fs[1..])
  }

  function Under(name: string, ls: seq<(seq<string>, Value)>): (r: seq<(seq<string>, Value)>)
    requires forall k :: 0 <= k < |ls| ==> ls[k].0 != [] && !ls[k].1.Obj?
    ensures |r| == |ls|
    ensures forall k :: 0 <= k < |r| ==> r[k] == ([name] + ls[k].0, ls[k].1)
    ensures forall k :: 0 <= k < |r| ==> r[k].0 != [] && !r[k].1.Obj?
  {
    seq(|ls|, k requires 0 <= k < |ls| => ([name] + ls[k].0, ls[k].1))
  }

  /** The key of a leaf reached from `parent` along `path`. */
  function PathKey(parent: string, path: seq<string>): string
    decreases |path|
  {
    if path == [] then parent else PathKey(FullKey(parent, path[0]), path[1..])
  }

  /** The row of a leaf: its path key, and its value shown under its own
      (last) name. */
  function LeafRow(parent: string, leaf: (seq<string>, Value)): Row
    requires leaf.0 != []
  {
    Row(PathKey(parent, leaf.0), Display(leaf.0[|leaf.0| - 1], leaf.1))
  }

  function LeafRows(parent: string, ls: seq<(seq<string>, Value)>): (r: seq<Row>)
    requires forall k :: 0 <= k < |ls| ==> ls[k].0 != []
    ensures |r| == |ls| && forall k :: 0 <= k < |r| ==> r[k] == LeafRow(parent, ls[k])
  {
    seq(|ls|, k requires 0 <= k < |ls| => LeafRow(parent, ls[k]))
  }

  /** One row per scalar leaf, in depth-first order, keyed by its path and
      masked by its own name. */
  lemma {:induction false} FlattenIsLeafRows(fs: seq<Field>, parent: string)
    ensures Flatten(fs, parent) == LeafRows(parent, Leaves(fs))
    decreases fs, 0
  {
    if fs != [] {
      FlattenIsLeafRows(fs[1..], parent);
      FlattenOneIsLeafRows(fs[0], parent);
      var here := match fs[0].value
        case Obj(sub) => Under(fs[0].name, Leaves(sub))
        case v => [([fs[0].name], v)];
      LeafRowsConcat(parent, here, Leaves(fs[1..]));
    }
  }

  lemma {:induction false} FlattenOneIsLeafRows(f: Field, parent: string)
    ensures FlattenOne(f, parent) == LeafRows(parent, match f.value
      case Obj(sub) => Under(f.name, Leaves(sub))
      case v => [([f.name], v)])
    decreases f, 1
  {
    if f.value.Obj? {
      var sub := f.value.fields;
      var full := FullKey(parent, f.name);
      FlattenIsLeafRows(sub, full);
      var ls := Leaves(sub);
      assert forall k :: 0 <= k < |ls| ==> LeafRow(full, ls[k]) == LeafRow(parent, Under(f.name, ls)[k]) by {
        forall k | 0 <= k < |ls|
          ensures LeafRow(full, ls[k]) == LeafRow(parent, Under(f.name, ls)[k])
        {
          var p := ls[k].0;
          assert ([f.name] + p)[1..] == p;
          assert ([f.name] + p)[|[f.name] + p| - 1] == p[|p| - 1];
        }
      }
      assert LeafRows(full, ls) == LeafRows(parent, Under(f.name, ls));
    } else {
      var leaf := ([f.name], f.value);
      assert PathKey(parent, leaf.0) == FullKey(parent, f.name) by {
        assert leaf.0[1..] == [];
      }
      assert LeafRows(parent, [leaf]) == [LeafRow(parent, leaf)];
    }
  }

  lemma LeafRowsConcat(parent: string, a: seq<(seq<string>, Value)>, b: seq<(seq<string>, Value)>)
    requires forall k :: 0 <= k < |a| ==> a[k].0 != []
    requires forall k :: 0 <= k < |b| ==> b[k].0 != []
    ensures LeafRows(parent, a + b) == LeafRows(parent, a) + LeafRows(parent, b)
  {
    var ab := a + b;
    assert forall k :: 0 <= k < |ab| ==> ab[k].0 != [];
  }

  /** Field names along a path are all non-empty. */
  predicate NamedPath(path: seq<string>)
  {
    forall k :: 0 <= k < |path| ==> path[k] != ""
  }

  /** From the top level, a path of non-empty names gives the names joined
      with '.'. */
  lemma {:induction false} TopLevelKey(path: seq<string>)
    requires path != [] && NamedPath(path)
    ensures PathKey("", path) == Join(path, ".")
  {
    assert FullKey("", path[0]) == path[0];
    NestedKey(path[0], path[1..]);
    if |path| > 1 {
      assert path == [path[0]] + path[1..];
    }
  }

  lemma {:induction false} NestedKey(parent: string, path: seq<string>)
    requires parent != "" && NamedPath(path)
    ensures PathKey(parent, path) == if path == [] then parent else parent + "." + Join(path, ".")
    decreases |path|
  {
    if path != [] {
      var next := parent + "." + path[0];
      NestedKey(next, path[1..]);
      if |path| > 1 {
        assert next + "." + Join(path[1..], ".") == parent + "." + (path[0] + "." + Join(path[1..], "."));
      }
    }
  }

  /** Every field name in the tree is non-empty. */
  predicate AllNamed(fs: seq<Field>)
    decreases fs
  {
    fs != [] ==>
      fs[0].name != "" && (fs[0].value.Obj? ==> AllNamed(fs[0].value.fields)) && AllNamed(fs[1..])
  }

  lemma {:induction false} LeavesNamed(fs: seq<Field>)
    requires AllNamed(fs)
    ensures forall k :: 0 <= k < |Leaves(fs)| ==> NamedPath(Leaves(fs)[k].0)
    decreases fs
  {
    if fs != [] {
      LeavesNamed(fs[1..]);
      if fs[0].value.Obj? {
        var ls := Leaves(fs[0].value.fields);
        LeavesNamed(fs[0].value.fields);
        var u := Under(fs[0].name, ls);
        forall k | 0 <= k < |u|
          ensures NamedPath(u[k].0)
        {
          assert u[k].0 == [fs[0].name] + ls[k].0;
        }
      }
    }
  }

  /** The rows of a configuration whose field names are non-empty: row k is
      the k-th scalar leaf, keyed by its path joined with '.', and shown as
      "***" or `str(value)` by its own name. */
  lemma ConfigRows(fs: seq<Field>)
    requires AllNamed(fs)
    ensures var rows, ls := Flatten(fs, ""), Leaves(fs);
      |rows| == |ls|
      && forall k :: 0 <= k < |rows| ==>
        rows[k] == Row(Join(ls[k].0, "."), Display(ls[k].0[|ls[k].0| - 1], ls[k].1))
  {
    FlattenIsLeafRows(fs, "");
    LeavesNamed(fs);
    var ls := Leaves(fs);
    forall k | 0 <= k < |ls|
      ensures PathKey("", ls[k].0) == Join(ls[k].0, ".")
    {
      TopLevelKey(ls[k].0);
    }
  }

  /** A nested mapping, empty or not, has no row of its own: every row comes
      from a scalar leaf, and an empty mapping gives none. */
  lemma NestedGivesNoRow(name: string, parent: string)
    ensures FlattenOne(Field(name, Obj([])), parent) == []
  {
  }

  /** The accumulating `rows` list of `_print_config_table`. */
  class TableRows {
    var rows: seq<Row>

    constructor()
      ensures rows == []
    {
      rows := [];
    }

    /** `flatten_dict(d, parent_key)`. */
    method FlattenDict(d: seq<Field>, parent: string)
      modifies this
      ensures rows == old(rows) + Flatten(d, parent)
      decreases d
    {
      for i := 0 to |d|
        invariant rows == old(rows) + Flatten(d[..i], parent)
      {
        var field := d[i];
        var full := FullKey(parent, field.name);
        ghost var before := rows;
        if field.value.Obj? {
          FlattenDict(field.value.fields, full);
        } else {
          rows := rows + [Row(full, Display(field.name, field.value))];
        }
        assert rows == before + FlattenOne(field, parent);
        FlattenSnoc(d, i, parent);
      }
      assert d[..|d|] == d;
    }
  }

  /** The rows of a prefix of the fields grow by one field's rows. */
  lemma FlattenSnoc(fs: seq<Field>, i: nat, parent: string)
    requires i < |fs|
    ensures Flatten(fs[..i + 1], parent) == Flatten(fs[..i], parent) + FlattenOne(fs[i], parent)
  {
    assert fs[..i + 1] == fs[..i] + [fs[i]];
    FlattenConcat(fs[..i], [fs[i]], parent);
    assert [fs[i]][1..] == [];
  }

  lemma {:induction false} FlattenConcat(a: seq<Field>, b: seq<Field>, parent: string)
    ensures Flatten(a + b, parent) == Flatten(a, parent) + Flatten(b, parent)
  {
    if a != [] {
      FlattenConcat(a[1..], b, parent);
      assert (a + b)[1..] == a[1..] + b;
    } else {
      assert a + b == b;
    }
  }

  /** The rows shown for a configuration: those of every scalar leaf, keyed
      by its dotted path. */
  method PrintConfigTable(config: Value) returns (rows: seq<Row>)
    requires config.Obj?
    ensures rows == Flatten(config.fields, "")
  {
    var table := new TableRows();
    table.FlattenDict(config.fields, "");
    rows := table.rows;
  }
}

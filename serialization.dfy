/** `to_serializable`: turning a tree of Python values that may hold Pydantic models, enums,
    paths and tuples into plain JSON-like data. */
module Serialization {

  /** A filesystem path as its list of components under the filesystem root. */
  type Path = seq<string>

  /** `str(path)`: the components joined by "/" under the root. */
  function PathString(p: Path): (s: string)
    ensures |s| >= 1 && s[0] == '/'
  {
    if |p| == 0 then "/"
    else if |p| == 1 then "/" + p[0]
    else PathString(p[..|p| - 1]) + "/" + p[|p| - 1]
  }

  /** The Python values the agent's results are built from. Dictionary keys are strings. */
  datatype PyValue =
    | PNone
    | PBool(b: bool)
    | PInt(i: int)
    | PFloat(f: real)
    | PStr(s: string)
    | PPath(path: Path)
    | PEnum(name: string, value: PyValue)
    | PList(items: seq<PyValue>)
    | PTuple(items: seq<PyValue>)
    | PDict(entries: seq<(string, PyValue)>)
    | PModel(fields: seq<(string, PyValue)>)

  /** Data `json.dump` accepts as it is: scalars, lists and string-keyed dicts of such data. */
  predicate Plain(v: PyValue)
  {
    match v
    case PNone => true
    case PBool(_) => true
    case PInt(_) => true
    case PFloat(_) => true
    case PStr(_) => true
    case PList(xs) => forall i :: 0 <= i < |xs| ==> Plain(xs[i])
    case PDict(es) => forall i :: 0 <= i < |es| ==> Plain(es[i].1)
    case _ => false
  }

  /** A Pydantic model occurs in the tree outside any enum member. */
  predicate HasModel(v: PyValue)
  {
    match v
    case PModel(_) => true
    case PList(xs) => exists i :: 0 <= i < |xs| && HasModel(xs[i])
    case PTuple(xs) => exists i :: 0 <= i < |xs| && HasModel(xs[i])
    case PDict(es) => exists i :: 0 <= i < |es| && HasModel(es[i].1)
    case _ => false
  }

  /** Every enum member in the tree (outside other enum members) has a plain value. */
  predicate EnumsPlain(v: PyValue)
  {
    match v
    case PEnum(_, x) => Plain(x)
    case PList(xs) => forall i :: 0 <= i < |xs| ==> EnumsPlain(xs[i])
    case PTuple(xs) => forall i :: 0 <= i < |xs| ==> EnumsPlain(xs[i])
    case PDict(es) => forall i :: 0 <= i < |es| ==> EnumsPlain(es[i].1)
    case PModel(fs) => forall i :: 0 <= i < |fs| ==> EnumsPlain(fs[i].1)
    case _ => true
  }

  /** Pydantic's `.dict()` applied inside a value: models become dicts of their fields, lists,
      tuples and dicts are rebuilt around their converted contents, and every other value (enum
      members and paths included) is kept as it is. */
  function Dump(v: PyValue): (r: PyValue)
    ensures !HasModel(r)
    ensures EnumsPlain(v) ==> EnumsPlain(r)
  {
    match v
    case PModel(fs) => PDict(seq(|fs|, i requires 0 <= i < |fs| => (fs[i].0, Dump(fs[i].1))))
    case PList(xs) => PList(seq(|xs|, i requires 0 <= i < |xs| => Dump(xs[i])))
    case PTuple(xs) => PTuple(seq(|xs|, i requires 0 <= i < |xs| => Dump(xs[i])))
    case PDict(es) => PDict(seq(|es|, i requires 0 <= i < |es| => (es[i].0, Dump(es[i].1))))
    case _ => v
  }

  /** `to_serializable`. A model becomes the dict of its dumped fields, serialised; an enum member
      becomes its value, which is not serialised further; a path becomes its string; a list or
      tuple becomes a list and a dict a dict, element by element; anything else is kept. */
  function ToSerializable(v: PyValue): (r: PyValue)
    ensures v.PList? || v.PTuple? ==> r.PList? && |r.items| == |v.items|
    ensures v.PDict? ==>
      (r.PDict? && |r.entries| == |v.entries| && forall i :: 0 <= i < |v.entries| ==> r.entries[i].0 == v.entries[i].0)
    ensures v.PModel? ==>
      (r.PDict? && |r.entries| == |v.fields| && forall i :: 0 <= i < |v.fields| ==> r.entries[i].0 == v.fields[i].0)
    ensures v.PEnum? ==> r == v.value
    ensures v.PPath? ==> r == PStr(PathString(v.path))
    ensures v.PNone? || v.PBool? || v.PInt? || v.PFloat? || v.PStr? ==> r == v
    decreases if HasModel(v) then 1 else 0, v
  {
    match v
    case PModel(fs) => PDict(seq(|fs|, i requires 0 <= i < |fs| => (fs[i].0, ToSerializable(Dump(fs[i].1)))))
    case PEnum(_, x) => x
    case PPath(p) => PStr(PathString(p))
    case PList(xs) => PList(seq(|xs|, i requires 0 <= i < |xs| => ToSerializable(xs[i])))
    case PTuple(xs) => PList(seq(|xs|, i requires 0 <= i < |xs| => ToSerializable(xs[i])))
    case PDict(es) => PDict(seq(|es|, i requires 0 <= i < |es| => (es[i].0, ToSerializable(es[i].1))))
    case _ => v
  }

  /** Plain data passes through unchanged. */
  lemma {:induction false} PlainIsFixedPoint(v: PyValue)
    requires Plain(v)
    ensures ToSerializable(v) == v
    decreases v
  {
    match v
    case PList(xs) =>
      forall i | 0 <= i < |xs| ensures ToSerializable(xs[i]) == xs[i] {
        PlainIsFixedPoint(xs[i]);
      }
      assert ToSerializable(v).items == xs;
    case PDict(es) =>
      forall i | 0 <= i < |es| ensures ToSerializable(es[i].1) == es[i].1 {
        PlainIsFixedPoint(es[i].1);
      }
      assert ToSerializable(v).entries == es;
    case _ =>
  }

  /** When every enum member holds plain data, the result is plain data. */
  lemma {:induction false} ResultIsPlain(v: PyValue)
    requires EnumsPlain(v)
    ensures Plain(ToSerializable(v))
    decreases if HasModel(v) then 1 else 0, v
  {
    match v
    case PModel(fs) =>
      forall i | 0 <= i < |fs| ensures Plain(ToSerializable(Dump(fs[i].1))) {
        ResultIsPlain(Dump(fs[i].1));
      }
    case PList(xs) =>
      forall i | 0 <= i < |xs| ensures Plain(ToSerializable(xs[i])) {
        ResultIsPlain(xs[i]);
      }
    case PTuple(xs) =>
      forall i | 0 <= i < |xs| ensures Plain(ToSerializable(xs[i])) {
        ResultIsPlain(xs[i]);
      }
    case PDict(es) =>
      forall i | 0 <= i < |es| ensures Plain(ToSerializable(es[i].1)) {
        ResultIsPlain(es[i].1);
      }
    case _ =>
  }

  /** Serialising twice is serialising once, provided enum members hold plain data. */
  lemma Idempotent(v: PyValue)
    requires EnumsPlain(v)
    ensures ToSerializable(ToSerializable(v)) == ToSerializable(v)
  {
    ResultIsPlain(v);
    PlainIsFixedPoint(ToSerializable(v));
  }

  /** Serialising what `.dict()` produced gives the same result as serialising the value itself:
      the conversion `.dict()` applies to nested models is the one the recursion applies anyway. */
  lemma {:induction false} DumpDoesNotMatter(v: PyValue)
    ensures ToSerializable(Dump(v)) == ToSerializable(v)
    decreases if HasModel(v) then 1 else 0, v
  {
    match v
    case PModel(fs) =>
      assert ToSerializable(Dump(v)).entries == ToSerializable(v).entries;
    case PList(xs) =>
      forall i | 0 <= i < |xs| ensures ToSerializable(Dump(xs[i])) == ToSerializable(xs[i]) {
        DumpDoesNotMatter(xs[i]);
      }
      assert ToSerializable(Dump(v)).items == ToSerializable(v).items;
    case PTuple(xs) =>
      forall i | 0 <= i < |xs| ensures ToSerializable(Dump(xs[i])) == ToSerializable(xs[i]) {
        DumpDoesNotMatter(xs[i]);
      }
      assert ToSerializable(Dump(v)).items == ToSerializable(v).items;
    case PDict(es) =>
      forall i | 0 <= i < |es| ensures ToSerializable(Dump(es[i].1)) == ToSerializable(es[i].1) {
        DumpDoesNotMatter(es[i].1);
      }
      assert ToSerializable(Dump(v)).entries == ToSerializable(v).entries;
    case _ =>
  }

  /** An enum member whose value is not plain data is passed on unconverted: a path inside it
      stays a path, which `json.dump` then rejects. */
  lemma EnumValueIsNotConverted()
    ensures var v := PEnum("Where", PPath(["tmp"]));
      ToSerializable(v) == PPath(["tmp"]) && !Plain(ToSerializable(v))
  {
  }
}

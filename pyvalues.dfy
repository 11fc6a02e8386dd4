/**
 * The dynamically typed Python values the nodes put in the state and pass to the
 * prompt builders: `None`, strings, lists and dicts (an ordered list of entries,
 * as Python dicts keep insertion order).
 */
module PyValues {
  import opened Wrappers
  import opened Text

  datatype PyValue =
    | PyNone
    | PyStr(s: string)
    | PyList(items: seq<PyValue>)
    | PyDict(entries: seq<(string, PyValue)>)

  /** Python truthiness: `None`, `""`, `[]` and `{}` are false. */
  predicate Truthy(v: PyValue)
  {
    match v
    case PyNone => false
    case PyStr(s) => s != ""
    case PyList(items) => items != []
    case PyDict(entries) => entries != []
  }

  /** `repr(v)`. Strings are always shown in single quotes; Python's escaping is not modelled. */
  function Repr(v: PyValue): string
  {
    match v
    case PyNone => "None"
    case PyStr(s) => "'" + s + "'"
    case PyList(items) =>
      "[" + Join(seq(|items|, i requires 0 <= i < |items| => Repr(items[i])), ", ") + "]"
    case PyDict(entries) =>
      "{" + Join(seq(|entries|, i requires 0 <= i < |entries| =>
                   assert entries[i] in entries;
                   "'" + entries[i].0 + "': " + Repr(entries[i].1)), ", ") + "}"
  }

  /** `str(v)`, which is what an f-string placeholder `{v}` shows. */
  function Str(v: PyValue): (r: string)
    ensures v.PyStr? ==> r == v.s
  {
    if v.PyStr? then v.s else Repr(v)
  }

  /** `[...]` of strings. */
  function StrList(xs: seq<string>): (r: PyValue)
    ensures r.PyList? && |r.items| == |xs|
    ensures forall i :: 0 <= i < |xs| ==> r.items[i] == PyStr(xs[i])
  {
    PyList(seq(|xs|, i requires 0 <= i < |xs| => PyStr(xs[i])))
  }

  /** `d.get(key, default)` for a key holding an optional string. */
  function GetStr(k: Key<Option<string>>, default: PyValue): (v: PyValue)
    ensures k.Absent? ==> v == default
    ensures k == Present(None) ==> v == PyNone
    ensures k.Present? && k.value.Some? ==> v == PyStr(k.value.value)
  {
    match k
    case Absent => default
    case Present(None) => PyNone
    case Present(Some(x)) => PyStr(x)
  }

  /** `d.get(key, {})` for a dict-valued key. */
  function GetDict(k: Key<PyValue>): (v: PyValue)
    ensures k.Absent? ==> v == PyDict([]) && !Truthy(v)
    ensures k.Present? ==> v == k.value
  {
    match k
    case Absent => PyDict([])
    case Present(x) => x
  }

  /** A list of strings shows its items quoted: `str(["art"])` is `['art']`. */
  lemma ReprExample()
    ensures Str(StrList(["art"])) == "['art']"
  {
    var l := StrList(["art"]);
    assert l.items == [PyStr("art")];
    assert Repr(l) == "[" + Join(["'art'"], ", ") + "]";
  }

  /** A dict shows its keys quoted and its values by `repr`: `{'interests': ['art']}`. */
  lemma DictReprExample()
    ensures Str(PyDict([("interests", StrList(["art"]))])) == "{'interests': ['art']}"
  {
    ReprExample();
    var l := StrList(["art"]);
    var d := PyDict([("interests", l)]);
    assert Repr(d) == "{" + Join(["'interests': " + "['art']"], ", ") + "}";
  }
}

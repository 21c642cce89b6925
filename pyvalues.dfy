/** The Python values that reach the validators (JSON-like data), with `str()`,
    `repr()` and truthiness as Python defines them. */
module PyValues {
  import opened Outcomes
  import opened PyText
  import opened PyNumbers

  datatype PyValue =
    | PyNone
    | PyBool(b: bool)
    | PyInt(i: int)
    | PyFloat(f: string)        // the text `str()` gives for the float
    | PyStr(s: string)
    | PyList(items: seq<PyValue>)
    | PyDict(entries: seq<(string, PyValue)>)
  {
    /** `isinstance(v, int)`: true for `bool` as well, since `bool` subclasses `int`. */
    predicate IsIntInstance() { PyInt? || PyBool? }

    /** A scalar a validator may turn to text: bool, str, float or int. */
    predicate IsScalar() { PyBool? || PyStr? || PyFloat? || PyInt? }
  }

  /** The keys of a dict, in insertion order. */
  function Keys(entries: seq<(string, PyValue)>): (ks: seq<string>)
    ensures |ks| == |entries|
    ensures forall i :: 0 <= i < |entries| ==> ks[i] == entries[i].0
  {
    if entries == [] then [] else [entries[0].0] + Keys(entries[1..])
  }

  /** The value bound to `k`; later entries win, as in a dict display. */
  function Lookup(entries: seq<(string, PyValue)>, k: string): (r: Option<PyValue>)
    ensures r.None? <==> k !in Keys(entries)
  {
    if entries == [] then None
    else
      var last := entries[|entries| - 1];
      assert Keys(entries) == Keys(entries[..|entries| - 1]) + [last.0] by {
        KeysSnoc(entries[..|entries| - 1], last);
        assert entries == entries[..|entries| - 1] + [last];
      }
      if last.0 == k then Some(last.1) else Lookup(entries[..|entries| - 1], k)
  }

  /** An entry whose key is not supplied again later is the one looked up. */
  lemma {:induction false} LookupLastEntry(entries: seq<(string, PyValue)>, i: nat)
    requires i < |entries| && forall j :: i < j < |entries| ==> entries[j].0 != entries[i].0
    ensures Lookup(entries, entries[i].0) == Some(entries[i].1)
    decreases |entries|
  {
    if i < |entries| - 1 {
      var init := entries[..|entries| - 1];
      assert init[i] == entries[i];
      LookupLastEntry(init, i);
    }
  }

  /** Each of four entries with distinct keys is the one looked up by its key. */
  lemma LookupFour(a: (string, PyValue), b: (string, PyValue), c: (string, PyValue), d: (string, PyValue))
    requires a.0 != b.0 && a.0 != c.0 && a.0 != d.0 && b.0 != c.0 && b.0 != d.0 && c.0 != d.0
    ensures Lookup([a, b, c, d], a.0) == Some(a.1) && Lookup([a, b, c, d], b.0) == Some(b.1)
    ensures Lookup([a, b, c, d], c.0) == Some(c.1) && Lookup([a, b, c, d], d.0) == Some(d.1)
  {
    var kw := [a, b, c, d];
    LookupLastEntry(kw, 0);
    LookupLastEntry(kw, 1);
    LookupLastEntry(kw, 2);
    LookupLastEntry(kw, 3);
  }

  lemma KeysSnoc(entries: seq<(string, PyValue)>, e: (string, PyValue))
    ensures Keys(entries + [e]) == Keys(entries) + [e.0]
  {
  }

  /** Python's `bool(s)` for a string: false only for the empty string. */
  function StrTruth(s: string): bool {
    s != []
  }

  /** `str(b)` for a boolean. */
  function BoolText(b: bool): (r: string)
    ensures r == "True" || r == "False"
    ensures (r == "True") == b
  {
    if b then "True" else "False"
  }

  /** `repr(s)` for a string whose characters need no escaping. */
  function StrRepr(s: string): string {
    "'" + s + "'"
  }

  /** `repr(v)`. */
  function Repr(v: PyValue): string
    decreases v, 1
  {
    match v
    case PyNone => "None"
    case PyBool(b) => BoolText(b)
    case PyInt(i) => IntText(i)
    case PyFloat(f) => f
    case PyStr(s) => StrRepr(s)
    case PyList(items) => "[" + ReprItems(v, items) + "]"
    case PyDict(entries) => "{" + ReprEntries(v, entries) + "}"
  }

  function ReprItems(ghost parent: PyValue, items: seq<PyValue>): string
    requires forall x :: x in items ==> x < parent
    decreases parent, 0, |items|
  {
    if items == [] then ""
    else
      assert items[0] in items;
      assert forall x :: x in items[1..] ==> x in items;
      if |items| == 1 then Repr(items[0])
      else Repr(items[0]) + ", " + ReprItems(parent, items[1..])
  }

  function ReprEntries(ghost parent: PyValue, entries: seq<(string, PyValue)>): string
    requires forall e :: e in entries ==> e.1 < parent
    decreases parent, 0, |entries|
  {
    if entries == [] then ""
    else
      assert entries[0] in entries;
      assert forall e :: e in entries[1..] ==> e in entries;
      var head := StrRepr(entries[0].0) + ": " + Repr(entries[0].1);
      if |entries| == 1 then head else head + ", " + ReprEntries(parent, entries[1..])
  }

  /** `str(v)`: the text itself for a string, the `repr` otherwise. */
  function Str(v: PyValue): (r: string)
    ensures v.PyStr? ==> r == v.s
    ensures v.PyBool? ==> r == BoolText(v.b)
    ensures v.PyInt? ==> r == IntText(v.i)
    ensures v.PyFloat? ==> r == v.f
  {
    if v.PyStr? then v.s else Repr(v)
  }
}

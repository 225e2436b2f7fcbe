/**
 * `make_json_serializable` (app.py): the recursive conversion applied to a
 * job record before it is sent back to a poller.
 */
module JsonValues {

  /** A Python value, as far as `make_json_serializable` tells values apart. */
  datatype PyValue =
    | PyStr(s: string)
    | PyInt(i: int)
    | PyFloat(f: real)
    | PyBool(b: bool)
    | PyNone
    | PyList(items: seq<PyValue>)
    | PyTuple(items: seq<PyValue>)
    /** A dict, as its items in insertion order. */
    | PyDict(entries: seq<(PyValue, PyValue)>)
    /** Any other object, with the text `str()` gives for it. */
    | PyObject(text: string)

  /** The values returned unchanged: str, int, float, bool and None. */
  predicate IsScalar(v: PyValue) {
    v.PyStr? || v.PyInt? || v.PyFloat? || v.PyBool? || v.PyNone?
  }

  /**
   * A value the conversion produces: scalars, lists of such values, and
   * dicts whose values are such values. Dict keys are whatever they were.
   */
  predicate Converted(v: PyValue)
    decreases v
  {
    match v
    case PyList(items) => forall i :: 0 <= i < |items| ==> Converted(items[i])
    case PyDict(entries) => forall i :: 0 <= i < |entries| ==> Converted(entries[i].1)
    case PyTuple(_) => false
    case PyObject(_) => false
    case _ => true
  }

  /** Every dict key inside `v`, at any depth, is a scalar. */
  predicate ScalarKeys(v: PyValue)
    decreases v
  {
    match v
    case PyList(items) => forall i :: 0 <= i < |items| ==> ScalarKeys(items[i])
    case PyTuple(items) => forall i :: 0 <= i < |items| ==> ScalarKeys(items[i])
    case PyDict(entries) =>
      forall i :: 0 <= i < |entries| ==> IsScalar(entries[i].0) && ScalarKeys(entries[i].1)
    case _ => true
  }

  /** A value `jsonify` accepts: a converted value whose dict keys are all scalars. */
  predicate Serializable(v: PyValue) {
    Converted(v) && ScalarKeys(v)
  }

  /**
   * Scalars come back unchanged, lists and tuples become lists of the same
   * length converted element by element, dicts keep their keys (in order)
   * with converted values, and anything else becomes its `str()`. The
   * result is always `Converted`; keys are not converted.
   */
  function MakeJsonSerializable(v: PyValue): (r: PyValue)
    ensures Converted(r)
    ensures IsScalar(v) ==> r == v
    ensures v.PyObject? ==> r == PyStr(v.text)
    ensures (v.PyList? || v.PyTuple?) ==> r.PyList? && |r.items| == |v.items|
    ensures v.PyDict? ==> r.PyDict? && |r.entries| == |v.entries|
    ensures v.PyDict? ==> forall i :: 0 <= i < |v.entries| ==> r.entries[i].0 == v.entries[i].0
    ensures v.PyDict? ==> forall i :: 0 <= i < |v.entries| ==> r.entries[i].1 == MakeJsonSerializable(v.entries[i].1)
    decreases v
  {
    match v
    case PyList(items) =>
      PyList(seq(|items|, i requires 0 <= i < |items| => MakeJsonSerializable(items[i])))
    case PyTuple(items) =>
      PyList(seq(|items|, i requires 0 <= i < |items| => MakeJsonSerializable(items[i])))
    case PyDict(entries) =>
      PyDict(seq(|entries|, i requires 0 <= i < |entries| =>
        (entries[i].0, MakeJsonSerializable(entries[i].1))))
    case PyObject(text) => PyStr(text)
    case _ => v
  }

  /** Converting a value that is already converted changes nothing. */
  lemma {:induction false} ConvertedIsFixpoint(v: PyValue)
    requires Converted(v)
    ensures MakeJsonSerializable(v) == v
    decreases v
  {
    match v
    case PyList(items) =>
      forall i | 0 <= i < |items| ensures MakeJsonSerializable(items[i]) == items[i] {
        ConvertedIsFixpoint(items[i]);
      }
    case PyDict(entries) =>
      forall i | 0 <= i < |entries|
        ensures (entries[i].0, MakeJsonSerializable(entries[i].1)) == entries[i]
      {
        ConvertedIsFixpoint(entries[i].1);
      }
    case _ =>
  }

  /** The conversion is idempotent. */
  lemma MakeJsonSerializableIdempotent(v: PyValue)
    ensures MakeJsonSerializable(MakeJsonSerializable(v)) == MakeJsonSerializable(v)
  {
    ConvertedIsFixpoint(MakeJsonSerializable(v));
  }

  /** Each element of a converted list is the conversion of the matching element. */
  lemma ListElementwise(v: PyValue, i: int)
    requires v.PyList? || v.PyTuple?
    requires 0 <= i < |v.items|
    ensures MakeJsonSerializable(v).items[i] == MakeJsonSerializable(v.items[i])
  {
  }

  /** Each entry of a converted dict keeps its key and holds the conversion of the matching value. */
  lemma DictElementwise(v: PyValue, i: int)
    requires v.PyDict?
    requires 0 <= i < |v.entries|
    ensures MakeJsonSerializable(v).entries[i] == (v.entries[i].0, MakeJsonSerializable(v.entries[i].1))
  {
  }

  /** The conversion keeps every dict key, so the keys are all scalars afterwards exactly when they were before. */
  lemma {:induction false} ConversionKeepsKeys(v: PyValue)
    ensures ScalarKeys(MakeJsonSerializable(v)) <==> ScalarKeys(v)
    decreases v
  {
    var r := MakeJsonSerializable(v);
    match v
    case PyList(items) =>
      forall i | 0 <= i < |items| ensures ScalarKeys(r.items[i]) <==> ScalarKeys(items[i]) {
        ConversionKeepsKeys(items[i]);
      }
    case PyTuple(items) =>
      forall i | 0 <= i < |items| ensures ScalarKeys(r.items[i]) <==> ScalarKeys(items[i]) {
        ConversionKeepsKeys(items[i]);
      }
    case PyDict(entries) =>
      forall i | 0 <= i < |entries| ensures ScalarKeys(r.entries[i].1) <==> ScalarKeys(entries[i].1) {
        ConversionKeepsKeys(entries[i].1);
      }
    case _ =>
  }

  /** The result is serializable exactly when every dict key of the input is a scalar. */
  lemma SerializableIffScalarKeys(v: PyValue)
    ensures Serializable(MakeJsonSerializable(v)) <==> ScalarKeys(v)
  {
    ConversionKeepsKeys(v);
  }

  /** A dict with a tuple key stays unserializable: the key is not converted. */
  lemma TupleKeyStays()
    ensures var v := PyDict([(PyTuple([]), PyInt(1))]);
      && MakeJsonSerializable(v) == v
      && !Serializable(MakeJsonSerializable(v))
  {
    var v := PyDict([(PyTuple([]), PyInt(1))]);
    ConvertedIsFixpoint(v);
    assert !IsScalar(MakeJsonSerializable(v).entries[0].0);
  }

  /** A dict whose keys and values are all scalars is serializable. */
  lemma FlatDictSerializable(entries: seq<(PyValue, PyValue)>)
    requires forall i :: 0 <= i < |entries| ==> IsScalar(entries[i].0) && IsScalar(entries[i].1)
    ensures Serializable(PyDict(entries))
  {
    forall i | 0 <= i < |entries| ensures Converted(entries[i].1) && ScalarKeys(entries[i].1) {
      var w := entries[i].1;
      assert w.PyStr? || w.PyInt? || w.PyFloat? || w.PyBool? || w.PyNone?;
    }
  }
}

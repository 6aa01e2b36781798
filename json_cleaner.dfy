// utils/json_cleaner.py: clean_json_data, which makes Python data safe to
// serialise as JSON before it is stored in a JSON column.
module JsonCleaner {
  import opened Wrappers

  /** A Python float (or numpy floating value): finite, NaN or an infinity. */
  datatype Float = Finite(value: real) | NaN | PosInf | NegInf

  /**
   * The Python values that reach the cleaner. Dict keys are strings. A tuple
   * keeps its items and the text `str()` gives for it. `PyNpFloat` is a numpy
   * floating scalar (`isFloat64` for `np.float64`, which subclasses Python's
   * float) and `PyNpInt` a numpy integer scalar. `PyOther` stands for a value
   * of any other type, which `json.dumps` rejects (a datetime, a Decimal, a
   * set, ...); `repr` is what `str()` gives for it.
   */
  datatype PyValue =
    | PyDict(entries: seq<(string, PyValue)>)
    | PyList(items: seq<PyValue>)
    | PyTuple(elems: seq<PyValue>, text: string)
    | PyFloat(f: Float)
    | PyNpFloat(nf: Float, isFloat64: bool)
    | PyInt(i: int)
    | PyNpInt(ni: int)
    | PyBool(b: bool)
    | PyStr(s: string)
    | PyNone
    | PyOther(repr: string)

  /** Python truthiness of a value. */
  predicate Truthy(v: PyValue)
  {
    match v
    case PyDict(es) => es != []
    case PyList(xs) => xs != []
    case PyTuple(xs, _) => xs != []
    case PyFloat(f) => f != Finite(0.0)
    case PyNpFloat(f, _) => f != Finite(0.0)
    case PyInt(i) => i != 0
    case PyNpInt(i) => i != 0
    case PyBool(b) => b
    case PyStr(s) => s != ""
    case PyNone => false
    case PyOther(_) => true
  }

  /** `d.get(key)` on a dict: the value stored under the first entry with that key. */
  function Lookup(es: seq<(string, PyValue)>, key: string): (r: Option<PyValue>)
    ensures r.Some? <==> exists i :: 0 <= i < |es| && es[i].0 == key
  {
    if es == [] then None
    else if es[0].0 == key then Some(es[0].1)
    else Lookup(es[1..], key)
  }

  /** clean_json_data (utils/json_cleaner.py:18-36). */
  function Clean(v: PyValue): (r: PyValue)
    decreases v
  {
    match v
    case PyDict(es) => PyDict(seq(|es|, i requires 0 <= i < |es| => (es[i].0, Clean(es[i].1))))
    case PyList(xs) => PyList(seq(|xs|, i requires 0 <= i < |xs| => Clean(xs[i])))
    case PyTuple(_, text) => PyStr(text)
    case PyFloat(f) => if f.Finite? then PyFloat(f) else PyNone
    case PyNpFloat(f, _) => if f.Finite? then PyFloat(f) else PyNone
    case PyInt(i) => PyInt(i)
    case PyNpInt(i) => PyInt(i)
    // bool is a subclass of int, so it takes the int branch and becomes 0 or 1
    case PyBool(b) => PyInt(if b then 1 else 0)
    case PyStr(s) => PyStr(s)
    case PyNone => PyNone
    case PyOther(repr) => PyStr(repr)
  }

  /** No NaN or infinity anywhere: the value is valid JSON text once dumped. */
  predicate NoNonFinite(v: PyValue)
    decreases v
  {
    match v
    case PyDict(es) => forall i :: 0 <= i < |es| ==> NoNonFinite(es[i].1)
    case PyList(xs) => forall i :: 0 <= i < |xs| ==> NoNonFinite(xs[i])
    case PyTuple(xs, _) => forall i :: 0 <= i < |xs| ==> NoNonFinite(xs[i])
    case PyFloat(f) => f.Finite?
    case PyNpFloat(f, _) => f.Finite?
    case _ => true
  }

  /**
   * `json.dumps` encodes the value without raising TypeError: a tuple is
   * written as an array, a float (NaN and the infinities included, as
   * `allow_nan` is on) as a number, and only `np.float64` among the numpy
   * scalars, since it is a float.
   */
  predicate Encodable(v: PyValue)
    decreases v
  {
    match v
    case PyDict(es) => forall i :: 0 <= i < |es| ==> Encodable(es[i].1)
    case PyList(xs) => forall i :: 0 <= i < |xs| ==> Encodable(xs[i])
    case PyTuple(xs, _) => forall i :: 0 <= i < |xs| ==> Encodable(xs[i])
    case PyNpFloat(_, isFloat64) => isFloat64
    case PyNpInt(_) => false
    case PyOther(_) => false
    case _ => true
  }

  /** The shape of the cleaner's output: only dicts, lists, finite floats, ints, strings and None. */
  predicate IsClean(v: PyValue)
    decreases v
  {
    match v
    case PyDict(es) => forall i :: 0 <= i < |es| ==> IsClean(es[i].1)
    case PyList(xs) => forall i :: 0 <= i < |xs| ==> IsClean(xs[i])
    case PyFloat(f) => f.Finite?
    case PyTuple(_, _) => false
    case PyNpFloat(_, _) => false
    case PyNpInt(_) => false
    case PyBool(_) => false
    case PyOther(_) => false
    case _ => true
  }

  /** A dict keeps its keys, in order, and each value is cleaned (utils/json_cleaner.py:18-22). */
  lemma DictKeepsKeys(es: seq<(string, PyValue)>)
    ensures Clean(PyDict(es)).PyDict?
    ensures |Clean(PyDict(es)).entries| == |es|
    ensures forall i :: 0 <= i < |es| ==>
      Clean(PyDict(es)).entries[i] == (es[i].0, Clean(es[i].1))
  {
  }

  /** A list keeps its length and is cleaned element-wise (utils/json_cleaner.py:23-24). */
  lemma ListKeepsLength(xs: seq<PyValue>)
    ensures Clean(PyList(xs)) == PyList(seq(|xs|, i requires 0 <= i < |xs| => Clean(xs[i])))
    ensures |Clean(PyList(xs)).items| == |xs|
  {
  }

  /** The scalar cases (utils/json_cleaner.py:25-36). */
  lemma ScalarCases(x: real, i: int, s: string)
    ensures Clean(PyFloat(NaN)) == PyNone
    ensures Clean(PyFloat(PosInf)) == PyNone && Clean(PyFloat(NegInf)) == PyNone
    ensures Clean(PyFloat(Finite(x))) == PyFloat(Finite(x))
    ensures Clean(PyInt(i)) == PyInt(i)
    ensures Clean(PyBool(true)) == PyInt(1) && Clean(PyBool(false)) == PyInt(0)
    ensures Clean(PyStr(s)) == PyStr(s) && Clean(PyNone) == PyNone
    ensures Clean(PyOther(s)) == PyStr(s)
    ensures Clean(PyNpInt(i)) == PyInt(i)
    ensures Clean(PyNpFloat(Finite(x), false)) == PyFloat(Finite(x)) && Clean(PyNpFloat(NaN, true)) == PyNone
  {
  }

  /** A tuple is not a list to the cleaner: it becomes its `str()` text, items and all (utils/json_cleaner.py:23-36). */
  lemma TupleBecomesText(xs: seq<PyValue>, text: string)
    ensures Clean(PyTuple(xs, text)) == PyStr(text)
  {
  }

  /**
   * What the cleaner is for: `json.dumps` rejects a numpy integer that the
   * cleaner turns into an int, while a tuple, which the cleaner leaves to
   * `str()`, already encodes as an array.
   */
  lemma NumpyAndTupleEncoding(k: string, n: int)
    ensures !Encodable(PyDict([(k, PyNpInt(n))])) && Encodable(Clean(PyDict([(k, PyNpInt(n))])))
    ensures Encodable(PyDict([(k, PyTuple([PyInt(1), PyInt(2)], "(1, 2)"))]))
    ensures !Encodable(PyDict([(k, PyNpFloat(Finite(1.0), false))]))
  {
    assert Clean(PyDict([(k, PyNpInt(n))])) == PyDict([(k, PyInt(n))]);
    assert PyDict([(k, PyNpInt(n))]).entries[0].1 == PyNpInt(n);
    assert PyDict([(k, PyNpFloat(Finite(1.0), false))]).entries[0].1 == PyNpFloat(Finite(1.0), false);
  }

  /** The output always has the cleaned shape. */
  lemma {:induction false} CleanIsClean(v: PyValue)
    ensures IsClean(Clean(v))
    decreases v
  {
    match v
    case PyDict(es) =>
      forall i | 0 <= i < |es| ensures IsClean(Clean(v).entries[i].1) {
        CleanIsClean(es[i].1);
      }
    case PyList(xs) =>
      forall i | 0 <= i < |xs| ensures IsClean(Clean(v).items[i]) {
        CleanIsClean(xs[i]);
      }
    case _ =>
  }

  /** A value of the cleaned shape is valid, encodable JSON. */
  lemma {:induction false} CleanShapeIsJson(v: PyValue)
    requires IsClean(v)
    ensures NoNonFinite(v) && Encodable(v)
    decreases v
  {
    match v
    case PyDict(es) =>
      forall i | 0 <= i < |es| ensures NoNonFinite(es[i].1) && Encodable(es[i].1) {
        CleanShapeIsJson(es[i].1);
      }
    case PyList(xs) =>
      forall i | 0 <= i < |xs| ensures NoNonFinite(xs[i]) && Encodable(xs[i]) {
        CleanShapeIsJson(xs[i]);
      }
    case _ =>
  }

  /** No NaN or infinity survives at any depth, so the result always serialises (utils/json_cleaner.py:10-16). */
  lemma CleanIsJson(v: PyValue)
    ensures NoNonFinite(Clean(v)) && Encodable(Clean(v))
  {
    CleanIsClean(v);
    CleanShapeIsJson(Clean(v));
  }

  /** Cleaning leaves a value of the cleaned shape as it is. */
  lemma {:induction false} CleanFixesCleanShape(v: PyValue)
    requires IsClean(v)
    ensures Clean(v) == v
    decreases v
  {
    match v
    case PyDict(es) =>
      forall i | 0 <= i < |es| ensures Clean(es[i].1) == es[i].1 {
        CleanFixesCleanShape(es[i].1);
      }
      assert Clean(v).entries == es;
    case PyList(xs) =>
      forall i | 0 <= i < |xs| ensures Clean(xs[i]) == xs[i] {
        CleanFixesCleanShape(xs[i]);
      }
      assert Clean(v).items == xs;
    case _ =>
  }

  /** Cleaning is idempotent. */
  lemma CleanIdempotent(v: PyValue)
    ensures Clean(Clean(v)) == Clean(v)
  {
    CleanIsClean(v);
    CleanFixesCleanShape(Clean(v));
  }

  /** A finite float, an int or a string is left alone; every other scalar (a tuple included) changes type. */
  lemma CleanChangesOnlyUnsafeScalars(v: PyValue)
    requires !v.PyDict? && !v.PyList?
    ensures Clean(v) == v <==> IsClean(v)
  {
  }
}

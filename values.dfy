/** Python-level values shared by every part of the integration: optional
    values, raised exceptions, the scalar values a poll snapshot holds, and
    the two string operations the renderers use (lower-casing, prefix test). */
module Values {

  datatype Option<+T> = None | Some(value: T)

  /** The Python exceptions the modelled code can raise. `StopIteration`
      escaping a coroutine is re-raised by Python as `RuntimeError`; the model
      keeps the name of the exception the code itself triggers. */
  datatype PyError =
    | KeyError
    | TypeError
    | AttributeError
    | IndexError
    | ValueError
    | StopIteration
    | NotImplementedError
    | ConfigEntryNotReady

  /** The result of Python code that either returns a value or raises. */
  datatype Outcome<+T> = Ok(value: T) | Raise(error: PyError)

  /** A value of a per-sensor record, as the coordinator normalises it.
      `VOther` stands for a JSON list or object: `text` is what `str()` gives
      for it and `nonEmpty` is its truthiness. */
  datatype Value =
    | VNone
    | VBool(b: bool)
    | VInt(i: int)
    | VFloat(f: real)
    | VStr(s: string)
    | VOther(text: string, nonEmpty: bool)

  /** One sensor's record: field name to value. */
  type Record = map<string, Value>

  /** The coordinator's data: sensor name to record. */
  type Snapshot = map<string, Record>

  /** `rec.get(key)`: the stored value, or None when the key is absent. */
  function Get(rec: Record, key: string): Value
  {
    if key in rec then rec[key] else VNone
  }

  /** Python's `bool(v)`. */
  predicate Truthy(v: Value)
  {
    match v
    case VNone => false
    case VBool(b) => b
    case VInt(i) => i != 0
    case VFloat(f) => f != 0.0
    case VStr(s) => s != ""
    case VOther(_, nonEmpty) => nonEmpty
  }

  /** Lower-casing of one character (ASCII letters only). */
  function LowerChar(c: char): (d: char)
    ensures 'A' <= c <= 'Z' ==> d as int == c as int + 32
    ensures !('A' <= c <= 'Z') ==> d == c
  {
    if 'A' <= c <= 'Z' then (c as int + 32) as char else c
  }

  /** `s.lower()`, restricted to ASCII letters. */
  function Lower(s: string): (r: string)
    ensures |r| == |s|
    ensures forall i :: 0 <= i < |s| ==> r[i] == LowerChar(s[i])
  {
    if s == [] then [] else [LowerChar(s[0])] + Lower(s[1..])
  }

  /** A string without upper-case letters is its own lower-case form. */
  lemma LowerOfLowerCase(s: string)
    requires forall i :: 0 <= i < |s| ==> !('A' <= s[i] <= 'Z')
    ensures Lower(s) == s
  {
  }

  /** `s.startswith(p)`. */
  predicate StartsWith(s: string, p: string)
  {
    |p| <= |s| && s[..|p|] == p
  }

  /** Lower-casing is idempotent, so comparing `Lower(s)` with a lower-case
      word is a case-insensitive comparison. */
  lemma {:induction false} LowerIdempotent(s: string)
    ensures Lower(Lower(s)) == Lower(s)
  {
    var l := Lower(s);
    assert |Lower(l)| == |l|;
    forall i | 0 <= i < |l|
      ensures Lower(l)[i] == l[i]
    {
    }
  }
}

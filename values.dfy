/**
 * Parsed JSON values as the SDK sees them after `json.loads`, together with
 * the two pieces of Python semantics the SDK relies on when it probes such a
 * value: truthiness (`if v:`) and the `key in v` / `v[key]` operators, with
 * the exceptions they raise on the wrong kind of value.
 */
module Values {
  import opened Wrappers

  /** A JSON tree. Numbers are integers; floating point is not modelled. */
  datatype Value =
    | Null
    | Bool(b: bool)
    | Num(n: int)
    | Str(s: string)
    | Arr(items: seq<Value>)
    | Obj(fields: map<string, Value>)

  /** Python's truth value of a JSON value: empty and zero things are false. */
  predicate Truthy(v: Value) {
    match v
    case Null => false
    case Bool(b) => b
    case Num(n) => n != 0
    case Str(s) => s != ""
    case Arr(items) => |items| > 0
    case Obj(fields) => |fields| > 0
  }

  /** The entries of a dict that a comprehension `{k: v ... if v}` keeps. */
  function TruthyEntries(m: map<string, Value>): (r: map<string, Value>)
    ensures forall k :: k in r <==> k in m && Truthy(m[k])
    ensures forall k :: k in r ==> r[k] == m[k]
  {
    map k | k in m && Truthy(m[k]) :: m[k]
  }

  /** `sub` occurs in `s` starting at position `i`. */
  predicate OccursAt(s: string, sub: string, i: int) {
    0 <= i && i + |sub| <= |s| && s[i..i + |sub|] == sub
  }

  /** Python's `sub in s` on two strings. */
  function HasSubstring(s: string, sub: string): (r: bool)
    ensures r <==> exists i :: OccursAt(s, sub, i)
    decreases |s|
  {
    if |sub| > |s| then
      assert forall i :: !OccursAt(s, sub, i);
      false
    else if s[..|sub|] == sub then
      assert OccursAt(s, sub, 0);
      true
    else
      var r := HasSubstring(s[1..], sub);
      assert r ==> exists i :: OccursAt(s, sub, i) by {
        if r {
          var i :| OccursAt(s[1..], sub, i);
          assert s[1..][i..i + |sub|] == s[i + 1..i + 1 + |sub|];
          assert OccursAt(s, sub, i + 1);
        }
      }
      assert (exists i :: OccursAt(s, sub, i)) ==> r by {
        if exists i :: OccursAt(s, sub, i) {
          var i :| OccursAt(s, sub, i);
          assert i != 0;
          assert s[1..][i - 1..i - 1 + |sub|] == s[i..i + |sub|];
          assert OccursAt(s[1..], sub, i - 1);
        }
      }
      r
  }

  /** The exceptions a probe of a parsed value can raise. */
  datatype Exc = KeyError | TypeError

  /** Python's `key in v` for a string key. */
  function Contains(v: Value, key: string): (r: Result<bool, Exc>)
    ensures v.Obj? ==> r == Success(key in v.fields)
    ensures v.Arr? ==> r == Success(Str(key) in v.items)
    ensures v.Str? ==> r == Success(HasSubstring(v.s, key))
    ensures r.Failure? <==> !(v.Obj? || v.Arr? || v.Str?)
  {
    match v
    case Obj(fields) => Success(key in fields)
    case Arr(items) => Success(Str(key) in items)
    case Str(s) => Success(HasSubstring(s, key))
    case _ => Failure(TypeError)
  }

  /** Python's `v[key]` for a string key. */
  function GetItem(v: Value, key: string): (r: Result<Value, Exc>)
    ensures r.Success? <==> v.Obj? && key in v.fields
    ensures r.Success? ==> r.value == v.fields[key]
    ensures r == Failure(KeyError) <==> v.Obj? && key !in v.fields
  {
    match v
    case Obj(fields) => if key in fields then Success(fields[key]) else Failure(KeyError)
    case _ => Failure(TypeError)
  }

  /** `m[k] if k in m else None`, the SDK's usual optional lookup. */
  function Lookup(m: map<string, Value>, key: string): (r: Option<Value>)
    ensures r.Some? <==> key in m
    ensures r.Some? ==> r.value == m[key]
  {
    if key in m then Some(m[key]) else None
  }
}

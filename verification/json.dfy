module Wrappers {

  datatype Option<+T> = None | Some(value: T) {
    function GetOr(default: T): T {
      match this
      case Some(v) => v
      case None => default
    }
  }
}

/** JSON values as Python's `json` module hands them to the agents, and the
    handful of dynamically typed Python operations the agents apply to them
    (`k in x`, `x.get(k, d)`, `x[k]`, `x[0]`, `for e in x`, truth tests), each
    with the exception Python raises when the value has the wrong type. */
module Json {
  import opened Wrappers
  import opened Text

  /** A decoded JSON document. Objects keep their members in document order,
      as Python dicts do; numbers are integers. */
  datatype Json =
    | JNull
    | JBool(b: bool)
    | JNum(n: int)
    | JStr(s: string)
    | JArr(elems: seq<Json>)
    | JObj(fields: seq<(string, Json)>)

  /** `json.loads`: `None` stands for a `JSONDecodeError`. */
  type Parser = string -> Option<Json>

  /** The Python exceptions the dynamic operations below can raise. */
  datatype Exc = TypeError | AttributeError | KeyError | IndexError

  /** A value, or the exception raised while computing it. */
  datatype PyResult<+T> = Ok(value: T) | Raise(exc: Exc) {
    predicate IsFailure() {
      Raise?
    }

    function PropagateFailure<U>(): PyResult<U>
      requires Raise?
    {
      Raise(exc)
    }

    function Extract(): T
      requires Ok?
    {
      value
    }
  }

  /** The value bound to `k`; when a document repeats a key, `json.loads`
      keeps the last binding. */
  function Lookup(fields: seq<(string, Json)>, k: string): Option<Json>
  {
    if fields == [] then None
    else if fields[|fields| - 1].0 == k then Some(fields[|fields| - 1].1)
    else Lookup(fields[..|fields| - 1], k)
  }

  predicate HasKey(fields: seq<(string, Json)>, k: string) {
    Lookup(fields, k).Some?
  }

  /** A key is bound exactly when some member carries it. */
  lemma {:induction false} HasKeyMember(fields: seq<(string, Json)>, k: string)
    ensures HasKey(fields, k) <==> exists i :: 0 <= i < |fields| && fields[i].0 == k
  {
    if fields != [] {
      var init := fields[..|fields| - 1];
      HasKeyMember(init, k);
      if fields[|fields| - 1].0 != k {
        if exists i :: 0 <= i < |fields| && fields[i].0 == k {
          var i :| 0 <= i < |fields| && fields[i].0 == k;
          assert init[i].0 == k;
        }
      }
    }
  }

  /** A key carried by exactly one member reads that member's value. */
  lemma {:induction false} LookupUnique(fields: seq<(string, Json)>, i: nat)
    requires i < |fields|
    requires forall j :: 0 <= j < |fields| && j != i ==> fields[j].0 != fields[i].0
    ensures Lookup(fields, fields[i].0) == Some(fields[i].1)
  {
    if i != |fields| - 1 {
      LookupUnique(fields[..|fields| - 1], i);
    }
  }

  /** The distinct keys of an object in order of first appearance: what
      `for key in d` visits. */
  function Keys(fields: seq<(string, Json)>): (ks: seq<string>)
    ensures forall i, j :: 0 <= i < j < |ks| ==> ks[i] != ks[j]
    ensures forall k :: k in ks <==> HasKey(fields, k)
  {
    if fields == [] then []
    else
      var rest := Keys(fields[..|fields| - 1]);
      var k := fields[|fields| - 1].0;
      if k in rest then rest else rest + [k]
  }

  /** `obj[k] = v` on a dict: the binding is replaced in place, or appended
      when the key is new. */
  function Put(fields: seq<(string, Json)>, k: string, v: Json): seq<(string, Json)>
  {
    if HasKey(fields, k) then Replace(fields, k, v) else fields + [(k, v)]
  }

  function Replace(fields: seq<(string, Json)>, k: string, v: Json): (r: seq<(string, Json)>)
    ensures |r| == |fields|
  {
    if fields == [] then []
    else
      var last := fields[|fields| - 1];
      Replace(fields[..|fields| - 1], k, v) + [if last.0 == k then (k, v) else last]
  }

  lemma {:induction false} LookupReplace(fields: seq<(string, Json)>, k: string, v: Json, k': string)
    ensures Lookup(Replace(fields, k, v), k') ==
            if k' == k && HasKey(fields, k) then Some(v) else Lookup(fields, k')
  {
    if fields != [] {
      var init := fields[..|fields| - 1];
      var r := Replace(fields, k, v);
      assert r[..|r| - 1] == Replace(init, k, v);
      LookupReplace(init, k, v, k');
    }
  }

  /** After `obj[k] = v` the key reads `v` and every other key reads as before. */
  lemma PutLookup(fields: seq<(string, Json)>, k: string, v: Json, k': string)
    ensures Lookup(Put(fields, k, v), k') == if k' == k then Some(v) else Lookup(fields, k')
  {
    if HasKey(fields, k) {
      LookupReplace(fields, k, v, k');
    } else {
      var r := fields + [(k, v)];
      assert r[..|r| - 1] == fields;
    }
  }

  /** Python's truth value of a JSON value (`if x:`). */
  predicate Truthy(j: Json) {
    match j
    case JNull => false
    case JBool(b) => b
    case JNum(n) => n != 0
    case JStr(s) => s != []
    case JArr(e) => e != []
    case JObj(f) => f != []
  }

  /** `k in x` with a string `k`: a key test on a dict, a substring test on a
      string, a membership test on a list; `TypeError` otherwise. */
  function In(k: string, x: Json): (r: PyResult<bool>)
    ensures x.JObj? ==> r == Ok(HasKey(x.fields, k))
    ensures r.Raise? <==> x.JNull? || x.JBool? || x.JNum?
    ensures r.Raise? ==> r.exc == TypeError
  {
    match x
    case JObj(f) => Ok(HasKey(f, k))
    case JStr(s) => Ok(IsSubstring(k, s))
    case JArr(e) => Ok(JStr(k) in e)
    case _ => Raise(TypeError)
  }

  /** `x.get(k, d)`: only dicts have `get`. */
  function Get(x: Json, k: string, d: Json): (r: PyResult<Json>)
    ensures r.Raise? <==> !x.JObj?
    ensures r.Raise? ==> r.exc == AttributeError
    ensures x.JObj? ==> r == Ok(if HasKey(x.fields, k) then Lookup(x.fields, k).value else d)
  {
    match x
    case JObj(f) => Ok(Lookup(f, k).GetOr(d))
    case _ => Raise(AttributeError)
  }

  /** `x[k]` with a string `k`: `KeyError` for a missing dict key, `TypeError`
      for anything that is not a dict. */
  function Subscript(x: Json, k: string): (r: PyResult<Json>)
    ensures r.Ok? <==> x.JObj? && HasKey(x.fields, k)
    ensures r.Ok? ==> Some(r.value) == Lookup(x.fields, k)
    ensures r.Raise? ==> (r.exc == KeyError <==> x.JObj?)
  {
    match x
    case JObj(f) => if HasKey(f, k) then Ok(Lookup(f, k).value) else Raise(KeyError)
    case _ => Raise(TypeError)
  }

  /** `x[0]`: the first element of a list, the first character of a string;
      a dict has no key `0` (JSON keys are strings). */
  function Index0(x: Json): (r: PyResult<Json>)
    ensures x.JArr? && x.elems != [] ==> r == Ok(x.elems[0])
    ensures r.Ok? ==> (x.JArr? || x.JStr?) && Truthy(x)
  {
    match x
    case JArr(e) => if e != [] then Ok(e[0]) else Raise(IndexError)
    case JStr(s) => if s != [] then Ok(JStr([s[0]])) else Raise(IndexError)
    case JObj(_) => Raise(KeyError)
    case _ => Raise(TypeError)
  }

  /** What `for e in x` visits: list elements, the characters of a string,
      the keys of a dict; numbers, booleans and `None` are not iterable. */
  function Elements(x: Json): (r: PyResult<seq<Json>>)
    ensures x.JArr? ==> r == Ok(x.elems)
    ensures r.Raise? <==> x.JNull? || x.JBool? || x.JNum?
    ensures r.Ok? ==> (|r.value| == 0 <==> !Truthy(x))
    ensures r.Raise? ==> r.exc == TypeError
  {
    match x
    case JArr(e) => Ok(e)
    case JStr(s) => Ok(seq(|s|, i requires 0 <= i < |s| => JStr([s[i]])))
    case JObj(f) =>
      var ks := Keys(f);
      assert f != [] ==> f[0].0 in ks by {
        if f != [] {
          HasKeyMember(f, f[0].0);
        }
      }
      Ok(seq(|ks|, i requires 0 <= i < |ks| => JStr(ks[i])))
    case _ => Raise(TypeError)
  }

  /** `json.loads(x)` applied to a value taken out of a document: only a
      string can be parsed; anything else raises `TypeError`. */
  function Loads(x: Json, parse: Parser): (r: PyResult<Option<Json>>)
    ensures r.Raise? <==> !x.JStr?
    ensures x.JStr? ==> r == Ok(parse(x.s))
  {
    match x
    case JStr(s) => Ok(parse(s))
    case _ => Raise(TypeError)
  }
}

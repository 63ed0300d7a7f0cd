/** The values `json.loads` produces and the few Python operations the clients
    apply to them (`d.get(k, default)`, `d[k]`, `v[0]`, `v[:n]`, `len(v)`,
    `for x in v`, `x in v`, truthiness, `str(v)`), each with the exception
    Python raises when the value has the wrong shape. Exceptions are values:
    an operation returns `Ok(result)` or `Raised(exception)`. */
module Py {
  import opened Wrappers
  import opened Text

  /** A decoded JSON value. An object keeps its keys in document order, as a
      Python dict does. A number is an `int`, or a `float` carried as the text
      `str()` gives for it. */
  datatype Json =
    | Null
    | Bool(b: bool)
    | Num(n: int)
    | Float(repr: string)
    | Str(s: string)
    | Arr(items: seq<Json>)
    | Obj(fields: seq<(string, Json)>)

  /** The exception classes the clients distinguish or print. */
  datatype ExcKind =
    | AttributeError | TypeError | IndexError | KeyError
    | HttpError      // requests.HTTPError, raised by raise_for_status
    | JsonError      // a JSON decoding error
    | RequestError   // any other failure of the HTTP call itself
    | ServiceError   // a failure reported by the assistants SDK

  /** A raised exception: its class and `str(e)`. */
  datatype Exc = Exc(kind: ExcKind, text: string)

  /** The outcome of a Python expression: a value, or an exception. */
  datatype Outcome<+T> = Ok(value: T) | Raised(exc: Exc) {
    predicate IsFailure() { Raised? }
    function PropagateFailure<U>(): Outcome<U> requires Raised? { Raised(exc) }
    function Extract(): T requires Ok? { value }
  }

  /** Lines written to standard output, and the exception that interrupted
      the printing, if one did. */
  datatype Printed = Printed(lines: seq<string>, raised: Option<Exc>)

  /** Printing `p` and then, if nothing was raised, `q`. */
  function Then(p: Printed, q: Printed): (r: Printed)
    ensures p.raised.Some? ==> r == p
    ensures p.raised.None? ==> r.lines == p.lines + q.lines && r.raised == q.raised
  {
    if p.raised.Some? then p else Printed(p.lines + q.lines, q.raised)
  }

  /** Printing in sequence does not depend on how the parts are grouped. */
  lemma ThenAssoc(p: Printed, q: Printed, r: Printed)
    ensures Then(Then(p, q), r) == Then(p, Then(q, r))
  {
    if p.raised.None? && q.raised.None? {
      var a, b, c := p.lines, q.lines, r.lines;
      assert forall i :: 0 <= i < |a| + |b| + |c| ==> ((a + b) + c)[i] == (a + (b + c))[i];
    }
  }

  /** Printing nothing afterwards changes nothing. */
  lemma ThenNothing(p: Printed)
    ensures Then(p, Printed([], None)) == p
  {
    if p.raised.None? {
      assert p.lines + [] == p.lines;
    }
  }

  /** The lines of a printing, with the exception that interrupted it, if
      any, reported after what was already printed as `marker` and its text
      (the `except` clause that prints `f"[ERROR] {e}"`). */
  function Interrupted(p: Printed, marker: string): (lines: seq<string>)
    ensures p.raised.None? ==> lines == p.lines
    ensures p.raised.Some? ==> lines == p.lines + [marker + p.raised.value.text]
  {
    match p.raised
    case None => p.lines
    case Some(x) => p.lines + [marker + x.text]
  }

  /** Printing that stops at once with exception `e`. */
  function Stop(e: Exc): Printed
  {
    Printed([], Some(e))
  }

  /** Printing one computed line after another: the lines before the first
      exception are printed, and that exception interrupts the rest. */
  function Lines(os: seq<Outcome<string>>): (p: Printed)
    ensures p.raised.None? <==> forall i :: 0 <= i < |os| ==> os[i].Ok?
    ensures p.raised.None? ==> |p.lines| == |os|
    ensures |p.lines| <= |os|
    ensures forall i :: 0 <= i < |p.lines| ==> os[i] == Ok(p.lines[i])
    ensures p.raised.Some? ==> |p.lines| < |os| && os[|p.lines|] == Raised(p.raised.value)
  {
    if os == [] then Printed([], None)
    else
      match os[0]
      case Raised(x) => Stop(x)
      case Ok(line) =>
        var rest := Lines(os[1..]);
        assert forall i :: 1 <= i < |os| ==> os[i] == os[1..][i - 1];
        Printed([line] + rest.lines, rest.raised)
  }

  /** `type(v).__name__`. */
  function TypeName(v: Json): string
  {
    match v
    case Null => "NoneType"
    case Bool(_) => "bool"
    case Num(_) => "int"
    case Float(_) => "float"
    case Str(_) => "str"
    case Arr(_) => "list"
    case Obj(_) => "dict"
  }

  function NoAttribute(v: Json, attribute: string): Exc
  {
    Exc(AttributeError, "'" + TypeName(v) + "' object has no attribute '" + attribute + "'")
  }

  /** `bool(v)`. */
  predicate Truthy(v: Json)
  {
    match v
    case Null => false
    case Bool(b) => b
    case Num(n) => n != 0
    case Float(r) => r != "0.0" && r != "-0.0"
    case Str(s) => s != []
    case Arr(items) => items != []
    case Obj(fields) => fields != []
  }

  /** The value stored under `key` (the first entry with that key). */
  function Lookup(fields: seq<(string, Json)>, key: string): (r: Option<Json>)
    ensures r.Some? <==> exists i :: 0 <= i < |fields| && fields[i].0 == key
    ensures r.Some? ==> exists i :: 0 <= i < |fields| && fields[i] == (key, r.value)
  {
    if fields == [] then None
    else if fields[0].0 == key then Some(fields[0].1)
    else
      var r := Lookup(fields[1..], key);
      assert forall i :: 0 < i < |fields| ==> fields[i] == fields[1..][i - 1];
      r
  }

  /** Looking a key up in a dict with one more entry in front. */
  lemma LookupCons(k: string, v: Json, rest: seq<(string, Json)>, key: string)
    ensures Lookup([(k, v)] + rest, key) == if k == key then Some(v) else Lookup(rest, key)
  {
    assert ([(k, v)] + rest)[1..] == rest;
  }

  /** A key stored at exactly one position is found there. */
  lemma LookupUnique(fields: seq<(string, Json)>, i: nat, key: string)
    requires i < |fields| && fields[i].0 == key
    requires forall j :: 0 <= j < |fields| && j != i ==> fields[j].0 != key
    ensures Lookup(fields, key) == Some(fields[i].1)
  {
  }

  /** `key in d` for a dict. */
  predicate HasKey(fields: seq<(string, Json)>, key: string)
  {
    Lookup(fields, key).Some?
  }

  /** `v.get(key, default)`. */
  function Get(v: Json, key: string, default: Json): (r: Outcome<Json>)
    ensures v.Obj? <==> r.Ok?
    ensures v.Obj? ==> r.value == Lookup(v.fields, key).GetOr(default)
  {
    match v
    case Obj(fields) => Ok(Lookup(fields, key).GetOr(default))
    case _ => Raised(NoAttribute(v, "get"))
  }

  /** `repr(s)` for a string, in single quotes (Python's escaping of quotes,
      backslashes and control characters is not modelled). */
  function Quote(s: string): string
  {
    "'" + s + "'"
  }

  /** `v[key]` with a string key. */
  function Subscript(v: Json, key: string): (r: Outcome<Json>)
    ensures r.Ok? <==> v.Obj? && HasKey(v.fields, key)
  {
    match v
    case Obj(fields) =>
      (match Lookup(fields, key)
       case Some(x) => Ok(x)
       case None => Raised(Exc(KeyError, Quote(key))))
    case Arr(_) => Raised(Exc(TypeError, "list indices must be integers or slices, not str"))
    case Str(_) => Raised(Exc(TypeError, "string indices must be integers, not 'str'"))
    case _ => Raised(Exc(TypeError, "'" + TypeName(v) + "' object is not subscriptable"))
  }

  /** `v[0]`. */
  function First(v: Json): (r: Outcome<Json>)
    ensures v.Arr? && v.items != [] ==> r == Ok(v.items[0])
    ensures v.Arr? && v.items == [] ==> r.Raised? && r.exc.kind == IndexError
  {
    match v
    case Arr(items) =>
      if items != [] then Ok(items[0]) else Raised(Exc(IndexError, "list index out of range"))
    case Str(s) =>
      if s != [] then Ok(Str([s[0]])) else Raised(Exc(IndexError, "string index out of range"))
    case Obj(_) => Raised(Exc(KeyError, "0"))
    case _ => Raised(Exc(TypeError, "'" + TypeName(v) + "' object is not subscriptable"))
  }

  /** `v[j]` with an integer index: a negative index counts from the end. */
  function At(v: Json, j: int): (r: Outcome<Json>)
    ensures v.Arr? ==> (r.Ok? <==> -|v.items| <= j < |v.items|)
    ensures v.Arr? && r.Ok? ==> r.value == v.items[if j < 0 then j + |v.items| else j]
    ensures v.Arr? && r.Raised? ==> r.exc.kind == IndexError
  {
    match v
    case Arr(items) =>
      if -|items| <= j < |items| then Ok(items[if j < 0 then j + |items| else j])
      else Raised(Exc(IndexError, "list index out of range"))
    case Str(s) =>
      if -|s| <= j < |s| then Ok(Str([s[if j < 0 then j + |s| else j]]))
      else Raised(Exc(IndexError, "string index out of range"))
    case Obj(_) => Raised(Exc(KeyError, IntToString(j)))
    case _ => Raised(Exc(TypeError, "'" + TypeName(v) + "' object is not subscriptable"))
  }

  /** `v[:n]`. */
  function Prefix(v: Json, n: nat): (r: Outcome<Json>)
    ensures v.Arr? ==> r == Ok(Arr(v.items[..if |v.items| < n then |v.items| else n]))
  {
    match v
    case Arr(items) => Ok(Arr(items[..if |items| < n then |items| else n]))
    case Str(s) => Ok(Str(Take(s, n)))
    case Obj(_) => Raised(Exc(TypeError, "unhashable type: 'slice'"))
    case _ => Raised(Exc(TypeError, "'" + TypeName(v) + "' object is not subscriptable"))
  }

  /** `len(v)`. */
  function Len(v: Json): (r: Outcome<nat>)
    ensures v.Arr? ==> r == Ok(|v.items|)
  {
    match v
    case Arr(items) => Ok(|items|)
    case Obj(fields) => Ok(|fields|)
    case Str(s) => Ok(|s|)
    case _ => Raised(Exc(TypeError, "object of type '" + TypeName(v) + "' has no len()"))
  }

  /** The elements `for x in v` visits: list items, dict keys, or the
      characters of a string. */
  function Iterate(v: Json): (r: Outcome<seq<Json>>)
    ensures v.Arr? ==> r == Ok(v.items)
    ensures r.Ok? ==> v.Arr? || v.Obj? || v.Str?
  {
    match v
    case Arr(items) => Ok(items)
    case Obj(fields) => Ok(seq(|fields|, i requires 0 <= i < |fields| => Str(fields[i].0)))
    case Str(s) => Ok(seq(|s|, i requires 0 <= i < |s| => Str([s[i]])))
    case _ => Raised(Exc(TypeError, "'" + TypeName(v) + "' object is not iterable"))
  }

  /** `list(v.keys())`. */
  function Keys(v: Json): (r: Outcome<seq<string>>)
    ensures v.Obj? ==> r.Ok? && |r.value| == |v.fields|
    ensures v.Obj? ==> forall i :: 0 <= i < |v.fields| ==> r.value[i] == v.fields[i].0
  {
    match v
    case Obj(fields) => Ok(seq(|fields|, i requires 0 <= i < |fields| => fields[i].0))
    case _ => Raised(NoAttribute(v, "keys"))
  }

  /** `list(v.items())`. */
  function Items(v: Json): (r: Outcome<seq<(string, Json)>>)
    ensures v.Obj? <==> r.Ok?
    ensures v.Obj? ==> r.value == v.fields
  {
    match v
    case Obj(fields) => Ok(fields)
    case _ => Raised(NoAttribute(v, "items"))
  }

  /** `x in v` for a string `x`. */
  function In(x: string, v: Json): (r: Outcome<bool>)
    ensures v.Arr? ==> r == Ok(Str(x) in v.items)
    ensures v.Obj? ==> r == Ok(HasKey(v.fields, x))
  {
    match v
    case Arr(items) => Ok(Str(x) in items)
    case Obj(fields) => Ok(HasKey(fields, x))
    case Str(s) => Ok(Contains(s, x))
    case _ => Raised(Exc(TypeError, "argument of type '" + TypeName(v) + "' is not iterable"))
  }

  /** `str(v)`: strings as they are, everything else as Python writes it. */
  function Show(v: Json): (r: string)
    ensures v.Str? ==> r == v.s
    decreases v, 0
  {
    match v
    case Null => "None"
    case Bool(b) => if b then "True" else "False"
    case Num(n) => IntToString(n)
    case Float(r) => r
    case Str(s) => s
    case Arr(items) =>
      "[" + Join(seq(|items|, i requires 0 <= i < |items| => Repr(items[i])), ", ") + "]"
    case Obj(fields) =>
      "{" + Join(seq(|fields|, i requires 0 <= i < |fields| =>
                       Quote(fields[i].0) + ": " + Repr(fields[i].1)), ", ") + "}"
  }

  /** `repr(v)`, as `str` uses it inside lists and dicts. */
  function Repr(v: Json): string
    decreases v, 1
  {
    match v
    case Str(s) => Quote(s)
    case _ => Show(v)
  }
}

/** The pieces of Python's runtime the adapters lean on when they walk a
    decoded response: exceptions, `dict.get`, subscripting, `in`, iteration,
    truthiness, `len`, and a `for` loop that may return or raise early.
    Messages of errors the interpreter raises itself follow CPython 3.12. */
module Python {
  import opened Json

  /** The exception classes that can reach the adapters' handlers. */
  datatype ExcClass =
    | Exception
    | EnvironmentError
    | ValueError
    | KeyError
    | IndexError
    | AttributeError
    | TypeError

  /** A raised exception: its class and `str(e)`. */
  datatype Exc = Exc(cls: ExcClass, msg: string)

  /** The outcome of evaluating Python code: a value, or a raised exception that
      unwinds to the nearest handler. Usable with `:-`. */
  datatype Py<+T> = Ok(value: T) | Raise(exc: Exc) {

    predicate IsFailure() {
      Raise?
    }

    /** Only ever called on `Raise`; it carries no precondition so that a
        `:-` whose failure branch is dead (a second `get` on a value already
        known to be a dict) leaves no obligation behind. */
    function PropagateFailure<U>(): Py<U> {
      match this
      case Raise(e) => Raise(e)
      case Ok(_) => Raise(Exc(Exception, ""))
    }

    function Extract(): T
      requires Ok?
    {
      value
    }
  }

  /** `s.startswith(prefix)`. */
  predicate StartsWith(s: string, prefix: string) {
    |prefix| <= |s| && s[..|prefix|] == prefix
  }

  /** `s.endswith(suffix)`. */
  predicate EndsWith(s: string, suffix: string) {
    |suffix| <= |s| && s[|s| - |suffix|..] == suffix
  }

  /** An error the interpreter raised on its own while the code touched a value
      of an unexpected type. CPython words all of these starting with a quote
      or a lower-case letter; nothing else about the wording is relied on. */
  predicate RaisedByInterpreter(e: Exc) {
    && (e.cls == AttributeError || e.cls == TypeError || e.cls == KeyError)
    && |e.msg| > 0
    && (e.msg[0] == '\'' || 'a' <= e.msg[0] <= 'z')
  }

  /** `type(v).__name__` for a decoded value. */
  function TypeName(v: Json): string {
    match v
    case JNull => "NoneType"
    case JBool(_) => "bool"
    case JNum(_) => "int"
    case JStr(_) => "str"
    case JArr(_) => "list"
    case JObj(_) => "dict"
  }

  /** The AttributeError raised when the code calls method `name` on a
      decoded value that is not a dict. */
  function NoAttribute(v: Json, name: string): (e: Exc)
    ensures e.cls == AttributeError && RaisedByInterpreter(e)
  {
    Exc(AttributeError, "'" + TypeName(v) + "' object has no attribute '" + name + "'")
  }

  /** `v.get(key, default)`: only a dict has `get`. */
  function Get(v: Json, key: string, default: Json): (r: Py<Json>)
    ensures r.Ok? <==> v.JObj?
    ensures r.Ok? ==> r.value == (if HasKey(v.fields, key) then Lookup(v.fields, key).value else default)
    ensures r.Raise? ==> r.exc.cls == AttributeError && RaisedByInterpreter(r.exc)
  {
    match v
    case JObj(fields) =>
      Ok(match Lookup(fields, key) case Some(x) => x case None => default)
    case _ =>
      Raise(NoAttribute(v, "get"))
  }

  /** `v.get(key, [])` on a dict whose `key` is absent or holds a list yields
      that list, or the empty one. */
  lemma GetObjectList(v: Json, key: string)
    requires v.JObj? && ObjectListAt(v, key)
    ensures Get(v, key, JArr([])) == Ok(JArr(ListAt(v, key)))
  {
  }

  /** `v[key]` for a string `key`: a dict looks the key up or raises KeyError;
      every other decoded value refuses a string index. */
  function Subscript(v: Json, key: string): (r: Py<Json>)
    ensures v.JObj? && HasKey(v.fields, key) ==> r == Ok(Lookup(v.fields, key).value)
    ensures r.Raise? ==> RaisedByInterpreter(r.exc)
  {
    match v
    case JObj(fields) =>
      (match Lookup(fields, key)
       case Some(x) => Ok(x)
       case None => Raise(Exc(KeyError, "'" + key + "'")))
    case JArr(_) => Raise(Exc(TypeError, "list indices must be integers" + " or slices, not str"))
    case JStr(_) => Raise(Exc(TypeError, "string indices must be" + " integers, not 'str'"))
    case _ => Raise(Exc(TypeError, "'" + TypeName(v) + "' object is not subscriptable"))
  }

  /** `t` occurs in `s` starting at index `i`. */
  predicate OccursAt(t: string, s: string, i: int) {
    0 <= i && i + |t| <= |s| && s[i..i + |t|] == t
  }

  /** `t in s` for two strings: a substring test. */
  function IsSubstring(t: string, s: string): (r: bool)
    ensures r <==> exists i :: OccursAt(t, s, i)
    decreases |s|
  {
    if |s| < |t| then false
    else if s[..|t|] == t then (assert OccursAt(t, s, 0); true)
    else
      var rest := IsSubstring(t, s[1..]);
      assert forall i :: OccursAt(t, s[1..], i) ==> OccursAt(t, s, i + 1);
      assert forall i :: OccursAt(t, s, i) && i > 0 ==> OccursAt(t, s[1..], i - 1);
      rest
  }

  /** `key in v` for a string `key`: a key of a dict, an equal element of a
      list, a substring of a string; other values are not containers. */
  function Contains(v: Json, key: string): (r: Py<bool>)
    ensures v.JObj? ==> r == Ok(HasKey(v.fields, key))
    ensures v.JArr? ==> r == Ok(JStr(key) in v.items)
    ensures v.JStr? ==> r == Ok(exists i :: OccursAt(key, v.s, i))
    ensures r.Raise? ==> r.exc.cls == TypeError && RaisedByInterpreter(r.exc)
  {
    match v
    case JObj(fields) => Ok(HasKey(fields, key))
    case JArr(items) => Ok(JStr(key) in items)
    case JStr(s) => Ok(IsSubstring(key, s))
    case _ => Raise(Exc(TypeError, "argument of type '" + TypeName(v) + "' is not iterable"))
  }

  /** The elements `for x in v` visits: a list's items, a dict's keys, a
      string's one-character strings; other values are not iterable. */
  function Iter(v: Json): (r: Py<seq<Json>>)
    ensures v.JArr? ==> r == Ok(v.items)
    ensures v.JObj? ==>
              r.Ok? && |r.value| == |v.fields| &&
              forall i :: 0 <= i < |v.fields| ==> r.value[i] == JStr(v.fields[i].0)
    ensures v.JStr? ==>
              r.Ok? && |r.value| == |v.s| &&
              forall i :: 0 <= i < |v.s| ==> r.value[i] == JStr([v.s[i]])
    ensures r.Raise? ==> r.exc.cls == TypeError && RaisedByInterpreter(r.exc)
  {
    match v
    case JArr(items) => Ok(items)
    case JObj(fields) => Ok(seq(|fields|, i requires 0 <= i < |fields| => JStr(fields[i].0)))
    case JStr(s) => Ok(seq(|s|, i requires 0 <= i < |s| => JStr([s[i]])))
    case _ => Raise(Exc(TypeError, "'" + TypeName(v) + "' object is not iterable"))
  }

  /** `bool(v)`: null, false, zero and empty values are false. */
  predicate Truthy(v: Json) {
    match v
    case JNull => false
    case JBool(b) => b
    case JNum(n) => n != 0
    case JStr(s) => s != ""
    case JArr(items) => items != []
    case JObj(fields) => fields != []
  }

  /** A value found where the code expects the answer text, passed through the
      `len(...)` the code logs before returning it: a string is the answer;
      `len` of null, a boolean or a number raises TypeError. */
  function AsText(v: Json): (r: Py<string>)
    ensures v.JStr? <==> r.Ok?
    ensures r.Ok? ==> v == JStr(r.value)
    ensures r.Raise? ==> r.exc.cls == TypeError && RaisedByInterpreter(r.exc)
  {
    match v
    case JStr(s) => Ok(s)
    case _ => Raise(Exc(TypeError, "object of type '" + TypeName(v) + "' has no len()"))
  }

  /** One pass of a loop body: it moved on to the next element. */
  predicate Continues<T>(p: Py<Option<T>>) {
    p.Ok? && p.value.None?
  }

  /** `return e` inside a loop body: e's value leaves the loop, or e's
      exception does. */
  function Returned<T>(p: Py<T>): (r: Py<Option<T>>)
    ensures p.Ok? ==> r == Ok(Some(p.value))
    ensures p.Raise? ==> r == Raise(p.exc)
  {
    match p
    case Ok(v) => Ok(Some(v))
    case Raise(e) => Raise(e)
  }

  /** `for x in xs: body(x)` where a body either moves on (`Ok(None)`), leaves
      the loop with a value (`Ok(Some(v))`) or raises. The first element whose
      body does not move on decides the outcome; `Ok(None)` means the loop ran
      to its end. */
  function ForEach<T>(xs: seq<Json>, body: Json -> Py<Option<T>>): (r: Py<Option<T>>)
    ensures Continues(r) <==> forall i :: 0 <= i < |xs| ==> Continues(body(xs[i]))
    ensures !Continues(r) ==>
      exists i :: 0 <= i < |xs| && body(xs[i]) == r &&
        forall k :: 0 <= k < i ==> Continues(body(xs[k]))
    decreases |xs|
  {
    if |xs| == 0 then Ok(None)
    else
      var first := body(xs[0]);
      if Continues(first) then ForEach(xs[1..], body) else first
  }

  /** The loop's outcome is the outcome of the first body that does not move on. */
  lemma ForEachStopsAtFirst<T>(xs: seq<Json>, body: Json -> Py<Option<T>>, i: int)
    requires 0 <= i < |xs| && !Continues(body(xs[i]))
    requires forall k :: 0 <= k < i ==> Continues(body(xs[k]))
    ensures ForEach(xs, body) == body(xs[i])
  {
  }
}

/** The pieces of Python's own behaviour the backend and the agent service rely on: binding
    keyword arguments in a call, str() and repr() of decoded values, and slicing with a
    possibly negative start. */
module PyValues {
  import opened Wrappers
  import opened Text
  import opened JsonData

  /** The TypeError a call raises when its keyword arguments do not fit the signature. */
  datatype CallError =
    | UnexpectedKeyword(name: string)
    | MissingArgument(name: string)

  /** True when some keyword argument is named p. */
  predicate Given(kwargs: seq<(string, Json)>, p: string) {
    exists i :: 0 <= i < |kwargs| && kwargs[i].0 == p
  }

  /** The first keyword argument, in call order, that names no parameter. */
  function FirstUnexpected(params: seq<string>, kwargs: seq<(string, Json)>): (r: Option<string>)
    ensures r.None? <==> forall i :: 0 <= i < |kwargs| ==> kwargs[i].0 in params
    ensures r.Some? ==> r.value !in params && Given(kwargs, r.value)
  {
    if kwargs == [] then None
    else if kwargs[0].0 !in params then Some(kwargs[0].0)
    else
      var r := FirstUnexpected(params, kwargs[1..]);
      assert forall i :: 1 <= i < |kwargs| ==> kwargs[i] == kwargs[1..][i - 1];
      r
  }

  /** The first parameter, in declaration order, that is neither given nor defaulted. */
  function FirstMissing(params: seq<string>, defaults: map<string, Json>, kwargs: seq<(string, Json)>): (r: Option<string>)
    ensures r.None? <==> forall p :: p in params ==> p in defaults || Given(kwargs, p)
    ensures r.Some? ==> r.value in params && r.value !in defaults && !Given(kwargs, r.value)
  {
    if params == [] then None
    else if params[0] !in defaults && !Given(kwargs, params[0]) then Some(params[0])
    else
      var r := FirstMissing(params[1..], defaults, kwargs);
      assert forall p :: p in params ==> p == params[0] || p in params[1..];
      r
  }

  /** How CPython binds keyword arguments to a function's parameters: an unknown keyword is
      reported first, then the first parameter left without a value; otherwise every
      parameter takes the keyword's value, or its default when the keyword is absent. */
  function Bind(params: seq<string>, defaults: map<string, Json>, kwargs: seq<(string, Json)>)
    : (r: Result<map<string, Json>, CallError>)
    ensures r.Success? <==>
      (forall i :: 0 <= i < |kwargs| ==> kwargs[i].0 in params)
      && (forall p :: p in params ==> p in defaults || Given(kwargs, p))
    ensures r.Success? ==> r.value.Keys == set p | p in params
    ensures r.Success? ==> forall p :: p in params ==>
      r.value[p] == if Given(kwargs, p) then Lookup(kwargs, p).value else defaults[p]
    ensures r.Failure? && r.error.UnexpectedKeyword? ==> r.error.name !in params && Given(kwargs, r.error.name)
    ensures r.Failure? && r.error.MissingArgument? ==>
      r.error.name in params && r.error.name !in defaults && !Given(kwargs, r.error.name)
  {
    match FirstUnexpected(params, kwargs)
    case Some(k) => Failure(UnexpectedKeyword(k))
    case None =>
      match FirstMissing(params, defaults, kwargs)
      case Some(p) => Failure(MissingArgument(p))
      case None =>
        Success(map p | p in params :: if Given(kwargs, p) then Lookup(kwargs, p).value else defaults[p])
  }

  /** The text of the TypeError, as CPython words it for a call of `callee`. */
  function CallErrorText(callee: string, e: CallError): string {
    match e
    case UnexpectedKeyword(k) => callee + "() got an unexpected keyword argument '" + k + "'"
    case MissingArgument(p) => callee + "() missing 1 required positional argument: '" + p + "'"
  }

  /** repr() of a value; a string is put between single quotes. */
  function Repr(v: Json): string
    decreases v, 1
  {
    match v
    case JStr(s) => "'" + s + "'"
    case _ => Str(v)
  }

  /** str() of a value: what an f-string interpolates. */
  function Str(v: Json): string
    decreases v, 0
  {
    match v
    case JNull => "None"
    case JBool(b) => if b then "True" else "False"
    case JInt(i) => IntToString(i)
    case JStr(s) => s
    case JArr(items) => "[" + ReprItems(items) + "]"
    case JObj(ms) => "{" + ReprMembers(ms) + "}"
  }

  function ReprItems(items: seq<Json>): string
    decreases items
  {
    if items == [] then []
    else if |items| == 1 then Repr(items[0])
    else Repr(items[0]) + ", " + ReprItems(items[1..])
  }

  function ReprMembers(ms: seq<(string, Json)>): string
    decreases ms
  {
    if ms == [] then []
    else
      assert ms[0] in ms && ms[0].1 < ms[0];
      var m := "'" + ms[0].0 + "': " + Repr(ms[0].1);
      if |ms| == 1 then m else m + ", " + ReprMembers(ms[1..])
  }

  /** The index where xs[start:] begins: a negative start counts from the end, and either
      kind is clamped to the bounds of xs. */
  function SliceStart(n: nat, start: int): (k: nat)
    ensures k <= n
  {
    if start < 0 then (if n + start < 0 then 0 else n + start)
    else if start > n then n else start
  }

  /** Python xs[start:]. */
  function SliceFrom<T>(xs: seq<T>, start: int): (r: seq<T>)
    ensures |r| <= |xs|
  {
    xs[SliceStart(|xs|, start)..]
  }

  /** xs[-limit:] keeps the last `limit` elements, or all of them when there are fewer; a zero
      limit is xs[0:], the whole sequence. */
  lemma LastElements<T>(xs: seq<T>, limit: int)
    ensures limit > 0 ==> SliceFrom(xs, -limit) == xs[if limit >= |xs| then 0 else |xs| - limit..]
    ensures limit > 0 ==> |SliceFrom(xs, -limit)| == if limit < |xs| then limit else |xs|
    ensures limit == 0 ==> SliceFrom(xs, -limit) == xs
  {
  }
}

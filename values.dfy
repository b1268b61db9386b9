/** Python values as the two scripts see them after `json.loads`, the Python
    exceptions the scripts can raise, and the handful of built-in operations
    they rely on: `dict.get`, `dict[k]`, `{**d, k: v}`, iteration, two-way
    unpacking and `>` against a float.  */
module Values {

  /** A decoded JSON value: None, bool, number, str, list or dict. Numbers
      are reals; a float bound compares with them exactly as in Python for
      every finite float. */
  datatype Value =
    | Null
    | Bool(b: bool)
    | Num(n: real)
    | Str(s: string)
    | Arr(items: seq<Value>)
    | Obj(fields: seq<(string, Value)>)

  /** A Python dict, as its items in insertion order. A dict never holds a
      key twice (see DistinctKeys); the operations below keep that. */
  type Dict = seq<(string, Value)>

  /** The exceptions the modelled code can raise. SolverError stands for a
      failed solver subprocess or output that is not JSON. */
  datatype PyError =
    | AttributeError
    | TypeError
    | ValueError
    | KeyError(key: string)
    | SolverError

  datatype Option<+T> = None | Some(value: T)

  /** Either a value or the exception that ended the computation. */
  datatype Result<+T> = Ok(value: T) | Err(error: PyError) {
    predicate IsFailure() { Err? }
    function PropagateFailure<U>(): Result<U> requires Err? { Err(error) }
    function Extract(): T requires Ok? { value }
  }

  /** The two files a script writes: one JSON record per line, and a text. */
  datatype Artifacts = Artifacts(records: seq<Value>, text: string)

  // ---------------------------------------------------------------- dicts

  function Keys(d: Dict): seq<string> {
    seq(|d|, i requires 0 <= i < |d| => d[i].0)
  }

  predicate DistinctKeys(d: Dict) {
    forall i, j :: 0 <= i < j < |d| ==> d[i].0 != d[j].0
  }

  /** Position of the first item whose key is k, or |d| when there is none. */
  function IndexOf(d: Dict, k: string): (i: nat)
    ensures i <= |d|
    ensures i < |d| ==> d[i].0 == k
    ensures forall j :: 0 <= j < i ==> d[j].0 != k
  {
    if d == [] then 0
    else if d[0].0 == k then 0
    else 1 + IndexOf(d[1..], k)
  }

  lemma IndexOfIs(d: Dict, k: string, i: nat)
    requires i <= |d|
    requires i < |d| ==> d[i].0 == k
    requires forall j :: 0 <= j < i ==> d[j].0 != k
    ensures IndexOf(d, k) == i
  {
  }

  /** `k in d` */
  predicate HasKey(d: Dict, k: string) {
    IndexOf(d, k) < |d|
  }

  /** `d.get(k)`: the value stored under k, if any. */
  function Get(d: Dict, k: string): (r: Option<Value>)
    ensures r.Some? <==> HasKey(d, k)
    ensures r.Some? ==> (k, r.value) in d
  {
    var i := IndexOf(d, k);
    if i < |d| then
      Some(d[i].1)
    else
      None
  }

  /** `d.get(k, default)` */
  function GetOr(d: Dict, k: string, default: Value): Value {
    match Get(d, k)
    case Some(v) => v
    case None => default
  }

  /** `d[k]` on a dict: KeyError when k is absent. */
  function Lookup(d: Dict, k: string): (r: Result<Value>)
    ensures r.Ok? <==> HasKey(d, k)
    ensures r.Err? ==> r.error == KeyError(k)
    ensures r.Ok? ==> Get(d, k) == Some(r.value)
  {
    match Get(d, k)
    case Some(v) => Ok(v)
    case None => Err(KeyError(k))
  }

  /** `v[k]` with a string key: a dict looks k up; a list or a string
      rejects a string index and None, numbers and booleans cannot be
      subscripted, all three with TypeError. */
  function Subscript(v: Value, k: string): (r: Result<Value>)
    ensures r.Ok? <==> v.Obj? && HasKey(v.fields, k)
    ensures !v.Obj? ==> r == Err(TypeError)
    ensures v.Obj? ==> r == Lookup(v.fields, k)
  {
    match v
    case Obj(fields) => Lookup(fields, k)
    case _ => Err(TypeError)
  }

  /** `{**d, k: v}`: an existing key keeps its position and takes the new
      value; a new key goes last. */
  function Put(d: Dict, k: string, v: Value): (r: Dict)
    ensures Keys(r) == if HasKey(d, k) then Keys(d) else Keys(d) + [k]
    ensures Get(r, k) == Some(v)
    ensures forall k' :: k' != k ==> Get(r, k') == Get(d, k')
    ensures DistinctKeys(d) ==> DistinctKeys(r)
  {
    if HasKey(d, k) then
      var r := seq(|d|, i requires 0 <= i < |d| => if d[i].0 == k then (k, v) else d[i]);
      PutKeepsIndex(d, r, k, v);
      r
    else
      var r := d + [(k, v)];
      PutAppends(d, r, k, v);
      r
  }

  lemma PutKeepsIndex(d: Dict, r: Dict, k: string, v: Value)
    requires HasKey(d, k)
    requires r == seq(|d|, i requires 0 <= i < |d| => if d[i].0 == k then (k, v) else d[i])
    ensures Keys(r) == Keys(d)
    ensures Get(r, k) == Some(v)
    ensures forall k' :: k' != k ==> Get(r, k') == Get(d, k')
  {
    assert Keys(r) == Keys(d);
    forall k': string
      ensures IndexOf(r, k') == IndexOf(d, k')
    {
      IndexOfIs(r, k', IndexOf(d, k'));
    }
  }

  lemma PutAppends(d: Dict, r: Dict, k: string, v: Value)
    requires !HasKey(d, k)
    requires r == d + [(k, v)]
    ensures Keys(r) == Keys(d) + [k]
    ensures DistinctKeys(d) ==> DistinctKeys(r)
    ensures Get(r, k) == Some(v)
    ensures forall k' :: k' != k ==> Get(r, k') == Get(d, k')
  {
    assert Keys(r) == Keys(d) + [k];
    IndexOfIs(r, k, |d|);
    forall k' | k' != k
      ensures Get(r, k') == Get(d, k')
    {
      var i := IndexOf(d, k');
      if i < |d| {
        IndexOfIs(r, k', i);
      } else {
        IndexOfIs(r, k', |r|);
      }
    }
  }

  // ------------------------------------------------ iteration and compare

  /** What a `for` loop visits in v: a list's elements, a string's
      characters, a dict's keys. None, numbers and booleans are not
      iterable (TypeError). */
  function Iterate(v: Value): (r: Result<seq<Value>>)
    ensures r.Err? <==> v.Null? || v.Bool? || v.Num?
    ensures r.Err? ==> r.error == TypeError
    ensures v.Arr? ==> r == Ok(v.items)
    ensures v.Str? ==> r.Ok? && |r.value| == |v.s|
    ensures v.Obj? ==> r.Ok? && |r.value| == |v.fields|
    ensures v.Str? ==> forall i :: 0 <= i < |v.s| ==> r.value[i] == Str([v.s[i]])
    ensures v.Obj? ==> forall i :: 0 <= i < |v.fields| ==> r.value[i] == Str(Keys(v.fields)[i])
  {
    match v
    case Arr(items) => Ok(items)
    case Str(s) => Ok(seq(|s|, i requires 0 <= i < |s| => Str([s[i]])))
    case Obj(fields) => Ok(seq(|fields|, i requires 0 <= i < |fields| => Str(fields[i].0)))
    case _ => Err(TypeError)
  }

  /** `a, b = v`: TypeError when v is not iterable, ValueError when it does
      not yield exactly two items. */
  function Unpack2(v: Value): (r: Result<(Value, Value)>)
    ensures r.Ok? <==> (v.Arr? && |v.items| == 2) || (v.Str? && |v.s| == 2) || (v.Obj? && |v.fields| == 2)
    ensures r.Err? ==> r.error == if v.Null? || v.Bool? || v.Num? then TypeError else ValueError
    ensures v.Arr? && |v.items| == 2 ==> r == Ok((v.items[0], v.items[1]))
    ensures r.Ok? && !v.Arr? ==> r.value.1.Str?
  {
    var items :- Iterate(v);
    if |items| == 2 then Ok((items[0], items[1])) else Err(ValueError)
  }

  /** `x > bound` for a float bound: numbers compare, booleans compare as 1
      and 0, any other value raises TypeError. */
  function GreaterThan(x: Value, bound: real): (r: Result<bool>)
    ensures r.Ok? <==> x.Num? || x.Bool?
    ensures r.Err? ==> r.error == TypeError
    ensures x.Num? ==> r == Ok(x.n > bound)
    ensures x.Bool? ==> r == Ok(if x.b then 1.0 > bound else 0.0 > bound)
  {
    match x
    case Num(n) => Ok(n > bound)
    case Bool(b) => Ok((if b then 1.0 else 0.0) > bound)
    case _ => Err(TypeError)
  }

  // ------------------------------------------------------ loops over lists

  /** `out = []; for x in xs: out.append(f(x))`, where f may raise: the
      first exception, in list order, ends the loop. */
  function MapAll<A, B>(xs: seq<A>, f: A -> Result<B>): (r: Result<seq<B>>)
    ensures r.Ok? ==> |r.value| == |xs|
  {
    if xs == [] then Ok([])
    else
      var init :- MapAll(xs[..|xs| - 1], f);
      var last :- f(xs[|xs| - 1]);
      Ok(init + [last])
  }

  /** The loop completes exactly when no element raises, and then holds one
      result per element, in order. */
  lemma {:induction false} MapAllOk<A, B>(xs: seq<A>, f: A -> Result<B>)
    ensures MapAll(xs, f).Ok? <==> forall i :: 0 <= i < |xs| ==> f(xs[i]).Ok?
    ensures MapAll(xs, f).Ok? ==> forall i :: 0 <= i < |xs| ==> f(xs[i]) == Ok(MapAll(xs, f).value[i])
  {
    if xs != [] {
      var init := xs[..|xs| - 1];
      MapAllOk(init, f);
      assert forall i :: 0 <= i < |init| ==> init[i] == xs[i];
    }
  }

  /** The error of the loop is the error of its first failing element. */
  lemma {:induction false} MapAllFirstError<A, B>(xs: seq<A>, f: A -> Result<B>, i: nat)
    requires i < |xs| && f(xs[i]).Err?
    requires forall j :: 0 <= j < i ==> f(xs[j]).Ok?
    ensures MapAll(xs, f) == Err(f(xs[i]).error)
  {
    var init := xs[..|xs| - 1];
    if i < |xs| - 1 {
      MapAllFirstError(init, f, i);
    } else {
      MapAllOk(init, f);
      assert forall j :: 0 <= j < |init| ==> init[j] == xs[j];
    }
  }

  /** `out = []; for b in blocks: out += b` */
  function Concat<T>(blocks: seq<seq<T>>): (r: seq<T>)
  {
    if blocks == [] then [] else Concat(blocks[..|blocks| - 1]) + blocks[|blocks| - 1]
  }
}

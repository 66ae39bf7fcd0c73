/** run/config: which configurer of a target a configuration value selects. */
module Config {
  import opened Values

  /** The interfaces of run/config a target implements; `required` is None without `Required`. */
  datatype Configurers = Configurers(
    empty: bool, required: Option<bool>, str: bool, integer: bool, floating: bool,
    boolean: bool, mapping: bool, list: bool, generic: bool)

  const NO_CONFIGURERS := Configurers(false, None, false, false, false, false, false, false, false)

  /** The call `Configure` makes; Accept makes none and succeeds, Reject is the type error. */
  datatype Call =
    | CallEmpty
    | CallString(s: string)
    | CallInteger(n: int)
    | CallFloat(r: real)
    | CallBool(b: bool)
    | CallMap(m: map<string, Value>)
    | CallArray(a: seq<Value>)
    | CallGeneric(v: Value)
    | Accept
    | Reject

  function Dispatch(t: Configurers, config: Value): Call {
    match config
    case Nil => if t.empty then CallEmpty else if t.required != Some(true) then Accept else Reject
    case Str(s) => if t.str then CallString(s) else Reject
    case Int(n) => if t.integer then CallInteger(n) else Reject
    case Float(r) => if t.floating then CallFloat(r) else Reject
    case Bool(b) => if t.boolean then CallBool(b) else Reject
    case Map(m) => if t.mapping then CallMap(m) else Reject
    case Arr(a) => if t.list then CallArray(a) else Reject
    case Other(_) => if t.generic then CallGeneric(config) else Reject
  }

  lemma OneEntry(m: map<string, Value>, k: string)
    requires |m| == 1 && k in m
    ensures m.Keys == {k}
  {
    assert |m.Keys - {k}| == 0;
  }

  /** The only key of a map with one entry. */
  function SingleKey(m: map<string, Value>): (k: string)
    requires |m| == 1
    ensures k in m && m == map[k := m[k]]
  {
    assert m.Keys != {};
    assert forall k, k' :: k in m && k' in m ==> k == k' by {
      forall k, k' | k in m && k' in m ensures k == k' { OneEntry(m, k); }
    }
    var k :| k in m;
    k
  }

  function GetSinglePair(m: map<string, Value>): (r: Result<(string, Value)>)
    ensures r.Ok? <==> exists k, v :: m == map[k := v]
    ensures r.Ok? ==> m == map[r.value.0 := r.value.1]
  {
    if |m| == 1 then Ok((SingleKey(m), m[SingleKey(m)])) else
      assert forall k: string, v: Value :: |map[k := v]| == 1;
      Fail(NotSinglePair)
  }
}

/**
 * The vocabulary the three clients (Go, Python, PHP) share: the remote base URL,
 * the two parameters every request carries, how a binding turns positional
 * arguments into remote query keys, and the abstract transport.
 */
module Api {
  import opened Wrappers

  /** Every request goes to this base URL followed by the endpoint path. */
  const BaseUrl: string := "https://api.c99.nl/"

  /** Query key that carries the API key. */
  const KeyName: string := "key"

  /** Query key that asks the service for a JSON response, and its value. */
  const JsonName: string := "json"
  const JsonFlag: string := "true"

  /**
   * How one binding builds its method-specific query.
   * Positional: the i-th argument is sent under keys[i], plus fixed constants.
   * OmitAbsent: the i-th argument is sent under keys[i] only when it was supplied.
   */
  datatype Translation =
    | Positional(keys: seq<string>, constants: map<string, string>)
    | OmitAbsent(keys: seq<string>)
  {
    /** The number of positional arguments the binding takes. */
    function Arity(): nat { |keys| }
  }

  predicate Distinct(keys: seq<string>) {
    forall i, j | 0 <= i < j < |keys| :: keys[i] != keys[j]
  }

  /** A map literal { keys[0]: vals[0], ... }; a later entry replaces an earlier one. */
  function ZipMap<V>(keys: seq<string>, vals: seq<V>): (m: map<string, V>)
    requires |keys| == |vals|
    ensures forall k :: k in m <==> k in keys
    decreases |keys|
  {
    if keys == [] then map[]
    else ZipMap(keys[..|keys| - 1], vals[..|vals| - 1])[keys[|keys| - 1] := vals[|vals| - 1]]
  }

  /** With distinct keys, each key of a map literal carries its own value. */
  lemma {:induction false} ZipMapAt<V>(keys: seq<string>, vals: seq<V>, i: nat)
    requires |keys| == |vals| && Distinct(keys) && i < |keys|
    ensures ZipMap(keys, vals)[keys[i]] == vals[i]
    decreases |keys|
  {
    var n := |keys| - 1;
    var ks, vs := keys[..n], vals[..n];
    assert ZipMap(keys, vals) == ZipMap(ks, vs)[keys[n] := vals[n]];
    if i < n {
      assert Distinct(ks);
      ZipMapAt(ks, vs, i);
      assert ks[i] == keys[i] && vs[i] == vals[i] && keys[i] != keys[n];
    }
  }

  /**
   * The map built key by key, keeping the i-th argument only when it differs
   * from the value the language uses for "not supplied".
   */
  function KeepSupplied<V(==)>(keys: seq<string>, vals: seq<V>, absent: V): (m: map<string, V>)
    requires |keys| == |vals|
    ensures forall k | k in m :: k in keys && m[k] != absent
    decreases |keys|
  {
    if keys == [] then map[]
    else
      var rest := KeepSupplied(keys[..|keys| - 1], vals[..|vals| - 1], absent);
      if vals[|vals| - 1] != absent then rest[keys[|keys| - 1] := vals[|vals| - 1]] else rest
  }

  /** With distinct keys, a key is present exactly when its argument was supplied. */
  lemma {:induction false} KeepSuppliedAt<V>(keys: seq<string>, vals: seq<V>, absent: V, i: nat)
    requires |keys| == |vals| && Distinct(keys) && i < |keys|
    ensures keys[i] in KeepSupplied(keys, vals, absent) <==> vals[i] != absent
    ensures vals[i] != absent ==> KeepSupplied(keys, vals, absent)[keys[i]] == vals[i]
    decreases |keys|
  {
    var n := |keys| - 1;
    if i < n {
      assert Distinct(keys[..n]);
      KeepSuppliedAt(keys[..n], vals[..n], absent, i);
      assert keys[..n][i] == keys[i] && vals[..n][i] == vals[i];
    }
  }

  /**
   * The parameters after the shared request routine has set the API key and the
   * JSON flag: those two entries are overridden, every other entry is kept.
   */
  function Inject<V>(params: map<string, V>, key: V, flag: V): (r: map<string, V>)
    ensures r.Keys == params.Keys + {KeyName, JsonName}
    ensures r[KeyName] == key && r[JsonName] == flag
    ensures forall k | k in params && k != KeyName && k != JsonName :: r[k] == params[k]
  {
    params[KeyName := key][JsonName := flag]
  }

  /** What the network does with one GET: fails, or returns the whole body. */
  datatype Fetch = Unreachable(reason: string) | Fetched(body: string)

  /** Why a call that was sent produced no result. */
  datatype CallError = TransportError(reason: string) | DecodeError(reason: string)

  /**
   * One GET through the transport, then the JSON decode of the whole body; the
   * decoded value is returned as it is. Both are parameters: the network and the
   * JSON library are not part of this model.
   */
  function Execute<Q, J>(req: Q, fetch: Q -> Fetch, decode: string -> Result<J, string>): (r: Result<J, CallError>)
    ensures r.Err? && r.error.TransportError? <==> fetch(req).Unreachable?
    ensures r.Err? && r.error.DecodeError? <==> fetch(req).Fetched? && decode(fetch(req).body).Err?
    ensures r.Ok? ==> fetch(req).Fetched? && decode(fetch(req).body) == Ok(r.value)
  {
    match fetch(req)
    case Unreachable(reason) => Err(TransportError(reason))
    case Fetched(body) =>
      match decode(body)
      case Ok(v) => Ok(v)
      case Err(e) => Err(DecodeError(e))
  }

  /** How one run of a client ends: before any request, or with the request's result. */
  datatype Outcome<D, J> =
    | NoRequest(result: D)
    | Failed(error: CallError)
    | Succeeded(value: J)
}

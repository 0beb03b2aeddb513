/**
 * What the Python and the PHP client share: dynamically typed values, bindings
 * whose trailing parameters have defaults, and the ordered query a binding writes.
 * The two clients differ in how a call binds its arguments and in how a request
 * goes out; those live in their own modules.
 */
module Script {
  import opened Wrappers
  import opened Api
  import opened Dict

  /** An argument or parameter value: a string, an integer, or None / null. */
  datatype Value = Str(s: string) | Int(n: int) | Nil

  /**
   * A binding's parameter list and how it writes its query. The defaults belong
   * to the last |defaults| parameters, as in a Python or PHP signature.
   * Params: the i-th value goes under keys[i], then the fixed constants follow.
   * SkipNil: the i-th value goes under keys[i] only when it is not None / null.
   */
  datatype Signature =
    | Params(keys: seq<string>, defaults: seq<Value>, constants: Dict<Value>)
    | SkipNil(keys: seq<string>, defaults: seq<Value>)
  {
    function Arity(): nat { |keys| }

    /** How many leading parameters have no default. */
    function Required(): nat { if |defaults| <= |keys| then |keys| - |defaults| else 0 }
  }

  /** One method of the client class: its name, its endpoint and its signature. */
  datatype ScriptBinding = ScriptBinding(name: string, endpoint: string, sig: Signature)

  /** A method that sends each argument under a key of its own, with no defaults. */
  function Plain(name: string, endpoint: string, keys: seq<string>): ScriptBinding {
    ScriptBinding(name, endpoint, Params(keys, [], []))
  }

  /** The first binding with this name; None exactly when no binding has it. */
  function FindScript(bs: seq<ScriptBinding>, name: string): (r: Option<ScriptBinding>)
    ensures r.None? <==> forall i | 0 <= i < |bs| :: bs[i].name != name
    ensures r.Some? ==> r.value.name == name && r.value in bs
    decreases |bs|
  {
    if |bs| == 0 then None
    else if bs[0].name == name then Some(bs[0])
    else
      assert forall i | 1 <= i < |bs| :: bs[1..][i - 1] == bs[i];
      FindScript(bs[1..], name)
  }

  /** A name that no earlier binding carries finds its own binding. */
  lemma {:induction false} FindScriptFirst(bs: seq<ScriptBinding>, name: string, i: int)
    requires 0 <= i < |bs| && bs[i].name == name
    requires forall j | 0 <= j < i :: bs[j].name != name
    ensures FindScript(bs, name) == Some(bs[i])
    decreases i
  {
    if i > 0 {
      FindScriptFirst(bs[1..], name, i - 1);
    }
  }

  /**
   * The values the method body sees: the caller's arguments, then the defaults
   * of the parameters the caller left out.
   */
  function Fill(sig: Signature, args: seq<Value>): (vals: seq<Value>)
    requires sig.Required() <= |args| <= sig.Arity()
    ensures |vals| == sig.Arity() && vals[..|args|] == args
    ensures forall j | |args| <= j < |vals| :: vals[j] == sig.defaults[j - (|sig.keys| - |sig.defaults|)]
  {
    args + sig.defaults[|sig.defaults| - (sig.Arity() - |args|)..]
  }

  /** The method-specific query, in the order the method writes it. */
  function Build(sig: Signature, vals: seq<Value>): Dict<Value>
    requires |vals| == sig.Arity()
  {
    match sig
    case Params(keys, _, constants) => Zip(keys, vals) + constants
    case SkipNil(keys, _) => Supplied(keys, vals, Nil)
  }

  /**
   * Forgetting the order, a query is the Go client's: the positional map plus the
   * constants, or the map of the supplied values.
   */
  lemma BuildView(sig: Signature, vals: seq<Value>)
    requires |vals| == sig.Arity()
    ensures sig.Params? ==> ToMap(Build(sig, vals)) == ZipMap(sig.keys, vals) + ToMap(sig.constants)
    ensures sig.SkipNil? ==> ToMap(Build(sig, vals)) == KeepSupplied(sig.keys, vals, Nil)
  {
    match sig
    case Params(keys, _, constants) =>
      ToMapAppend(Zip(keys, vals), constants);
      ZipView(keys, vals);
    case SkipNil(keys, _) =>
      SuppliedView(keys, vals, Nil);
  }

  /** random_number_generator's signature: both parameters default to None / null, which is left out. */
  const RandomNumberSig: Signature := SkipNil(["length", "between"], [Nil, Nil])

  /** random_number_generator's query: each value that is not None / null, in parameter order. */
  lemma RandomNumberQuery(length: Value, between: Value)
    ensures Build(RandomNumberSig, [length, between])
      == (if length != Nil then [("length", length)] else []) + (if between != Nil then [("between", between)] else [])
  {
    assert ["length", "between"][..1] == ["length"] && [length, between][..1] == [length];
  }

  /** Where a call goes: the endpoint and the method-specific query. */
  datatype Target = Target(endpoint: string, params: Dict<Value>)

  /** Command-line strings as the values a method receives. */
  function Strs(args: seq<string>): (vs: seq<Value>)
    ensures |vs| == |args| && forall i | 0 <= i < |args| :: vs[i] == Str(args[i])
  {
    seq(|args|, i requires 0 <= i < |args| => Str(args[i]))
  }

  /** A Go map of strings as a map of values. */
  function Lift(m: map<string, string>): (r: map<string, Value>)
    ensures r.Keys == m.Keys && forall k | k in m :: r[k] == Str(m[k])
  {
    map k | k in m :: Str(m[k])
  }

  /** A map literal of command-line strings, lifted, is the literal of the lifted strings. */
  lemma {:induction false} ZipMapLift(keys: seq<string>, args: seq<string>)
    requires |keys| == |args|
    ensures ZipMap(keys, Strs(args)) == Lift(ZipMap(keys, args))
    decreases |keys|
  {
    if keys != [] {
      var n := |keys| - 1;
      assert Strs(args)[..n] == Strs(args[..n]);
      ZipMapLift(keys[..n], args[..n]);
    }
  }

  /** Lifting commutes with merging two maps. */
  lemma LiftUnion(a: map<string, string>, b: map<string, string>)
    ensures Lift(a + b) == Lift(a) + Lift(b)
  {
  }
}

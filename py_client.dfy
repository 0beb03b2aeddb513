/**
 * The Python client: a class whose methods each call the shared request routine
 * with an endpoint and a dict literal, and the command line that calls one of
 * them by name with string arguments.
 */
module PyClient {
  import opened Wrappers
  import opened Api
  import opened Dict
  import opened Script
  import GoClient

  /** The API methods of the class, in declaration order. */
  const PyBindings: seq<ScriptBinding> :=
    [ Plain("get_sub_domains", "subdomainfinder", ["domain"]),
      Plain("get_phone_info", "phonelookup", ["number"]),
      Plain("get_skype_user_info", "skyperesolver", ["username"]),
      Plain("get_skype_ip_info", "ip2skype", ["ip"]),
      Plain("firewall_resolver", "firewalldetector", ["url"]),
      Plain("port_scanner", "portscanner", ["host"]),
      Plain("check_port", "portscanner", ["host", "port"]),
      Plain("ping", "ping", ["host"]) ] +
    [ Plain("hostname_resolver", "gethostname", ["host"]),
      Plain("dnschecker", "dnschecker", ["url"]),
      ScriptBinding("host_to_ip", "dnsresolver", Params(["host"], [], [("server", Str("US"))])),
      Plain("ip_to_domains", "ip2domains", ["ip"]),
      Plain("alexa_rank", "alexarank", ["url"]),
      Plain("whois_checker", "whois", ["domain"]),
      Plain("screenshot_tool", "createscreenshot", ["url"]),
      Plain("geo_ip", "geoip", ["host"]) ] +
    [ Plain("website_up_or_down_checker", "upordown", ["host"]),
      Plain("site_reputation_checker", "reputationchecker", ["url"]),
      Plain("get_website_headers", "getheaders", ["host"]),
      Plain("link_backup", "linkbackup", ["url"]),
      Plain("url_shortener", "urlshortener", ["url"]),
      Plain("random_string_picker", "randomstringpicker", ["textfile"]),
      Plain("dictionary", "dictionary", ["word"]),
      Plain("image_reverse", "definepicture", ["url"]) ] +
    [ Plain("synonym_finder", "synonym", ["word"]),
      Plain("email_validator", "emailvalidator", ["email"]),
      Plain("disposable_mail_check", "disposablemailchecker", ["email"]),
      Plain("ip_validator", "ipvalidator", ["ip"]),
      Plain("tor_checker", "torchecker", ["ip"]),
      Plain("translator", "translate", ["text", "tolanguage"]),
      ScriptBinding("random_info_generator", "randomperson", Params(["gender"], [Str("all")], [])),
      Plain("youtube_video_details", "youtubedetails", ["videoid"]) ] +
    [ Plain("youtube_to_mp3", "youtubemp3", ["videoid"]),
      ScriptBinding("ip_logger", "iplogger", Params(["action"], [Str("viewloggers")], [])),
      Plain("bitcoin_balance", "bitcoinbalance", ["address"]),
      Plain("ethereum_balance", "ethereumbalance", ["address"]),
      Plain("currency_converter", "currency", ["amount", "from", "to"]),
      Plain("currency_rates", "currencyrates", ["source"]),
      ScriptBinding("weather_checker", "weather", Params(["location", "unit"], [Str("C")], [])),
      ScriptBinding("qr_code_generator", "qrgenerator", Params(["string", "size"], [Int(150)], [])) ] +
    [ Plain("text_parser", "textparser", ["url"]),
      Plain("proxy_detector", "proxydetector", ["ip"]),
      Plain("password_generator", "passwordgenerator", ["length", "include", "customlist"]),
      ScriptBinding("random_number_generator", "randomnumber", SkipNil(["length", "between"], [Nil, Nil])),
      ScriptBinding("license_key_generator", "licensekeygenerator", Params(["template", "amount"], [Int(1)], [])),
      Plain("either_or", "eitheror", []),
      Plain("gif_finder", "gif", ["keyword"]) ]

  /** An index decided by the length and two characters of a method name. */
  ghost function PyNameIndex(name: string): int {
    if |name| < 4 then -1
    else if |name| == 15 && name[0] == 'g' && name[12] == 'i' then 0
    else if |name| == 14 && name[0] == 'g' && name[11] == 'n' then 1
    else if |name| == 19 && name[0] == 'g' && name[16] == 'n' then 2
    else if |name| == 17 && name[0] == 'g' && name[14] == 'n' then 3
    else if |name| == 17 && name[0] == 'f' && name[14] == 'v' then 4
    else if |name| == 12 && name[0] == 'p' && name[9] == 'n' then 5
    else if |name| == 10 && name[0] == 'c' && name[7] == 'o' then 6
    else if |name| == 4 && name[0] == 'p' && name[1] == 'i' then 7
    else if |name| == 17 && name[0] == 'h' && name[14] == 'v' then 8
    else if |name| == 10 && name[0] == 'd' && name[7] == 'k' then 9
    else if |name| == 10 && name[0] == 'h' && name[7] == '_' then 10
    else if |name| == 13 && name[0] == 'i' && name[10] == 'i' then 11
    else if |name| == 10 && name[0] == 'a' && name[7] == 'a' then 12
    else if |name| == 13 && name[0] == 'w' && name[10] == 'k' then 13
    else if |name| == 15 && name[0] == 's' && name[12] == 'o' then 14
    else if |name| == 6 && name[0] == 'g' && name[3] == '_' then 15
    else if |name| == 26 && name[0] == 'w' && name[23] == 'k' then 16
    else if |name| == 23 && name[0] == 's' && name[20] == 'k' then 17
    else if |name| == 19 && name[0] == 'g' && name[16] == 'e' then 18
    else if |name| == 11 && name[0] == 'l' && name[8] == 'k' then 19
    else if |name| == 13 && name[0] == 'u' && name[10] == 'n' then 20
    else if |name| == 20 && name[0] == 'r' && name[17] == 'k' then 21
    else if |name| == 10 && name[0] == 'd' && name[7] == 'a' then 22
    else if |name| == 13 && name[0] == 'i' && name[10] == 'r' then 23
    else if |name| == 14 && name[0] == 's' && name[11] == 'd' then 24
    else if |name| == 15 && name[0] == 'e' && name[12] == 't' then 25
    else if |name| == 21 && name[0] == 'd' && name[18] == 'e' then 26
    else if |name| == 12 && name[0] == 'i' && name[9] == 't' then 27
    else if |name| == 11 && name[0] == 't' && name[8] == 'k' then 28
    else if |name| == 10 && name[0] == 't' && name[7] == 't' then 29
    else if |name| == 21 && name[0] == 'r' && name[18] == 't' then 30
    else if |name| == 21 && name[0] == 'y' && name[18] == 'i' then 31
    else if |name| == 14 && name[0] == 'y' && name[11] == 'm' then 32
    else if |name| == 9 && name[0] == 'i' && name[6] == 'g' then 33
    else if |name| == 15 && name[0] == 'b' && name[12] == 'n' then 34
    else if |name| == 16 && name[0] == 'e' && name[13] == 'n' then 35
    else if |name| == 18 && name[0] == 'c' && name[15] == 't' then 36
    else if |name| == 14 && name[0] == 'c' && name[11] == 't' then 37
    else if |name| == 15 && name[0] == 'w' && name[12] == 'k' then 38
    else if |name| == 17 && name[0] == 'q' && name[14] == 't' then 39
    else if |name| == 11 && name[0] == 't' && name[8] == 's' then 40
    else if |name| == 14 && name[0] == 'p' && name[11] == 't' then 41
    else if |name| == 18 && name[0] == 'p' && name[15] == 't' then 42
    else if |name| == 23 && name[0] == 'r' && name[20] == 't' then 43
    else if |name| == 21 && name[0] == 'l' && name[18] == 't' then 44
    else if |name| == 9 && name[0] == 'e' && name[6] == '_' then 45
    else if |name| == 10 && name[0] == 'g' && name[7] == 'd' then 46
    else -1
  }

  /** Each method name decides its own index. */
  lemma PyNameIndexAt(i: int)
    requires 0 <= i < |PyBindings|
    ensures PyNameIndex(PyBindings[i].name) == i
  {
    if i < 8 { PyNameIndexAtInBlock0(i); }
    else if i < 16 { PyNameIndexAtInBlock1(i); }
    else if i < 24 { PyNameIndexAtInBlock2(i); }
    else if i < 32 { PyNameIndexAtInBlock3(i); }
    else if i < 40 { PyNameIndexAtInBlock4(i); }
    else { PyNameIndexAtInBlock5(i); }
  }

  // The cases are split into groups of a few entries so that each proof stays
  // within the solver's resource limit.
  lemma PyNameIndexAtInBlock0(i: int)
    requires 0 <= i < 8
    ensures PyNameIndex(PyBindings[i].name) == i
  {
    if i == 0 { }
    else if i == 1 { }
    else if i == 2 { }
    else if i == 3 { }
    else if i == 4 { }
    else if i == 5 { }
    else if i == 6 { }
    else if i == 7 { }
  }

  lemma PyNameIndexAtInBlock1(i: int)
    requires 8 <= i < 16
    ensures PyNameIndex(PyBindings[i].name) == i
  {
    if i == 8 { }
    else if i == 9 { }
    else if i == 10 { }
    else if i == 11 { }
    else if i == 12 { }
    else if i == 13 { }
    else if i == 14 { }
    else if i == 15 { }
  }

  lemma PyNameIndexAtInBlock2(i: int)
    requires 16 <= i < 24
    ensures PyNameIndex(PyBindings[i].name) == i
  {
    if i == 16 { }
    else if i == 17 { }
    else if i == 18 { }
    else if i == 19 { }
    else if i == 20 { }
    else if i == 21 { }
    else if i == 22 { }
    else if i == 23 { }
  }

  lemma PyNameIndexAtInBlock3(i: int)
    requires 24 <= i < 32
    ensures PyNameIndex(PyBindings[i].name) == i
  {
    if i == 24 { }
    else if i == 25 { }
    else if i == 26 { }
    else if i == 27 { }
    else if i == 28 { }
    else if i == 29 { }
    else if i == 30 { }
    else if i == 31 { }
  }

  lemma PyNameIndexAtInBlock4(i: int)
    requires 32 <= i < 40
    ensures PyNameIndex(PyBindings[i].name) == i
  {
    if i == 32 { }
    else if i == 33 { }
    else if i == 34 { }
    else if i == 35 { }
    else if i == 36 { }
    else if i == 37 { }
    else if i == 38 { }
    else if i == 39 { }
  }

  lemma PyNameIndexAtInBlock5(i: int)
    requires 40 <= i < 47
    ensures PyNameIndex(PyBindings[i].name) == i
  {
    if i == 40 { }
    else if i == 41 { }
    else if i == 42 { }
    else if i == 43 { }
    else if i == 44 { }
    else if i == 45 { }
    else if i == 46 { }
  }

  /** No two API methods share a name. */
  lemma PyNamesDistinct()
    ensures forall i, j | 0 <= i < j < |PyBindings| :: PyBindings[i].name != PyBindings[j].name
  {
    forall i, j | 0 <= i < j < |PyBindings|
      ensures PyBindings[i].name != PyBindings[j].name
    {
      PyNameIndexAt(i);
      PyNameIndexAt(j);
    }
  }

  /** Looking a method up by its own name finds it. */
  lemma FindPyBinding(i: int)
    requires 0 <= i < |PyBindings|
    ensures FindScript(PyBindings, PyBindings[i].name) == Some(PyBindings[i])
  {
    PyNamesDistinct();
    FindScriptFirst(PyBindings, PyBindings[i].name, i);
  }

  /** A Python binding and a Go binding that send the same request. */
  predicate MatchesGo(g: GoClient.Binding, p: ScriptBinding) {
    && p.endpoint == g.endpoint
    && p.sig.keys == g.translation.keys
    && (g.translation.Positional? <==> p.sig.Params?)
    && (p.sig.Params? ==> ToMap(p.sig.constants) == Lift(g.translation.constants))
  }

  /** The i-th Python method is the i-th Go binding: same endpoint, same keys, same constants. */
  lemma MatchesGoAt(i: int)
    requires 0 <= i < |PyBindings|
    ensures |GoClient.Bindings| == |PyBindings| && MatchesGo(GoClient.Bindings[i], PyBindings[i])
  {
    if i < 4 { MatchesGoAtInBlock0(i); }
    else if i < 8 { MatchesGoAtInBlock1(i); }
    else if i < 12 { MatchesGoAtInBlock2(i); }
    else if i < 16 { MatchesGoAtInBlock3(i); }
    else if i < 20 { MatchesGoAtInBlock4(i); }
    else if i < 24 { MatchesGoAtInBlock5(i); }
    else if i < 28 { MatchesGoAtInBlock6(i); }
    else if i < 32 { MatchesGoAtInBlock7(i); }
    else if i < 36 { MatchesGoAtInBlock8(i); }
    else if i < 40 { MatchesGoAtInBlock9(i); }
    else if i < 44 { MatchesGoAtInBlock10(i); }
    else { MatchesGoAtInBlock11(i); }
  }

  // The cases are split into groups of a few entries so that each proof stays
  // within the solver's resource limit.
  lemma MatchesGoAtInBlock0(i: int)
    requires 0 <= i < 4
    ensures |GoClient.Bindings| == |PyBindings| && MatchesGo(GoClient.Bindings[i], PyBindings[i])
  {
    if i == 0 { }
    else if i == 1 { }
    else if i == 2 { }
    else if i == 3 { }
  }

  lemma MatchesGoAtInBlock1(i: int)
    requires 4 <= i < 8
    ensures |GoClient.Bindings| == |PyBindings| && MatchesGo(GoClient.Bindings[i], PyBindings[i])
  {
    if i == 4 { }
    else if i == 5 { }
    else if i == 6 { }
    else if i == 7 { }
  }

  lemma MatchesGoAtInBlock2(i: int)
    requires 8 <= i < 12
    ensures |GoClient.Bindings| == |PyBindings| && MatchesGo(GoClient.Bindings[i], PyBindings[i])
  {
    if i == 8 { }
    else if i == 9 { }
    else if i == 10 { }
    else if i == 11 { }
  }

  lemma MatchesGoAtInBlock3(i: int)
    requires 12 <= i < 16
    ensures |GoClient.Bindings| == |PyBindings| && MatchesGo(GoClient.Bindings[i], PyBindings[i])
  {
    if i == 12 { }
    else if i == 13 { }
    else if i == 14 { }
    else if i == 15 { }
  }

  lemma MatchesGoAtInBlock4(i: int)
    requires 16 <= i < 20
    ensures |GoClient.Bindings| == |PyBindings| && MatchesGo(GoClient.Bindings[i], PyBindings[i])
  {
    if i == 16 { }
    else if i == 17 { }
    else if i == 18 { }
    else if i == 19 { }
  }

  lemma MatchesGoAtInBlock5(i: int)
    requires 20 <= i < 24
    ensures |GoClient.Bindings| == |PyBindings| && MatchesGo(GoClient.Bindings[i], PyBindings[i])
  {
    if i == 20 { }
    else if i == 21 { }
    else if i == 22 { }
    else if i == 23 { }
  }

  lemma MatchesGoAtInBlock6(i: int)
    requires 24 <= i < 28
    ensures |GoClient.Bindings| == |PyBindings| && MatchesGo(GoClient.Bindings[i], PyBindings[i])
  {
    if i == 24 { }
    else if i == 25 { }
    else if i == 26 { }
    else if i == 27 { }
  }

  lemma MatchesGoAtInBlock7(i: int)
    requires 28 <= i < 32
    ensures |GoClient.Bindings| == |PyBindings| && MatchesGo(GoClient.Bindings[i], PyBindings[i])
  {
    if i == 28 { }
    else if i == 29 { }
    else if i == 30 { }
    else if i == 31 { }
  }

  lemma MatchesGoAtInBlock8(i: int)
    requires 32 <= i < 36
    ensures |GoClient.Bindings| == |PyBindings| && MatchesGo(GoClient.Bindings[i], PyBindings[i])
  {
    if i == 32 { }
    else if i == 33 { }
    else if i == 34 { }
    else if i == 35 { }
  }

  lemma MatchesGoAtInBlock9(i: int)
    requires 36 <= i < 40
    ensures |GoClient.Bindings| == |PyBindings| && MatchesGo(GoClient.Bindings[i], PyBindings[i])
  {
    if i == 36 { }
    else if i == 37 { }
    else if i == 38 { }
    else if i == 39 { }
  }

  lemma MatchesGoAtInBlock10(i: int)
    requires 40 <= i < 44
    ensures |GoClient.Bindings| == |PyBindings| && MatchesGo(GoClient.Bindings[i], PyBindings[i])
  {
    if i == 40 { }
    else if i == 41 { }
    else if i == 42 { }
    else if i == 43 { }
  }

  lemma MatchesGoAtInBlock11(i: int)
    requires 44 <= i < 47
    ensures |GoClient.Bindings| == |PyBindings| && MatchesGo(GoClient.Bindings[i], PyBindings[i])
  {
    if i == 44 { }
    else if i == 45 { }
    else if i == 46 { }
  }

  /** How calling a method by name ends before any request is built. */
  datatype PyCall =
    | NoSuchMethod(name: string)    // the class has no such method
    | TypeError(name: string)       // too few or too many arguments for the signature
    | Call(target: Target)

  /** A call by name: lookup, Python's argument binding, then the method's query. */
  function PyDispatch(name: string, args: seq<Value>): PyCall {
    match FindScript(PyBindings, name)
    case None => NoSuchMethod(name)
    case Some(b) =>
      if |args| < b.sig.Required() || b.sig.Arity() < |args| then TypeError(name)
      else Call(Target(b.endpoint, Build(b.sig, Fill(b.sig, args))))
  }

  /** A name reaches no method exactly when no API method carries it. */
  lemma PyDispatchUnknown(name: string, args: seq<Value>)
    ensures PyDispatch(name, args) == NoSuchMethod(name) <==> forall i | 0 <= i < |PyBindings| :: PyBindings[i].name != name
  {
  }

  /**
   * A method accepts from its required count up to its parameter count of
   * arguments, and anything else is a TypeError; the parameters left out take
   * their defaults.
   */
  lemma PyDispatchAt(i: int, args: seq<Value>)
    requires 0 <= i < |PyBindings|
    ensures PyDispatch(PyBindings[i].name, args).TypeError? <==>
      |args| < PyBindings[i].sig.Required() || PyBindings[i].sig.Arity() < |args|
    ensures PyBindings[i].sig.Required() <= |args| <= PyBindings[i].sig.Arity() ==>
      PyDispatch(PyBindings[i].name, args)
        == Call(Target(PyBindings[i].endpoint, Build(PyBindings[i].sig, Fill(PyBindings[i].sig, args))))
  {
    FindPyBinding(i);
  }

  /** Method i, whose signature is `sig`, sends `params` when called with `args`. */
  lemma PySendsAs(i: int, args: seq<Value>, endpoint: string, sig: Signature, params: Dict<Value>)
    requires 0 <= i < |PyBindings| && PyBindings[i].endpoint == endpoint && PyBindings[i].sig == sig
    requires sig.Required() <= |args| <= sig.Arity() && Build(sig, Fill(sig, args)) == params
    ensures PyDispatch(PyBindings[i].name, args) == Call(Target(endpoint, params))
  {
    PyDispatchAt(i, args);
  }

  /**
   * Called from the command line with one string per parameter, a positional
   * method sends, order aside, what the Go binding of the same index sends.
   */
  lemma SendsWhatGoSends(i: int, args: seq<string>)
    requires 0 <= i < |PyBindings| && |args| == PyBindings[i].sig.Arity() && PyBindings[i].sig.Params?
    ensures |GoClient.Bindings| == |PyBindings| && |args| == GoClient.Bindings[i].translation.Arity()
    ensures PyDispatch(PyBindings[i].name, Strs(args)).Call?
    ensures ToMap(PyDispatch(PyBindings[i].name, Strs(args)).target.params)
      == Lift(GoClient.Query(GoClient.Bindings[i].translation, args))
  {
    var sig := PyBindings[i].sig;
    MatchesGoAt(i);
    PyDispatchAt(i, Strs(args));
    assert Fill(sig, Strs(args)) == Strs(args);
    BuildView(sig, Strs(args));
    ZipMapLift(sig.keys, args);
    LiftUnion(ZipMap(sig.keys, args), GoClient.Bindings[i].translation.constants);
  }

  /**
   * random_number_generator sends a key exactly when its value is not None, in
   * parameter order; so an empty string is sent, where the Go client leaves it out.
   */
  lemma RandomNumberGeneratorQuery(length: Value, between: Value)
    ensures PyBindings[43] == ScriptBinding("random_number_generator", "randomnumber", RandomNumberSig)
    ensures PyDispatch("random_number_generator", [length, between])
      == Call(Target("randomnumber", Build(RandomNumberSig, [length, between])))
    ensures Build(RandomNumberSig, [length, between])
      == (if length != Nil then [("length", length)] else []) + (if between != Nil then [("between", between)] else [])
  {
    PySendsAs(43, [length, between], "randomnumber", RandomNumberSig, Build(RandomNumberSig, [length, between]));
    RandomNumberQuery(length, between);
  }

  /** With no arguments, random_number_generator sends no method-specific key. */
  lemma RandomNumberGeneratorNoArguments()
    ensures PyDispatch("random_number_generator", []) == Call(Target("randomnumber", []))
  {
    PySendsAs(43, [], "randomnumber", RandomNumberSig, []);
  }

  /** With only a length, random_number_generator sends that length alone: between defaults to None. */
  lemma RandomNumberGeneratorLengthOnly(length: Value)
    requires length != Nil
    ensures PyDispatch("random_number_generator", [length]) == Call(Target("randomnumber", [("length", length)]))
  {
    assert Fill(RandomNumberSig, [length]) == [length, Nil];
    RandomNumberQuery(length, Nil);
    PySendsAs(43, [length], "randomnumber", RandomNumberSig, [("length", length)]);
  }

  /** Empty strings from the command line are sent by Python and left out by Go. */
  lemma RandomNumberGeneratorEmptyStrings()
    ensures PyDispatch("random_number_generator", Strs(["", ""]))
      == Call(Target("randomnumber", [("length", Str("")), ("between", Str(""))]))
    ensures GoClient.Dispatch("RandomNumberGenerator", ["", ""]) == GoClient.Call(GoClient.Target("randomnumber", map[]))
  {
    assert Strs(["", ""]) == [Str(""), Str("")];
    RandomNumberQuery(Str(""), Str(""));
    PySendsAs(43, [Str(""), Str("")], "randomnumber", RandomNumberSig, [("length", Str("")), ("between", Str(""))]);
    GoClient.RandomNumberGeneratorBothEmpty("");
  }

  /** random_info_generator sends gender "all" when called without arguments. */
  lemma RandomInfoGeneratorDefault()
    ensures PyDispatch("random_info_generator", []) == Call(Target("randomperson", [("gender", Str("all"))]))
  {
    var sig := Params(["gender"], [Str("all")], []);
    assert Fill(sig, []) == [Str("all")];
    PySendsAs(30, [], "randomperson", sig, [("gender", Str("all"))]);
  }

  /** ip_logger sends action "viewloggers" when called without arguments. */
  lemma IpLoggerDefault()
    ensures PyDispatch("ip_logger", []) == Call(Target("iplogger", [("action", Str("viewloggers"))]))
  {
    var sig := Params(["action"], [Str("viewloggers")], []);
    assert Fill(sig, []) == [Str("viewloggers")];
    PySendsAs(33, [], "iplogger", sig, [("action", Str("viewloggers"))]);
  }

  /** weather_checker sends unit "C" when only the location is given. */
  lemma WeatherCheckerDefault(location: Value)
    ensures PyDispatch("weather_checker", [location]) == Call(Target("weather", [("location", location), ("unit", Str("C"))]))
  {
    var sig := Params(["location", "unit"], [Str("C")], []);
    assert Fill(sig, [location]) == [location, Str("C")];
    PySendsAs(38, [location], "weather", sig, [("location", location), ("unit", Str("C"))]);
  }

  /** qr_code_generator sends size 150, an integer, when only the string is given. */
  lemma QrCodeGeneratorDefault(str: Value)
    ensures PyDispatch("qr_code_generator", [str]) == Call(Target("qrgenerator", [("string", str), ("size", Int(150))]))
  {
    var sig := Params(["string", "size"], [Int(150)], []);
    assert Fill(sig, [str]) == [str, Int(150)];
    PySendsAs(39, [str], "qrgenerator", sig, [("string", str), ("size", Int(150))]);
  }

  /** license_key_generator sends amount 1, an integer, when only the template is given. */
  lemma LicenseKeyGeneratorDefault(template: Value)
    ensures PyDispatch("license_key_generator", [template])
      == Call(Target("licensekeygenerator", [("template", template), ("amount", Int(1))]))
  {
    var sig := Params(["template", "amount"], [Int(1)], []);
    assert Fill(sig, [template]) == [template, Int(1)];
    PySendsAs(44, [template], "licensekeygenerator", sig, [("template", template), ("amount", Int(1))]);
  }

  /** get_sub_domains sends its subdomain argument as "domain". */
  lemma GetSubDomainsSendsDomain(subdomain: Value)
    ensures PyDispatch("get_sub_domains", [subdomain]) == Call(Target("subdomainfinder", [("domain", subdomain)]))
  {
    PySendsAs(0, [subdomain], "subdomainfinder", Params(["domain"], [], []), [("domain", subdomain)]);
  }

  /** host_to_ip sends the host and then server "US". */
  lemma HostToIpAddsServer(host: Value)
    ensures PyDispatch("host_to_ip", [host]) == Call(Target("dnsresolver", [("host", host), ("server", Str("US"))]))
  {
    var sig := Params(["host"], [], [("server", Str("US"))]);
    PySendsAs(10, [host], "dnsresolver", sig, [("host", host), ("server", Str("US"))]);
  }

  /** currency_converter sends its currencies as "from" and "to". */
  lemma CurrencyConverterKeys(amount: Value, fromCurrency: Value, toCurrency: Value)
    ensures PyDispatch("currency_converter", [amount, fromCurrency, toCurrency])
      == Call(Target("currency", [("amount", amount), ("from", fromCurrency), ("to", toCurrency)]))
  {
    var sig := Params(["amount", "from", "to"], [], []);
    PySendsAs(36, [amount, fromCurrency, toCurrency], "currency", sig, [("amount", amount), ("from", fromCurrency), ("to", toCurrency)]);
  }

  /** either_or takes no argument and sends no method-specific key; any argument is a TypeError. */
  lemma EitherOrSendsNothing(args: seq<Value>)
    ensures args == [] ==> PyDispatch("either_or", args) == Call(Target("eitheror", []))
    ensures args != [] ==> PyDispatch("either_or", args) == TypeError("either_or")
  {
    PyDispatchAt(45, args);
    assert PyBindings[45] == Plain("either_or", "eitheror", []);
  }

  /** A dict the caller builds and the request routine writes into. */
  class PyDict {
    var entries: Dict<Value>

    constructor (entries: Dict<Value>)
      ensures this.entries == entries
    {
      this.entries := entries;
    }
  }

  /** The GET that goes out: the URL, and the query in dict order. */
  datatype PyRequest = PyRequest(url: string, params: Dict<Value>)

  /** The client: its API key and base URL, and the requests it has sent. */
  class C99 {
    var key: Value
    var baseUrl: string
    /** Every request sent so far, oldest first. */
    ghost var sent: seq<PyRequest>

    constructor (apikey: Value)
      ensures key == apikey && baseUrl == BaseUrl && sent == []
    {
      key := apikey;
      baseUrl := BaseUrl;
      sent := [];
    }

    /**
     * The shared request routine: sets "key" and then "json" in the caller's
     * dict, which the caller sees afterwards, and sends one GET to the base URL
     * followed by the endpoint.
     */
    method MakeRequest<J>(endpoint: string, params: PyDict, fetch: PyRequest -> Fetch, decode: string -> Result<J, string>)
      returns (r: Result<J, CallError>)
      modifies this`sent, params
      ensures params.entries == SetKeyAndFlag(old(params.entries), key, Str(JsonFlag))
      ensures sent == old(sent) + [PyRequest(baseUrl + endpoint, params.entries)]
      ensures r == Execute(PyRequest(baseUrl + endpoint, params.entries), fetch, decode)
    {
      params.entries := Put(params.entries, KeyName, key);
      params.entries := Put(params.entries, JsonName, Str(JsonFlag));
      var url := baseUrl + endpoint;
      var req := PyRequest(url, params.entries);
      sent := sent + [req];
      r := Execute(req, fetch, decode);
    }

    /** random_number_generator: the dict starts empty and each value that is not None is added. */
    method RandomNumberGenerator<J>(length: Value, between: Value, fetch: PyRequest -> Fetch, decode: string -> Result<J, string>)
      returns (r: Result<J, CallError>)
      modifies this`sent
      ensures sent == old(sent) + [PyRequest(baseUrl + "randomnumber",
                                             SetKeyAndFlag(Build(RandomNumberSig, [length, between]), key, Str(JsonFlag)))]
      ensures r == Execute(sent[|sent| - 1], fetch, decode)
    {
      var params := new PyDict([]);
      if length != Nil {
        params.entries := Put(params.entries, "length", length);
      }
      if between != Nil {
        params.entries := Put(params.entries, "between", between);
      }
      RandomNumberQuery(length, between);
      r := MakeRequest("randomnumber", params, fetch, decode);
    }
  }

  /** One run, from the method name on, as a function of the key, the arguments and the network. */
  function Invoke<J>(key: Value, name: string, args: seq<string>, fetch: PyRequest -> Fetch, decode: string -> Result<J, string>)
    : Outcome<PyCall, J>
  {
    match PyDispatch(name, Strs(args))
    case Call(t) =>
      (match Execute(PyRequest(BaseUrl + t.endpoint, SetKeyAndFlag(t.params, key, Str(JsonFlag))), fetch, decode)
       case Ok(v) => Succeeded(v)
       case Err(e) => Failed(e))
    case _ => NoRequest(PyDispatch(name, Strs(args)))
  }

  /**
   * `main` after the arguments are parsed: the named method is called with the
   * command-line strings; nothing is sent unless its arguments bind.
   */
  method Run<J>(c: C99, name: string, args: seq<string>, fetch: PyRequest -> Fetch, decode: string -> Result<J, string>)
    returns (o: Outcome<PyCall, J>)
    requires c.baseUrl == BaseUrl
    modifies c`sent
    ensures o == Invoke(c.key, name, args, fetch, decode)
    ensures o.NoRequest? ==> c.sent == old(c.sent)
    ensures !o.NoRequest? ==>
      var t := PyDispatch(name, Strs(args)).target;
      c.sent == old(c.sent) + [PyRequest(BaseUrl + t.endpoint, SetKeyAndFlag(t.params, c.key, Str(JsonFlag)))]
  {
    var d := PyDispatch(name, Strs(args));
    if !d.Call? {
      return NoRequest(d);
    }
    var params := new PyDict(d.target.params);
    var r := c.MakeRequest(d.target.endpoint, params, fetch, decode);
    o := if r.Ok? then Succeeded(r.value) else Failed(r.error);
  }
}

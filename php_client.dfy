/**
 * The PHP client: a library class whose public methods each call the private
 * request routine with an endpoint and an array literal. PHP arrays are values,
 * so the routine writes into its own copy; the query string is built from that
 * copy and appended to the URL.
 */
module PhpClient {
  import opened Wrappers
  import opened Api
  import opened Dict
  import opened Script
  import PyClient

  /** The public API methods of the class, in declaration order. */
  const PhpBindings: seq<ScriptBinding> :=
    [ Plain("get_sub_domains", "subdomainfinder", ["domain"]),
      Plain("get_phone_info", "phonelookup", ["number"]),
      Plain("get_skype_user_info", "skyperesolver", ["username"]),
      Plain("get_skype_ip_info", "ip2skype", ["ip"]),
      Plain("firewall_resolver", "firewalldetector", ["url"]),
      Plain("port_scanner", "portscanner", ["host"]),
      Plain("check_port", "portscanner", ["host", "port"]),
      Plain("ping", "ping", ["host"]) ] +
    [ Plain("hostname_resolver", "gethostname", ["host"]),
      Plain("dnschecker", "dnschecker", ["url"]),
      ScriptBinding("host_to_ip", "dnsresolver", Params(["host"], [], [("server", Str("US"))])),
      Plain("ip_to_domains", "ip2domains", ["ip"]),
      Plain("alexa_rank", "alexarank", ["url"]),
      Plain("whois_checker", "whois", ["domain"]),
      Plain("screenshot_tool", "createscreenshot", ["url"]),
      Plain("geo_ip", "geoip", ["host"]) ] +
    [ Plain("website_up_or_down_checker", "upordown", ["host"]),
      Plain("site_reputation_checker", "reputationchecker", ["url"]),
      Plain("get_website_headers", "getheaders", ["host"]),
      Plain("link_backup", "linkbackup", ["url"]),
      Plain("url_shortener", "urlshortener", ["url"]),
      Plain("random_string_picker", "randomstringpicker", ["textfile"]),
      Plain("dictionary", "dictionary", ["word"]),
      Plain("image_reverse", "definepicture", ["url"]) ] +
    [ Plain("synonym_finder", "synonym", ["word"]),
      Plain("email_validator", "emailvalidator", ["email"]),
      Plain("disposable_mail_check", "disposablemailchecker", ["email"]),
      Plain("ip_validator", "ipvalidator", ["ip"]),
      Plain("tor_checker", "torchecker", ["ip"]),
      Plain("translator", "translate", ["text", "tolanguage"]),
      ScriptBinding("random_info_generator", "randomperson", Params(["gender"], [Str("all")], [])),
      Plain("youtube_video_details", "youtubedetails", ["videoid"]) ] +
    [ Plain("youtube_to_mp3", "youtubemp3", ["videoid"]),
      ScriptBinding("ip_logger", "iplogger", Params(["action"], [Str("viewloggers")], [])),
      Plain("bitcoin_balance", "bitcoinbalance", ["address"]),
      Plain("ethereum_balance", "ethereumbalance", ["address"]),
      Plain("currency_converter", "currency", ["amount", "from", "to"]),
      Plain("currency_rates", "currencyrates", ["source"]),
      ScriptBinding("weather_checker", "weather", Params(["location", "unit"], [Str("C")], [])),
      ScriptBinding("qr_code_generator", "qrgenerator", Params(["string", "size"], [Int(150)], [])) ] +
    [ Plain("text_parser", "textparser", ["url"]),
      Plain("proxy_detector", "proxydetector", ["ip"]),
      Plain("password_generator", "passwordgenerator", ["length", "include", "customlist"]),
      ScriptBinding("random_number_generator", "randomnumber", SkipNil(["length", "between"], [Nil, Nil])),
      ScriptBinding("license_key_generator", "licensekeygenerator", Params(["template", "amount"], [Int(1)], [])),
      Plain("either_or", "eitheror", []),
      Plain("gif_finder", "gif", ["keyword"]) ]

  /** The PHP class declares the same methods, endpoints, keys and defaults as the Python class. */
  lemma SameMethodsAsPython()
    ensures PhpBindings == PyClient.PyBindings
  {
  }

  /** No character of s is an ASCII capital letter. */
  predicate NoUpper(s: string) {
    forall i | 0 <= i < |s| :: !('A' <= s[i] <= 'Z')
  }

  /** ASCII lower-casing of one character. */
  function LowerChar(c: char): char {
    if 'A' <= c <= 'Z' then (c as int - 'A' as int + 'a' as int) as char else c
  }

  /**
   * ASCII lower-casing, as PHP folds method names: 'A' to 'Z' become 'a' to 'z'
   * and every other character stays. No capital is left, and a name without
   * capitals is its own folding.
   */
  function Lower(s: string): (r: string)
    ensures |r| == |s| && NoUpper(r)
    ensures NoUpper(s) ==> r == s
    ensures forall i | 0 <= i < |s| :: 'a' <= s[i] <= 'z' ==> r[i] == s[i]
  {
    seq(|s|, i requires 0 <= i < |s| => LowerChar(s[i]))
  }

  /** The class declares every method name in lower case. */
  lemma MethodNamesLowerCase()
    ensures forall i | 0 <= i < |PhpBindings| :: NoUpper(PhpBindings[i].name)
  {
    forall i | 0 <= i < |PhpBindings|
      ensures NoUpper(PhpBindings[i].name)
    {
      MethodNameLowerCaseAt(i);
    }
  }

  lemma MethodNameLowerCaseAt(i: int)
    requires 0 <= i < |PhpBindings|
    ensures NoUpper(PhpBindings[i].name)
  {
    if i < 4 { MethodNameLowerCaseAtInBlock0(i); }
    else if i < 8 { MethodNameLowerCaseAtInBlock1(i); }
    else if i < 12 { MethodNameLowerCaseAtInBlock2(i); }
    else if i < 16 { MethodNameLowerCaseAtInBlock3(i); }
    else if i < 20 { MethodNameLowerCaseAtInBlock4(i); }
    else if i < 24 { MethodNameLowerCaseAtInBlock5(i); }
    else if i < 28 { MethodNameLowerCaseAtInBlock6(i); }
    else if i < 32 { MethodNameLowerCaseAtInBlock7(i); }
    else if i < 36 { MethodNameLowerCaseAtInBlock8(i); }
    else if i < 40 { MethodNameLowerCaseAtInBlock9(i); }
    else if i < 44 { MethodNameLowerCaseAtInBlock10(i); }
    else { MethodNameLowerCaseAtInBlock11(i); }
  }

  // The cases are split into groups of a few entries so that each proof stays
  // within the solver's resource limit.
  lemma MethodNameLowerCaseAtInBlock0(i: int)
    requires 0 <= i < 4
    ensures NoUpper(PhpBindings[i].name)
  {
    if i == 0 { }
    else if i == 1 { }
    else if i == 2 { }
    else if i == 3 { }
  }

  lemma MethodNameLowerCaseAtInBlock1(i: int)
    requires 4 <= i < 8
    ensures NoUpper(PhpBindings[i].name)
  {
    if i == 4 { }
    else if i == 5 { }
    else if i == 6 { }
    else if i == 7 { }
  }

  lemma MethodNameLowerCaseAtInBlock2(i: int)
    requires 8 <= i < 12
    ensures NoUpper(PhpBindings[i].name)
  {
    if i == 8 { }
    else if i == 9 { }
    else if i == 10 { }
    else if i == 11 { }
  }

  lemma MethodNameLowerCaseAtInBlock3(i: int)
    requires 12 <= i < 16
    ensures NoUpper(PhpBindings[i].name)
  {
    if i == 12 { }
    else if i == 13 { }
    else if i == 14 { }
    else if i == 15 { }
  }

  lemma MethodNameLowerCaseAtInBlock4(i: int)
    requires 16 <= i < 20
    ensures NoUpper(PhpBindings[i].name)
  {
    if i == 16 { }
    else if i == 17 { }
    else if i == 18 { }
    else if i == 19 { }
  }

  lemma MethodNameLowerCaseAtInBlock5(i: int)
    requires 20 <= i < 24
    ensures NoUpper(PhpBindings[i].name)
  {
    if i == 20 { }
    else if i == 21 { }
    else if i == 22 { }
    else if i == 23 { }
  }

  lemma MethodNameLowerCaseAtInBlock6(i: int)
    requires 24 <= i < 28
    ensures NoUpper(PhpBindings[i].name)
  {
    if i == 24 { }
    else if i == 25 { }
    else if i == 26 { }
    else if i == 27 { }
  }

  lemma MethodNameLowerCaseAtInBlock7(i: int)
    requires 28 <= i < 32
    ensures NoUpper(PhpBindings[i].name)
  {
    if i == 28 { }
    else if i == 29 { }
    else if i == 30 { }
    else if i == 31 { }
  }

  lemma MethodNameLowerCaseAtInBlock8(i: int)
    requires 32 <= i < 36
    ensures NoUpper(PhpBindings[i].name)
  {
    if i == 32 { }
    else if i == 33 { }
    else if i == 34 { }
    else if i == 35 { }
  }

  lemma MethodNameLowerCaseAtInBlock9(i: int)
    requires 36 <= i < 40
    ensures NoUpper(PhpBindings[i].name)
  {
    if i == 36 { }
    else if i == 37 { }
    else if i == 38 { }
    else if i == 39 { }
  }

  lemma MethodNameLowerCaseAtInBlock10(i: int)
    requires 40 <= i < 44
    ensures NoUpper(PhpBindings[i].name)
  {
    if i == 40 { }
    else if i == 41 { }
    else if i == 42 { }
    else if i == 43 { }
  }

  lemma MethodNameLowerCaseAtInBlock11(i: int)
    requires 44 <= i < 47
    ensures NoUpper(PhpBindings[i].name)
  {
    if i == 44 { }
    else if i == 45 { }
    else if i == 46 { }
  }

  /** How calling a method ends before any request is built. */
  datatype PhpCall =
    | UndefinedMethod(name: string)       // the class has no such public method
    | ArgumentCountError(name: string)    // fewer arguments than parameters without a default
    | Call(target: Target)

  /**
   * A call by name: lookup, PHP's argument binding (arguments beyond the
   * parameter list are ignored), then the method's query. PHP matches method
   * names without regard to ASCII case; as the declared names are all lower
   * case, the folded name is looked up.
   */
  function PhpDispatch(name: string, args: seq<Value>): PhpCall {
    match FindScript(PhpBindings, Lower(name))
    case None => UndefinedMethod(name)
    case Some(b) => PhpBind(b, args)
  }

  /** PHP's binding of the arguments to one method's parameters. */
  function PhpBind(b: ScriptBinding, args: seq<Value>): PhpCall {
    if |args| < b.sig.Required() then ArgumentCountError(b.name)
    else
      var bound := if |args| <= b.sig.Arity() then args else args[..b.sig.Arity()];
      Call(Target(b.endpoint, Build(b.sig, Fill(b.sig, bound))))
  }

  /**
   * Where Python binds the arguments PHP builds the same query; where Python
   * raises a TypeError, PHP fails only for too few arguments and otherwise drops
   * the extra ones. Python's lookup is exact, so a name with a capital letter
   * reaches no Python method, while PHP finds the method it folds to.
   */
  lemma AgreesWithPython(name: string, args: seq<Value>)
    ensures NoUpper(name) ==> (PhpDispatch(name, args).UndefinedMethod? <==> PyClient.PyDispatch(name, args).NoSuchMethod?)
    ensures !NoUpper(name) ==> PyClient.PyDispatch(name, args).NoSuchMethod?
    ensures PyClient.PyDispatch(name, args).Call? ==> PhpDispatch(name, args) == Call(PyClient.PyDispatch(name, args).target)
    ensures NoUpper(name) && PhpDispatch(name, args).ArgumentCountError? ==> PyClient.PyDispatch(name, args).TypeError?
  {
    SameMethodsAsPython();
    MethodNamesLowerCase();
    if !NoUpper(name) {
      assert forall i | 0 <= i < |PyClient.PyBindings| :: PyClient.PyBindings[i].name != name;
    }
  }

  /** A call differing only in the case of its letters reaches the same method. */
  lemma IgnoresCase(name: string, other: string, args: seq<Value>)
    requires Lower(name) == Lower(other)
    ensures PhpDispatch(name, args).UndefinedMethod? <==> PhpDispatch(other, args).UndefinedMethod?
    ensures !PhpDispatch(name, args).UndefinedMethod? ==> PhpDispatch(name, args) == PhpDispatch(other, args)
    ensures PhpDispatch(name, args) == PhpDispatch(Lower(name), args) || PhpDispatch(name, args) == UndefinedMethod(name)
  {
  }

  /** ping sends its argument as "host". */
  lemma PhpPing(host: Value)
    ensures PhpDispatch("ping", [host]) == Call(Target("ping", [("host", host)]))
  {
    assert Zip(["host"], [host]) == [("host", host)];
    PyClient.PySendsAs(7, [host], "ping", Params(["host"], [], []), [("host", host)]);
    AgreesWithPython("ping", [host]);
  }

  /** `PING` runs ping(), which Python's exact lookup does not find. */
  lemma PingInCapitals(host: Value)
    ensures PhpDispatch("PING", [host]) == PhpDispatch("ping", [host]) == Call(Target("ping", [("host", host)]))
    ensures PyClient.PyDispatch("PING", [host]).NoSuchMethod?
  {
    FoldPing();
    PhpPing(host);
    AgreesWithPython("PING", [host]);
  }

  /** The folding of `PING` and of `ping`. */
  lemma FoldPing()
    ensures Lower("PING") == "ping" == Lower("ping") && !NoUpper("PING")
  {
    assert "PING"[0] == 'P';
  }

  lemma BindIgnoresExtra(b: ScriptBinding, args: seq<Value>, extra: seq<Value>)
    requires |args| == b.sig.Arity()
    ensures PhpBind(b, args + extra) == PhpBind(b, args)
  {
    if extra == [] {
      assert args + extra == args;
    } else {
      assert (args + extra)[..b.sig.Arity()] == args;
    }
  }

  /** Once every parameter has an argument, further arguments change nothing. */
  lemma IgnoresExtraArguments(name: string, args: seq<Value>, extra: seq<Value>)
    requires FindScript(PhpBindings, Lower(name)).Some? && |args| == FindScript(PhpBindings, Lower(name)).value.sig.Arity()
    ensures PhpDispatch(name, args + extra) == PhpDispatch(name, args)
    ensures PhpDispatch(name, args).Call?
  {
    BindIgnoresExtra(FindScript(PhpBindings, Lower(name)).value, args, extra);
  }

  /** Called without the defaulted arguments, the methods send their defaults. */
  lemma PhpDefaults(location: Value, str: Value, template: Value)
    ensures PhpDispatch("random_info_generator", []) == Call(Target("randomperson", [("gender", Str("all"))]))
    ensures PhpDispatch("ip_logger", []) == Call(Target("iplogger", [("action", Str("viewloggers"))]))
    ensures PhpDispatch("weather_checker", [location]) == Call(Target("weather", [("location", location), ("unit", Str("C"))]))
    ensures PhpDispatch("qr_code_generator", [str]) == Call(Target("qrgenerator", [("string", str), ("size", Int(150))]))
    ensures PhpDispatch("license_key_generator", [template])
      == Call(Target("licensekeygenerator", [("template", template), ("amount", Int(1))]))
  {
    PyClient.RandomInfoGeneratorDefault();
    AgreesWithPython("random_info_generator", []);
    PyClient.IpLoggerDefault();
    AgreesWithPython("ip_logger", []);
    PyClient.WeatherCheckerDefault(location);
    AgreesWithPython("weather_checker", [location]);
    PyClient.QrCodeGeneratorDefault(str);
    AgreesWithPython("qr_code_generator", [str]);
    PyClient.LicenseKeyGeneratorDefault(template);
    AgreesWithPython("license_key_generator", [template]);
  }

  /** The remote keys differ from the parameter names where the Go and Python clients' do. */
  lemma PhpKeyTranslation(subdomain: Value, host: Value, amount: Value, fromCurrency: Value, toCurrency: Value)
    ensures PhpDispatch("get_sub_domains", [subdomain]) == Call(Target("subdomainfinder", [("domain", subdomain)]))
    ensures PhpDispatch("host_to_ip", [host]) == Call(Target("dnsresolver", [("host", host), ("server", Str("US"))]))
    ensures PhpDispatch("currency_converter", [amount, fromCurrency, toCurrency])
      == Call(Target("currency", [("amount", amount), ("from", fromCurrency), ("to", toCurrency)]))
  {
    PyClient.GetSubDomainsSendsDomain(subdomain);
    AgreesWithPython("get_sub_domains", [subdomain]);
    PyClient.HostToIpAddsServer(host);
    AgreesWithPython("host_to_ip", [host]);
    PyClient.CurrencyConverterKeys(amount, fromCurrency, toCurrency);
    AgreesWithPython("currency_converter", [amount, fromCurrency, toCurrency]);
  }

  /** either_or sends no method-specific key, whatever arguments it is given. */
  lemma PhpEitherOr(args: seq<Value>)
    ensures PhpDispatch("either_or", args) == Call(Target("eitheror", []))
  {
    var b := Plain("either_or", "eitheror", []);
    assert FindScript(PhpBindings, Lower("either_or")) == Some(b) by {
      MethodNameLowerCaseAt(45);
      SameMethodsAsPython();
      PyClient.FindPyBinding(45);
      assert PyClient.PyBindings[45] == b;
    }
    assert PhpBind(b, args) == PhpBind(b, []) by {
      BindIgnoresExtra(b, [], args);
      assert [] + args == args;
    }
    assert Zip<Value>([], []) == [];
  }

  /** random_number_generator sends a key exactly when its value is not null, in parameter order. */
  lemma PhpRandomNumberGenerator(length: Value, between: Value)
    ensures PhpDispatch("random_number_generator", []) == Call(Target("randomnumber", []))
    ensures PhpDispatch("random_number_generator", [length, between])
      == Call(Target("randomnumber", (if length != Nil then [("length", length)] else [])
                                     + (if between != Nil then [("between", between)] else [])))
  {
    PyClient.RandomNumberGeneratorNoArguments();
    AgreesWithPython("random_number_generator", []);
    PyClient.RandomNumberGeneratorQuery(length, between);
    AgreesWithPython("random_number_generator", [length, between]);
  }

  /** The GET that goes out: the URL with its query string, and the array that string encodes. */
  datatype PhpRequest = PhpRequest(url: string, params: Dict<Value>)

  /**
   * What a request returns: the decoded body. A failed transfer yields false,
   * which the decoder reads as the empty string, so it returns what an empty
   * body decodes to.
   */
  function PhpExecute<J>(url: string, fetch: string -> Fetch, decode: string -> J): (r: J)
    ensures fetch(url).Fetched? ==> r == decode(fetch(url).body)
    ensures fetch(url).Unreachable? ==> r == decode("")
  {
    match fetch(url)
    case Unreachable(_) => decode("")
    case Fetched(body) => decode(body)
  }

  /**
   * Against the Go and Python clients' `Execute`: a decoded value and a decode
   * error come back alike, but a transport failure is not reported; the caller
   * gets exactly what a reachable server answering with an empty body would give.
   */
  lemma PhpExecuteAgainstExecute<J>(url: string, fetch: string -> Fetch, decode: string -> Result<J, string>)
    ensures Execute(url, fetch, decode).Ok? ==> PhpExecute(url, fetch, decode) == Ok(Execute(url, fetch, decode).value)
    ensures Execute(url, fetch, decode).Err? && Execute(url, fetch, decode).error.DecodeError? ==>
      PhpExecute(url, fetch, decode) == Err(Execute(url, fetch, decode).error.reason)
    ensures Execute(url, fetch, decode).Err? && Execute(url, fetch, decode).error.TransportError? ==>
      PhpExecute(url, fetch, decode) == PhpExecute(url, (u: string) => Fetched(""), decode)
  {
  }

  /** The client: its API key, and the requests it has sent. */
  class C99 {
    var key: Value
    /** Every request sent so far, oldest first. */
    ghost var sent: seq<PhpRequest>

    /** The key is the 'apikey' entry of the configuration array, null when the entry is missing. */
    constructor (config: Dict<Value>)
      ensures Get(config, "apikey").Some? ==> key == Get(config, "apikey").value
      ensures Get(config, "apikey").None? ==> key == Nil
      ensures sent == []
    {
      var k := Get(config, "apikey");
      key := if k.Some? then k.value else Nil;
      sent := [];
    }

    /**
     * The private request routine: sets "key" and then "json" in its own copy of
     * the array, encodes that copy as the query string of the base URL and
     * endpoint, and sends one GET. The query encoder is a parameter.
     */
    method MakeRequest<J>(endpoint: string, params: Dict<Value>, buildQuery: Dict<Value> -> string,
                          fetch: string -> Fetch, decode: string -> J)
      returns (r: J)
      modifies this`sent
      ensures var p := SetKeyAndFlag(params, key, Str(JsonFlag));
        sent == old(sent) + [PhpRequest(BaseUrl + endpoint + "?" + buildQuery(p), p)]
      ensures r == PhpExecute(sent[|sent| - 1].url, fetch, decode)
    {
      var p := params;
      p := Put(p, KeyName, key);
      p := Put(p, JsonName, Str(JsonFlag));
      var url := "https://api.c99.nl/" + endpoint + "?" + buildQuery(p);
      sent := sent + [PhpRequest(url, p)];
      r := PhpExecute(url, fetch, decode);
    }

    /** random_number_generator: the array starts empty and each value that is not null is added. */
    method RandomNumberGenerator<J>(length: Value, between: Value, buildQuery: Dict<Value> -> string,
                                    fetch: string -> Fetch, decode: string -> J)
      returns (r: J)
      modifies this`sent
      ensures var p := SetKeyAndFlag(Build(RandomNumberSig, [length, between]), key, Str(JsonFlag));
        sent == old(sent) + [PhpRequest(BaseUrl + "randomnumber?" + buildQuery(p), p)]
      ensures r == PhpExecute(sent[|sent| - 1].url, fetch, decode)
    {
      var params: Dict<Value> := [];
      if length != Nil {
        params := Put(params, "length", length);
      }
      if between != Nil {
        params := Put(params, "between", between);
      }
      RandomNumberQuery(length, between);
      r := MakeRequest("randomnumber", params, buildQuery, fetch, decode);
      assert BaseUrl + "randomnumber" + "?" == BaseUrl + "randomnumber?";
    }
  }

  /** How a call of a public method ends. */
  datatype PhpOutcome<J> = NotCalled(result: PhpCall) | Returned(value: J)

  /** A call of a method by name, as a function of the key, the arguments and the network. */
  function PhpInvoke<J>(key: Value, name: string, args: seq<Value>, buildQuery: Dict<Value> -> string,
                        fetch: string -> Fetch, decode: string -> J): PhpOutcome<J>
  {
    match PhpDispatch(name, args)
    case Call(t) =>
      var p := SetKeyAndFlag(t.params, key, Str(JsonFlag));
      Returned(PhpExecute(BaseUrl + t.endpoint + "?" + buildQuery(p), fetch, decode))
    case _ => NotCalled(PhpDispatch(name, args))
  }

  /** A caller invoking one public method by name; nothing is sent unless the arguments bind. */
  method CallMethod<J>(c: C99, name: string, args: seq<Value>, buildQuery: Dict<Value> -> string,
                       fetch: string -> Fetch, decode: string -> J)
    returns (o: PhpOutcome<J>)
    modifies c`sent
    ensures o == PhpInvoke(c.key, name, args, buildQuery, fetch, decode)
    ensures o.NotCalled? ==> c.sent == old(c.sent)
    ensures o.Returned? ==>
      var t := PhpDispatch(name, args).target;
      var p := SetKeyAndFlag(t.params, c.key, Str(JsonFlag));
      c.sent == old(c.sent) + [PhpRequest(BaseUrl + t.endpoint + "?" + buildQuery(p), p)]
  {
    var d := PhpDispatch(name, args);
    if !d.Call? {
      return NotCalled(d);
    }
    var r := c.MakeRequest(d.target.endpoint, d.target.params, buildQuery, fetch, decode);
    o := Returned(r);
  }
}

/**
 * The Go client: the per-method bindings (endpoint and query-key translation),
 * the dispatch that `main` performs on a method name and positional arguments,
 * and the shared request routine that injects the API key and the JSON flag.
 * The network and the JSON decoder are parameters (`fetch`, `decode`).
 */
module GoClient {
  import opened Wrappers
  import opened Api
  import opened Registry
  import opened Usage

  /** One per-method binding: the Go method name, its endpoint and how it names its arguments. */
  datatype Binding = Binding(name: string, endpoint: string, translation: Translation)

  /** A binding that sends its i-th argument under keys[i] and nothing else. */
  function Bind(name: string, endpoint: string, keys: seq<string>): Binding {
    Binding(name, endpoint, Positional(keys, map[]))
  }

  /** The bindings, one per method of the client, in declaration order. */
  const Bindings: seq<Binding> :=
    [ Bind("GetSubDomains", "subdomainfinder", ["domain"]),
      Bind("GetPhoneInfo", "phonelookup", ["number"]),
      Bind("GetSkypeUserInfo", "skyperesolver", ["username"]),
      Bind("GetSkypeIPInfo", "ip2skype", ["ip"]),
      Bind("FirewallResolver", "firewalldetector", ["url"]),
      Bind("PortScanner", "portscanner", ["host"]),
      Bind("CheckPort", "portscanner", ["host", "port"]),
      Bind("Ping", "ping", ["host"]) ] +
    [ Bind("HostnameResolver", "gethostname", ["host"]),
      Bind("DNSChecker", "dnschecker", ["url"]),
      Binding("HostToIP", "dnsresolver", Positional(["host"], map["server" := "US"])),
      Bind("IPToDomains", "ip2domains", ["ip"]),
      Bind("AlexaRank", "alexarank", ["url"]),
      Bind("WhoisChecker", "whois", ["domain"]),
      Bind("ScreenshotTool", "createscreenshot", ["url"]),
      Bind("GeoIP", "geoip", ["host"]) ] +
    [ Bind("WebsiteUpOrDownChecker", "upordown", ["host"]),
      Bind("SiteReputationChecker", "reputationchecker", ["url"]),
      Bind("GetWebsiteHeaders", "getheaders", ["host"]),
      Bind("LinkBackup", "linkbackup", ["url"]),
      Bind("URLShortener", "urlshortener", ["url"]),
      Bind("RandomStringPicker", "randomstringpicker", ["textfile"]),
      Bind("Dictionary", "dictionary", ["word"]),
      Bind("ImageReverse", "definepicture", ["url"]) ] +
    [ Bind("SynonymFinder", "synonym", ["word"]),
      Bind("EmailValidator", "emailvalidator", ["email"]),
      Bind("DisposableMailCheck", "disposablemailchecker", ["email"]),
      Bind("IPValidator", "ipvalidator", ["ip"]),
      Bind("TorChecker", "torchecker", ["ip"]),
      Bind("Translator", "translate", ["text", "tolanguage"]),
      Bind("RandomInfoGenerator", "randomperson", ["gender"]),
      Bind("YouTubeVideoDetails", "youtubedetails", ["videoid"]) ] +
    [ Bind("YouTubeToMP3", "youtubemp3", ["videoid"]),
      Bind("IPLogger", "iplogger", ["action"]),
      Bind("BitcoinBalance", "bitcoinbalance", ["address"]),
      Bind("EthereumBalance", "ethereumbalance", ["address"]),
      Bind("CurrencyConverter", "currency", ["amount", "from", "to"]),
      Bind("CurrencyRates", "currencyrates", ["source"]),
      Bind("WeatherChecker", "weather", ["location", "unit"]),
      Bind("QRCodeGenerator", "qrgenerator", ["string", "size"]) ] +
    [ Bind("TextParser", "textparser", ["url"]),
      Bind("ProxyDetector", "proxydetector", ["ip"]),
      Bind("PasswordGenerator", "passwordgenerator", ["length", "include", "customlist"]),
      Binding("RandomNumberGenerator", "randomnumber", OmitAbsent(["length", "between"])),
      Bind("LicenseKeyGenerator", "licensekeygenerator", ["template", "amount"]),
      Bind("EitherOr", "eitheror", []),
      Bind("GIFFinder", "gif", ["keyword"]) ]

  /** The method-specific query a binding builds from its positional string arguments. */
  function Query(t: Translation, args: seq<string>): map<string, string>
    requires |args| == t.Arity()
  {
    match t
    case Positional(keys, constants) => ZipMap(keys, args) + constants
    case OmitAbsent(keys) => KeepSupplied(keys, args, "")
  }

  /** RandomNumberGenerator's query, built step by step; an empty argument is left out. */
  method RandomNumberParams(length: string, between: string) returns (params: map<string, string>)
    ensures params == Query(OmitAbsent(["length", "between"]), [length, between])
    ensures params.Keys <= {"length", "between"}
    ensures "length" in params <==> length != ""
    ensures "between" in params <==> between != ""
    ensures "length" in params ==> params["length"] == length
    ensures "between" in params ==> params["between"] == between
  {
    params := map[];
    if length != "" {
      params := params["length" := length];
    }
    if between != "" {
      params := params["between" := between];
    }
    ghost var keys, vals := ["length", "between"], [length, between];
    assert keys[..1] == ["length"] && vals[..1] == [length];
    assert ["length"][..0] == [] && [length][..0] == [];
  }

  /** Search by method name, first match wins (stands for the reflective method lookup). */
  function FindBinding(bs: seq<Binding>, name: string): (r: Option<Binding>)
    ensures r.None? <==> forall i | 0 <= i < |bs| :: bs[i].name != name
    ensures r.Some? ==> r.value.name == name && r.value in bs
  {
    if bs == [] then None
    else if bs[0].name == name then Some(bs[0])
    else
      var r := FindBinding(bs[1..], name);
      assert forall i | 1 <= i < |bs| :: bs[i] == bs[1..][i - 1];
      r
  }

  lemma {:induction false} FindBindingFirst(bs: seq<Binding>, name: string, i: int)
    requires 0 <= i < |bs| && bs[i].name == name
    requires forall j | 0 <= j < i :: bs[j].name != name
    ensures FindBinding(bs, name) == Some(bs[i])
  {
    if i > 0 {
      assert bs[0].name != name;
      FindBindingFirst(bs[1..], name, i - 1);
    }
  }

  /** Binding i belongs to registry entry i: same name, and it takes as many arguments as the entry declares. */
  predicate BindsEntry(i: int)
    requires 0 <= i < |Bindings| && i < |MethodInfos|
  {
    Bindings[i].name == MethodInfos[i].name && Bindings[i].translation.Arity() == |MethodInfos[i].params|
  }

  /** Every registry entry has its binding, at the same position. */
  lemma BindsEntryAt(i: int)
    requires 0 <= i < |MethodInfos|
    ensures |Bindings| == |MethodInfos| && BindsEntry(i)
  {
    if i < 4 { BindsEntryAtInBlock0(i); }
    else if i < 8 { BindsEntryAtInBlock1(i); }
    else if i < 12 { BindsEntryAtInBlock2(i); }
    else if i < 16 { BindsEntryAtInBlock3(i); }
    else if i < 20 { BindsEntryAtInBlock4(i); }
    else if i < 24 { BindsEntryAtInBlock5(i); }
    else if i < 28 { BindsEntryAtInBlock6(i); }
    else if i < 32 { BindsEntryAtInBlock7(i); }
    else if i < 36 { BindsEntryAtInBlock8(i); }
    else if i < 40 { BindsEntryAtInBlock9(i); }
    else if i < 44 { BindsEntryAtInBlock10(i); }
    else { BindsEntryAtInBlock11(i); }
  }

  // The cases are split into groups of a few entries so that each proof stays
  // within the solver's resource limit.
  lemma BindsEntryAtInBlock0(i: int)
    requires 0 <= i < 4
    ensures |Bindings| == |MethodInfos| && BindsEntry(i)
  {
    if i == 0 { }
    else if i == 1 { }
    else if i == 2 { }
    else if i == 3 { }
  }

  lemma BindsEntryAtInBlock1(i: int)
    requires 4 <= i < 8
    ensures |Bindings| == |MethodInfos| && BindsEntry(i)
  {
    if i == 4 { }
    else if i == 5 { }
    else if i == 6 { }
    else if i == 7 { }
  }

  lemma BindsEntryAtInBlock2(i: int)
    requires 8 <= i < 12
    ensures |Bindings| == |MethodInfos| && BindsEntry(i)
  {
    if i == 8 { }
    else if i == 9 { }
    else if i == 10 { }
    else if i == 11 { }
  }

  lemma BindsEntryAtInBlock3(i: int)
    requires 12 <= i < 16
    ensures |Bindings| == |MethodInfos| && BindsEntry(i)
  {
    if i == 12 { }
    else if i == 13 { }
    else if i == 14 { }
    else if i == 15 { }
  }

  lemma BindsEntryAtInBlock4(i: int)
    requires 16 <= i < 20
    ensures |Bindings| == |MethodInfos| && BindsEntry(i)
  {
    if i == 16 { }
    else if i == 17 { }
    else if i == 18 { }
    else if i == 19 { }
  }

  lemma BindsEntryAtInBlock5(i: int)
    requires 20 <= i < 24
    ensures |Bindings| == |MethodInfos| && BindsEntry(i)
  {
    if i == 20 { }
    else if i == 21 { }
    else if i == 22 { }
    else if i == 23 { }
  }

  lemma BindsEntryAtInBlock6(i: int)
    requires 24 <= i < 28
    ensures |Bindings| == |MethodInfos| && BindsEntry(i)
  {
    if i == 24 { }
    else if i == 25 { }
    else if i == 26 { }
    else if i == 27 { }
  }

  lemma BindsEntryAtInBlock7(i: int)
    requires 28 <= i < 32
    ensures |Bindings| == |MethodInfos| && BindsEntry(i)
  {
    if i == 28 { }
    else if i == 29 { }
    else if i == 30 { }
    else if i == 31 { }
  }

  lemma BindsEntryAtInBlock8(i: int)
    requires 32 <= i < 36
    ensures |Bindings| == |MethodInfos| && BindsEntry(i)
  {
    if i == 32 { }
    else if i == 33 { }
    else if i == 34 { }
    else if i == 35 { }
  }

  lemma BindsEntryAtInBlock9(i: int)
    requires 36 <= i < 40
    ensures |Bindings| == |MethodInfos| && BindsEntry(i)
  {
    if i == 36 { }
    else if i == 37 { }
    else if i == 38 { }
    else if i == 39 { }
  }

  lemma BindsEntryAtInBlock10(i: int)
    requires 40 <= i < 44
    ensures |Bindings| == |MethodInfos| && BindsEntry(i)
  {
    if i == 40 { }
    else if i == 41 { }
    else if i == 42 { }
    else if i == 43 { }
  }

  lemma BindsEntryAtInBlock11(i: int)
    requires 44 <= i < 47
    ensures |Bindings| == |MethodInfos| && BindsEntry(i)
  {
    if i == 44 { }
    else if i == 45 { }
    else if i == 46 { }
  }

  /**
   * A binding's keys are distinct, differ from its constant keys, and never use
   * the two names the request routine sets itself.
   */
  predicate WellKeyed(t: Translation) {
    && Distinct(t.keys)
    && KeyName !in t.keys && JsonName !in t.keys
    && (t.Positional? ==> forall k | k in t.constants :: k !in t.keys && k != KeyName && k != JsonName)
  }

  /** No binding sends a key twice or a key the request routine overrides. */
  lemma BindingWellKeyed(i: int)
    requires 0 <= i < |Bindings|
    ensures WellKeyed(Bindings[i].translation)
  {
    if i < 8 { BindingWellKeyedInBlock0(i); }
    else if i < 16 { BindingWellKeyedInBlock1(i); }
    else if i < 24 { BindingWellKeyedInBlock2(i); }
    else if i < 32 { BindingWellKeyedInBlock3(i); }
    else if i < 40 { BindingWellKeyedInBlock4(i); }
    else { BindingWellKeyedInBlock5(i); }
  }

  // The cases are split into groups of a few entries so that each proof stays
  // within the solver's resource limit.
  lemma BindingWellKeyedInBlock0(i: int)
    requires 0 <= i < 8
    ensures WellKeyed(Bindings[i].translation)
  {
    if i == 0 { }
    else if i == 1 { }
    else if i == 2 { }
    else if i == 3 { }
    else if i == 4 { }
    else if i == 5 { }
    else if i == 6 { }
    else if i == 7 { }
  }

  lemma BindingWellKeyedInBlock1(i: int)
    requires 8 <= i < 16
    ensures WellKeyed(Bindings[i].translation)
  {
    if i == 8 { }
    else if i == 9 { }
    else if i == 10 { }
    else if i == 11 { }
    else if i == 12 { }
    else if i == 13 { }
    else if i == 14 { }
    else if i == 15 { }
  }

  lemma BindingWellKeyedInBlock2(i: int)
    requires 16 <= i < 24
    ensures WellKeyed(Bindings[i].translation)
  {
    if i == 16 { }
    else if i == 17 { }
    else if i == 18 { }
    else if i == 19 { }
    else if i == 20 { }
    else if i == 21 { }
    else if i == 22 { }
    else if i == 23 { }
  }

  lemma BindingWellKeyedInBlock3(i: int)
    requires 24 <= i < 32
    ensures WellKeyed(Bindings[i].translation)
  {
    if i == 24 { }
    else if i == 25 { }
    else if i == 26 { }
    else if i == 27 { }
    else if i == 28 { }
    else if i == 29 { }
    else if i == 30 { }
    else if i == 31 { }
  }

  lemma BindingWellKeyedInBlock4(i: int)
    requires 32 <= i < 40
    ensures WellKeyed(Bindings[i].translation)
  {
    if i == 32 { }
    else if i == 33 { }
    else if i == 34 { }
    else if i == 35 { }
    else if i == 36 { }
    else if i == 37 { }
    else if i == 38 { }
    else if i == 39 { }
  }

  lemma BindingWellKeyedInBlock5(i: int)
    requires 40 <= i < 47
    ensures WellKeyed(Bindings[i].translation)
  {
    if i == 40 { }
    else if i == 41 { }
    else if i == 42 { }
    else if i == 43 { }
    else if i == 44 { }
    else if i == 45 { }
    else if i == 46 { }
  }

  /** Names with no registry entry. */
  predicate Unregistered(name: string) {
    forall i | 0 <= i < |MethodInfos| :: MethodInfos[i].name != name
  }

  /** Binding i is the one found for its name. */
  lemma FindBindingAt(i: int)
    requires 0 <= i < |Bindings|
    ensures FindBinding(Bindings, Bindings[i].name) == Some(Bindings[i])
  {
    BindsEntryAt(i);
    NamesDistinct();
    forall j | 0 <= j < i ensures Bindings[j].name != Bindings[i].name {
      BindsEntryAt(j);
    }
    FindBindingFirst(Bindings, Bindings[i].name, i);
  }

  /** The request a binding hands to the request routine. */
  datatype Target = Target(endpoint: string, params: map<string, string>)

  /** How `main` ends for one method name and argument list, before any network traffic. */
  datatype DispatchResult =
    | MethodList                                     // "list": print the registry, no request
    | MethodNotFound(name: string)                   // no registry entry (or no binding)
    | NotEnoughArguments(name: string, usage: string)
    | CallPanics(name: string)                       // more arguments than the binding takes
    | Call(target: Target)

  /**
   * `main` from the method name on, over a registry and a set of bindings:
   * "list", lookup, arity check, then the binding.
   */
  function DispatchIn(infos: seq<MethodInfo>, bs: seq<Binding>, name: string, args: seq<string>): DispatchResult {
    if name == "list" then MethodList
    else match Lookup(infos, name)
      case None => MethodNotFound(name)
      case Some(info) =>
        if |args| < |info.params| then NotEnoughArguments(name, UsageText(info))
        else match FindBinding(bs, name)
          case None => MethodNotFound(name)
          case Some(b) =>
            if |args| != b.translation.Arity() then CallPanics(name)
            else Call(Target(b.endpoint, Query(b.translation, args)))
  }

  /** `main` over the client's own registry and bindings. */
  function Dispatch(name: string, args: seq<string>): DispatchResult {
    DispatchIn(MethodInfos, Bindings, name, args)
  }

  /**
   * A registry and bindings that fit together: binding i has entry i's name and
   * arity, names are distinct, and none of them is "list".
   */
  predicate Aligned(infos: seq<MethodInfo>, bs: seq<Binding>) {
    && |bs| == |infos|
    && (forall i | 0 <= i < |infos| :: bs[i].name == infos[i].name && bs[i].translation.Arity() == |infos[i].params|)
    && (forall i, j | 0 <= i < j < |infos| :: infos[i].name != infos[j].name)
    && (forall i | 0 <= i < |infos| :: infos[i].name != "list")
  }

  /** The client's registry and bindings fit together. */
  lemma TablesAligned()
    ensures Aligned(MethodInfos, Bindings)
  {
    NamesDistinct();
    ListIsNotAMethod();
    forall i | 0 <= i < |MethodInfos|
      ensures Bindings[i].name == MethodInfos[i].name && Bindings[i].translation.Arity() == |MethodInfos[i].params|
    {
      BindsEntryAt(i);
    }
  }

  /**
   * Over tables that fit together, a registered name is rejected with its usage
   * for too few arguments, panics for too many, and otherwise calls its binding.
   */
  lemma DispatchInAt(infos: seq<MethodInfo>, bs: seq<Binding>, i: int, args: seq<string>)
    requires Aligned(infos, bs) && 0 <= i < |infos|
    ensures DispatchIn(infos, bs, infos[i].name, args) ==
      if |args| < |infos[i].params| then NotEnoughArguments(infos[i].name, UsageText(infos[i]))
      else if |args| != |infos[i].params| then CallPanics(infos[i].name)
      else Call(Target(bs[i].endpoint, Query(bs[i].translation, args)))
  {
    var name := infos[i].name;
    LookupFirst(infos, name, i);
    FindBindingFirst(bs, name, i);
  }

  /** Over tables that fit together, a name other than "list" is not found exactly when no entry has it. */
  lemma DispatchInUnknown(infos: seq<MethodInfo>, bs: seq<Binding>, name: string, args: seq<string>)
    requires Aligned(infos, bs) && name != "list"
    ensures DispatchIn(infos, bs, name, args) == MethodNotFound(name) <==> forall i | 0 <= i < |infos| :: infos[i].name != name
  {
    if i :| 0 <= i < |infos| && infos[i].name == name {
      DispatchInAt(infos, bs, i, args);
    }
  }

  /** "list" is not the name of any method, so it never shadows one. */
  lemma ListIsNotAMethod()
    ensures Unregistered("list")
  {
    forall i | 0 <= i < |MethodInfos| ensures MethodInfos[i].name != "list" {
      NameIndexAt(i);
    }
  }

  /** "list" always lists the registry and builds no request. */
  lemma DispatchList(args: seq<string>)
    ensures Dispatch("list", args) == MethodList
    ensures !Dispatch("list", args).Call?
  {
  }

  /** An unknown method name is rejected whatever the arguments. */
  lemma DispatchUnknown(name: string, args: seq<string>)
    requires name != "list"
    ensures Dispatch(name, args) == MethodNotFound(name) <==> Unregistered(name)
  {
    TablesAligned();
    DispatchInUnknown(MethodInfos, Bindings, name, args);
  }

  /**
   * For registry entry i, fewer arguments than declared parameters (optional ones
   * included) are rejected with the entry's usage text.
   */
  lemma DispatchTooFew(i: int, args: seq<string>)
    requires 0 <= i < |MethodInfos|
    ensures |args| < |MethodInfos[i].params| <==>
      Dispatch(MethodInfos[i].name, args) == NotEnoughArguments(MethodInfos[i].name, UsageText(MethodInfos[i]))
  {
    TablesAligned();
    DispatchInAt(MethodInfos, Bindings, i, args);
  }

  /** For registry entry i, more arguments than declared parameters make the reflective call panic. */
  lemma DispatchTooMany(i: int, args: seq<string>)
    requires 0 <= i < |MethodInfos|
    ensures |args| > |MethodInfos[i].params| <==> Dispatch(MethodInfos[i].name, args) == CallPanics(MethodInfos[i].name)
  {
    TablesAligned();
    DispatchInAt(MethodInfos, Bindings, i, args);
  }

  /**
   * For registry entry i, exactly as many arguments as parameters call binding i,
   * which is never missing.
   */
  lemma DispatchExact(i: int, args: seq<string>)
    requires 0 <= i < |MethodInfos|
    ensures |Bindings| == |MethodInfos| && BindsEntry(i)
    ensures |args| == |MethodInfos[i].params| <==> Dispatch(MethodInfos[i].name, args).Call?
    ensures |args| == |MethodInfos[i].params| ==>
      Dispatch(MethodInfos[i].name, args) == Call(Target(Bindings[i].endpoint, Query(Bindings[i].translation, args)))
  {
    TablesAligned();
    DispatchInAt(MethodInfos, Bindings, i, args);
    BindsEntryAt(i);
  }

  /** A well-keyed positional binding sends each argument under its own key and each constant as given. */
  lemma {:induction false} PositionalQuery(keys: seq<string>, constants: map<string, string>, args: seq<string>)
    requires |args| == |keys| && WellKeyed(Positional(keys, constants))
    ensures var q := Query(Positional(keys, constants), args);
      && (forall k :: k in q <==> k in keys || k in constants)
      && (forall i | 0 <= i < |keys| :: q[keys[i]] == args[i])
      && (forall k | k in constants :: q[k] == constants[k])
  {
    forall i | 0 <= i < |keys| ensures Query(Positional(keys, constants), args)[keys[i]] == args[i] {
      ZipMapAt(keys, args, i);
    }
  }

  /** GetSubDomains sends its "subdomain" parameter as "domain". */
  lemma SubDomainsSendDomain(subdomain: string)
    ensures MethodInfos[0].params == [Req("subdomain")]
    ensures Dispatch("GetSubDomains", [subdomain]) == Call(Target("subdomainfinder", map["domain" := subdomain]))
  {
    DispatchExact(0, [subdomain]);
    assert ["domain"][..0] == [];
  }

  /** Binding i, whose translation is `t`, sends `params` when given `args`. */
  lemma SendsAs(i: int, args: seq<string>, endpoint: string, t: Translation, params: map<string, string>)
    requires 0 <= i < |MethodInfos| && |args| == |MethodInfos[i].params|
    requires i < |Bindings| && Bindings[i].endpoint == endpoint && Bindings[i].translation == t
    requires |args| == t.Arity() && Query(t, args) == params
    ensures Dispatch(MethodInfos[i].name, args) == Call(Target(endpoint, params))
  {
    DispatchExact(i, args);
  }

  /** A one-key translation sends its argument under that key. */
  lemma OneKeyQuery(key: string, arg: string)
    ensures Query(Positional([key], map[]), [arg]) == map[key := arg]
  {
    assert [key][..0] == [] && [arg][..0] == [];
  }

  /** PortScanner sends its "ip" parameter as "host". */
  lemma PortScannerSendsHost(ip: string)
    ensures MethodInfos[5].params == [Req("ip")]
    ensures Dispatch("PortScanner", [ip]) == Call(Target("portscanner", map["host" := ip]))
  {
    OneKeyQuery("host", ip);
    SendsAs(5, [ip], "portscanner", Positional(["host"], map[]), map["host" := ip]);
  }

  /** Ping sends its "ip" parameter as "host". */
  lemma PingSendsHost(ip: string)
    ensures MethodInfos[7].params == [Req("ip")]
    ensures Dispatch("Ping", [ip]) == Call(Target("ping", map["host" := ip]))
  {
    OneKeyQuery("host", ip);
    SendsAs(7, [ip], "ping", Positional(["host"], map[]), map["host" := ip]);
  }

  /** HostnameResolver sends its "ip" parameter as "host". */
  lemma HostnameResolverSendsHost(ip: string)
    ensures MethodInfos[8].params == [Req("ip")]
    ensures Dispatch("HostnameResolver", [ip]) == Call(Target("gethostname", map["host" := ip]))
  {
    OneKeyQuery("host", ip);
    SendsAs(8, [ip], "gethostname", Positional(["host"], map[]), map["host" := ip]);
  }

  /** FirewallResolver sends its "domain" parameter as "url". */
  lemma FirewallResolverSendsUrl(domain: string)
    ensures MethodInfos[4].params == [Req("domain")]
    ensures Dispatch("FirewallResolver", [domain]) == Call(Target("firewalldetector", map["url" := domain]))
  {
    OneKeyQuery("url", domain);
    SendsAs(4, [domain], "firewalldetector", Positional(["url"], map[]), map["url" := domain]);
  }

  /** DNSChecker sends its "domain" parameter as "url". */
  lemma DNSCheckerSendsUrl(domain: string)
    ensures MethodInfos[9].params == [Req("domain")]
    ensures Dispatch("DNSChecker", [domain]) == Call(Target("dnschecker", map["url" := domain]))
  {
    OneKeyQuery("url", domain);
    SendsAs(9, [domain], "dnschecker", Positional(["url"], map[]), map["url" := domain]);
  }

  /** HostToIP adds the fixed entry server=US. */
  lemma HostToIpAddsServer(host: string)
    ensures MethodInfos[10].params == [Req("host")]
    ensures Dispatch("HostToIP", [host]) == Call(Target("dnsresolver", map["host" := host, "server" := "US"]))
  {
    var t := Positional(["host"], map["server" := "US"]);
    assert Query(t, [host]) == map["host" := host, "server" := "US"] by {
      OneKeyQuery("host", host);
    }
    SendsAs(10, [host], "dnsresolver", t, map["host" := host, "server" := "US"]);
  }

  /** CurrencyConverter sends fromCurrency and toCurrency as "from" and "to". */
  lemma CurrencyConverterKeys(amount: string, fromCurrency: string, toCurrency: string)
    ensures MethodInfos[36].params == [Req("amount"), Req("fromCurrency"), Req("toCurrency")]
    ensures Dispatch("CurrencyConverter", [amount, fromCurrency, toCurrency])
      == Call(Target("currency", map["amount" := amount, "from" := fromCurrency, "to" := toCurrency]))
  {
    var keys, args := ["amount", "from", "to"], [amount, fromCurrency, toCurrency];
    var params := map["amount" := amount, "from" := fromCurrency, "to" := toCurrency];
    assert Query(Positional(keys, map[]), args) == params by {
      assert keys[..2] == ["amount", "from"] && args[..2] == [amount, fromCurrency];
      assert keys[..2][..1] == ["amount"] && args[..2][..1] == [amount];
      OneKeyQuery("amount", amount);
    }
    SendsAs(36, args, "currency", Positional(keys, map[]), params);
  }

  /** QRCodeGenerator sends its "str" parameter as "string". */
  lemma QrCodeKeys(str: string, size: string)
    ensures MethodInfos[39].params == [Req("str"), Req("size")]
    ensures Dispatch("QRCodeGenerator", [str, size]) == Call(Target("qrgenerator", map["string" := str, "size" := size]))
  {
    var keys, args := ["string", "size"], [str, size];
    var params := map["string" := str, "size" := size];
    assert Query(Positional(keys, map[]), args) == params by {
      assert keys[..1] == ["string"] && args[..1] == [str];
      OneKeyQuery("string", str);
    }
    SendsAs(39, args, "qrgenerator", Positional(keys, map[]), params);
  }

  /** RandomNumberGenerator's query holds a key exactly when its argument is non-empty. */
  lemma TwoOptionalQuery(length: string, between: string)
    ensures var q := Query(OmitAbsent(["length", "between"]), [length, between]);
      && q.Keys <= {"length", "between"}
      && ("length" in q <==> length != "")
      && ("between" in q <==> between != "")
      && ("length" in q ==> q["length"] == length)
      && ("between" in q ==> q["between"] == between)
  {
    var keys, args := ["length", "between"], [length, between];
    assert Distinct(keys);
    KeepSuppliedAt(keys, args, "", 0);
    KeepSuppliedAt(keys, args, "", 1);
  }

  /**
   * RandomNumberGenerator declares two optional parameters, yet the arity check
   * still wants both.
   */
  lemma RandomNumberGeneratorArity(length: string)
    ensures MethodInfos[43].params == [ParamInfo("length", "string", false), ParamInfo("between", "string", false)]
    ensures Dispatch("RandomNumberGenerator", []).NotEnoughArguments?
    ensures Dispatch("RandomNumberGenerator", [length]).NotEnoughArguments?
  {
    DispatchTooFew(43, []);
    DispatchTooFew(43, [length]);
  }

  /** With both arguments given, RandomNumberGenerator sends the query that leaves out empty ones. */
  lemma RandomNumberGeneratorCall(length: string, between: string)
    ensures Dispatch("RandomNumberGenerator", [length, between])
      == Call(Target("randomnumber", Query(OmitAbsent(["length", "between"]), [length, between])))
  {
    var t := OmitAbsent(["length", "between"]);
    SendsAs(43, [length, between], "randomnumber", t, Query(t, [length, between]));
  }

  /** The request that goes out for a target: the key and the JSON flag are added. */
  function WireRequest(key: string, t: Target): Request {
    Request(BaseUrl + t.endpoint, Inject(t.params, key, JsonFlag))
  }

  /** With both arguments empty, RandomNumberGenerator's request carries only the key and the flag. */
  lemma RandomNumberGeneratorBothEmpty(key: string)
    ensures Dispatch("RandomNumberGenerator", ["", ""]) == Call(Target("randomnumber", map[]))
    ensures WireRequest(key, Target("randomnumber", map[])).query == map["key" := key, "json" := "true"]
  {
    var t := OmitAbsent(["length", "between"]);
    assert Query(t, ["", ""]) == map[] by {
      TwoOptionalQuery("", "");
    }
    SendsAs(43, ["", ""], "randomnumber", t, map[]);
  }

  /** EitherOr takes no parameters: the arity check always passes, and any argument makes the call panic. */
  lemma EitherOrTakesNothing(args: seq<string>, key: string)
    ensures MethodInfos[45].params == []
    ensures !Dispatch("EitherOr", args).NotEnoughArguments?
    ensures args == [] ==> Dispatch("EitherOr", args) == Call(Target("eitheror", map[]))
    ensures args != [] ==> Dispatch("EitherOr", args) == CallPanics("EitherOr")
    ensures WireRequest(key, Target("eitheror", map[])).query == map["key" := key, "json" := "true"]
  {
    DispatchTooFew(45, args);
    DispatchTooMany(45, args);
    DispatchExact(45, args);
  }

  /** A Go map that the caller owns and the request routine writes into. */
  class ParamMap {
    var entries: map<string, string>

    constructor (entries: map<string, string>)
      ensures this.entries == entries
    {
      this.entries := entries;
    }
  }

  /** The GET that goes out: base URL and endpoint, and the query parameters. */
  datatype Request = Request(url: string, query: map<string, string>)

  /** The query values copied one by one, in whatever order the map yields them. */
  method EncodeQuery(params: map<string, string>) returns (q: map<string, string>)
    ensures q == params
  {
    q := map[];
    var todo := params.Keys;
    while todo != {}
      invariant todo <= params.Keys
      invariant q.Keys == params.Keys - todo
      invariant forall k | k in q :: q[k] == params[k]
      decreases todo
    {
      var k :| k in todo;
      q := q[k := params[k]];
      todo := todo - {k};
    }
  }

  /** The client: its API key and base URL, and the requests it has sent. */
  class C99 {
    var key: string
    var baseUrl: string
    /** Every request sent so far, oldest first. */
    ghost var sent: seq<Request>

    constructor (apikey: string)
      ensures key == apikey && baseUrl == BaseUrl && sent == []
    {
      key := apikey;
      baseUrl := BaseUrl;
      sent := [];
    }

    /**
     * The shared request routine: sets "key" and "json" in the caller's map,
     * overriding entries of those names and keeping every other one, then sends
     * exactly one request carrying that map.
     */
    method MakeRequest<J>(endpoint: string, params: ParamMap, fetch: Request -> Fetch, decode: string -> Result<J, string>)
      returns (r: Result<J, CallError>)
      modifies this`sent, params
      ensures params.entries == Inject(old(params.entries), key, JsonFlag)
      ensures sent == old(sent) + [Request(baseUrl + endpoint, params.entries)]
      ensures r == Execute(Request(baseUrl + endpoint, params.entries), fetch, decode)
    {
      params.entries := params.entries[KeyName := key];
      params.entries := params.entries[JsonName := JsonFlag];
      var query := EncodeQuery(params.entries);
      var req := Request(baseUrl + endpoint, query);
      sent := sent + [req];
      r := Execute(req, fetch, decode);
    }
  }

  /** How a run ends once `main` has dispatched: no request, or the request's outcome. */
  function Complete<J>(key: string, d: DispatchResult, fetch: Request -> Fetch, decode: string -> Result<J, string>): Outcome<DispatchResult, J> {
    match d
    case Call(t) =>
      (match Execute(WireRequest(key, t), fetch, decode)
       case Ok(v) => Succeeded(v)
       case Err(e) => Failed(e))
    case _ => NoRequest(d)
  }

  /** One run, from the method name on, as a function of the key, the arguments and the network. */
  function Invoke<J>(key: string, name: string, args: seq<string>, fetch: Request -> Fetch, decode: string -> Result<J, string>): Outcome<DispatchResult, J> {
    Complete(key, Dispatch(name, args), fetch, decode)
  }

  /**
   * A dispatched call that reaches the network returns what the decoder produced,
   * unchanged, or the one error kind that matches what went wrong; anything else
   * sends nothing.
   */
  lemma InvokeCall<J>(key: string, d: DispatchResult, fetch: Request -> Fetch, decode: string -> Result<J, string>)
    ensures !d.Call? ==> Complete(key, d, fetch, decode) == NoRequest(d)
    ensures d.Call? ==>
      var req := WireRequest(key, d.target);
      && (fetch(req).Unreachable? ==> Complete(key, d, fetch, decode) == Failed(TransportError(fetch(req).reason)))
      && (fetch(req).Fetched? && decode(fetch(req).body).Ok? ==>
            Complete(key, d, fetch, decode) == Succeeded(decode(fetch(req).body).value))
      && (fetch(req).Fetched? && decode(fetch(req).body).Err? ==>
            Complete(key, d, fetch, decode) == Failed(DecodeError(decode(fetch(req).body).error)))
  {
  }

  /** The two lines `main` prints when a method is neither registered nor bound. */
  function NotFoundText(name: string): string {
    "Error: Method '" + name + "' not found\n" + "Use 'list' to see all available methods\n"
  }

  /** The line `main` prints before the usage when too few arguments are given. */
  function TooFewText(name: string): string {
    "Error: Not enough arguments for method '" + name + "'\n"
  }

  /** What `main` prints, over a registry, before it stops or calls a binding. */
  function PrintedBefore(infos: seq<MethodInfo>, d: DispatchResult): string {
    match d
    case MethodList => Listing(infos)
    case MethodNotFound(name) => NotFoundText(name)
    case NotEnoughArguments(name, usage) => TooFewText(name) + usage
    case CallPanics(_) => ""
    case Call(_) => ""
  }

  /**
   * `main` after the key and method name are read, up to the call, over a
   * registry and bindings: "list", lookup, arity check, binding. Returns where
   * it ends and the text it prints on the way: the listing, the not-found
   * error, or the too-few error followed by the usage; nothing before a call.
   */
  method Resolve(infos: seq<MethodInfo>, bs: seq<Binding>, name: string, args: seq<string>) returns (d: DispatchResult, text: string)
    ensures d == DispatchIn(infos, bs, name, args)
    ensures name == "list" ==> text == Listing(infos)
    ensures d.MethodNotFound? ==> text == NotFoundText(name)
    ensures d.NotEnoughArguments? ==> text == TooFewText(name) + d.usage
    ensures d.CallPanics? || d.Call? ==> text == ""
    ensures text == PrintedBefore(infos, d)
  {
    if name == "list" {
      text := ListMethods(infos);
      return MethodList, text;
    }
    var info := GetMethodInfo(infos, name);
    if info.None? {
      text := NotFoundText(name);
      return MethodNotFound(name), text;
    }
    if |args| < |info.value.params| {
      var usage := PrintMethodUsage(info.value);
      text := TooFewText(name) + usage;
      return NotEnoughArguments(name, usage), text;
    }
    var binding := FindBinding(bs, name);
    if binding.None? {
      text := NotFoundText(name);
      return MethodNotFound(name), text;
    }
    text := "";
    if |args| != binding.value.translation.Arity() {
      return CallPanics(name), text;
    }
    d := Call(Target(binding.value.endpoint, Query(binding.value.translation, args)));
  }

  /**
   * The end of `main` once the method is dispatched: when a binding was called,
   * its request goes out through the client; otherwise nothing is sent.
   */
  method Run<J>(c: C99, d: DispatchResult, fetch: Request -> Fetch, decode: string -> Result<J, string>)
    returns (o: Outcome<DispatchResult, J>)
    requires c.baseUrl == BaseUrl
    modifies c`sent
    ensures o == Complete(c.key, d, fetch, decode)
    ensures !d.Call? ==> c.sent == old(c.sent)
    ensures d.Call? ==> c.sent == old(c.sent) + [WireRequest(c.key, d.target)]
  {
    if !d.Call? {
      return NoRequest(d);
    }
    var params := new ParamMap(d.target.params);
    var r := c.MakeRequest(d.target.endpoint, params, fetch, decode);
    o := if r.Ok? then Succeeded(r.value) else Failed(r.error);
  }

  /** `main` from the method name on: dispatch, then the request when a binding is called. */
  method RunCommand<J>(c: C99, name: string, args: seq<string>, fetch: Request -> Fetch, decode: string -> Result<J, string>)
    returns (o: Outcome<DispatchResult, J>, text: string)
    requires c.baseUrl == BaseUrl
    modifies c`sent
    ensures o == Invoke(c.key, name, args, fetch, decode)
    ensures !Dispatch(name, args).Call? ==> c.sent == old(c.sent)
    ensures Dispatch(name, args).Call? ==> c.sent == old(c.sent) + [WireRequest(c.key, Dispatch(name, args).target)]
    ensures text == PrintedBefore(MethodInfos, Dispatch(name, args))
  {
    var d;
    d, text := Resolve(MethodInfos, Bindings, name, args);
    o := Run(c, d, fetch, decode);
  }
}

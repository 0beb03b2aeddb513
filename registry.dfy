/**
 * The method registry of the Go command-line client: a fixed, ordered table of
 * method descriptors, searched by exact name with the first match winning.
 */
module Registry {
  import opened Wrappers

  /** One positional parameter of a method: its name, declared type and whether it is required. */
  datatype ParamInfo = ParamInfo(name: string, typ: string, required: bool)

  /** A method descriptor: name, human description and ordered parameters. */
  datatype MethodInfo = MethodInfo(name: string, description: string, params: seq<ParamInfo>)

  /** A required parameter of the declared type "string", the shape of almost every entry. */
  function Req(name: string): ParamInfo {
    ParamInfo(name, "string", true)
  }

  /** The registry, in declaration order (written as concatenated groups of eight entries). */
  const MethodInfos: seq<MethodInfo> :=
    [ MethodInfo("GetSubDomains", "Find subdomains of a given domain.", [Req("subdomain")]),
      MethodInfo("GetPhoneInfo", "Get information about a phone number.", [Req("number")]),
      MethodInfo("GetSkypeUserInfo", "Get information about a Skype user.", [Req("username")]),
      MethodInfo("GetSkypeIPInfo", "Get Skype information associated with an IP address.", [Req("ip")]),
      MethodInfo("FirewallResolver", "Detect firewalls on a given domain.", [Req("domain")]),
      MethodInfo("PortScanner", "Scan ports on a given IP address.", [Req("ip")]),
      MethodInfo("CheckPort", "Check if a specific port is open on a given host.", [Req("host"), Req("port")]),
      MethodInfo("Ping", "Ping a given IP address.", [Req("ip")]) ] +
    [ MethodInfo("HostnameResolver", "Resolve hostname for a given IP address.", [Req("ip")]),
      MethodInfo("DNSChecker", "Check DNS records for a given domain.", [Req("domain")]),
      MethodInfo("HostToIP", "Convert a hostname to an IP address.", [Req("host")]),
      MethodInfo("IPToDomains", "Find domains associated with a given IP address.", [Req("ip")]),
      MethodInfo("AlexaRank", "Get the Alexa rank for a given URL.", [Req("url")]),
      MethodInfo("WhoisChecker", "Perform a WHOIS lookup for a given domain.", [Req("domain")]),
      MethodInfo("ScreenshotTool", "Take a screenshot of a given URL.", [Req("url")]),
      MethodInfo("GeoIP", "Get geolocation information for a given IP address.", [Req("host")]) ] +
    [ MethodInfo("WebsiteUpOrDownChecker", "Check if a website is up or down.", [Req("host")]),
      MethodInfo("SiteReputationChecker", "Check the reputation of a given URL.", [Req("url")]),
      MethodInfo("GetWebsiteHeaders", "Get HTTP headers for a given website.", [Req("host")]),
      MethodInfo("LinkBackup", "Create a backup of a given URL.", [Req("url")]),
      MethodInfo("URLShortener", "Shorten a given URL.", [Req("url")]),
      MethodInfo("RandomStringPicker", "Pick a random string from a given text file.", [Req("textfile")]),
      MethodInfo("Dictionary", "Look up the definition of a word.", [Req("word")]),
      MethodInfo("ImageReverse", "Perform a reverse image search.", [Req("url")]) ] +
    [ MethodInfo("SynonymFinder", "Find synonyms for a given word.", [Req("word")]),
      MethodInfo("EmailValidator", "Validate an email address.", [Req("email")]),
      MethodInfo("DisposableMailCheck", "Check if an email is from a disposable email service.", [Req("email")]),
      MethodInfo("IPValidator", "Validate an IP address.", [Req("ip")]),
      MethodInfo("TorChecker", "Check if an IP address is a Tor exit node.", [Req("ip")]),
      MethodInfo("Translator", "Translate text to a specified language.", [Req("text"), Req("tolanguage")]),
      MethodInfo("RandomInfoGenerator", "Generate random person information.", [Req("gender")]),
      MethodInfo("YouTubeVideoDetails", "Get details about a YouTube video.", [Req("videoid")]) ] +
    [ MethodInfo("YouTubeToMP3", "Convert a YouTube video to MP3.", [Req("videoid")]),
      MethodInfo("IPLogger", "Log IP addresses.", [Req("action")]),
      MethodInfo("BitcoinBalance", "Check the balance of a Bitcoin address.", [Req("address")]),
      MethodInfo("EthereumBalance", "Check the balance of an Ethereum address.", [Req("address")]),
      MethodInfo("CurrencyConverter", "Convert between currencies.", [Req("amount"), Req("fromCurrency"), Req("toCurrency")]),
      MethodInfo("CurrencyRates", "Get current currency exchange rates.", [Req("source")]),
      MethodInfo("WeatherChecker", "Check the weather for a given location.", [Req("location"), Req("unit")]),
      MethodInfo("QRCodeGenerator", "Generate a QR code.", [Req("str"), Req("size")]) ] +
    [ MethodInfo("TextParser", "Parse text from a given URL.", [Req("url")]),
      MethodInfo("ProxyDetector", "Detect if an IP address is a proxy.", [Req("ip")]),
      MethodInfo("PasswordGenerator", "Generate a random password.", [Req("length"), Req("include"), Req("customlist")]),
      MethodInfo("RandomNumberGenerator", "Generate a random number.", [ParamInfo("length", "string", false), ParamInfo("between", "string", false)]),
      MethodInfo("LicenseKeyGenerator", "Generate license keys.", [Req("template"), Req("amount")]),
      MethodInfo("EitherOr", "Get a random 'either/or' question.", []),
      MethodInfo("GIFFinder", "Find a GIF based on a keyword.", [Req("keyword")]) ]

  /** Entry i is the first one whose name is `name`. */
  predicate IsFirstMatch(infos: seq<MethodInfo>, name: string, i: int) {
    && 0 <= i < |infos|
    && infos[i].name == name
    && forall j | 0 <= j < i :: infos[j].name != name
  }

  /** Search by exact name, first match wins. */
  function Lookup(infos: seq<MethodInfo>, name: string): (r: Option<MethodInfo>)
    ensures r.None? <==> forall i | 0 <= i < |infos| :: infos[i].name != name
    ensures r.Some? ==> r.value.name == name && r.value in infos
  {
    if infos == [] then None
    else if infos[0].name == name then Some(infos[0])
    else
      var r := Lookup(infos[1..], name);
      assert forall i | 1 <= i < |infos| :: infos[i] == infos[1..][i - 1];
      r
  }

  /** Lookup returns the first entry, in declaration order, that has the name. */
  lemma {:induction false} LookupFirst(infos: seq<MethodInfo>, name: string, i: int)
    requires IsFirstMatch(infos, name, i)
    ensures Lookup(infos, name) == Some(infos[i])
  {
    if i > 0 {
      assert infos[0].name != name;
      assert IsFirstMatch(infos[1..], name, i - 1);
      LookupFirst(infos[1..], name, i - 1);
    }
  }

  /**
   * The linear search of a method table (the registry, when called from `main`),
   * returning on the first hit.
   */
  method GetMethodInfo(infos: seq<MethodInfo>, name: string) returns (r: Option<MethodInfo>)
    ensures r == Lookup(infos, name)
    ensures r.Some? ==> exists i :: IsFirstMatch(infos, name, i) && r.value == infos[i]
  {
    var i := 0;
    while i < |infos|
      invariant 0 <= i <= |infos|
      invariant forall j | 0 <= j < i :: infos[j].name != name
    {
      if infos[i].name == name {
        assert IsFirstMatch(infos, name, i);
        LookupFirst(infos, name, i);
        return Some(infos[i]);
      }
      i := i + 1;
    }
    return None;
  }

  /**
   * The index a registry name has, read off its length and its first and third
   * characters, which together already tell all registry names apart.
   */
  ghost function NameIndex(name: string): int {
    if |name| < 3 then -1
    else if |name| == 13 && name[0] == 'G' && name[2] == 't' then 0
    else if |name| == 12 && name[0] == 'G' && name[2] == 't' then 1
    else if |name| == 16 && name[0] == 'G' && name[2] == 't' then 2
    else if |name| == 14 && name[0] == 'G' && name[2] == 't' then 3
    else if |name| == 16 && name[0] == 'F' && name[2] == 'r' then 4
    else if |name| == 11 && name[0] == 'P' && name[2] == 'r' then 5
    else if |name| == 9 && name[0] == 'C' && name[2] == 'e' then 6
    else if |name| == 4 && name[0] == 'P' && name[2] == 'n' then 7
    else if |name| == 16 && name[0] == 'H' && name[2] == 's' then 8
    else if |name| == 10 && name[0] == 'D' && name[2] == 'S' then 9
    else if |name| == 8 && name[0] == 'H' && name[2] == 's' then 10
    else if |name| == 11 && name[0] == 'I' && name[2] == 'T' then 11
    else if |name| == 9 && name[0] == 'A' && name[2] == 'e' then 12
    else if |name| == 12 && name[0] == 'W' && name[2] == 'o' then 13
    else if |name| == 14 && name[0] == 'S' && name[2] == 'r' then 14
    else if |name| == 5 && name[0] == 'G' && name[2] == 'o' then 15
    else if |name| == 22 && name[0] == 'W' && name[2] == 'b' then 16
    else if |name| == 21 && name[0] == 'S' && name[2] == 't' then 17
    else if |name| == 17 && name[0] == 'G' && name[2] == 't' then 18
    else if |name| == 10 && name[0] == 'L' && name[2] == 'n' then 19
    else if |name| == 12 && name[0] == 'U' && name[2] == 'L' then 20
    else if |name| == 18 && name[0] == 'R' && name[2] == 'n' then 21
    else if |name| == 10 && name[0] == 'D' && name[2] == 'c' then 22
    else if |name| == 12 && name[0] == 'I' && name[2] == 'a' then 23
    else if |name| == 13 && name[0] == 'S' && name[2] == 'n' then 24
    else if |name| == 14 && name[0] == 'E' && name[2] == 'a' then 25
    else if |name| == 19 && name[0] == 'D' && name[2] == 's' then 26
    else if |name| == 11 && name[0] == 'I' && name[2] == 'V' then 27
    else if |name| == 10 && name[0] == 'T' && name[2] == 'r' then 28
    else if |name| == 10 && name[0] == 'T' && name[2] == 'a' then 29
    else if |name| == 19 && name[0] == 'R' && name[2] == 'n' then 30
    else if |name| == 19 && name[0] == 'Y' && name[2] == 'u' then 31
    else if |name| == 12 && name[0] == 'Y' && name[2] == 'u' then 32
    else if |name| == 8 && name[0] == 'I' && name[2] == 'L' then 33
    else if |name| == 14 && name[0] == 'B' && name[2] == 't' then 34
    else if |name| == 15 && name[0] == 'E' && name[2] == 'h' then 35
    else if |name| == 17 && name[0] == 'C' && name[2] == 'r' then 36
    else if |name| == 13 && name[0] == 'C' && name[2] == 'r' then 37
    else if |name| == 14 && name[0] == 'W' && name[2] == 'a' then 38
    else if |name| == 15 && name[0] == 'Q' && name[2] == 'C' then 39
    else if |name| == 10 && name[0] == 'T' && name[2] == 'x' then 40
    else if |name| == 13 && name[0] == 'P' && name[2] == 'o' then 41
    else if |name| == 17 && name[0] == 'P' && name[2] == 's' then 42
    else if |name| == 21 && name[0] == 'R' && name[2] == 'n' then 43
    else if |name| == 19 && name[0] == 'L' && name[2] == 'c' then 44
    else if |name| == 8 && name[0] == 'E' && name[2] == 't' then 45
    else if |name| == 9 && name[0] == 'G' && name[2] == 'F' then 46
    else -1
  }

  lemma NameIndexAt(i: int)
    requires 0 <= i < |MethodInfos|
    ensures NameIndex(MethodInfos[i].name) == i
  {
    if i < 8 { NameIndexInBlock0(i); }
    else if i < 16 { NameIndexInBlock1(i); }
    else if i < 24 { NameIndexInBlock2(i); }
    else if i < 32 { NameIndexInBlock3(i); }
    else if i < 40 { NameIndexInBlock4(i); }
    else { NameIndexInBlock5(i); }
  }

  // The cases are split into groups of a few entries so that each proof stays
  // within the solver's resource limit.
  lemma NameIndexInBlock0(i: int)
    requires 0 <= i < 8
    ensures NameIndex(MethodInfos[i].name) == i
  {
    if i == 0 { }
    else if i == 1 { }
    else if i == 2 { }
    else if i == 3 { }
    else if i == 4 { }
    else if i == 5 { }
    else if i == 6 { }
    else if i == 7 { }
  }

  lemma NameIndexInBlock1(i: int)
    requires 8 <= i < 16
    ensures NameIndex(MethodInfos[i].name) == i
  {
    if i == 8 { }
    else if i == 9 { }
    else if i == 10 { }
    else if i == 11 { }
    else if i == 12 { }
    else if i == 13 { }
    else if i == 14 { }
    else if i == 15 { }
  }

  lemma NameIndexInBlock2(i: int)
    requires 16 <= i < 24
    ensures NameIndex(MethodInfos[i].name) == i
  {
    if i == 16 { }
    else if i == 17 { }
    else if i == 18 { }
    else if i == 19 { }
    else if i == 20 { }
    else if i == 21 { }
    else if i == 22 { }
    else if i == 23 { }
  }

  lemma NameIndexInBlock3(i: int)
    requires 24 <= i < 32
    ensures NameIndex(MethodInfos[i].name) == i
  {
    if i == 24 { }
    else if i == 25 { }
    else if i == 26 { }
    else if i == 27 { }
    else if i == 28 { }
    else if i == 29 { }
    else if i == 30 { }
    else if i == 31 { }
  }

  lemma NameIndexInBlock4(i: int)
    requires 32 <= i < 40
    ensures NameIndex(MethodInfos[i].name) == i
  {
    if i == 32 { }
    else if i == 33 { }
    else if i == 34 { }
    else if i == 35 { }
    else if i == 36 { }
    else if i == 37 { }
    else if i == 38 { }
    else if i == 39 { }
  }

  lemma NameIndexInBlock5(i: int)
    requires 40 <= i < 47
    ensures NameIndex(MethodInfos[i].name) == i
  {
    if i == 40 { }
    else if i == 41 { }
    else if i == 42 { }
    else if i == 43 { }
    else if i == 44 { }
    else if i == 45 { }
    else if i == 46 { }
  }

  /** No two registry entries share a name. */
  lemma NamesDistinct()
    ensures forall i, j | 0 <= i < j < |MethodInfos| :: MethodInfos[i].name != MethodInfos[j].name
  {
    forall i, j | 0 <= i < j < |MethodInfos|
      ensures MethodInfos[i].name != MethodInfos[j].name
    {
      NameIndexAt(i);
      NameIndexAt(j);
    }
  }

  /** Looking up any registered name returns the entry with that name. */
  lemma LookupRegistered(i: int)
    requires 0 <= i < |MethodInfos|
    ensures Lookup(MethodInfos, MethodInfos[i].name) == Some(MethodInfos[i])
  {
    NamesDistinct();
    LookupFirst(MethodInfos, MethodInfos[i].name, i);
  }
}

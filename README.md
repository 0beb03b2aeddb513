# c99 API client: table-driven request dispatch

The c99 helper is a thin client for one remote JSON API, written three times: a
Go command-line program (`c99.go`), a Python class with a command line
(`c99.py`) and a PHP library class (`C99.php`). Every API method is a binding
that turns positional arguments into an endpoint path and a map of remote query
keys. A shared request routine then adds the API key and `json=true` and sends
one GET to `https://api.c99.nl/<endpoint>`. The Go program also keeps a
registry of method descriptors (name, description, typed parameters with a
required flag). It uses the registry to list the methods, to reject unknown
names and short argument lists, and to print usage text.

This project models that dispatch in Dafny, one module per concern:

- `Wrappers`: Option and Result.
- `Api`: what all three clients share. This covers the base URL, the `key` and `json` parameters, how a Go binding maps arguments to keys (`Translation`, `ZipMap`, `KeepSupplied`), the key/flag injection (`Inject`), the network as a `fetch` oracle, and `Execute`.
- `Registry`: the Go `methodInfos` table and `getMethodInfo`.
- `Usage`: the text `printMethodUsage` and `list` print, as strings.
- `GoClient`: the 47 Go bindings as a table, `main`'s dispatch, the `C99` struct and `makeRequest`.
- `Dict`: insertion-ordered dictionaries, i.e. a Python dict or a PHP array with string keys. It provides assignment (`Put`) and the unordered view (`ToMap`) that links them to the Go maps.
- `Script`: what the Python and PHP classes share. This covers dynamically typed values (string, integer, None/null), signatures with trailing defaults, and the ordered query a method writes.
- `PyClient`: the Python bindings, Python's argument binding, the `C99` class and its command line.
- `PhpClient`: the PHP bindings, PHP's argument binding, the `C99` class and its `curl`/`json_decode` behaviour.

Bindings are data, one row per source method in declaration order, and a
generic translation applies them. The three tables are proved to agree: the
Python table matches the Go table entry by entry, and the PHP table equals the
Python table. The network, the JSON decoder and the PHP query-string encoder
are function parameters. Requests that were sent are recorded in a ghost
`sent` field of each client object.

## Model

| member | source | states |
|---|---|---|
| Registry.Lookup | c99.go:663-670 | None exactly when no descriptor has the name; otherwise a descriptor of the table with that name |
| Registry.LookupFirst | c99.go:663-670 | the first descriptor in declaration order with the name is the one returned |
| Registry.GetMethodInfo | c99.go:663-670 | the early-return loop over a table returns the first entry with the name, and None exactly when no entry has it |
| Registry.NamesDistinct | c99.go:323-661 | no two registry entries share a name |
| Registry.LookupRegistered | c99.go:323-670 | looking up any registered name returns its own descriptor |
| Usage.Placeholder | c99.go:675-679 | a required parameter is shown as `<name> `, an optional one as `[name] ` |
| Usage.PrintEach | c99.go:673-689 | printing the pieces one after another yields all of them, in order |
| Usage.PrintMethodUsage | c99.go:672-690 | the two loops produce the usage line, the description and one line per parameter |
| Usage.OptionalPairShown | c99.go:675-679 | two optional parameters appear as `[first] [second] ` |
| Usage.UsageLineShowsParam | c99.go:673-680 | every parameter's placeholder appears in the usage line, at its own offset |
| Usage.ParamSectionShowsParam | c99.go:681-689 | every parameter's line `name (type): required/optional` appears in the parameter section |
| Usage.UsageKeepsOrder | c99.go:674-689 | parameters appear in declaration order in both the usage line and the parameter list |
| Usage.ListMethods | c99.go:705-709 | the listing loop produces `Available methods:` and one `name: description` line per table entry |
| Usage.ListingShowsEveryMethod | c99.go:705-709 | every entry of the listed table is shown as its own line, earlier entries before later ones |
| Usage.RandomNumberGeneratorUsage | c99.go:633-640 | RandomNumberGenerator's parameters are optional and shown as `[length] [between] ` |
| Api.ZipMapAt | c99.go:73-320 | in a map literal with distinct keys, each key carries its own argument |
| Api.KeepSuppliedAt | c99.go:293-302 | a key is present exactly when its argument is not the absent value, and then carries it |
| Api.Inject | c99.go:38-40 | after the routine, `key` and `json` hold the API key and `true`, and every other entry is unchanged |
| Api.Execute | c99.go:53-70 | a transport failure, a decode failure, or the decoded body passed through unchanged |
| GoClient.BindsEntryAt | c99.go:73-320 | every registry entry has a binding at the same position with the same name and number of arguments |
| GoClient.BindingWellKeyed | c99.go:73-320 | no binding sends a key twice, reuses a constant's key, or sends `key`/`json` itself |
| GoClient.PositionalQuery | c99.go:73-320 | a positional binding sends each argument under its own key and each constant as given |
| GoClient.RandomNumberParams | c99.go:293-302 | the step-by-step map has `length`/`between` exactly when that argument is non-empty |
| GoClient.FindBinding | c99.go:726-731 | the reflective lookup by name: None exactly when no binding has the name |
| GoClient.FindBindingAt | c99.go:726-731 | each binding is the one found for its own name |
| GoClient.ListIsNotAMethod | c99.go:705-711 | no registry entry is named `list`, so the `list` branch shadows no method |
| GoClient.TablesAligned | c99.go:73-661 | binding i has registry entry i's name and parameter count, and the names are distinct and never `list` |
| GoClient.DispatchInAt | c99.go:713-738 | for a registered name: too few arguments gives its usage, too many panics, otherwise its binding is called |
| GoClient.DispatchInUnknown | c99.go:713-718 | a name other than `list` is not found exactly when no registry entry has it |
| GoClient.DispatchList | c99.go:705-711 | `list` lists the registry whatever the arguments and builds no request |
| GoClient.DispatchUnknown | c99.go:713-718 | a name other than `list` is rejected as not found exactly when no entry has it |
| GoClient.DispatchTooFew | c99.go:720-724 | fewer arguments than declared parameters, optional ones included, is rejected with that entry's usage text |
| GoClient.DispatchTooMany | c99.go:733-738 | more arguments than parameters makes the reflective call panic |
| GoClient.DispatchExact | c99.go:726-738 | exactly as many arguments as parameters calls the entry's own binding with its query |
| GoClient.SubDomainsSendDomain | c99.go:74-76 | GetSubDomains sends `subdomain` as `domain` to `subdomainfinder` |
| GoClient.FirewallResolverSendsUrl | c99.go:94-96 | FirewallResolver sends `domain` as `url` |
| GoClient.PortScannerSendsHost | c99.go:99-101 | PortScanner sends `ip` as `host` |
| GoClient.PingSendsHost | c99.go:109-111 | Ping sends `ip` as `host` |
| GoClient.HostnameResolverSendsHost | c99.go:114-116 | HostnameResolver sends `ip` as `host` |
| GoClient.DNSCheckerSendsUrl | c99.go:119-121 | DNSChecker sends `domain` as `url` |
| GoClient.HostToIpAddsServer | c99.go:124-126 | HostToIP sends `host` and the constant `server=US` |
| GoClient.CurrencyConverterKeys | c99.go:254-256 | CurrencyConverter sends `fromCurrency` and `toCurrency` as `from` and `to` |
| GoClient.QrCodeKeys | c99.go:269-271 | QRCodeGenerator sends `str` as `string` |
| GoClient.TwoOptionalQuery | c99.go:293-302 | the query has `length`/`between` exactly when that argument is non-empty, and then carries it |
| GoClient.RandomNumberGeneratorArity | c99.go:720-724 | the two parameters are declared optional, yet zero or one argument is rejected as too few |
| GoClient.RandomNumberGeneratorCall | c99.go:293-302 | with both arguments given, the query that leaves out empty arguments is sent to `randomnumber` |
| GoClient.RandomNumberGeneratorBothEmpty | c99.go:293-302 | with both arguments empty the query holds only `key` and `json` |
| GoClient.EitherOrTakesNothing | c99.go:313-315 | EitherOr always passes the arity check, sends only `key` and `json`, and panics on any argument |
| GoClient.EncodeQuery | c99.go:47-50 | copying the map entry by entry, in any order, yields the same map |
| GoClient.C99.constructor | c99.go:31-36 | the key is the one given and the base URL is `https://api.c99.nl/` |
| GoClient.C99.MakeRequest | c99.go:38-71 | the caller's map gains `key` and `json`, and exactly one GET is sent to base URL plus endpoint with that map |
| GoClient.InvokeCall | c99.go:53-70 | a dispatched call ends in a transport error, a decode error, or the decoded value unchanged; any other dispatch result sends nothing |
| GoClient.Resolve | c99.go:705-738 | the step-by-step `list`/lookup/arity/binding sequence computes the dispatch result; the text printed is the listing for `list`, the two `Error: Method ... not found` lines for an unknown or unbound method, the `Error: Not enough arguments` line followed by the usage for too few arguments, and nothing before a call |
| GoClient.Run | c99.go:726-750 | after dispatch, nothing is sent unless a binding is called, and then exactly its request with the key and the flag |
| GoClient.RunCommand | c99.go:703-750 | one run over the client's own tables: its outcome is `Invoke`, it sends a request only for a call, and it prints the listing or the error lines (with the usage for too few arguments) that `main` prints |
| Dict.PutEffect | c99.py:12-13 | assignment sets one key, keeps every other entry in place, and appends a new key at the end |
| Dict.SetKeyAndFlagView | c99.py:11-13 | setting `key` then `json` on a dict has the Go routine's effect on the unordered view |
| Dict.SetKeyAndFlagKeeps | c99.py:11-13 | every caller entry other than `key` and `json` keeps its place and value |
| Dict.SetKeyAndFlagAppends | c99.py:11-13 | when neither key was there, `key` and then `json` are appended after the caller's entries |
| Dict.ZipView | c99.py:19-217 | an ordered dict literal has the same view as the Go map literal |
| Dict.SuppliedView | c99.py:195-202 | a dict filled entry by entry has the same view as the Go step-by-step map |
| Dict.GetView | C99.php:11 | reading a key of an array with unique keys reads its value, or nothing when it is missing |
| Script.BuildView | c99.py:19-217 | order aside, a method's query is the positional map plus the constants, or the map of supplied values |
| Script.FindScriptFirst | c99.py:238-239 | a name carried by no earlier method finds its own method |
| PyClient.PyNamesDistinct | c99.py:19-217 | no two API methods of the Python class share a name |
| PyClient.FindPyBinding | c99.py:238-239 | looking a method up by its own name finds it |
| PyClient.MatchesGoAt | c99.py:19-217 | the i-th Python method has the i-th Go binding's endpoint, keys, kind and constants |
| PyClient.PyDispatchUnknown | c99.py:238-247 | a name reaches no method exactly when no API method carries it |
| PyClient.PyDispatchAt | c99.py:238-243 | a call is a TypeError exactly for too few or too many arguments; otherwise the defaults fill the rest |
| PyClient.SendsWhatGoSends | c99.py:19-217 | with one command-line string per parameter, a positional method sends, order aside, what its Go binding sends |
| Script.RandomNumberQuery | c99.py:195-202 | a key is written exactly when its value is not None, in parameter order |
| PyClient.RandomNumberGeneratorQuery | c99.py:195-202 | the method is found by name and sends a key exactly when its value is not None, in parameter order |
| PyClient.RandomNumberGeneratorNoArguments | c99.py:195-202 | without arguments no method-specific key is sent |
| PyClient.RandomNumberGeneratorLengthOnly | c99.py:195-202 | with only a length, `length` alone is sent, `between` defaulting to None |
| PyClient.RandomNumberGeneratorEmptyStrings | c99.py:198-201 | empty strings are sent by Python, while the Go client leaves them out |
| PyClient.RandomInfoGeneratorDefault | c99.py:139-141 | without an argument, `gender=all` is sent |
| PyClient.IpLoggerDefault | c99.py:151-153 | without an argument, `action=viewloggers` is sent |
| PyClient.WeatherCheckerDefault | c99.py:171-173 | with only the location, `unit=C` is sent after it |
| PyClient.QrCodeGeneratorDefault | c99.py:175-177 | with only the string, the integer `size=150` is sent after it |
| PyClient.LicenseKeyGeneratorDefault | c99.py:204-209 | with only the template, the integer `amount=1` is sent after it |
| PyClient.GetSubDomainsSendsDomain | c99.py:19-21 | the subdomain is sent as `domain` |
| PyClient.HostToIpAddsServer | c99.py:59-61 | the host is sent, then `server=US` |
| PyClient.CurrencyConverterKeys | c99.py:163-165 | the currencies are sent as `from` and `to` |
| PyClient.EitherOrSendsNothing | c99.py:211-213 | without arguments the dict is empty; any argument is a TypeError |
| PyClient.C99.constructor | c99.py:7-9 | the key is the one given and the base URL is `https://api.c99.nl/` |
| PyClient.C99.MakeRequest | c99.py:11-17 | the caller's dict gains `key` and `json` in place, and one GET goes to base URL plus endpoint with it |
| PyClient.C99.RandomNumberGenerator | c99.py:195-202 | the dict built step by step is the method's query, sent with the key and the flag |
| PyClient.Run | c99.py:238-243 | the named method is called with the command-line strings; nothing is sent unless they bind |
| PhpClient.SameMethodsAsPython | C99.php:38-281 | the PHP class has the same methods, endpoints, keys and defaults as the Python class |
| PhpClient.AgreesWithPython | C99.php:38-281 | where Python binds the arguments PHP builds the same query; for lower-case names PHP finds a method exactly when Python does and fails only for too few arguments; a name with a capital letter reaches no Python method |
| PhpClient.Lower | C99.php:38-281 | ASCII case folding of a method name, as PHP applies to method calls: no capital is left and lower-case letters are kept |
| PhpClient.MethodNamesLowerCase | C99.php:38-281 | every public method of the class is declared in lower case, so looking up the folded name is PHP's case-insensitive lookup |
| PhpClient.IgnoresCase | C99.php:38-281 | two names that fold to the same name reach the same method with the same query |
| PhpClient.PhpPing | C99.php:73-76 | ping sends its argument as `host` |
| PhpClient.PingInCapitals | C99.php:73-76 | `PING` runs `ping()` and sends `host`, while Python's exact lookup finds no method |
| PhpClient.IgnoresExtraArguments | C99.php:38-281 | once every parameter has an argument, further arguments change nothing |
| PhpClient.PhpDefaults | C99.php:188-271 | the defaults `gender=all`, `action=viewloggers`, `unit=C`, `size=150` and `amount=1` are sent |
| PhpClient.PhpKeyTranslation | C99.php:38-221 | `domain` for the subdomain, `host` plus `server=US`, and `from`/`to` for the currencies |
| PhpClient.PhpEitherOr | C99.php:273-276 | either_or sends no method-specific key, whatever arguments it gets |
| PhpClient.PhpRandomNumberGenerator | C99.php:257-263 | a key is sent exactly when its value is not null, in parameter order |
| PhpClient.PhpExecute | C99.php:14-35 | the decoded body; a failed transfer returns what an empty body decodes to |
| PhpClient.PhpExecuteAgainstExecute | C99.php:14-35 | compared with Go and Python's `Execute`: the same decoded value and the same decode error, but a transport failure is lost and the caller gets what an empty body from a reachable server would give |
| PhpClient.C99.constructor | C99.php:8-12 | the key is the `apikey` entry of the configuration array, null when missing |
| PhpClient.C99.MakeRequest | C99.php:26-36 | a copy of the array gains `key` and `json`, and is encoded after `?` in the URL of one GET |
| PhpClient.C99.RandomNumberGenerator | C99.php:257-263 | the array built step by step is the method's query, sent with the key and the flag |
| PhpClient.CallMethod | C99.php:38-281 | a call by name, matched without regard to ASCII case, sends nothing unless the arguments bind, and then exactly its request |

## Left out

- HTTP transport is not modelled: `http.Get` and reading the body in Go, `requests.get` in Python, and curl with its SSL options in PHP. It is network I/O, so it is a `fetch` parameter that fails or returns a body. A Go body-read error counts as a transport failure.
- JSON decoding and pretty-printing are not modelled: `json.Unmarshal`, `response.json()`, `json_decode`, `MarshalIndent` and `json.dumps`. They are library calls, so decoding is a `decode` parameter and its result is passed through unchanged. Output formatting is not modelled.
- Query-string encoding is not modelled as an encoding:
  - Go's `url.Values.Encode` (keys sorted) and the encoding `requests` does (it drops None values) are left out. Go queries are maps; Python queries are ordered dicts.
  - PHP's `http_build_query` is a `buildQuery` parameter. So its dropping of null values is not modelled, for example a missing `apikey`.
- Go's `url.Parse` error is not modelled. The base URL and every endpoint are constants.
- The process boundary is not modelled:
  - Go's check for fewer than three command-line words, the argument parsing, exit codes, and the `Executing:`/`Description:` lines of the Python command line.
  - The PHP framework hook `get_instance`.
  - The Go usage and listing text are modelled as strings, not as printed output.
  - What Go prints after the call is not modelled: the `Error:` line for a failed request, the indented JSON, and the runtime's panic message when too many arguments reach `Call`. The text printed before the call is modelled.
- The Python `--list` listing is not modelled. It walks `dir(C99)` through reflection and prints docstrings.
- Python's `hasattr`/`getattr` reaches any attribute: `make_request`, `key`, `base_url` and the dunder methods. Only the 47 API methods are modelled; any other name is `NoSuchMethod`.
- PHP callers reaching the private `curl_get`/`make_request` are not modelled, and neither are arguments of other types (arrays, floats, objects).
- PhpClient.C99.constructor: the configuration is an array. The default argument `''` is a string, and indexing it is a PHP type error, which is not modelled.
- GoClient.C99.MakeRequest, PyClient.C99.MakeRequest: the GET itself is recorded only in the ghost `sent` history. Response headers and status codes are not modelled; the body alone reaches the decoder.

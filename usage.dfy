/**
 * The text the Go command-line client prints: the usage of one method (shown when
 * too few arguments are given) and the listing of every method (for "list").
 * Both are modelled as the strings that would be printed.
 */
module Usage {
  import opened Registry

  /** `sub` appears in `s` starting at index `at`. */
  ghost predicate Occurs(sub: string, s: string, at: int) {
    0 <= at && at + |sub| <= |s| && s[at..at + |sub|] == sub
  }

  /** f(xs[0]) + f(xs[1]) + ... + f(xs[|xs| - 1]). */
  function JoinMap<T>(xs: seq<T>, f: T -> string): string
    decreases |xs|
  {
    if xs == [] then "" else JoinMap(xs[..|xs| - 1], f) + f(xs[|xs| - 1])
  }

  lemma {:induction false} JoinMapAppend<T>(xs: seq<T>, ys: seq<T>, f: T -> string)
    ensures JoinMap(xs + ys, f) == JoinMap(xs, f) + JoinMap(ys, f)
    decreases |ys|
  {
    if ys == [] {
      assert xs + ys == xs;
    } else {
      var n := |ys| - 1;
      assert (xs + ys)[..|xs + ys| - 1] == xs + ys[..n];
      JoinMapAppend(xs, ys[..n], f);
    }
  }

  /** The piece for xs[i] stands right after the pieces for xs[..i]. */
  lemma JoinMapOccurs<T>(xs: seq<T>, f: T -> string, i: int)
    requires 0 <= i < |xs|
    ensures Occurs(f(xs[i]), JoinMap(xs, f), |JoinMap(xs[..i], f)|)
  {
    assert xs == xs[..i] + [xs[i]] + xs[i + 1..];
    JoinMapAppend(xs[..i] + [xs[i]], xs[i + 1..], f);
    JoinMapAppend(xs[..i], [xs[i]], f);
    assert JoinMap([xs[i]], f) == f(xs[i]) by {
      assert [xs[i]][..0] == [];
    }
  }

  /** When no piece is empty, later elements start strictly later. */
  lemma JoinMapOrdered<T>(xs: seq<T>, f: T -> string, i: int, j: int)
    requires 0 <= i < j <= |xs|
    requires forall x :: |f(x)| > 0
    ensures |JoinMap(xs[..i], f)| < |JoinMap(xs[..j], f)|
  {
    assert xs[..j] == xs[..i] + xs[i..j];
    JoinMapAppend(xs[..i], xs[i..j], f);
    assert xs[i..j] == xs[i..j - 1] + [xs[j - 1]];
    JoinMapAppend(xs[i..j - 1], [xs[j - 1]], f);
    assert [xs[j - 1]][..0] == [];
  }

  /** A parameter on the usage line: `<name> ` when required, `[name] ` when optional. */
  function Placeholder(p: ParamInfo): (s: string)
    ensures |s| == |p.name| + 3
    ensures s[0] == (if p.required then '<' else '[')
    ensures s[1..|p.name| + 1] == p.name
    ensures s[|p.name| + 1] == (if p.required then '>' else ']') && s[|p.name| + 2] == ' '
  {
    if p.required then "<" + p.name + "> " else "[" + p.name + "] "
  }

  /** The label of a parameter in the parameter list. */
  function Requirement(p: ParamInfo): string {
    if p.required then "required" else "optional"
  }

  /** One line of the parameter list: name, declared type and label. */
  function ParamLine(p: ParamInfo): string {
    "  " + p.name + " (" + p.typ + "): " + Requirement(p) + "\n"
  }

  /** The first printed line: the method name, then every parameter in order. */
  function UsageLine(info: MethodInfo): string {
    "Usage: " + info.name + " " + JoinMap(info.params, Placeholder) + "\n"
  }

  /** The description, then one line per parameter. */
  function ParamSection(info: MethodInfo): string {
    "Description: " + info.description + "\n" + "Parameters:\n" + JoinMap(info.params, ParamLine)
  }

  /** Everything printed for a method's usage. */
  function UsageText(info: MethodInfo): string {
    UsageLine(info) + ParamSection(info)
  }

  /** The pieces printed one after another, as each printing loop does. */
  method PrintEach<T>(xs: seq<T>, f: T -> string) returns (out: string)
    ensures out == JoinMap(xs, f)
  {
    out := "";
    var i := 0;
    while i < |xs|
      invariant 0 <= i <= |xs|
      invariant out == JoinMap(xs[..i], f)
    {
      assert xs[..i + 1][..i] == xs[..i];
      out := out + f(xs[i]);
      i := i + 1;
    }
    assert xs[..i] == xs;
  }

  /** The usage text built piece by piece: the placeholder loop, then the parameter loop. */
  method PrintMethodUsage(info: MethodInfo) returns (out: string)
    ensures out == UsageText(info)
  {
    var line := PrintEach(info.params, Placeholder);
    var list := PrintEach(info.params, ParamLine);
    var usageLine := "Usage: " + info.name + " " + line + "\n";
    var section := "Description: " + info.description + "\n" + "Parameters:\n" + list;
    out := usageLine + section;
  }

  /** `sub` still appears, shifted, once something is put in front. */
  lemma OccursAfter(sub: string, pre: string, s: string, at: int)
    requires Occurs(sub, s, at)
    ensures Occurs(sub, pre + s, |pre| + at)
  {
    assert (pre + s)[|pre| + at..|pre| + at + |sub|] == s[at..at + |sub|];
  }

  /** `sub` still appears, unmoved, once something is put behind. */
  lemma OccursBefore(sub: string, s: string, post: string, at: int)
    requires Occurs(sub, s, at)
    ensures Occurs(sub, s + post, at)
  {
    assert (s + post)[at..at + |sub|] == s[at..at + |sub|];
  }

  /** The piece for xs[i] appears inside any text that wraps the joined pieces. */
  lemma JoinMapShown<T>(s: string, pre: string, xs: seq<T>, f: T -> string, post: string, i: int)
    requires 0 <= i < |xs| && s == pre + JoinMap(xs, f) + post
    ensures Occurs(f(xs[i]), s, |pre| + |JoinMap(xs[..i], f)|)
  {
    var at := |JoinMap(xs[..i], f)|;
    JoinMapOccurs(xs, f, i);
    OccursAfter(f(xs[i]), pre, JoinMap(xs, f), at);
    OccursBefore(f(xs[i]), pre + JoinMap(xs, f), post, |pre| + at);
  }

  /** Where the usage line shows parameter i. */
  function PlaceholderAt(info: MethodInfo, i: int): int
    requires 0 <= i <= |info.params|
  {
    |"Usage: " + info.name + " "| + |JoinMap(info.params[..i], Placeholder)|
  }

  /** Where the parameter list shows parameter i. */
  function ParamLineAt(info: MethodInfo, i: int): int
    requires 0 <= i <= |info.params|
  {
    |UsageLine(info)| + |"Description: " + info.description + "\n" + "Parameters:\n"|
      + |JoinMap(info.params[..i], ParamLine)|
  }

  /** The usage line shows parameter i, marked required or optional. */
  lemma UsageLineShowsParam(info: MethodInfo, i: int)
    requires 0 <= i < |info.params|
    ensures Occurs(Placeholder(info.params[i]), UsageText(info), PlaceholderAt(info, i))
  {
    var head := "Usage: " + info.name + " ";
    JoinMapShown(UsageText(info), head, info.params, Placeholder, "\n" + ParamSection(info), i);
  }

  /** The parameter list shows parameter i with its type and label. */
  lemma ParamSectionShowsParam(info: MethodInfo, i: int)
    requires 0 <= i < |info.params|
    ensures Occurs(ParamLine(info.params[i]), UsageText(info), ParamLineAt(info, i))
  {
    var pre := UsageLine(info) + ("Description: " + info.description + "\n" + "Parameters:\n");
    JoinMapShown(UsageText(info), pre, info.params, ParamLine, "", i);
  }

  /** Both the usage line and the parameter list follow declaration order. */
  lemma UsageKeepsOrder(info: MethodInfo, i: int, j: int)
    requires 0 <= i < j < |info.params|
    ensures PlaceholderAt(info, i) < PlaceholderAt(info, j)
    ensures ParamLineAt(info, i) < ParamLineAt(info, j)
  {
    JoinMapOrdered(info.params, Placeholder, i, j);
    JoinMapOrdered(info.params, ParamLine, i, j);
  }

  /** One line of the method listing: name and description. */
  function ListingLine(info: MethodInfo): string {
    "  " + info.name + ": " + info.description + "\n"
  }

  /** The first line printed for "list". */
  const ListingHeader: string := "Available methods:\n"

  /** Everything printed for "list" over a table of methods. */
  function Listing(infos: seq<MethodInfo>): string {
    ListingHeader + JoinMap(infos, ListingLine)
  }

  /** The listing built line by line over a method table (the registry, when called from `main`). */
  method ListMethods(infos: seq<MethodInfo>) returns (out: string)
    ensures out == Listing(infos)
  {
    var body := PrintEach(infos, ListingLine);
    out := ListingHeader + body;
  }

  /** The listing shows every entry of the table, in declaration order. */
  lemma ListingShowsEveryMethod(infos: seq<MethodInfo>, i: int, j: int)
    requires 0 <= i < j < |infos|
    ensures Occurs(ListingLine(infos[i]), Listing(infos), |ListingHeader| + |JoinMap(infos[..i], ListingLine)|)
    ensures Occurs(ListingLine(infos[j]), Listing(infos), |ListingHeader| + |JoinMap(infos[..j], ListingLine)|)
    ensures |JoinMap(infos[..i], ListingLine)| < |JoinMap(infos[..j], ListingLine)|
  {
    var pre := ListingHeader;
    JoinMapShown(Listing(infos), pre, infos, ListingLine, "", i);
    JoinMapShown(Listing(infos), pre, infos, ListingLine, "", j);
    JoinMapOrdered(infos, ListingLine, i, j);
  }

  /** Two optional parameters are shown in brackets, in order. */
  lemma OptionalPairShown(first: string, second: string)
    ensures JoinMap([ParamInfo(first, "string", false), ParamInfo(second, "string", false)], Placeholder)
      == ("[" + first + "] ") + ("[" + second + "] ")
  {
    var ps := [ParamInfo(first, "string", false), ParamInfo(second, "string", false)];
    assert ps[..1] == [ps[0]] && [ps[0]][..0] == [];
    assert JoinMap(ps[..1], Placeholder) == "" + Placeholder(ps[0]) == Placeholder(ps[0]);
  }

  /** The usage line of the method whose two parameters are both optional. */
  lemma RandomNumberGeneratorUsage()
    ensures MethodInfos[43].name == "RandomNumberGenerator"
    ensures JoinMap(MethodInfos[43].params, Placeholder) == "[length] [between] "
  {
    assert MethodInfos[43] == MethodInfo("RandomNumberGenerator", "Generate a random number.",
      [ParamInfo("length", "string", false), ParamInfo("between", "string", false)]);
    OptionalPairShown("length", "between");
  }
}

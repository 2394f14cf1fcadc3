/** The command-line parser of src/ArgParser.hpp as pure functions: the
    declarations the parser holds, the registration checks, the four passes
    of `parse` over the `visit` markers, the final "excess" and "missing"
    checks and the look-ups done after parsing.

    Every `std::exit(-1)` of the source is an `Err` (or a `Failed` status)
    carrying a ParserError; `std::exit(0)` after a short-circuit callback is
    the status `ShortCircuited(k)`, naming the option whose callback runs.
    A command-line token is a `string` without NUL characters, so `strlen`
    is `|t|`, `strcmp` is `==` and `t[0]` of an empty token is the
    terminator '\0' (see Head). */
module ArgSpec {
  import opened Wrappers

  /** The type recorded for an option without a value (a flag). */
  const BoolType: string := "bool"

  datatype ScOption = ScOption(shortName: string, longName: string, description: string)

  datatype Opt = Opt(shortName: string, longName: string, description: string, typeName: string, value: string)

  datatype Argument = Argument(name: string, description: string, typeName: string, value: string)

  /** The four vectors of an ArgParser. */
  datatype Declarations = Declarations(
    scOptions: seq<ScOption>,
    options: seq<Opt>,
    arguments: seq<Argument>,
    namedArguments: seq<Argument>)

  /** One constructor per `std::exit(-1)` site. */
  datatype ParserError =
    | EmptyOptionNames
    | MalformedShortName(name: string)
    | MalformedLongName(name: string)
    | ShortNameTaken(name: string)
    | LongNameTaken(name: string)
    | ArgumentNameTaken(name: string)
    | MissingOptionValue(token: string)
    | AggregatedValueOption(token: string)
    | UnknownOption(token: string)
    | UnknownNamedArgument(token: string)
    | ExcessArgument(token: string)
    | MissingArgument(name: string)
    | ValueMismatch
    | NameNotFound(name: string)

  /** How `parse` ends: it returns, a short-circuit callback fires and the
      process exits with 0, or it exits with -1. */
  datatype Status = Parsed | ShortCircuited(index: nat) | Failed(error: ParserError)

  /** The values a pass writes (option or argument list) and the markers. */
  datatype Progress<T> = Progress(items: seq<T>, visit: seq<bool>)

  // ---------------------------------------------------------------------
  // Searching
  // ---------------------------------------------------------------------

  /** Index of the first element of `s[k..]` that satisfies `p`: the source's
      loops that stop at their first match. */
  function FirstFrom<T>(s: seq<T>, p: T -> bool, k: nat): (r: Option<nat>)
    requires k <= |s|
    ensures r.Some? ==> k <= r.value < |s| && p(s[r.value])
    ensures r.Some? ==> forall j :: k <= j < r.value ==> !p(s[j])
    ensures r.None? ==> forall j :: k <= j < |s| ==> !p(s[j])
    decreases |s| - k
  {
    if k == |s| then None
    else if p(s[k]) then Some(k)
    else FirstFrom(s, p, k + 1)
  }

  function First<T>(s: seq<T>, p: T -> bool): Option<nat> {
    FirstFrom(s, p, 0)
  }

  // The tests those loops make, named so that a loop and its specification
  // search with the same predicate.

  function ScLongIs(t: string): ScOption -> bool {
    (o: ScOption) => o.longName == t
  }

  function ScShortEnds(c: char): ScOption -> bool {
    (o: ScOption) => EndsWith(o.shortName, c)
  }

  function ShortEnds(c: char): Opt -> bool {
    (o: Opt) => EndsWith(o.shortName, c)
  }

  function IsChar(c: char): char -> bool {
    (x: char) => x == c
  }

  function Unset(): bool -> bool {
    (b: bool) => !b
  }

  function HasNoValue(): Argument -> bool {
    (a: Argument) => |a.value| == 0
  }

  function OptionNamed(name: string): Opt -> bool {
    (o: Opt) => o.shortName == name || o.longName == name
  }

  function ArgumentNamed(name: string): Argument -> bool {
    (a: Argument) => a.name == name
  }

  // ---------------------------------------------------------------------
  // Tokens
  // ---------------------------------------------------------------------

  /** `t[0]` of a C string: the terminator for the empty token. */
  function Head(t: string): char {
    if |t| == 0 then '\0' else t[0]
  }

  /** `name.back() == c`. The back of an empty name is undefined behaviour in
      the source; here it never matches. */
  predicate EndsWith(name: string, c: char) {
    |name| > 0 && name[|name| - 1] == c
  }

  /** `strncmp(t, "--", 2) == 0`. */
  predicate IsLongToken(t: string) {
    |t| >= 2 && t[0] == '-' && t[1] == '-'
  }

  /** The test `i + 1 < argc && argv[i + 1][0] != '-'` for an option value. */
  predicate ValueFollows(argv: seq<string>, i: nat) {
    i + 1 < |argv| && Head(argv[i + 1]) != '-'
  }

  /** `std::vector<bool> visit(argc, false); visit[0] = true;` */
  function InitialVisit(n: nat): (v: seq<bool>)
    requires n >= 1
    ensures |v| == n && v[0]
    ensures forall i :: 1 <= i < n ==> !v[i]
  {
    seq(n, i => i == 0)
  }

  // ---------------------------------------------------------------------
  // Registration
  // ---------------------------------------------------------------------

  predicate ShortNameWellFormed(s: string) {
    |s| >= 2 && s[0] == '-' && s[1] != '-'
  }

  predicate LongNameWellFormed(l: string) {
    |l| >= 3 && l[..2] == "--" && l[2] != '-'
  }

  /** The format half of `check_option_name`. */
  function FormatError(s: string, l: string): Option<ParserError> {
    if |s| == 0 && |l| == 0 then Some(EmptyOptionNames)
    else if |s| != 0 && !ShortNameWellFormed(s) then Some(MalformedShortName(s))
    else if |l| != 0 && !LongNameWellFormed(l) then Some(MalformedLongName(l))
    else None
  }

  /** (short name, long name) of every registered option, short-circuit
      options first, in the order `check_option_name` visits them. */
  function NamePairs(d: Declarations): (pairs: seq<(string, string)>)
    ensures |pairs| == |d.scOptions| + |d.options|
    ensures forall k :: 0 <= k < |d.scOptions| ==>
      pairs[k] == (d.scOptions[k].shortName, d.scOptions[k].longName)
    ensures forall k :: 0 <= k < |d.options| ==>
      pairs[|d.scOptions| + k] == (d.options[k].shortName, d.options[k].longName)
  {
    seq(|d.scOptions|, k requires 0 <= k < |d.scOptions| => (d.scOptions[k].shortName, d.scOptions[k].longName))
    + seq(|d.options|, k requires 0 <= k < |d.options| => (d.options[k].shortName, d.options[k].longName))
  }

  /** The existence half of `check_option_name`, from entry k on: the first
      entry whose short name or long name is literally equal decides. */
  function CollisionFrom(pairs: seq<(string, string)>, s: string, l: string, k: nat): (r: Option<ParserError>)
    requires k <= |pairs|
    ensures r.Some? ==> r.value == ShortNameTaken(s) || r.value == LongNameTaken(l)
    decreases |pairs| - k
  {
    if k == |pairs| then None
    else if pairs[k].0 == s then Some(ShortNameTaken(s))
    else if pairs[k].1 == l then Some(LongNameTaken(l))
    else CollisionFrom(pairs, s, l, k + 1)
  }

  /** `check_option_name(s, l)`: None when it returns normally. */
  function OptionNameError(d: Declarations, s: string, l: string): Option<ParserError> {
    if FormatError(s, l).Some? then FormatError(s, l) else CollisionFrom(NamePairs(d), s, l, 0)
  }

  function ArgumentNames(d: Declarations): (names: seq<string>)
    ensures |names| == |d.arguments| + |d.namedArguments|
    ensures forall k :: 0 <= k < |d.arguments| ==> names[k] == d.arguments[k].name
    ensures forall k :: 0 <= k < |d.namedArguments| ==> names[|d.arguments| + k] == d.namedArguments[k].name
  {
    seq(|d.arguments|, k requires 0 <= k < |d.arguments| => d.arguments[k].name)
    + seq(|d.namedArguments|, k requires 0 <= k < |d.namedArguments| => d.namedArguments[k].name)
  }

  /** `check_argument_name(name)`: None when it returns normally. */
  function ArgumentNameError(d: Declarations, name: string): Option<ParserError> {
    if name in ArgumentNames(d) then Some(ArgumentNameTaken(name)) else None
  }

  predicate WellFormedPairs(pairs: seq<(string, string)>) {
    forall i :: 0 <= i < |pairs| ==> FormatError(pairs[i].0, pairs[i].1).None?
  }

  /** No two entries share a short name, nor a long name. */
  predicate DistinctPairs(pairs: seq<(string, string)>) {
    forall i, j :: 0 <= i < j < |pairs| ==> pairs[i].0 != pairs[j].0 && pairs[i].1 != pairs[j].1
  }

  predicate DistinctNames(names: seq<string>) {
    forall i, j :: 0 <= i < j < |names| ==> names[i] != names[j]
  }

  /** What registration through `check_option_name` and
      `check_argument_name` guarantees of the declarations. */
  predicate Registered(d: Declarations) {
    WellFormedPairs(NamePairs(d)) && DistinctPairs(NamePairs(d)) && DistinctNames(ArgumentNames(d))
  }

  // ---------------------------------------------------------------------
  // Pass 1: short-circuit options (`parse_sc_options`)
  // ---------------------------------------------------------------------

  /** The short-circuit option a single token fires, if any. */
  function ScTokenMatch(sc: seq<ScOption>, t: string): (r: Option<nat>)
    ensures r.Some? ==> r.value < |sc|
  {
    if t == "--" then First(sc, ScLongIs(t))
    else if Head(t) == '-' && |t| == 2 then First(sc, ScShortEnds(t[1]))
    else None
  }

  /** The first unvisited token from i on that fires a short-circuit option. */
  function ScFireFrom(sc: seq<ScOption>, argv: seq<string>, visit: seq<bool>, i: nat): (r: Option<nat>)
    requires |visit| == |argv| && i <= |argv|
    ensures r.Some? ==> r.value < |sc|
    decreases |argv| - i
  {
    if i == |argv| then None
    else if !visit[i] && ScTokenMatch(sc, argv[i]).Some? then ScTokenMatch(sc, argv[i])
    else ScFireFrom(sc, argv, visit, i + 1)
  }

  // ---------------------------------------------------------------------
  // Pass 2: options (`parse_options`)
  // ---------------------------------------------------------------------

  /** Everything but the value is kept. */
  predicate SameOptions(a: seq<Opt>, b: seq<Opt>) {
    |a| == |b| && forall k :: 0 <= k < |a| ==> a[k].(value := "") == b[k].(value := "")
  }

  /** Markers only go from false to true. */
  predicate Grows(v: seq<bool>, w: seq<bool>) {
    |v| == |w| && forall j :: 0 <= j < |v| && v[j] ==> w[j]
  }

  /** The loop over all options for the long token argv[i], from option k
      on; it has no `break`, so every option with that long name is set. */
  function LongFrom(opts: seq<Opt>, argv: seq<string>, visit: seq<bool>, i: nat, k: nat): (r: Result<Progress<Opt>, ParserError>)
    requires i < |argv| == |visit| && k <= |opts|
    ensures r.Ok? ==> SameOptions(opts, r.value.items) && Grows(visit, r.value.visit)
    decreases |opts| - k
  {
    if k == |opts| then Ok(Progress(opts, visit))
    else if opts[k].longName != argv[i] then LongFrom(opts, argv, visit, i, k + 1)
    else if opts[k].typeName == BoolType then
      LongFrom(opts[k := opts[k].(value := "1")], argv, visit[i := true], i, k + 1)
    else if !ValueFollows(argv, i) then Err(MissingOptionValue(argv[i]))
    else LongFrom(opts[k := opts[k].(value := argv[i + 1])], argv, visit[i + 1 := true][i := true], i, k + 1)
  }

  /** The short-name search for one letter: the first option whose short
      name ends with it. */
  function ShortMatch(opts: seq<Opt>, c: char): Option<nat> {
    First(opts, ShortEnds(c))
  }

  /** The loop over the letters of the single-dash token argv[i], from
      letter `ind` on; the token is marked visited after its last letter. */
  function ShortFrom(opts: seq<Opt>, argv: seq<string>, visit: seq<bool>, i: nat, ind: nat): (r: Result<Progress<Opt>, ParserError>)
    requires i < |argv| == |visit| && ind <= |argv[i]|
    ensures r.Ok? ==> SameOptions(opts, r.value.items) && Grows(visit, r.value.visit)
    decreases |argv[i]| - ind
  {
    var t := argv[i];
    if ind == |t| then Ok(Progress(opts, visit[i := true]))
    else match ShortMatch(opts, t[ind])
      case None => Err(UnknownOption(t))
      case Some(k) =>
        if opts[k].typeName != BoolType then
          if !ValueFollows(argv, i) then Err(MissingOptionValue(t))
          else if |t| > 2 then Err(AggregatedValueOption(t))
          else ShortFrom(opts[k := opts[k].(value := argv[i + 1])], argv, visit[i + 1 := true], i, ind + 1)
        else ShortFrom(opts[k := opts[k].(value := "1")], argv, visit, i, ind + 1)
  }

  /** One iteration of the token loop of `parse_options`. */
  function OptionToken(opts: seq<Opt>, argv: seq<string>, visit: seq<bool>, i: nat): (r: Result<Progress<Opt>, ParserError>)
    requires i < |argv| == |visit|
    ensures r.Ok? ==> SameOptions(opts, r.value.items) && Grows(visit, r.value.visit)
  {
    if visit[i] then Ok(Progress(opts, visit))
    else if IsLongToken(argv[i]) then LongFrom(opts, argv, visit, i, 0)
    else if Head(argv[i]) == '-' then ShortFrom(opts, argv, visit, i, 1)
    else Ok(Progress(opts, visit))
  }

  /** `parse_options` from token i on. */
  function OptionsFrom(opts: seq<Opt>, argv: seq<string>, visit: seq<bool>, i: nat): (r: Result<Progress<Opt>, ParserError>)
    requires i <= |argv| == |visit|
    ensures r.Ok? ==> SameOptions(opts, r.value.items) && Grows(visit, r.value.visit)
    decreases |argv| - i
  {
    if i == |argv| then Ok(Progress(opts, visit))
    else match OptionToken(opts, argv, visit, i)
      case Err(e) => Err(e)
      case Ok(p) => OptionsFrom(p.items, argv, p.visit, i + 1)
  }

  // ---------------------------------------------------------------------
  // Pass 3: named arguments (`parse_named_arguments`)
  // ---------------------------------------------------------------------

  predicate SameArguments(a: seq<Argument>, b: seq<Argument>) {
    |a| == |b| && forall k :: 0 <= k < |a| ==> a[k].(value := "") == b[k].(value := "")
  }

  /** The loop over the named arguments without `break`: every one called
      `name` receives `value`. */
  function AssignNamed(named: seq<Argument>, name: string, value: string): (r: seq<Argument>)
    ensures SameArguments(named, r)
    ensures forall k :: 0 <= k < |r| ==> r[k].value == if named[k].name == name then value else named[k].value
  {
    seq(|named|, k requires 0 <= k < |named| =>
      if named[k].name == name then named[k].(value := value) else named[k])
  }

  function HasArgument(named: seq<Argument>, name: string): bool {
    exists k :: 0 <= k < |named| && named[k].name == name
  }

  /** One iteration of the token loop of `parse_named_arguments`: a token
      with an '=' is split at its first '='. */
  function NamedToken(named: seq<Argument>, argv: seq<string>, visit: seq<bool>, i: nat): (r: Result<Progress<Argument>, ParserError>)
    requires i < |argv| == |visit|
    ensures r.Ok? ==> SameArguments(named, r.value.items) && Grows(visit, r.value.visit)
  {
    var t := argv[i];
    if visit[i] then Ok(Progress(named, visit))
    else match First(t, IsChar('='))
      case None => Ok(Progress(named, visit))
      case Some(j) =>
        if HasArgument(named, t[..j]) then Ok(Progress(AssignNamed(named, t[..j], t[j + 1..]), visit[i := true]))
        else Err(UnknownNamedArgument(t))
  }

  /** `parse_named_arguments` from token i on. */
  function NamedFrom(named: seq<Argument>, argv: seq<string>, visit: seq<bool>, i: nat): (r: Result<Progress<Argument>, ParserError>)
    requires i <= |argv| == |visit|
    ensures r.Ok? ==> SameArguments(named, r.value.items) && Grows(visit, r.value.visit)
    decreases |argv| - i
  {
    if i == |argv| then Ok(Progress(named, visit))
    else match NamedToken(named, argv, visit, i)
      case Err(e) => Err(e)
      case Ok(p) => NamedFrom(p.items, argv, p.visit, i + 1)
  }

  // ---------------------------------------------------------------------
  // Pass 4: positional arguments (`parse_arguments`)
  // ---------------------------------------------------------------------

  /** The scan for the next unvisited token, bound tested first: the
      first unvisited index at or after `cur`, or |visit| if none. */
  function NextUnvisited(visit: seq<bool>, cur: nat): (p: nat)
    requires cur <= |visit|
    ensures cur <= p <= |visit|
    ensures p < |visit| ==> !visit[p]
    ensures forall j :: cur <= j < p ==> visit[j]
    decreases |visit| - cur
  {
    if cur == |visit| || !visit[cur] then cur else NextUnvisited(visit, cur + 1)
  }

  /** The scan as the source writes it, `while (visit[cur_pos] && cur_pos <
      argc)`: the element is read before the bound is tested. `Err(p)`
      means the loop reads `visit[p]` with p == argc, one past the end. */
  function ScanAsWritten(visit: seq<bool>, cur: nat): (r: Result<nat, nat>)
    requires cur <= |visit|
    decreases |visit| - cur
  {
    if cur == |visit| then Err(cur)
    else if visit[cur] then ScanAsWritten(visit, cur + 1)
    else Ok(cur)
  }

  /** The loop of `parse_arguments`, from argument k and scan position cur
      on: argument k takes the next unvisited token; when none is left the
      pass returns. */
  function PositionalFrom(args: seq<Argument>, argv: seq<string>, visit: seq<bool>, k: nat, cur: nat): (r: Progress<Argument>)
    requires |visit| == |argv| && k <= |args| && cur <= |argv|
    ensures SameArguments(args, r.items) && Grows(visit, r.visit)
    decreases |args| - k
  {
    if k == |args| then Progress(args, visit)
    else
      var p := NextUnvisited(visit, cur);
      if p >= |argv| then Progress(args, visit)
      else PositionalFrom(args[k := args[k].(value := argv[p])], argv, visit[p := true], k + 1, p)
  }

  // ---------------------------------------------------------------------
  // `parse`
  // ---------------------------------------------------------------------

  /** The checks after the four passes: an unvisited token is "excess",
      then an empty named argument, then an empty positional, is "missing". */
  function FinalCheck(d: Declarations, argv: seq<string>, visit: seq<bool>): Status
    requires |visit| == |argv|
  {
    match First(visit, Unset())
    case Some(i) => Failed(ExcessArgument(argv[i]))
    case None =>
      match First(d.namedArguments, HasNoValue())
      case Some(k) => Failed(MissingArgument(d.namedArguments[k].name))
      case None =>
        match First(d.arguments, HasNoValue())
        case Some(k) => Failed(MissingArgument(d.arguments[k].name))
        case None => Parsed
  }

  datatype PassesOutcome = Fired(index: nat) | Stopped(error: ParserError) | Passed(decls: Declarations, visit: seq<bool>)

  /** The four passes of `parse`, in order, from the initial markers. */
  function RunPasses(d: Declarations, argv: seq<string>): (r: PassesOutcome)
    requires |argv| >= 1
    ensures r.Passed? ==> |r.visit| == |argv| && r.visit[0]
  {
    var visit0 := InitialVisit(|argv|);
    match ScFireFrom(d.scOptions, argv, visit0, 0)
    case Some(k) => Fired(k)
    case None =>
      match OptionsFrom(d.options, argv, visit0, 0)
      case Err(e) => Stopped(e)
      case Ok(p1) =>
        match NamedFrom(d.namedArguments, argv, p1.visit, 0)
        case Err(e) => Stopped(e)
        case Ok(p2) =>
          var p3 := PositionalFrom(d.arguments, argv, p2.visit, 0, 0);
          Passed(Declarations(d.scOptions, p1.items, p3.items, p2.items), p3.visit)
  }

  /** `parse(argc, argv)`: its status, and the declarations it leaves behind
      when it returns normally (after an exit they are never read again). */
  function ParseSpec(d: Declarations, argv: seq<string>): (Status, Declarations)
    requires |argv| >= 1
  {
    match RunPasses(d, argv)
    case Fired(k) => (ShortCircuited(k), d)
    case Stopped(e) => (Failed(e), d)
    case Passed(d', visit) => (FinalCheck(d', argv, visit), if FinalCheck(d', argv, visit).Parsed? then d' else d)
  }

  // ---------------------------------------------------------------------
  // Look-ups
  // ---------------------------------------------------------------------

  /** `tolower` on the ASCII letters. */
  function ToLower(c: char): char {
    if 'A' <= c <= 'Z' then (c as int + 32) as char else c
  }

  function ToUpper(c: char): char {
    if 'a' <= c <= 'z' then (c as int - 32) as char else c
  }

  function Lowered(s: string): (r: string)
    ensures |r| == |s| && forall i :: 0 <= i < |s| ==> r[i] == ToLower(s[i])
  {
    seq(|s|, i requires 0 <= i < |s| => ToLower(s[i]))
  }

  function Uppered(s: string): (r: string)
    ensures |r| == |s| && forall i :: 0 <= i < |s| ==> r[i] == ToUpper(s[i])
  {
    seq(|s|, i requires 0 <= i < |s| => ToUpper(s[i]))
  }

  /** `cast_string<bool>`. */
  function CastBool(text: string): Result<bool, ParserError> {
    var t := Lowered(text);
    if t == "true" || t == "1" then Ok(true)
    else if t == "false" || t == "0" then Ok(false)
    else Err(ValueMismatch)
  }

  /** The raw value `get_option` casts: the first option either of whose
      names is `name`. */
  function OptionValue(opts: seq<Opt>, name: string): Result<string, ParserError> {
    match First(opts, OptionNamed(name))
    case Some(k) => Ok(opts[k].value)
    case None => Err(NameNotFound(name))
  }

  /** The raw value `get_argument` casts: named arguments are searched
      before positional ones. */
  function ArgumentValue(d: Declarations, name: string): Result<string, ParserError> {
    match First(d.namedArguments, ArgumentNamed(name))
    case Some(k) => Ok(d.namedArguments[k].value)
    case None =>
      match First(d.arguments, ArgumentNamed(name))
      case Some(k) => Ok(d.arguments[k].value)
      case None => Err(NameNotFound(name))
  }
}

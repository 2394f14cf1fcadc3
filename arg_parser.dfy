/** The ArgParser class of src/ArgParser.hpp: four declaration vectors that
    the `add_*` methods append to and `parse` writes values into, with a
    vector of `visit` markers threaded through its passes. Every method is
    proved against its specification in ArgSpec; an error result stands for
    the source's `std::exit(-1)`, after which the parser is never used
    again. */
module ArgParsing {
  import opened Wrappers
  import opened ArgSpec
  import ArgFacts

  /** The source's loops that stop at their first match (a `return` or a
      `break` inside a range-for). */
  method FindFirst<T>(s: seq<T>, p: T -> bool) returns (r: Option<nat>)
    ensures r == First(s, p)
  {
    var k := 0;
    while k < |s| && !p(s[k])
      invariant 0 <= k <= |s|
      invariant FirstFrom(s, p, k) == First(s, p)
    {
      k := k + 1;
    }
    r := if k < |s| then Some(k) else None;
  }

  /** The existence loops of `check_option_name`, over the registered
      (short name, long name) pairs in the order they are visited. */
  method FindNameClash(pairs: seq<(string, string)>, s: string, l: string) returns (err: Option<ParserError>)
    ensures err == CollisionFrom(pairs, s, l, 0)
  {
    var i := 0;
    while i < |pairs|
      invariant 0 <= i <= |pairs|
      invariant CollisionFrom(pairs, s, l, i) == CollisionFrom(pairs, s, l, 0)
    {
      if pairs[i].0 == s {
        return Some(ShortNameTaken(s));
      }
      if pairs[i].1 == l {
        return Some(LongNameTaken(l));
      }
      i := i + 1;
    }
    return None;
  }

  class ArgParser {
    var scOptions: seq<ScOption>
    var options: seq<Opt>
    var arguments: seq<Argument>
    var namedArguments: seq<Argument>

    function Decls(): Declarations
      reads this
    {
      Declarations(scOptions, options, arguments, namedArguments)
    }

    predicate Valid()
      reads this
    {
      Registered(Decls())
    }

    constructor ()
      ensures Valid() && Decls() == Declarations([], [], [], [])
    {
      scOptions, options, arguments, namedArguments := [], [], [], [];
    }

    // -------------------------------------------------------------------
    // Registration
    // -------------------------------------------------------------------

    method CheckOptionName(s: string, l: string) returns (err: Option<ParserError>)
      ensures err == OptionNameError(Decls(), s, l)
    {
      if |s| == 0 && |l| == 0 {
        return Some(EmptyOptionNames);
      }
      if |s| != 0 && (|s| < 2 || s[0] != '-' || s[1] == '-') {
        return Some(MalformedShortName(s));
      }
      if |l| != 0 && (|l| < 3 || l[..2] != "--" || l[2] == '-') {
        return Some(MalformedLongName(l));
      }
      // short-circuit options first, then ordinary options
      err := FindNameClash(NamePairs(Decls()), s, l);
    }

    method CheckArgumentName(name: string) returns (err: Option<ParserError>)
      ensures err == ArgumentNameError(Decls(), name)
    {
      var args, named := arguments, namedArguments;
      ghost var names := ArgumentNames(Decls());
      var i := 0;
      while i < |args|
        invariant 0 <= i <= |args|
        invariant forall j :: 0 <= j < i ==> names[j] != name
      {
        if args[i].name == name {
          assert names[i] == name;
          return Some(ArgumentNameTaken(name));
        }
        i := i + 1;
      }
      i := 0;
      while i < |named|
        invariant 0 <= i <= |named|
        invariant forall j :: 0 <= j < |args| + i ==> names[j] != name
      {
        if named[i].name == name {
          assert names[|args| + i] == name;
          return Some(ArgumentNameTaken(name));
        }
        i := i + 1;
      }
      return None;
    }

    /** `add_option<T>`: `typeName` is the name `typeid(T)` gives and
        `defaultText` the default value written out by `to_string`. */
    method AddOption(s: string, l: string, description: string, typeName: string, defaultText: string)
      returns (err: Option<ParserError>)
      requires Valid()
      modifies this
      ensures Valid()
      ensures err == OptionNameError(old(Decls()), s, l)
      ensures Decls() == if err.None? then old(Decls()).(options := old(options) + [Opt(s, l, description, typeName, defaultText)])
                         else old(Decls())
    {
      err := CheckOptionName(s, l);
      if err.None? {
        var o := Opt(s, l, description, typeName, defaultText);
        ArgFacts.AddOptionKeepsRegistered(Decls(), o);
        options := options + [o];
      }
    }

    /** `add_option` without a default: a flag, of type "bool", value "0". */
    method AddFlag(s: string, l: string, description: string) returns (err: Option<ParserError>)
      requires Valid()
      modifies this
      ensures Valid()
      ensures err == OptionNameError(old(Decls()), s, l)
      ensures Decls() == if err.None? then old(Decls()).(options := old(options) + [Opt(s, l, description, BoolType, "0")])
                         else old(Decls())
    {
      err := CheckOptionName(s, l);
      if err.None? {
        var o := Opt(s, l, description, BoolType, "0");
        ArgFacts.AddOptionKeepsRegistered(Decls(), o);
        options := options + [o];
      }
    }

    /** `add_sc_option`; the callback is represented by the option's index. */
    method AddScOption(s: string, l: string, description: string) returns (err: Option<ParserError>)
      requires Valid()
      modifies this
      ensures Valid()
      ensures err == OptionNameError(old(Decls()), s, l)
      ensures Decls() == if err.None? then old(Decls()).(scOptions := old(scOptions) + [ScOption(s, l, description)])
                         else old(Decls())
    {
      err := CheckOptionName(s, l);
      if err.None? {
        var o := ScOption(s, l, description);
        ArgFacts.AddScOptionKeepsRegistered(Decls(), o);
        scOptions := scOptions + [o];
      }
    }

    method AddArgument(name: string, description: string, typeName: string) returns (err: Option<ParserError>)
      requires Valid()
      modifies this
      ensures Valid()
      ensures err == ArgumentNameError(old(Decls()), name)
      ensures Decls() == if err.None? then old(Decls()).(arguments := old(arguments) + [Argument(name, description, typeName, "")])
                         else old(Decls())
    {
      err := CheckArgumentName(name);
      if err.None? {
        var a := Argument(name, description, typeName, "");
        ArgFacts.AddArgumentKeepsRegistered(Decls(), a, false);
        arguments := arguments + [a];
      }
    }

    method AddNamedArgument(name: string, description: string, typeName: string) returns (err: Option<ParserError>)
      requires Valid()
      modifies this
      ensures Valid()
      ensures err == ArgumentNameError(old(Decls()), name)
      ensures Decls() == if err.None? then old(Decls()).(namedArguments := old(namedArguments) + [Argument(name, description, typeName, "")])
                         else old(Decls())
    {
      err := CheckArgumentName(name);
      if err.None? {
        var a := Argument(name, description, typeName, "");
        ArgFacts.AddArgumentKeepsRegistered(Decls(), a, true);
        namedArguments := namedArguments + [a];
      }
    }

    // -------------------------------------------------------------------
    // The passes of `parse`
    // -------------------------------------------------------------------

    method ParseScOptions(argv: seq<string>, visit: array<bool>) returns (fired: Option<nat>)
      requires visit.Length == |argv|
      ensures fired == ScFireFrom(scOptions, argv, visit[..], 0)
    {
      var i := 0;
      while i < |argv|
        invariant 0 <= i <= |argv|
        invariant ScFireFrom(scOptions, argv, visit[..], i) == ScFireFrom(scOptions, argv, visit[..], 0)
      {
        if !visit[i] {
          var t := argv[i];
          if t == "--" {
            var m := FindFirst(scOptions, ScLongIs(t));
            if m.Some? {
              return m;
            }
          } else if Head(t) == '-' {
            if |t| == 2 {
              var m := FindFirst(scOptions, ScShortEnds(t[1]));
              if m.Some? {
                return m;
              }
            }
          }
        }
        i := i + 1;
      }
      return None;
    }

    /** The loop over all options for the long token argv[i]. */
    method ParseLongToken(argv: seq<string>, visit: array<bool>, i: nat) returns (err: Option<ParserError>)
      requires i < |argv| == visit.Length
      modifies this, visit
      ensures var r := LongFrom(old(options), argv, old(visit[..]), i, 0);
        (r.Err? ==> err == Some(r.error)) && (r.Ok? ==> err.None? && options == r.value.items && visit[..] == r.value.visit)
      ensures scOptions == old(scOptions) && arguments == old(arguments) && namedArguments == old(namedArguments)
    {
      var k := 0;
      while k < |options|
        invariant 0 <= k <= |options| == |old(options)|
        invariant LongFrom(options, argv, visit[..], i, k) == LongFrom(old(options), argv, old(visit[..]), i, 0)
        invariant scOptions == old(scOptions) && arguments == old(arguments) && namedArguments == old(namedArguments)
      {
        if options[k].longName == argv[i] {
          if options[k].typeName == BoolType {
            options := options[k := options[k].(value := "1")];
          } else {
            if i + 1 >= |argv| || Head(argv[i + 1]) == '-' {
              return Some(MissingOptionValue(argv[i]));
            }
            options := options[k := options[k].(value := argv[i + 1])];
            visit[i + 1] := true;
          }
          visit[i] := true;
        }
        k := k + 1;
      }
      return None;
    }

    /** The loop over the letters of the single-dash token argv[i]. */
    method ParseShortToken(argv: seq<string>, visit: array<bool>, i: nat) returns (err: Option<ParserError>)
      requires i < |argv| == visit.Length && |argv[i]| >= 1
      modifies this, visit
      ensures var r := ShortFrom(old(options), argv, old(visit[..]), i, 1);
        (r.Err? ==> err == Some(r.error)) && (r.Ok? ==> err.None? && options == r.value.items && visit[..] == r.value.visit)
      ensures scOptions == old(scOptions) && arguments == old(arguments) && namedArguments == old(namedArguments)
    {
      var t := argv[i];
      var ind := 1;
      while ind < |t|
        invariant 1 <= ind <= |t|
        invariant |options| == |old(options)|
        invariant ShortFrom(options, argv, visit[..], i, ind) == ShortFrom(old(options), argv, old(visit[..]), i, 1)
        invariant scOptions == old(scOptions) && arguments == old(arguments) && namedArguments == old(namedArguments)
      {
        var m := FindFirst(options, ShortEnds(t[ind]));
        if m.None? {
          return Some(UnknownOption(t));
        }
        var k := m.value;
        if options[k].typeName != BoolType {
          if i + 1 >= |argv| || Head(argv[i + 1]) == '-' {
            return Some(MissingOptionValue(t));
          } else if |t| > 2 {
            return Some(AggregatedValueOption(t));
          }
          options := options[k := options[k].(value := argv[i + 1])];
          visit[i + 1] := true;
        } else {
          options := options[k := options[k].(value := "1")];
        }
        ind := ind + 1;
      }
      visit[i] := true;
      return None;
    }

    method ParseOptions(argv: seq<string>, visit: array<bool>) returns (err: Option<ParserError>)
      requires visit.Length == |argv|
      modifies this, visit
      ensures var r := OptionsFrom(old(options), argv, old(visit[..]), 0);
        (r.Err? ==> err == Some(r.error)) && (r.Ok? ==> err.None? && options == r.value.items && visit[..] == r.value.visit)
      ensures scOptions == old(scOptions) && arguments == old(arguments) && namedArguments == old(namedArguments)
    {
      var i := 0;
      while i < |argv|
        invariant 0 <= i <= |argv|
        invariant OptionsFrom(options, argv, visit[..], i) == OptionsFrom(old(options), argv, old(visit[..]), 0)
        invariant scOptions == old(scOptions) && arguments == old(arguments) && namedArguments == old(namedArguments)
      {
        if !visit[i] {
          if IsLongToken(argv[i]) {
            err := ParseLongToken(argv, visit, i);
            if err.Some? {
              return;
            }
          } else if Head(argv[i]) == '-' {
            err := ParseShortToken(argv, visit, i);
            if err.Some? {
              return;
            }
          }
        }
        i := i + 1;
      }
      return None;
    }

    /** The loop over the named arguments for one `name=value` token. */
    method AssignNamedArgument(name: string, value: string) returns (found: bool)
      modifies this
      ensures namedArguments == AssignNamed(old(namedArguments), name, value)
      ensures found == HasArgument(old(namedArguments), name)
      ensures scOptions == old(scOptions) && options == old(options) && arguments == old(arguments)
    {
      ghost var named0 := namedArguments;
      found := false;
      var k := 0;
      while k < |namedArguments|
        invariant 0 <= k <= |namedArguments| == |named0|
        invariant forall j :: 0 <= j < |named0| ==>
          namedArguments[j] == if j < k && named0[j].name == name then named0[j].(value := value) else named0[j]
        invariant found <==> exists j :: 0 <= j < k && named0[j].name == name
        invariant scOptions == old(scOptions) && options == old(options) && arguments == old(arguments)
      {
        if namedArguments[k].name == name {
          namedArguments := namedArguments[k := namedArguments[k].(value := value)];
          found := true;
        }
        k := k + 1;
      }
      assert namedArguments == AssignNamed(named0, name, value);
    }

    method ParseNamedArguments(argv: seq<string>, visit: array<bool>) returns (err: Option<ParserError>)
      requires visit.Length == |argv|
      modifies this, visit
      ensures var r := NamedFrom(old(namedArguments), argv, old(visit[..]), 0);
        (r.Err? ==> err == Some(r.error)) && (r.Ok? ==> err.None? && namedArguments == r.value.items && visit[..] == r.value.visit)
      ensures scOptions == old(scOptions) && options == old(options) && arguments == old(arguments)
    {
      var i := 0;
      while i < |argv|
        invariant 0 <= i <= |argv|
        invariant NamedFrom(namedArguments, argv, visit[..], i) == NamedFrom(old(namedArguments), argv, old(visit[..]), 0)
        invariant scOptions == old(scOptions) && options == old(options) && arguments == old(arguments)
      {
        if !visit[i] {
          var t := argv[i];
          var eq := FindFirst(t, IsChar('='));
          if eq.Some? {
            var j := eq.value;
            var found := AssignNamedArgument(t[..j], t[j + 1..]);
            if !found {
              return Some(UnknownNamedArgument(t));
            }
            visit[i] := true;
          }
        }
        i := i + 1;
      }
      return None;
    }

    /** `parse_arguments`, with the scan testing its bound first (see
        ArgSpec.ScanAsWritten for the scan as the source writes it). */
    method ParseArguments(argv: seq<string>, visit: array<bool>)
      requires visit.Length == |argv|
      modifies this, visit
      ensures var r := PositionalFrom(old(arguments), argv, old(visit[..]), 0, 0);
        arguments == r.items && visit[..] == r.visit
      ensures scOptions == old(scOptions) && options == old(options) && namedArguments == old(namedArguments)
    {
      var cur := 0;
      var k := 0;
      while k < |arguments|
        invariant 0 <= k <= |arguments| == |old(arguments)|
        invariant 0 <= cur <= |argv|
        invariant PositionalFrom(arguments, argv, visit[..], k, cur) == PositionalFrom(old(arguments), argv, old(visit[..]), 0, 0)
        invariant scOptions == old(scOptions) && options == old(options) && namedArguments == old(namedArguments)
      {
        ghost var start := cur;
        while cur < |argv| && visit[cur]
          invariant start <= cur <= |argv|
          invariant NextUnvisited(visit[..], cur) == NextUnvisited(visit[..], start)
        {
          cur := cur + 1;
        }
        if cur >= |argv| {
          return;
        }
        arguments := arguments[k := arguments[k].(value := argv[cur])];
        visit[cur] := true;
        k := k + 1;
      }
    }

    method Parse(argv: seq<string>) returns (status: Status)
      requires |argv| >= 1
      modifies this
      ensures status == ParseSpec(old(Decls()), argv).0
      ensures status.Parsed? ==> Decls() == ParseSpec(old(Decls()), argv).1
      ensures old(Valid()) && status.Parsed? ==> Valid()
    {
      ghost var d := Decls();
      var visit := new bool[|argv|](_ => false);
      visit[0] := true;
      assert visit[..] == InitialVisit(|argv|);
      var fired := ParseScOptions(argv, visit);
      if fired.Some? {
        return ShortCircuited(fired.value);
      }
      var err := ParseOptions(argv, visit);
      if err.Some? {
        return Failed(err.value);
      }
      err := ParseNamedArguments(argv, visit);
      if err.Some? {
        return Failed(err.value);
      }
      ParseArguments(argv, visit);
      assert RunPasses(d, argv) == Passed(Decls(), visit[..]);
      var excess := FindFirst(visit[..], Unset());
      if excess.Some? {
        return Failed(ExcessArgument(argv[excess.value]));
      }
      var missing := FindFirst(namedArguments, HasNoValue());
      if missing.Some? {
        return Failed(MissingArgument(namedArguments[missing.value].name));
      }
      missing := FindFirst(arguments, HasNoValue());
      if missing.Some? {
        return Failed(MissingArgument(arguments[missing.value].name));
      }
      if Registered(d) {
        ArgFacts.ParseKeepsRegistered(d, argv);
      }
      return Parsed;
    }

    // -------------------------------------------------------------------
    // Look-ups
    // -------------------------------------------------------------------

    /** `get_option<T>` before the cast: the raw value text. */
    method GetOption(name: string) returns (r: Result<string, ParserError>)
      ensures r == OptionValue(options, name)
    {
      var m := FindFirst(options, OptionNamed(name));
      if m.Some? {
        return Ok(options[m.value].value);
      }
      return Err(NameNotFound(name));
    }

    /** `get_option<bool>`. */
    method GetFlag(name: string) returns (r: Result<bool, ParserError>)
      ensures OptionValue(options, name).Err? ==> r == Err(OptionValue(options, name).error)
      ensures OptionValue(options, name).Ok? ==> r == CastBool(OptionValue(options, name).value)
    {
      var text := GetOption(name);
      if text.Err? {
        return Err(text.error);
      }
      return CastBool(text.value);
    }

    /** `get_argument<T>` before the cast: named arguments first. */
    method GetArgument(name: string) returns (r: Result<string, ParserError>)
      ensures r == ArgumentValue(Decls(), name)
    {
      var m := FindFirst(namedArguments, ArgumentNamed(name));
      if m.Some? {
        return Ok(namedArguments[m.value].value);
      }
      m := FindFirst(arguments, ArgumentNamed(name));
      if m.Some? {
        return Ok(arguments[m.value].value);
      }
      return Err(NameNotFound(name));
    }
  }
}

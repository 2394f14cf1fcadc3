/** What the command-line parser of src/ArgParser.hpp promises, proved of
    the functions in ArgSpec. */
module ArgFacts {
  import opened Wrappers
  import opened ArgSpec

  // ---------------------------------------------------------------------
  // Registration
  // ---------------------------------------------------------------------

  /** `check_option_name` accepts exactly the names that are not both empty,
      are well formed when non-empty, and differ literally from every
      registered short name and long name respectively. In particular a
      second option with an empty short name is refused. */
  lemma OptionNameAccepted(d: Declarations, s: string, l: string)
    ensures OptionNameError(d, s, l).None? <==>
      (|s| > 0 || |l| > 0)
      && (|s| > 0 ==> ShortNameWellFormed(s))
      && (|l| > 0 ==> LongNameWellFormed(l))
      && forall j :: 0 <= j < |NamePairs(d)| ==> NamePairs(d)[j].0 != s && NamePairs(d)[j].1 != l
  {
    CollisionFromNone(NamePairs(d), s, l, 0);
  }

  /** The existence check from entry k on passes exactly when no later
      entry shares the short name or the long name. */
  lemma {:induction false} CollisionFromNone(pairs: seq<(string, string)>, s: string, l: string, k: nat)
    requires k <= |pairs|
    ensures CollisionFrom(pairs, s, l, k).None? <==> forall j :: k <= j < |pairs| ==> pairs[j].0 != s && pairs[j].1 != l
    decreases |pairs| - k
  {
    if k < |pairs| {
      CollisionFromNone(pairs, s, l, k + 1);
    }
  }

  /** Inserting a pair that clashes with no entry keeps entries distinct. */
  lemma InsertKeepsDistinct(pairs: seq<(string, string)>, x: (string, string), n: nat)
    requires DistinctPairs(pairs) && n <= |pairs|
    requires forall j :: 0 <= j < |pairs| ==> pairs[j].0 != x.0 && pairs[j].1 != x.1
    ensures DistinctPairs(pairs[..n] + [x] + pairs[n..])
  {
    var q := pairs[..n] + [x] + pairs[n..];
    forall i, j | 0 <= i < j < |q|
      ensures q[i].0 != q[j].0 && q[i].1 != q[j].1
    {
      if j < n {
        assert q[i] == pairs[i] && q[j] == pairs[j];
      } else if j == n {
        assert q[i] == pairs[i];
      } else if i < n {
        assert q[i] == pairs[i] && q[j] == pairs[j - 1];
      } else if i == n {
        assert q[j] == pairs[j - 1];
      } else {
        assert q[i] == pairs[i - 1] && q[j] == pairs[j - 1];
      }
    }
  }

  /** Inserting a name used by no entry keeps names distinct. */
  lemma InsertKeepsDistinctNames(names: seq<string>, x: string, n: nat)
    requires DistinctNames(names) && n <= |names| && x !in names
    ensures DistinctNames(names[..n] + [x] + names[n..])
  {
    var q := names[..n] + [x] + names[n..];
    forall i, j | 0 <= i < j < |q|
      ensures q[i] != q[j]
    {
      if j < n {
        assert q[i] == names[i] && q[j] == names[j];
      } else if j == n {
        assert q[i] == names[i];
      } else if i < n {
        assert q[i] == names[i] && q[j] == names[j - 1];
      } else if i == n {
        assert q[j] == names[j - 1];
      } else {
        assert q[i] == names[i - 1] && q[j] == names[j - 1];
      }
    }
  }

  /** Registering an option keeps the registration invariant. */
  lemma AddOptionKeepsRegistered(d: Declarations, o: Opt)
    requires Registered(d) && OptionNameError(d, o.shortName, o.longName).None?
    ensures Registered(d.(options := d.options + [o]))
  {
    var d' := d.(options := d.options + [o]);
    var pairs, x := NamePairs(d), (o.shortName, o.longName);
    var n := |pairs|;
    OptionNameAccepted(d, o.shortName, o.longName);
    assert NamePairs(d') == pairs + [x];
    assert pairs[..n] + [x] + pairs[n..] == pairs + [x];
    InsertKeepsDistinct(pairs, x, n);
    assert ArgumentNames(d') == ArgumentNames(d);
  }

  lemma InsertKeepsWellFormed(pairs: seq<(string, string)>, x: (string, string), n: nat)
    requires WellFormedPairs(pairs) && n <= |pairs| && FormatError(x.0, x.1).None?
    ensures WellFormedPairs(pairs[..n] + [x] + pairs[n..])
  {
    var q := pairs[..n] + [x] + pairs[n..];
    forall j | 0 <= j < |q| ensures FormatError(q[j].0, q[j].1).None? {
      if j < n {
        assert q[j] == pairs[j];
      } else if j > n {
        assert q[j] == pairs[j - 1];
      }
    }
  }

  /** The names of an added short-circuit option come after the other
      short-circuit options and before the ordinary options. */
  lemma NamePairsAfterScOption(d: Declarations, o: ScOption)
    ensures var n := |d.scOptions|;
      NamePairs(d.(scOptions := d.scOptions + [o])) == NamePairs(d)[..n] + [(o.shortName, o.longName)] + NamePairs(d)[n..]
  {
    var n := |d.scOptions|;
    var p, p' := NamePairs(d), NamePairs(d.(scOptions := d.scOptions + [o]));
    var q := p[..n] + [(o.shortName, o.longName)] + p[n..];
    forall j | 0 <= j < |q| ensures p'[j] == q[j] {
      if j > n {
        assert q[j] == p[j - 1];
      }
    }
  }

  /** Registering a short-circuit option keeps the registration invariant. */
  lemma AddScOptionKeepsRegistered(d: Declarations, o: ScOption)
    requires Registered(d) && OptionNameError(d, o.shortName, o.longName).None?
    ensures Registered(d.(scOptions := d.scOptions + [o]))
  {
    var d' := d.(scOptions := d.scOptions + [o]);
    var pairs, x := NamePairs(d), (o.shortName, o.longName);
    NamePairsAfterScOption(d, o);
    OptionNameAccepted(d, o.shortName, o.longName);
    InsertKeepsDistinct(pairs, x, |d.scOptions|);
    InsertKeepsWellFormed(pairs, x, |d.scOptions|);
    assert ArgumentNames(d') == ArgumentNames(d);
  }

  /** Registering a positional or a named argument keeps the invariant. */
  lemma AddArgumentKeepsRegistered(d: Declarations, a: Argument, named: bool)
    requires Registered(d) && ArgumentNameError(d, a.name).None?
    ensures Registered(if named then d.(namedArguments := d.namedArguments + [a])
                       else d.(arguments := d.arguments + [a]))
  {
    var names := ArgumentNames(d);
    var d' := if named then d.(namedArguments := d.namedArguments + [a]) else d.(arguments := d.arguments + [a]);
    var n := if named then |names| else |d.arguments|;
    assert ArgumentNames(d') == names[..n] + [a.name] + names[n..];
    InsertKeepsDistinctNames(names, a.name, n);
    assert NamePairs(d') == NamePairs(d);
  }

  /** Registered option long names are pairwise different. */
  lemma LongNamesDistinct(d: Declarations, j: nat, k: nat)
    requires Registered(d) && j < |d.options| && k < |d.options| && j != k
    ensures d.options[j].longName != d.options[k].longName
  {
    var pairs := NamePairs(d);
    var n := |d.scOptions|;
    var lo, hi := if j < k then j else k, if j < k then k else j;
    assert pairs[n + lo].1 != pairs[n + hi].1;
  }

  // ---------------------------------------------------------------------
  // Pass 1
  // ---------------------------------------------------------------------

  /** The long branch of `parse_sc_options` can never fire on registered
      options: it needs a long name equal to "--", and a long name is empty
      or has at least 3 characters. */
  lemma DoubleDashNeverShortCircuits(d: Declarations)
    requires Registered(d)
    ensures ScTokenMatch(d.scOptions, "--").None?
  {
    var pairs := NamePairs(d);
    forall k | 0 <= k < |d.scOptions|
      ensures d.scOptions[k].longName != "--"
    {
      assert pairs[k] == (d.scOptions[k].shortName, d.scOptions[k].longName);
      assert FormatError(pairs[k].0, pairs[k].1).None?;
    }
  }

  /** A short-circuit option fires exactly when some unvisited token is a
      dash followed by one character other than '-' that ends a
      short-circuit option's short name (the long branch never firing, as
      above). The token "--" takes the long branch, so a short name such as
      "-a-" is never fired by it. */
  lemma {:induction false} ScFireCondition(sc: seq<ScOption>, argv: seq<string>, visit: seq<bool>, i: nat)
    requires |visit| == |argv| && i <= |argv|
    requires forall k :: 0 <= k < |sc| ==> sc[k].longName != "--"
    ensures ScFireFrom(sc, argv, visit, i).Some? <==>
      exists j, k :: i <= j < |argv| && 0 <= k < |sc| && !visit[j] && |argv[j]| == 2 && argv[j][0] == '-'
                     && argv[j][1] != '-' && EndsWith(sc[k].shortName, argv[j][1])
    decreases |argv| - i
  {
    if i < |argv| {
      ScFireCondition(sc, argv, visit, i + 1);
      var t := argv[i];
      if !visit[i] && |t| == 2 && t[0] == '-' {
        if t == "--" {
          assert First(sc, ScLongIs(t)).None?;
        } else {
          var m := First(sc, ScShortEnds(t[1]));
          if exists k :: 0 <= k < |sc| && EndsWith(sc[k].shortName, t[1]) {
            var k :| 0 <= k < |sc| && EndsWith(sc[k].shortName, t[1]);
            assert m.Some?;
          }
        }
      }
    }
  }

  // ---------------------------------------------------------------------
  // Pass 2
  // ---------------------------------------------------------------------

  /** Options after k whose long name is not the token are skipped. */
  lemma {:induction false} LongFromSkips(opts: seq<Opt>, argv: seq<string>, visit: seq<bool>, i: nat, k: nat, k': nat)
    requires i < |argv| == |visit| && k <= k' <= |opts|
    requires forall j :: k <= j < k' ==> opts[j].longName != argv[i]
    ensures LongFrom(opts, argv, visit, i, k) == LongFrom(opts, argv, visit, i, k')
    decreases k' - k
  {
    if k < k' {
      LongFromSkips(opts, argv, visit, i, k + 1, k');
    }
  }

  /** A "--long" token naming exactly one option: a flag gets "1"; an
      option with a value takes the next token, which must exist and must
      not start with '-'; the option token (and the value token) become
      visited. */
  lemma LongTokenSetsOption(opts: seq<Opt>, argv: seq<string>, visit: seq<bool>, i: nat, k: nat)
    requires i < |argv| == |visit| && k < |opts|
    requires opts[k].longName == argv[i]
    requires forall j :: 0 <= j < |opts| && j != k ==> opts[j].longName != argv[i]
    ensures LongFrom(opts, argv, visit, i, 0) ==
      if opts[k].typeName == BoolType then
        Ok(Progress(opts[k := opts[k].(value := "1")], visit[i := true]))
      else if !ValueFollows(argv, i) then Err(MissingOptionValue(argv[i]))
      else Ok(Progress(opts[k := opts[k].(value := argv[i + 1])], visit[i + 1 := true][i := true]))
  {
    LongFromSkips(opts, argv, visit, i, 0, k);
    if opts[k].typeName == BoolType {
      var o := opts[k := opts[k].(value := "1")];
      LongFromSkips(o, argv, visit[i := true], i, k + 1, |opts|);
    } else if ValueFollows(argv, i) {
      var o := opts[k := opts[k].(value := argv[i + 1])];
      LongFromSkips(o, argv, visit[i + 1 := true][i := true], i, k + 1, |opts|);
    }
  }

  /** The first-match search only looks at short names. */
  lemma ShortMatchIgnoresValues(a: seq<Opt>, b: seq<Opt>, c: char)
    requires SameOptions(a, b)
    ensures ShortMatch(a, c) == ShortMatch(b, c)
  {
    var p := ShortEnds(c);
    assert forall j :: 0 <= j < |a| ==> a[j].shortName == b[j].shortName by {
      forall j | 0 <= j < |a| ensures a[j].shortName == b[j].shortName {
        assert a[j].(value := "").shortName == b[j].(value := "").shortName;
      }
    }
  }

  /** Writing one value leaves every short-name search as it was. */
  lemma SetValueKeepsShortMatch(opts: seq<Opt>, k: nat, v: string, c: char)
    requires k < |opts|
    ensures ShortMatch(opts[k := opts[k].(value := v)], c) == ShortMatch(opts, c)
  {
    ShortMatchIgnoresValues(opts[k := opts[k].(value := v)], opts, c);
  }

  /** A single-dash token is accepted only if every one of its letters ends
      the short name of some option, and in a token of more than two
      characters every letter must name a flag. */
  lemma {:induction false} ShortTokenLetters(opts: seq<Opt>, argv: seq<string>, visit: seq<bool>, i: nat, ind: nat)
    requires i < |argv| == |visit| && ind <= |argv[i]|
    requires ShortFrom(opts, argv, visit, i, ind).Ok?
    ensures forall m :: ind <= m < |argv[i]| ==> ShortMatch(opts, argv[i][m]).Some?
    ensures |argv[i]| > 2 ==> forall m :: ind <= m < |argv[i]| ==>
      opts[ShortMatch(opts, argv[i][m]).value].typeName == BoolType
    decreases |argv[i]| - ind
  {
    var t := argv[i];
    if ind < |t| {
      var k := ShortMatch(opts, t[ind]).value;
      var valued := opts[k].typeName != BoolType;
      var val := if valued then argv[i + 1] else "1";
      var o := opts[k := opts[k].(value := val)];
      var v := if valued then visit[i + 1 := true] else visit;
      assert ShortFrom(opts, argv, visit, i, ind) == ShortFrom(o, argv, v, i, ind + 1);
      ShortTokenLetters(o, argv, v, i, ind + 1);
      forall m | ind < m < |t| ensures ShortMatch(opts, t[m]) == ShortMatch(o, t[m]) {
        SetValueKeepsShortMatch(opts, k, val, t[m]);
      }
    }
  }

  /** In a single-dash token, an option with a value and no value after the
      token fails as "missing value" before the length of the token is
      looked at. */
  lemma MissingValueBeforeAggregation(opts: seq<Opt>, argv: seq<string>, visit: seq<bool>, i: nat, ind: nat)
    requires i < |argv| == |visit| && ind < |argv[i]|
    requires ShortMatch(opts, argv[i][ind]).Some?
    requires opts[ShortMatch(opts, argv[i][ind]).value].typeName != BoolType
    ensures ShortFrom(opts, argv, visit, i, ind) ==
      if !ValueFollows(argv, i) then Err(MissingOptionValue(argv[i]))
      else if |argv[i]| > 2 then Err(AggregatedValueOption(argv[i]))
      else ShortFrom(opts[ShortMatch(opts, argv[i][ind]).value :=
                       opts[ShortMatch(opts, argv[i][ind]).value].(value := argv[i + 1])],
                     argv, visit[i + 1 := true], i, ind + 1)
  {
  }

  // ---------------------------------------------------------------------
  // Pass 3
  // ---------------------------------------------------------------------

  /** An unvisited token whose first '=' is at j names the argument t[..j];
      if it is declared it receives t[j+1..] and the token is visited,
      otherwise parsing fails. */
  lemma NamedTokenSplitsAtFirstEquals(named: seq<Argument>, argv: seq<string>, visit: seq<bool>, i: nat, j: nat)
    requires i < |argv| == |visit| && !visit[i]
    requires j < |argv[i]| && argv[i][j] == '=' && forall m :: 0 <= m < j ==> argv[i][m] != '='
    ensures NamedToken(named, argv, visit, i) ==
      if HasArgument(named, argv[i][..j]) then
        Ok(Progress(AssignNamed(named, argv[i][..j], argv[i][j + 1..]), visit[i := true]))
      else Err(UnknownNamedArgument(argv[i]))
  {
    var t := argv[i];
    var r := First(t, IsChar('='));
    assert r.Some?;
  }

  // ---------------------------------------------------------------------
  // Pass 4
  // ---------------------------------------------------------------------

  /** The unvisited indices at or after `from`, in increasing order. */
  function Unvisited(visit: seq<bool>, from: nat): (u: seq<nat>)
    requires from <= |visit|
    ensures forall m :: 0 <= m < |u| ==> from <= u[m] < |visit| && !visit[u[m]]
    decreases |visit| - from
  {
    if from == |visit| then []
    else if visit[from] then Unvisited(visit, from + 1)
    else [from] + Unvisited(visit, from + 1)
  }

  /** The scan lands on the first unvisited index, if there is one. */
  lemma {:induction false} NextIsFirstUnvisited(visit: seq<bool>, cur: nat)
    requires cur <= |visit|
    ensures var u := Unvisited(visit, cur);
      NextUnvisited(visit, cur) == (if |u| > 0 then u[0] else |visit|)
    ensures var p := NextUnvisited(visit, cur);
      p < |visit| ==> Unvisited(visit, cur) == [p] + Unvisited(visit, p + 1)
    decreases |visit| - cur
  {
    if cur < |visit| && visit[cur] {
      NextIsFirstUnvisited(visit, cur + 1);
    }
  }

  /** Marking an index before `from` changes nothing after it. */
  lemma {:induction false} UnvisitedAfterMark(visit: seq<bool>, p: nat, from: nat)
    requires p < from <= |visit|
    ensures Unvisited(visit[p := true], from) == Unvisited(visit, from)
    decreases |visit| - from
  {
    if from < |visit| {
      UnvisitedAfterMark(visit, p, from + 1);
    }
  }

  /** `items` is `args` with argument k + m holding token u[m], for every
      m < |u|, and every other argument as it was. */
  predicate FilledInOrder(args: seq<Argument>, argv: seq<string>, u: seq<nat>, k: nat, items: seq<Argument>)
    requires |items| == |args| && forall m :: 0 <= m < |u| ==> u[m] < |argv|
  {
    forall j :: 0 <= j < |args| ==>
      items[j].value == if k <= j && j - k < |u| then argv[u[j - k]] else args[j].value
  }

  lemma FilledStep(args: seq<Argument>, argv: seq<string>, u: seq<nat>, k: nat, items: seq<Argument>)
    requires k < |args| && |u| > 0 && |items| == |args| && forall m :: 0 <= m < |u| ==> u[m] < |argv|
    requires FilledInOrder(args[k := args[k].(value := argv[u[0]])], argv, u[1..], k + 1, items)
    ensures FilledInOrder(args, argv, u, k, items)
  {
    forall j | 0 <= j < |args|
      ensures items[j].value == if k <= j && j - k < |u| then argv[u[j - k]] else args[j].value
    {
      if j > k && j - k < |u| {
        assert u[1..][j - (k + 1)] == u[j - k];
      }
    }
  }

  /** Positional arguments are filled in declaration order from the
      unvisited tokens, left to right: the m-th remaining argument gets the
      m-th unvisited token, and arguments beyond the unvisited tokens keep
      their value. */
  lemma {:induction false} PositionalsTakeUnvisitedInOrder(args: seq<Argument>, argv: seq<string>, visit: seq<bool>, k: nat, cur: nat)
    requires |visit| == |argv| && k <= |args| && cur <= |argv|
    ensures FilledInOrder(args, argv, Unvisited(visit, cur), k, PositionalFrom(args, argv, visit, k, cur).items)
    decreases |args| - k
  {
    var u := Unvisited(visit, cur);
    if k < |args| {
      var p := NextUnvisited(visit, cur);
      NextIsFirstUnvisited(visit, cur);
      if p < |argv| {
        var args', visit' := args[k := args[k].(value := argv[p])], visit[p := true];
        PositionalsTakeUnvisitedInOrder(args', argv, visit', k + 1, p);
        UnvisitedAfterMark(visit, p, p + 1);
        assert Unvisited(visit', p) == u[1..];
        FilledStep(args, argv, u, k, PositionalFrom(args', argv, visit', k + 1, p).items);
      }
    }
  }

  /** The as-written scan agrees with the corrected one whenever an
      unvisited token is left, and otherwise reads `visit[argc]`, one past
      the end of the vector. */
  lemma {:induction false} ScanAsWrittenReadsPastEnd(visit: seq<bool>, cur: nat)
    requires cur <= |visit|
    ensures ScanAsWritten(visit, cur) ==
      if NextUnvisited(visit, cur) == |visit| then Err(|visit|) else Ok(NextUnvisited(visit, cur))
    decreases |visit| - cur
  {
    if cur < |visit| && visit[cur] {
      ScanAsWrittenReadsPastEnd(visit, cur + 1);
    }
  }

  /** Run with no arguments besides the program name, the passes leave the
      single marker set, and the as-written scan for the first positional
      argument then reads `visit[1]` of a one-element vector. */
  lemma ProgramNameAloneReadsPastEnd(d: Declarations, program: string)
    ensures RunPasses(d, [program]).Passed?
    ensures ScanAsWritten(RunPasses(d, [program]).visit, 0) == Err(1)
  {
    var argv := [program];
    var v := InitialVisit(1);
    assert v == [true];
    assert ScFireFrom(d.scOptions, argv, v, 1) == None;
    assert OptionsFrom(d.options, argv, v, 1) == Ok(Progress(d.options, v));
    assert OptionsFrom(d.options, argv, v, 0) == Ok(Progress(d.options, v));
    assert NamedFrom(d.namedArguments, argv, v, 1) == Ok(Progress(d.namedArguments, v));
    assert NamedFrom(d.namedArguments, argv, v, 0) == Ok(Progress(d.namedArguments, v));
    assert NextUnvisited(v, 0) == 1;
    assert PositionalFrom(d.arguments, argv, v, 0, 0).visit == v;
  }

  // ---------------------------------------------------------------------
  // `parse`
  // ---------------------------------------------------------------------

  /** When `parse` returns normally every token was consumed and every named
      and positional argument holds a non-empty value. */
  lemma ParsedMeansComplete(d: Declarations, argv: seq<string>)
    requires |argv| >= 1 && ParseSpec(d, argv).0 == Parsed
    ensures RunPasses(d, argv).Passed? && forall i :: 0 <= i < |argv| ==> RunPasses(d, argv).visit[i]
    ensures var d' := ParseSpec(d, argv).1;
      (forall k :: 0 <= k < |d'.namedArguments| ==> |d'.namedArguments[k].value| > 0)
      && (forall k :: 0 <= k < |d'.arguments| ==> |d'.arguments[k].value| > 0)
  {
    var r := RunPasses(d, argv);
    var d', visit := r.decls, r.visit;
    assert First(visit, Unset()).None?;
    assert First(d'.namedArguments, HasNoValue()).None?;
    assert First(d'.arguments, HasNoValue()).None?;
  }

  /** Declarations that differ only in values register the same names. */
  lemma SameShapeKeepsRegistered(d: Declarations, d': Declarations)
    requires d'.scOptions == d.scOptions && SameOptions(d.options, d'.options)
    requires SameArguments(d.arguments, d'.arguments) && SameArguments(d.namedArguments, d'.namedArguments)
    ensures NamePairs(d') == NamePairs(d) && ArgumentNames(d') == ArgumentNames(d)
  {
    var p, p' := NamePairs(d), NamePairs(d');
    forall j | 0 <= j < |p| ensures p'[j] == p[j] {
      if j >= |d.scOptions| {
        var k := j - |d.scOptions|;
        assert d.options[k].(value := "") == d'.options[k].(value := "");
      }
    }
    var a, a' := ArgumentNames(d), ArgumentNames(d');
    forall j | 0 <= j < |a| ensures a'[j] == a[j] {
      if j < |d.arguments| {
        assert d.arguments[j].(value := "") == d'.arguments[j].(value := "");
      } else {
        var k := j - |d.arguments|;
        assert d.namedArguments[k].(value := "") == d'.namedArguments[k].(value := "");
      }
    }
  }

  /** `parse` only writes values: the declarations keep their names, types
      and descriptions, so they stay registered. */
  lemma ParseKeepsRegistered(d: Declarations, argv: seq<string>)
    requires |argv| >= 1 && Registered(d)
    ensures Registered(ParseSpec(d, argv).1)
  {
    var r := RunPasses(d, argv);
    if r.Passed? {
      SameShapeKeepsRegistered(d, r.decls);
    }
  }

  // ---------------------------------------------------------------------
  // Look-ups
  // ---------------------------------------------------------------------

  /** `get_option` finds a registered option by either of its non-empty
      names: a short name never equals a long name, and names are unique. */
  lemma OptionFoundByEitherName(d: Declarations, k: nat, name: string)
    requires Registered(d) && k < |d.options|
    requires name != "" && (name == d.options[k].shortName || name == d.options[k].longName)
    ensures OptionValue(d.options, name) == Ok(d.options[k].value)
  {
    var opts := d.options;
    var pairs := NamePairs(d);
    var n := |d.scOptions|;
    var r := First(opts, OptionNamed(name));
    assert r.Some?;
  }

  /** `get_argument` finds a registered positional argument by its name,
      even though named arguments are searched first. */
  lemma PositionalFoundByName(d: Declarations, k: nat)
    requires Registered(d) && k < |d.arguments|
    ensures ArgumentValue(d, d.arguments[k].name) == Ok(d.arguments[k].value)
  {
    var names := ArgumentNames(d);
    var name := d.arguments[k].name;
    var n := |d.arguments|;
    var rn := First(d.namedArguments, ArgumentNamed(name));
    var r := First(d.arguments, ArgumentNamed(name));
    assert r.Some?;
  }

  /** `get_argument` finds a registered named argument by its name. */
  lemma NamedFoundByName(d: Declarations, k: nat)
    requires Registered(d) && k < |d.namedArguments|
    ensures ArgumentValue(d, d.namedArguments[k].name) == Ok(d.namedArguments[k].value)
  {
    var names := ArgumentNames(d);
    var name := d.namedArguments[k].name;
    var n := |d.arguments|;
    var r := First(d.namedArguments, ArgumentNamed(name));
    assert r.Some?;
  }

  /** `cast_string<bool>` ignores case: upper-casing or lower-casing the
      text never changes its result. */
  lemma CastBoolIgnoresCase(s: string)
    ensures CastBool(Uppered(s)) == CastBool(s)
    ensures CastBool(Lowered(s)) == CastBool(s)
  {
    assert Lowered(Uppered(s)) == Lowered(s);
    assert Lowered(Lowered(s)) == Lowered(s);
  }

  /** The spellings `cast_string<bool>` accepts. */
  lemma CastBoolSpellings()
    ensures CastBool("TRUE") == Ok(true) && CastBool("True") == Ok(true) && CastBool("1") == Ok(true)
    ensures CastBool("FALSE") == Ok(false) && CastBool("0") == Ok(false)
    ensures CastBool("yes").Err? && CastBool("").Err? && CastBool("01").Err?
  {
    assert Lowered("TRUE") == "true";
    assert Lowered("True") == "true";
    assert Lowered("FALSE") == "false";
    assert Lowered("1") == "1";
    assert Lowered("0") == "0";
    assert Lowered("yes") == "yes";
    assert Lowered("01") == "01";
  }
}

/** The command-line option loop of src/cli/parser.rs. */
module OptionParser {
  import opened Wrappers
  import Text

  datatype EmptyValue = Allow | NonEmpty | NonBlank

  datatype OptionSpec = OptionSpec(name: string, takesValue: bool, repeatable: bool, emptyValue: EmptyValue)

  /** Stored values per option name (None for a flag), and the remaining arguments. */
  datatype ParsedArgs = ParsedArgs(values: map<string, seq<Option<string>>>, positionals: seq<string>)

  datatype ParseError =
    | UnknownOption(name: string)
    | TakesNoValue(name: string)
    | MissingValue(name: string)
    | DuplicateOption(name: string)
    | EmptyOptionValue(name: string)

  const NOTHING := ParsedArgs(map[], [])

  predicate StartsWith(s: string, prefix: string) { prefix <= s }

  function FindSpec(specs: seq<OptionSpec>, name: string): Option<OptionSpec> {
    if specs == [] then None
    else if specs[0].name == name then Some(specs[0])
    else FindSpec(specs[1..], name)
  }

  /** Splits `--name=value` at its first `=`. */
  function SplitInline(arg: string): Option<(string, string)> {
    var (name, value) :- Text.SplitOnce(arg, '=');
    if StartsWith(name, "--") then Some((name, value)) else None
  }

  function Store(parsed: ParsedArgs, name: string, value: Option<string>): ParsedArgs {
    var earlier := if name in parsed.values then parsed.values[name] else [];
    parsed.(values := parsed.values[name := earlier + [value]])
  }

  function RejectDuplicate(parsed: ParsedArgs, spec: OptionSpec): Result<(), ParseError> {
    if !spec.repeatable && spec.name in parsed.values then Err(DuplicateOption(spec.name)) else Ok(())
  }

  function ValidateValue(spec: OptionSpec, value: string): Result<(), ParseError> {
    match spec.emptyValue
    case Allow => Ok(())
    case NonEmpty => if value == "" then Err(EmptyOptionValue(spec.name)) else Ok(())
    case NonBlank => if Text.IsBlank(value) then Err(EmptyOptionValue(spec.name)) else Ok(())
  }

  function InsertOptionValue(parsed: ParsedArgs, spec: OptionSpec, value: string): Result<ParsedArgs, ParseError> {
    var _ :- RejectDuplicate(parsed, spec);
    var _ :- ValidateValue(spec, value);
    Ok(Store(parsed, spec.name, Some(value)))
  }

  function InsertFlag(parsed: ParsedArgs, spec: OptionSpec): Result<ParsedArgs, ParseError> {
    var _ :- RejectDuplicate(parsed, spec);
    Ok(Store(parsed, spec.name, None))
  }

  predicate Dashed(arg: string) { StartsWith(arg, "-") }

  /** One argument that carries its own value. */
  function AcceptInline(specs: seq<OptionSpec>, parsed: ParsedArgs, name: string, value: string):
      Result<ParsedArgs, ParseError>
  {
    match FindSpec(specs, name)
    case None => Err(UnknownOption(name))
    case Some(spec) =>
      if !spec.takesValue then Err(TakesNoValue(name)) else InsertOptionValue(parsed, spec, value)
  }

  /** An option that takes its value from the argument behind it, if there is one. */
  function AcceptSeparate(parsed: ParsedArgs, spec: OptionSpec, rest: seq<string>): Result<ParsedArgs, ParseError> {
    if rest == [] || Dashed(rest[0]) then Err(MissingValue(spec.name))
    else InsertOptionValue(parsed, spec, rest[0])
  }

  /** One round of the loop: how many arguments it consumes, and the table behind it. */
  function Round(specs: seq<OptionSpec>, args: seq<string>, parsed: ParsedArgs):
      (r: Result<(nat, ParsedArgs), ParseError>)
    requires args != []
    ensures r.Ok? ==> 1 <= r.value.0 <= |args|
  {
    var arg, rest := args[0], args[1..];
    match SplitInline(arg)
    case Some((name, value)) =>
      var next :- AcceptInline(specs, parsed, name, value);
      Ok((1, next))
    case None =>
      if StartsWith(arg, "--") then
        match FindSpec(specs, arg)
        case None => Err(UnknownOption(arg))
        case Some(spec) =>
          if spec.takesValue then
            var next :- AcceptSeparate(parsed, spec, rest);
            Ok((2, next))
          else
            var next :- InsertFlag(parsed, spec);
            Ok((1, next))
      else if Dashed(arg) then Err(UnknownOption(arg))
      else Ok((1, parsed.(positionals := parsed.positionals + [arg])))
  }

  /** The parse of the arguments not yet consumed. */
  function Parse(specs: seq<OptionSpec>, args: seq<string>, parsed: ParsedArgs): Result<ParsedArgs, ParseError>
    decreases |args|
  {
    if args == [] then Ok(parsed)
    else
      var (consumed, next) :- Round(specs, args, parsed);
      Parse(specs, args[consumed..], next)
  }

  // ---------------------------------------------------------------- the loop

  /** The table the loop fills. */
  class ArgTable {
    var values: map<string, seq<Option<string>>>
    var positionals: seq<string>

    constructor ()
      ensures Contents() == NOTHING
    {
      values, positionals := map[], [];
    }

    function Contents(): ParsedArgs
      reads this
    {
      ParsedArgs(values, positionals)
    }

    method Push(name: string, value: Option<string>)
      modifies this`values
      ensures Contents() == Store(old(Contents()), name, value)
    {
      var earlier := if name in values then values[name] else [];
      values := values[name := earlier + [value]];
    }

    method InsertValue(spec: OptionSpec, value: string) returns (r: Result<(), ParseError>)
      modifies this`values
      ensures r.Ok? ==> InsertOptionValue(old(Contents()), spec, value) == Ok(Contents())
      ensures r.Err? ==> InsertOptionValue(old(Contents()), spec, value) == Err(r.error)
      ensures r.Err? ==> Contents() == old(Contents())
    {
      var _ :- RejectDuplicate(Contents(), spec);
      var _ :- ValidateValue(spec, value);
      Push(spec.name, Some(value));
      return Ok(());
    }

    method InsertFlagOption(spec: OptionSpec) returns (r: Result<(), ParseError>)
      modifies this`values
      ensures r.Ok? ==> InsertFlag(old(Contents()), spec) == Ok(Contents())
      ensures r.Err? ==> InsertFlag(old(Contents()), spec) == Err(r.error)
      ensures r.Err? ==> Contents() == old(Contents())
    {
      var _ :- RejectDuplicate(Contents(), spec);
      Push(spec.name, None);
      return Ok(());
    }

    /** Consumes the whole argument list; the table is the parse of it. */
    method ParseArgs(args: seq<string>, specs: seq<OptionSpec>) returns (r: Result<(), ParseError>)
      modifies this
      ensures r.Ok? ==> Parse(specs, args, old(Contents())) == Ok(Contents())
      ensures r.Err? ==> Parse(specs, args, old(Contents())) == Err(r.error)
    {
      var rest := args;
      while rest != []
        invariant Parse(specs, rest, Contents()) == Parse(specs, args, old(Contents()))
        decreases |rest|
      {
        var arg := rest[0];
        rest := rest[1..];
        var inline := SplitInline(arg);
        if inline.Some? {
          var (name, value) := inline.value;
          var found := FindSpec(specs, name);
          if found.None? { return Err(UnknownOption(name)); }
          if !found.value.takesValue { return Err(TakesNoValue(name)); }
          var _ :- InsertValue(found.value, value);
        } else if StartsWith(arg, "--") {
          var found := FindSpec(specs, arg);
          if found.None? { return Err(UnknownOption(arg)); }
          var spec := found.value;
          if spec.takesValue {
            if rest == [] || Dashed(rest[0]) { return Err(MissingValue(spec.name)); }
            var _ :- InsertValue(spec, rest[0]);
            rest := rest[1..];
          } else {
            var _ :- InsertFlagOption(spec);
          }
        } else if Dashed(arg) {
          return Err(UnknownOption(arg));
        } else {
          positionals := positionals + [arg];
        }
      }
      return Ok(());
    }
  }

  // ---------------------------------------------------------------- spelling does not matter

  lemma FindSpecName(specs: seq<OptionSpec>, name: string)
    ensures FindSpec(specs, name).Some? ==> FindSpec(specs, name).value.name == name
  {}

  /** An inline option splits into a name that is an option by itself and does not split again. */
  lemma InlineName(arg: string)
    requires SplitInline(arg).Some?
    ensures var (name, value) := SplitInline(arg).value;
            arg == name + "=" + value && StartsWith(name, "--") && SplitInline(name).None? && Dashed(arg)
  {
    Text.SplitOnceParts(arg, '=');
    var (name, value) := Text.SplitOnce(arg, '=').value;
    Text.SplitOnceParts(name, '=');
    assert arg[0] == name[0];
  }

  predicate Separable(specs: seq<OptionSpec>, arg: string) {
    && SplitInline(arg).Some?
    && !Dashed(SplitInline(arg).value.1)
    && var found := FindSpec(specs, SplitInline(arg).value.0);
       found.None? || found.value.takesValue
  }

  /** The two spellings of an option in front of `rest` leave the same table, or the same error. */
  lemma SeparateHead(specs: seq<OptionSpec>, arg: string, rest: seq<string>, parsed: ParsedArgs)
    requires Separable(specs, arg)
    ensures var (name, value) := SplitInline(arg).value;
            Parse(specs, [name, value] + rest, parsed) == Parse(specs, [arg] + rest, parsed)
  {
    InlineName(arg);
    var (name, value) := SplitInline(arg).value;
    FindSpecName(specs, name);
    var inline, separate := [arg] + rest, [name, value] + rest;
    assert inline[1..] == rest && separate[2..] == rest;
    assert separate[1..][0] == value;
  }

  /** A round looks at no more than two arguments. */
  lemma RoundLooksAtTwo(specs: seq<OptionSpec>, a: seq<string>, b: seq<string>, parsed: ParsedArgs)
    requires |a| >= 2 && |b| >= 2 && a[0] == b[0] && a[1] == b[1]
    ensures Round(specs, a, parsed) == Round(specs, b, parsed)
  {
    assert a[1..][0] == b[1..][0];
  }

  /** It takes none that begins with a dash for a value. */
  lemma RoundLeavesOptions(specs: seq<OptionSpec>, a: seq<string>, b: seq<string>, parsed: ParsedArgs)
    requires |a| >= 2 && |b| >= 2 && a[0] == b[0] && Dashed(a[1]) && Dashed(b[1])
    ensures Round(specs, a, parsed) == Round(specs, b, parsed)
    ensures Round(specs, a, parsed).Ok? ==> Round(specs, a, parsed).value.0 == 1
  {
    assert a[1..][0] == a[1] && b[1..][0] == b[1];
  }

  /** The argument list with its inline option at `i` written as two arguments. */
  function Separated(args: seq<string>, i: nat): seq<string>
    requires i < |args| && SplitInline(args[i]).Some?
  {
    var (name, value) := SplitInline(args[i]).value;
    args[..i] + ([name, value] + args[i + 1..])
  }

  /** Main result: writing any `--name=value` of a value-taking (or unknown) option as two arguments,
      the value not beginning with a dash, changes neither the table nor the error. */
  lemma {:induction false} SpellingDoesNotMatter(specs: seq<OptionSpec>, args: seq<string>, i: nat, parsed: ParsedArgs)
    requires i < |args| && Separable(specs, args[i])
    ensures Parse(specs, Separated(args, i), parsed) == Parse(specs, args, parsed)
    decreases |args|
  {
    var separated := Separated(args, i);
    var (name, value) := SplitInline(args[i]).value;
    if i == 0 {
      SeparateHead(specs, args[0], args[1..], parsed);
      assert args == [args[0]] + args[1..];
      assert separated == [name, value] + args[1..];
    } else {
      InlineName(args[i]);
      assert separated[0] == args[0];
      assert separated[1] == if i == 1 then name else args[1];
      if i == 1 {
        RoundLeavesOptions(specs, args, separated, parsed);
      } else {
        RoundLooksAtTwo(specs, args, separated, parsed);
      }
      var round := Round(specs, args, parsed);
      if round.Ok? {
        var (n, next) := round.value;
        assert separated[n..] == Separated(args[n..], i - n);
        SpellingDoesNotMatter(specs, args[n..], i - n, next);
      }
    }
  }

  /** A value-taking option with its value inline, which the table can take. */
  predicate Storable(specs: seq<OptionSpec>, arg: string, parsed: ParsedArgs) {
    SplitInline(arg).Some? &&
    var (name, value) := SplitInline(arg).value;
    var found := FindSpec(specs, name);
    && found.Some? && found.value.takesValue
    && RejectDuplicate(parsed, found.value).Ok? && ValidateValue(found.value, value).Ok?
  }

  /** The dash condition is needed: an inline value that begins with a dash is stored, and written apart it
      is reported missing, so that the two spellings agree exactly when the rest fails in the same way. */
  lemma DashedValueIsMissing(specs: seq<OptionSpec>, arg: string, rest: seq<string>, parsed: ParsedArgs)
    requires Storable(specs, arg, parsed) && Dashed(SplitInline(arg).value.1)
    ensures var (name, value) := SplitInline(arg).value;
            && Parse(specs, Separated([arg] + rest, 0), parsed) == Err(MissingValue(name))
            && Parse(specs, [arg] + rest, parsed) == Parse(specs, rest, Store(parsed, name, Some(value)))
            && Parse(specs, Separated([arg], 0), parsed) != Parse(specs, [arg], parsed)
  {
    InlineName(arg);
    var (name, value) := SplitInline(arg).value;
    FindSpecName(specs, name);
    assert Separated([arg] + rest, 0)[1..][0] == value && Separated([arg], 0)[1..][0] == value;
    assert ([arg] + rest)[1..] == rest && [arg][1..] == [];
  }

  // ---------------------------------------------------------------- what a parse stores

  /** A value the specification admits under its own name. */
  predicate Admits(spec: OptionSpec, value: Option<string>) {
    && (value.Some? <==> spec.takesValue)
    && (value.Some? ==> ValidateValue(spec, value.value).Ok?)
  }

  /** Everything stored belongs to a known option, is admissible, and is alone unless repeatable. */
  ghost predicate WellStored(specs: seq<OptionSpec>, parsed: ParsedArgs) {
    forall name :: name in parsed.values ==> WellStoredAt(specs, name, parsed.values[name])
  }

  ghost predicate WellStoredAt(specs: seq<OptionSpec>, name: string, stored: seq<Option<string>>) {
    var found := FindSpec(specs, name);
    && found.Some?
    && stored != []
    && (!found.value.repeatable ==> |stored| == 1)
    && forall i :: 0 <= i < |stored| ==> Admits(found.value, stored[i])
  }

  lemma StoreKeeps(specs: seq<OptionSpec>, parsed: ParsedArgs, spec: OptionSpec, value: Option<string>)
    requires WellStored(specs, parsed) && FindSpec(specs, spec.name) == Some(spec) && Admits(spec, value)
    requires RejectDuplicate(parsed, spec).Ok?
    ensures WellStored(specs, Store(parsed, spec.name, value))
  {}

  lemma RoundKeeps(specs: seq<OptionSpec>, args: seq<string>, parsed: ParsedArgs)
    requires args != [] && WellStored(specs, parsed) && Round(specs, args, parsed).Ok?
    ensures WellStored(specs, Round(specs, args, parsed).value.1)
  {
    var arg, rest := args[0], args[1..];
    var inline := SplitInline(arg);
    if inline.Some? {
      var (name, value) := inline.value;
      FindSpecName(specs, name);
      StoreKeeps(specs, parsed, FindSpec(specs, name).value, Some(value));
    } else if StartsWith(arg, "--") {
      FindSpecName(specs, arg);
      var spec := FindSpec(specs, arg).value;
      StoreKeeps(specs, parsed, spec, if spec.takesValue then Some(rest[0]) else None);
    }
  }

  /** Main result: no option outside the specification is stored, and none that is not repeatable
      is stored twice. */
  lemma {:induction false} ParseStoresWell(specs: seq<OptionSpec>, args: seq<string>, parsed: ParsedArgs)
    requires WellStored(specs, parsed) && Parse(specs, args, parsed).Ok?
    ensures WellStored(specs, Parse(specs, args, parsed).value)
    decreases |args|
  {
    if args != [] {
      RoundKeeps(specs, args, parsed);
      var (n, next) := Round(specs, args, parsed).value;
      ParseStoresWell(specs, args[n..], next);
    }
  }

  /** The arguments that are neither options nor the value of the option before them. */
  function Leftover(specs: seq<OptionSpec>, args: seq<string>): seq<string>
    decreases |args|
  {
    if args == [] then []
    else if !Dashed(args[0]) then [args[0]] + Leftover(specs, args[1..])
    else if |args| > 1 && SplitInline(args[0]).None?
            && FindSpec(specs, args[0]).Some? && FindSpec(specs, args[0]).value.takesValue then
      Leftover(specs, args[2..])
    else Leftover(specs, args[1..])
  }

  lemma RoundPositionals(specs: seq<OptionSpec>, args: seq<string>, parsed: ParsedArgs)
    requires args != [] && Round(specs, args, parsed).Ok?
    ensures var (n, next) := Round(specs, args, parsed).value;
            next.positionals + Leftover(specs, args[n..]) == parsed.positionals + Leftover(specs, args)
  {
    if SplitInline(args[0]).Some? { InlineName(args[0]); }
    if StartsWith(args[0], "--") { assert args[0][0] == '-'; }
  }

  /** Positionals are exactly those, in the order given. */
  lemma {:induction false} PositionalsKeepOrder(specs: seq<OptionSpec>, args: seq<string>, parsed: ParsedArgs)
    requires Parse(specs, args, parsed).Ok?
    ensures Parse(specs, args, parsed).value.positionals == parsed.positionals + Leftover(specs, args)
    decreases |args|
  {
    if args != [] {
      RoundPositionals(specs, args, parsed);
      var (n, next) := Round(specs, args, parsed).value;
      PositionalsKeepOrder(specs, args[n..], next);
    }
  }
}

/** `cmd/new.go`: the `forge new <generator> [--<prompt>=<value> ...]` command. */
module NewCommand {
  import opened Results
  import opened ConfigTypes
  import opened Platform
  import opened Codegen

  predicate IsHelpFlag(arg: string) {
    arg == "-h" || arg == "--help"
  }

  /** The scan of `PreRunE`: flag parsing is off, so the raw arguments are searched
      for a help flag. */
  method HasHelpFlag(args: seq<string>) returns (help: bool)
    ensures help <==> exists i | 0 <= i < |args| :: IsHelpFlag(args[i])
  {
    for i := 0 to |args|
      invariant forall j | 0 <= j < i :: !IsHelpFlag(args[j])
    {
      if args[i] == "-h" || args[i] == "--help" {
        return true;
      }
    }
    return false;
  }

  /** Cobra's flag parsing, kept abstract: given the declared flag names (one string
      flag per prompt, default "") and the arguments after the generator name, either
      an error or the parsed values by flag name. */
  type FlagParser = (seq<string>, seq<string>) -> Result<map<string, string>>

  /** `cmd.Flags().GetString(name)` for a declared flag: its value, or the default "". */
  function FlagValue(values: map<string, string>, name: string): string {
    if name in values then values[name] else ""
  }

  /** The data taken from the flags: exactly the prompt names whose flag value is
      non-empty, each with that value. */
  function SuppliedData(prompts: seq<Prompt>, values: map<string, string>): (data: Data)
    ensures data.Keys <= NameSet(prompts)
    ensures forall p | p in prompts :: p.name in data <==> FlagValue(values, p.name) != ""
    ensures forall k | k in data :: data[k] == FlagValue(values, k)
  {
    map n | n in NameSet(prompts) && FlagValue(values, n) != "" :: FlagValue(values, n)
  }

  /** The loop over prompts in `runNewCmd` that copies non-empty flag values into the data. */
  method FlagData(prompts: seq<Prompt>, values: map<string, string>) returns (data: Data)
    ensures data == SuppliedData(prompts, values)
  {
    data := map[];
    for i := 0 to |prompts|
      invariant data == SuppliedData(prompts[..i], values)
    {
      var p := prompts[i];
      assert NameSet(prompts[..i + 1]) == NameSet(prompts[..i]) + {p.name} by {
        assert prompts[..i + 1] == prompts[..i] + [p];
      }
      var val := FlagValue(values, p.name);
      if val == "" {
        continue;
      }
      data := data[p.name := val];
    }
    assert prompts[..|prompts|] == prompts;
  }

  /** The data `runNewCmd` hands to `BuildData`: nothing when only the name is given. */
  function InitialData(prompts: seq<Prompt>, flagArgs: seq<string>, parseFlags: FlagParser): (r: Result<Data>)
    ensures flagArgs == [] ==> r == Ok(map[])
    ensures r.Err? ==> flagArgs != [] && parseFlags(PromptNames(prompts), flagArgs) == Err(r.error)
    ensures r.Ok? ==> r.value.Keys <= NameSet(prompts) && forall k | k in r.value :: r.value[k] != ""
    ensures flagArgs != [] && parseFlags(PromptNames(prompts), flagArgs).Ok? ==>
              var values := parseFlags(PromptNames(prompts), flagArgs).value;
              r.Ok? && forall p | p in prompts :: p.name in r.value <==> FlagValue(values, p.name) != ""
  {
    if flagArgs == [] then Ok(map[])
    else
      match parseFlags(PromptNames(prompts), flagArgs)
      case Err(e) => Err(e)
      case Ok(values) => Ok(SuppliedData(prompts, values))
  }

  /** The end of a `runNewCmd` call: the result, the collected data (empty when the
      command stopped before collecting), the disk and the terminal. */
  datatype Final = Final(result: Result<seq<Change>>, data: Data, disk: Disk, tty: Tty)

  /** `runNewCmd` as a function: lookup, initial data, `BuildData`, `ParseInOuts`,
      `Generate`, in that order, the first error ending the command. */
  function RunSpec(args: seq<string>, entries: seq<Entry>, parseFlags: FlagParser,
                   resolve: (seq<InOut>, Data) -> Result<seq<InOut>>, engine: Engine,
                   disk: Disk, tty: Tty): (f: Final)
    ensures |args| == 0 ==> f == Final(Err(GeneratorRequired), map[], disk, tty)
    ensures |args| > 0 && Lookup(args[0], entries).Err? ==>
      f == Final(Err(Lookup(args[0], entries).error), map[], disk, tty)
    ensures |args| > 0 && Lookup(args[0], entries).Ok? ==>
      var c := Lookup(args[0], entries).value;
      && (InitialData(c.prompts, args[1..], parseFlags).Err? ==>
            f == Final(Err(InitialData(c.prompts, args[1..], parseFlags).error), map[], disk, tty))
      && (InitialData(c.prompts, args[1..], parseFlags).Ok? ==>
            var col := Collect(c.prompts, InitialData(c.prompts, args[1..], parseFlags).value, tty);
            && f.data == col.data
            && (resolve(c.inOuts, col.data).Err? ==>
                  f == Final(Err(resolve(c.inOuts, col.data).error), col.data, disk, col.tty))
            && (resolve(c.inOuts, col.data).Ok? ==>
                  var run := GenerateSpec(resolve(c.inOuts, col.data).value, col.data, engine, disk, col.tty);
                  f == Final(run.Result(), col.data, run.disk, run.tty)))
  {
    if |args| == 0 then Final(Err(GeneratorRequired), map[], disk, tty)
    else
      match Lookup(args[0], entries)
      case Err(e) => Final(Err(e), map[], disk, tty)
      case Ok(c) =>
        match InitialData(c.prompts, args[1..], parseFlags)
        case Err(e) => Final(Err(e), map[], disk, tty)
        case Ok(initial) =>
          var col := Collect(c.prompts, initial, tty);
          match resolve(c.inOuts, col.data)
          case Err(e) => Final(Err(e), col.data, disk, col.tty)
          case Ok(inOuts) =>
            var run := GenerateSpec(inOuts, col.data, engine, disk, col.tty);
            Final(run.Result(), col.data, run.disk, run.tty)
  }

  /** `runNewCmd`. The lookup entries, the flag parser, the path resolver and the
      template engine stand for the file walk, Cobra, YAML and `html/template`. */
  method RunNewCmd(args: seq<string>, entries: seq<Entry>, parseFlags: FlagParser,
                   resolve: (seq<InOut>, Data) -> Result<seq<InOut>>, engine: Engine,
                   fs: FileSystem, console: Console) returns (r: Result<seq<Change>>)
    modifies fs, console
    ensures var f := RunSpec(args, entries, parseFlags, resolve, engine, old(fs.State()), old(console.State()));
      r == f.result && fs.State() == f.disk && console.State() == f.tty
  {
    if |args| == 0 {
      return Err(GeneratorRequired);
    }
    var generatorName := args[0];
    var found := NewGenerator(generatorName, entries);
    if found.Err? {
      return Err(found.error);
    }
    var generator := new Generator(found.value);

    var data: Data := map[];
    var flagArgs := args[1..];
    if |flagArgs| > 0 {
      var parsed := parseFlags(PromptNames(generator.config.prompts), flagArgs);
      if parsed.Err? {
        return Err(parsed.error);
      }
      data := FlagData(generator.config.prompts, parsed.value);
    }

    generator.BuildData(data, console);

    var err := generator.ParseInOuts(resolve);
    if err.Some? {
      return Err(err.value);
    }

    r := generator.Generate(fs, console, engine);
  }

  /** What one invocation of `forge new` ends with. */
  datatype CmdOutcome = ShowHelp | Finished(result: Result<seq<Change>>)

  /** `PreRunE` then `RunE`: a help flag anywhere shows the help and exits before
      anything else runs. */
  method Execute(args: seq<string>, entries: seq<Entry>, parseFlags: FlagParser,
                 resolve: (seq<InOut>, Data) -> Result<seq<InOut>>, engine: Engine,
                 fs: FileSystem, console: Console) returns (outcome: CmdOutcome)
    modifies fs, console
    ensures (exists i | 0 <= i < |args| :: IsHelpFlag(args[i])) ==>
      outcome == ShowHelp && fs.State() == old(fs.State()) && console.State() == old(console.State())
    ensures !(exists i | 0 <= i < |args| :: IsHelpFlag(args[i])) ==>
      var f := RunSpec(args, entries, parseFlags, resolve, engine, old(fs.State()), old(console.State()));
      outcome == Finished(f.result) && fs.State() == f.disk && console.State() == f.tty
  {
    var help := HasHelpFlag(args);
    if help {
      return ShowHelp;
    }
    var r := RunNewCmd(args, entries, parseFlags, resolve, engine, fs, console);
    return Finished(r);
  }

  /** When only the generator name is given, the initial data is empty, so every
      prompt (with distinct names) is shown, in declaration order. */
  lemma NameOnlyAsksEveryPrompt(prompts: seq<Prompt>, args: seq<string>, parseFlags: FlagParser, tty: Tty)
    requires |args| == 1
    requires forall i, j | 0 <= i < j < |prompts| :: prompts[i].name != prompts[j].name
    ensures InitialData(prompts, args[1..], parseFlags) == Ok(map[])
    ensures Collect(prompts, map[], tty).tty.shown == tty.shown + Texts(prompts)
  {
    var empty: Data := map[];
    assert empty.Keys == {};
    AskedAll(prompts, {});
    CollectShowsAndConsumes(prompts, empty, tty);
  }

  /** When only the generator name is given, the prompts shown are the first prompt of
      each name, in declaration order; a repeated name is asked only once. */
  lemma NameOnlyAsksFirstOfEachName(prompts: seq<Prompt>, args: seq<string>, parseFlags: FlagParser, tty: Tty)
    requires |args| == 1
    ensures InitialData(prompts, args[1..], parseFlags) == Ok(map[])
    ensures Collect(prompts, map[], tty).tty.shown == tty.shown + Texts(Asked(prompts, {}))
  {
    var empty: Data := map[];
    assert empty.Keys == {};
    CollectShowsAndConsumes(prompts, empty, tty);
  }

  /** A prompt whose flag value is non-empty gets exactly that value and is never
      asked; a prompt whose flag value is empty is asked. */
  lemma FlagsDecidePrompting(prompts: seq<Prompt>, values: map<string, string>, tty: Tty)
    ensures var initial := SuppliedData(prompts, values);
      var col := Collect(prompts, initial, tty);
      && (forall p | p in prompts && FlagValue(values, p.name) != "" :: p.name in col.data && col.data[p.name] == FlagValue(values, p.name))
      && (forall q | q in Asked(prompts, initial.Keys) :: FlagValue(values, q.name) == "")
      && (forall p | p in prompts && FlagValue(values, p.name) == "" :: p.name in NameSet(Asked(prompts, initial.Keys)))
  {
    var initial := SuppliedData(prompts, values);
    CollectKeepsAndCovers(prompts, initial, tty);
    AskedExactlyMissing(prompts, initial.Keys);
  }

  /** With a non-empty flag value for every prompt, nothing is asked and no input is read. */
  lemma AllFlagsNonInteractive(prompts: seq<Prompt>, values: map<string, string>, tty: Tty)
    requires forall i | 0 <= i < |prompts| :: FlagValue(values, prompts[i].name) != ""
    ensures Collect(prompts, SuppliedData(prompts, values), tty) == Collected(SuppliedData(prompts, values), tty)
  {
    var initial := SuppliedData(prompts, values);
    assert forall i | 0 <= i < |prompts| :: prompts[i].name in initial by {
      assert forall i | 0 <= i < |prompts| :: prompts[i] in prompts;
    }
    CollectNonInteractive(prompts, initial, tty);
  }
}

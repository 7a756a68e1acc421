/** `codegen/generator.go`: finding a generator definition, collecting its data,
    resolving its path mappings and generating the files. */
module Codegen {
  import opened Results
  import opened ConfigTypes
  import opened Platform

  /** The directory that holds definition files and templates. */
  const ROOT_DIR := ".forge"

  // ===========================================================================
  // Definition lookup (`NewGenerator`)

  /** One call of the walk callback, in the order `filepath.Walk` makes them. */
  datatype Entry =
    /** The walk hands the callback a non-nil error for `path`. */
    | Broken(path: string, error: Error)
    /** A file or directory; `load` is what reading the file and decoding it as YAML
        would give, and is only looked at when the entry is a definition file. */
    | Node(path: string, isDir: bool, load: Result<Config>)

  /** The extension allow-list for definition files. */
  predicate IsDefinitionExt(ext: string) {
    ext == ".yml" || ext == ".yaml"
  }

  /** The callback reads and decodes exactly the non-directories with an allowed extension. */
  predicate Considered(e: Entry) {
    e.Node? && !e.isDir && IsDefinitionExt(Ext(e.path))
  }

  /** The callback lets the walk go on past `e`. */
  predicate Passes(name: string, e: Entry) {
    e.Node? && (!Considered(e) || (e.load.Ok? && e.load.value.name != name))
  }

  /** How the walk ends: with an error, at a matching definition, or at the last entry. */
  datatype WalkEnd = Failed(error: Error) | Matched(config: Config) | Exhausted

  /** The walk with the callback of `NewGenerator`: a walk error, a read error or a
      decode error stops it with that error; a definition named `name` stops it
      (`filepath.SkipAll`); everything else is passed over. */
  function Walk(name: string, entries: seq<Entry>): WalkEnd
    decreases |entries|
  {
    if entries == [] then Exhausted
    else
      match entries[0]
      case Broken(_, e) => Failed(e)
      case Node(path, isDir, load) =>
        if !Considered(entries[0]) then Walk(name, entries[1..])
        else
          match load
          case Err(e) => Failed(e)
          case Ok(c) => if c.name == name then Matched(c) else Walk(name, entries[1..])
  }

  /** What `NewGenerator(name)` returns: the walk's error, or the matched definition
      unless its name (which equals `name`) is empty. */
  function Lookup(name: string, entries: seq<Entry>): Result<Config> {
    match Walk(name, entries)
    case Failed(e) => Err(e)
    case Matched(c) => if c.name == "" then Err(GeneratorNotFound(name)) else Ok(c)
    case Exhausted => Err(GeneratorNotFound(name))
  }

  /** `NewGenerator`: the walk callback applied entry by entry, assigning the generator
      configuration `g` when a definition matches. The Go function wraps the result in
      a `Generator` with no data yet; that wrapping is the `Generator` constructor. */
  method NewGenerator(name: string, entries: seq<Entry>) returns (r: Result<Config>)
    ensures r == Lookup(name, entries)
  {
    var g := ZERO_CONFIG;
    var i := 0;
    while i < |entries|
      invariant 0 <= i <= |entries|
      invariant Walk(name, entries[i..]) == Walk(name, entries)
      invariant g == ZERO_CONFIG
    {
      var entry := entries[i];
      if entry.Broken? {
        return Err(entry.error);
      }
      var ext := Ext(entry.path);
      if entry.isDir || (ext != ".yml" && ext != ".yaml") {
        i := i + 1;
        continue;
      }
      if entry.load.Err? {
        return Err(entry.load.error);
      }
      var c := entry.load.value;
      if c.name == name {
        g := c;
        break;
      }
      i := i + 1;
    }
    if g.name == "" {
      return Err(GeneratorNotFound(name));
    }
    return Ok(g);
  }

  /** A path is a definition file's exactly when it ends in ".yml" or ".yaml". */
  lemma {:induction false} DefinitionExtIff(path: string)
    ensures IsDefinitionExt(Ext(path)) <==> EndsWith(path, ".yml") || EndsWith(path, ".yaml")
  {
    if EndsWith(path, ".yml") {
      EndsWithSplit(path, ".yml");
      ExtOfSuffix(path[..|path| - 4], ".yml");
    } else if EndsWith(path, ".yaml") {
      EndsWithSplit(path, ".yaml");
      ExtOfSuffix(path[..|path| - 5], ".yaml");
    }
  }

  predicate EndsWith(s: string, sfx: string) {
    |s| >= |sfx| && s[|s| - |sfx|..] == sfx
  }

  lemma EndsWithSplit(s: string, sfx: string)
    requires EndsWith(s, sfx)
    ensures s[..|s| - |sfx|] + sfx == s
  {
    assert s == s[..|s| - |sfx|] + s[|s| - |sfx|..];
  }

  /** The extension of `prefix + sfx` is `sfx` when `sfx` is a dot followed by
      characters that are neither dots nor separators. */
  lemma {:induction false} ExtOfSuffix(prefix: string, sfx: string)
    requires |sfx| > 0 && sfx[0] == '.'
    requires forall j | 1 <= j < |sfx| :: sfx[j] != '.' && sfx[j] != '/'
    ensures Ext(prefix + sfx) == sfx
    decreases |sfx|
  {
    var path := prefix + sfx;
    var c := sfx[|sfx| - 1];
    assert path[|path| - 1] == c;
    if |sfx| > 1 {
      var shorter := sfx[..|sfx| - 1];
      assert path[..|path| - 1] == prefix + shorter;
      ExtOfSuffix(prefix, shorter);
      assert c != '/' && c != '.';
      assert shorter + [c] == sfx;
    }
  }

  /** The entries the callback ignores can be removed without changing the lookup:
      only definition files (and walk errors) matter. */
  function Relevant(entries: seq<Entry>): (kept: seq<Entry>)
    ensures forall e | e in kept :: e in entries && (e.Broken? || Considered(e))
  {
    if entries == [] then []
    else if entries[0].Node? && !Considered(entries[0]) then Relevant(entries[1..])
    else [entries[0]] + Relevant(entries[1..])
  }

  lemma {:induction false} LookupIgnoresOtherFiles(name: string, entries: seq<Entry>)
    ensures Lookup(name, entries) == Lookup(name, Relevant(entries))
  {
    WalkIgnoresOtherFiles(name, entries);
  }

  lemma {:induction false} WalkIgnoresOtherFiles(name: string, entries: seq<Entry>)
    ensures Walk(name, entries) == Walk(name, Relevant(entries))
    decreases |entries|
  {
    if entries != [] {
      WalkIgnoresOtherFiles(name, entries[1..]);
      if !(entries[0].Node? && !Considered(entries[0])) {
        var kept := [entries[0]] + Relevant(entries[1..]);
        assert kept[0] == entries[0] && kept[1..] == Relevant(entries[1..]);
      }
    }
  }

  /** The walk runs to the end exactly when every entry passes. */
  lemma {:induction false} WalkExhaustedIff(name: string, entries: seq<Entry>)
    ensures Walk(name, entries) == Exhausted <==> forall j | 0 <= j < |entries| :: Passes(name, entries[j])
    decreases |entries|
  {
    if entries != [] {
      WalkExhaustedIff(name, entries[1..]);
      assert forall j | 1 <= j < |entries| :: entries[j] == entries[1..][j - 1];
    }
  }

  /** If no definition file matches and no error occurs, the lookup reports
      "generator '<name>' not found". */
  lemma LookupNotFound(name: string, entries: seq<Entry>)
    requires forall j | 0 <= j < |entries| :: Passes(name, entries[j])
    ensures Lookup(name, entries) == Err(GeneratorNotFound(name))
  {
    WalkExhaustedIff(name, entries);
  }

  /** The outcome decided by the first entry that does not pass. */
  function StopAt(name: string, e: Entry): Result<Config> {
    match e
    case Broken(_, err) => Err(err)
    case Node(_, _, load) =>
      match load
      case Err(err) => Err(err)
      case Ok(c) => if name == "" then Err(GeneratorNotFound(name)) else Ok(c)
  }

  /** How the walk ends at an entry that does not pass. */
  function EndAt(name: string, e: Entry): WalkEnd {
    match e
    case Broken(_, err) => Failed(err)
    case Node(_, _, load) =>
      match load
      case Err(err) => Failed(err)
      case Ok(c) => Matched(c)
  }

  lemma {:induction false} WalkStopsAt(name: string, entries: seq<Entry>, k: nat)
    requires k < |entries|
    requires forall j | 0 <= j < k :: Passes(name, entries[j])
    requires !Passes(name, entries[k])
    ensures Walk(name, entries) == EndAt(name, entries[k])
    decreases k
  {
    if k > 0 {
      WalkSkipsPassing(name, entries);
      var tail := entries[1..];
      assert forall j | 0 <= j < k - 1 :: tail[j] == entries[j + 1];
      WalkStopsAt(name, tail, k - 1);
    }
  }

  /** The first entry that does not pass decides the lookup: a walk, read or decode
      error is returned as it is; a definition named `name` is returned unless the
      name is empty. Nothing after that entry is looked at. */
  lemma LookupStopsAt(name: string, entries: seq<Entry>, k: nat, rest: seq<Entry>)
    requires k < |entries|
    requires forall j | 0 <= j < k :: Passes(name, entries[j])
    requires !Passes(name, entries[k])
    ensures Lookup(name, entries) == StopAt(name, entries[k])
    ensures Lookup(name, entries[..k + 1] + rest) == Lookup(name, entries)
  {
    WalkStopsAt(name, entries, k);
    var other := entries[..k + 1] + rest;
    assert forall j | 0 <= j <= k :: other[j] == entries[j];
    WalkStopsAt(name, other, k);
  }

  /** An entry that passes is skipped. */
  lemma WalkSkipsPassing(name: string, entries: seq<Entry>)
    requires entries != [] && Passes(name, entries[0])
    ensures Walk(name, entries) == Walk(name, entries[1..])
  {
  }

  /** A successful lookup returned the first definition file named `name`, every
      entry before it passed, and `name` is not empty. */
  lemma {:induction false} LookupOkAt(name: string, entries: seq<Entry>, c: Config) returns (k: nat)
    requires Lookup(name, entries) == Ok(c)
    ensures k < |entries| && Considered(entries[k]) && entries[k].load == Ok(c)
    ensures c.name == name && name != ""
    ensures forall j | 0 <= j < k :: Passes(name, entries[j])
  {
    k := WalkMatchedAt(name, entries, c);
  }

  lemma {:induction false} WalkMatchedAt(name: string, entries: seq<Entry>, c: Config) returns (k: nat)
    requires Walk(name, entries) == Matched(c)
    ensures k < |entries| && Considered(entries[k]) && entries[k].load == Ok(c) && c.name == name
    ensures forall j | 0 <= j < k :: Passes(name, entries[j])
    decreases |entries|
  {
    var e := entries[0];
    assert e.Node?;
    if Considered(e) && e.load == Ok(c) && c.name == name {
      k := 0;
    } else {
      assert Passes(name, e);
      assert Walk(name, entries[1..]) == Matched(c);
      var k' := WalkMatchedAt(name, entries[1..], c);
      k := k' + 1;
      assert forall j | 1 <= j < k :: entries[j] == entries[1..][j - 1];
    }
  }

  /** Asking for the empty name never yields a generator. */
  lemma EmptyNameNeverFound(entries: seq<Entry>)
    ensures Lookup("", entries).Err?
  {
    if Walk("", entries).Matched? {
      var _ := WalkMatchedAt("", entries, Walk("", entries).config);
    }
  }

  // ===========================================================================
  // Data building (`BuildData`)

  /** The text shown before reading a prompt's value. */
  function PromptText(p: Prompt): string {
    (if p.message == "" then "input " + p.name else p.message) + ": "
  }

  /** The data map and terminal after `BuildData`. */
  datatype Collected = Collected(data: Data, tty: Tty)

  /** `BuildData` as a function: in declaration order, every prompt whose name is not
      yet a key is shown and answered with the next input line. */
  function Collect(prompts: seq<Prompt>, data: Data, tty: Tty): Collected
    decreases |prompts|
  {
    if prompts == [] then Collected(data, tty)
    else
      var p := prompts[0];
      if p.name in data then Collect(prompts[1..], data, tty)
      else Collect(prompts[1..], data[p.name := tty.Answer()], tty.After(PromptText(p)))
  }

  /** The prompts `BuildData` asks, given the keys already present: the first
      prompt of each name that is not a key, in declaration order. */
  function Asked(prompts: seq<Prompt>, keys: set<string>): seq<Prompt>
    decreases |prompts|
  {
    if prompts == [] then []
    else if prompts[0].name in keys then Asked(prompts[1..], keys)
    else [prompts[0]] + Asked(prompts[1..], keys + {prompts[0].name})
  }

  /** The prompt texts shown for `asked`, in order. */
  function Texts(asked: seq<Prompt>): (texts: seq<string>)
    ensures |texts| == |asked|
    ensures forall j | 0 <= j < |asked| :: texts[j] == PromptText(asked[j])
  {
    seq(|asked|, j requires 0 <= j < |asked| => PromptText(asked[j]))
  }

  /** The `j`-th line `fmt.Scanln` reads from `lines`: "" once they are exhausted. */
  function LineAt(lines: seq<string>, j: nat): string {
    if j < |lines| then lines[j] else ""
  }

  /** `lines` after `n` reads. */
  function Drop(lines: seq<string>, n: nat): seq<string> {
    if n < |lines| then lines[n..] else []
  }

  /** After `BuildData` every prompt name is a key, no other key is added, and keys
      already present (even with an empty value) keep their value. */
  lemma {:induction false} CollectKeepsAndCovers(prompts: seq<Prompt>, data: Data, tty: Tty)
    ensures Collect(prompts, data, tty).data.Keys == data.Keys + NameSet(prompts)
    ensures forall k | k in data :: Collect(prompts, data, tty).data[k] == data[k]
    decreases |prompts|
  {
    if prompts != [] {
      var p := prompts[0];
      assert NameSet(prompts) == {p.name} + NameSet(prompts[1..]) by {
        assert forall q | q in prompts :: q == p || q in prompts[1..];
      }
      if p.name in data {
        CollectKeepsAndCovers(prompts[1..], data, tty);
      } else {
        CollectKeepsAndCovers(prompts[1..], data[p.name := tty.Answer()], tty.After(PromptText(p)));
      }
    }
  }

  /** `BuildData` shows the asked prompts' texts in order and consumes exactly one
      input line for each. */
  lemma {:induction false} CollectShowsAndConsumes(prompts: seq<Prompt>, data: Data, tty: Tty)
    ensures Collect(prompts, data, tty).tty.shown == tty.shown + Texts(Asked(prompts, data.Keys))
    ensures Collect(prompts, data, tty).tty.input == Drop(tty.input, |Asked(prompts, data.Keys)|)
    decreases |prompts|
  {
    if prompts != [] {
      var p := prompts[0];
      if p.name in data {
        CollectShowsAndConsumes(prompts[1..], data, tty);
      } else {
        var data' := data[p.name := tty.Answer()];
        var tty' := tty.After(PromptText(p));
        assert data'.Keys == data.Keys + {p.name};
        CollectShowsAndConsumes(prompts[1..], data', tty');
        var rest := Asked(prompts[1..], data'.Keys);
        assert Asked(prompts, data.Keys) == [p] + rest;
        assert Texts([p] + rest) == [PromptText(p)] + Texts(rest);
        assert Drop(tty'.input, |rest|) == Drop(tty.input, |rest| + 1);
      }
    }
  }

  /** `BuildData` stores the `j`-th line it reads, verbatim, under the name of the
      `j`-th asked prompt. */
  lemma {:induction false} CollectStoresLines(prompts: seq<Prompt>, data: Data, tty: Tty)
    ensures var r := Collect(prompts, data, tty);
      var asked := Asked(prompts, data.Keys);
      forall j | 0 <= j < |asked| :: asked[j].name in r.data && r.data[asked[j].name] == LineAt(tty.input, j)
    decreases |prompts|
  {
    if prompts != [] {
      var p := prompts[0];
      if p.name in data {
        CollectStoresLines(prompts[1..], data, tty);
        assert Asked(prompts, data.Keys) == Asked(prompts[1..], data.Keys);
        assert Collect(prompts, data, tty) == Collect(prompts[1..], data, tty);
      } else {
        var data' := data[p.name := tty.Answer()];
        var tty' := tty.After(PromptText(p));
        assert data'.Keys == data.Keys + {p.name};
        CollectStoresLines(prompts[1..], data', tty');
        CollectKeepsAndCovers(prompts[1..], data', tty');
        var rest := Asked(prompts[1..], data'.Keys);
        var asked := Asked(prompts, data.Keys);
        assert asked == [p] + rest;
        var r := Collect(prompts, data, tty);
        assert r == Collect(prompts[1..], data', tty');
        forall j | 0 <= j < |asked|
          ensures asked[j].name in r.data && r.data[asked[j].name] == LineAt(tty.input, j)
        {
          if j == 0 {
            assert r.data[p.name] == tty.Answer();
          } else {
            assert asked[j] == rest[j - 1];
            assert LineAt(tty'.input, j - 1) == LineAt(tty.input, j);
          }
        }
      }
    }
  }

  /** Only prompts whose name is not yet a key are asked, and every such name is asked
      for once: the asked names are exactly the missing ones. */
  lemma {:induction false} AskedExactlyMissing(prompts: seq<Prompt>, keys: set<string>)
    ensures forall q | q in Asked(prompts, keys) :: q in prompts && q.name !in keys
    ensures forall p | p in prompts && p.name !in keys :: p.name in NameSet(Asked(prompts, keys))
    decreases |prompts|
  {
    if prompts != [] {
      var p := prompts[0];
      var tail := prompts[1..];
      assert forall q | q in prompts :: q == p || q in tail;
      if p.name in keys {
        AskedExactlyMissing(tail, keys);
      } else {
        AskedExactlyMissing(tail, keys + {p.name});
        assert p in Asked(prompts, keys);
      }
    }
  }

  /** With distinct prompt names none of which is a key, every prompt is asked. */
  lemma {:induction false} AskedAll(prompts: seq<Prompt>, keys: set<string>)
    requires forall i, j | 0 <= i < j < |prompts| :: prompts[i].name != prompts[j].name
    requires forall i | 0 <= i < |prompts| :: prompts[i].name !in keys
    ensures Asked(prompts, keys) == prompts
    decreases |prompts|
  {
    if prompts != [] {
      var p := prompts[0];
      var tail := prompts[1..];
      assert forall i | 0 <= i < |tail| :: tail[i] == prompts[i + 1];
      assert forall i | 0 <= i < |tail| :: tail[i].name != p.name;
      AskedAll(tail, keys + {p.name});
      assert Asked(prompts, keys) == [p] + tail;
      assert [p] + tail == prompts;
    }
  }

  /** When every prompt name is already a key, `BuildData` asks nothing, reads no
      input and leaves the data as it is. */
  lemma {:induction false} CollectNonInteractive(prompts: seq<Prompt>, data: Data, tty: Tty)
    requires forall i | 0 <= i < |prompts| :: prompts[i].name in data
    ensures Asked(prompts, data.Keys) == []
    ensures Collect(prompts, data, tty) == Collected(data, tty)
    decreases |prompts|
  {
    if prompts != [] {
      var tail := prompts[1..];
      assert forall i | 0 <= i < |tail| :: tail[i] == prompts[i + 1];
      CollectNonInteractive(tail, data, tty);
    }
  }

  // ===========================================================================
  // Generation (`Generate`)

  /** The abstract `html/template` engine: whether a template text parses, whether its
      parse tree is empty (nothing but spaces and comments), and what executing a parsed
      text against the data writes (possibly only a prefix of the output, when `failure`
      is set). */
  datatype Rendered = Rendered(text: string, failure: Option<Error>)
  datatype Engine = Engine(parse: string -> Option<Error>, blank: string -> bool, execute: (string, Data) -> Rendered)

  datatype Operation = Added | Updated

  /** One summary entry: a file written by `Generate`. */
  datatype Change = Change(op: Operation, path: string)

  /** The line printed for `c` under "Files:". */
  function SummaryLine(c: Change): string {
    "      " + (if c.op == Added then "added" else "updated") + ": " + c.path
  }

  /** The confirmation shown before overwriting `path`. */
  function OverwritePrompt(path: string): string {
    "overwrite " + path + " ? [y/N]: "
  }

  /** The template files `Generate` parses: `ROOT_DIR + "/" + input` per mapping. */
  function InputPaths(inOuts: seq<InOut>): (paths: seq<string>)
    ensures |paths| == |inOuts|
    ensures forall i | 0 <= i < |inOuts| :: paths[i] == ROOT_DIR + "/" + inOuts[i].input
  {
    seq(|inOuts|, i requires 0 <= i < |inOuts| => ROOT_DIR + "/" + inOuts[i].input)
  }

  /** The set of the mappings' outputs. */
  function Outputs(inOuts: seq<InOut>): set<string> {
    set m | m in inOuts :: m.output
  }

  lemma OutputsCons(inOuts: seq<InOut>)
    requires inOuts != []
    ensures Outputs(inOuts) == {inOuts[0].output} + Outputs(inOuts[1..])
  {
    assert forall m | m in inOuts :: m == inOuts[0] || m in inOuts[1..];
  }

  /** `template.ParseFiles(paths...)`: no paths is an error; otherwise every file is
      read and parsed in order, and its text is stored under its base name. */
  function LoadTemplates(disk: Disk, engine: Engine, paths: seq<string>): Result<map<string, string>> {
    if paths == [] then Err(NoTemplateFiles) else ParseAll(disk, engine, paths, map[])
  }

  /** Adding a parsed file to the set under `name`: a text whose parse tree is empty
      does not replace a template already defined under that name; any other text does. */
  function Associate(acc: map<string, string>, name: string, text: string, engine: Engine): map<string, string> {
    if name in acc && engine.blank(text) then acc else acc[name := text]
  }

  function ParseAll(disk: Disk, engine: Engine, paths: seq<string>, acc: map<string, string>): Result<map<string, string>>
    decreases |paths|
  {
    if paths == [] then Ok(acc)
    else
      match disk.ReadFile(paths[0])
      case Err(e) => Err(e)
      case Ok(text) =>
        match engine.parse(text)
        case Some(e) => Err(e)
        case None => ParseAll(disk, engine, paths[1..], Associate(acc, Base(paths[0]), text, engine))
  }

  /** A path every one of whose files exists and parses. */
  predicate Loadable(disk: Disk, engine: Engine, paths: seq<string>) {
    forall i | 0 <= i < |paths| :: paths[i] in disk.files && engine.parse(disk.files[paths[i]]).None?
  }

  /** The base names of `paths`. */
  function Bases(paths: seq<string>): set<string> {
    set p | p in paths :: Base(p)
  }

  /** The text of the file at `p`, or "" when there is none. */
  function TextOf(disk: Disk, p: string): string {
    if p in disk.files then disk.files[p] else ""
  }

  /** Every file of `paths` with base name `b` has an empty parse tree. */
  predicate AllBlank(disk: Disk, engine: Engine, paths: seq<string>, b: string) {
    forall j {:trigger Base(paths[j])} | 0 <= j < |paths| && Base(paths[j]) == b :: engine.blank(TextOf(disk, paths[j]))
  }

  /** Every file of `paths` after index `i` with base name `b` has an empty parse tree. */
  predicate BlankAfter(disk: Disk, engine: Engine, paths: seq<string>, i: nat, b: string) {
    forall j {:trigger Base(paths[j])} | i < j < |paths| && Base(paths[j]) == b :: engine.blank(TextOf(disk, paths[j]))
  }

  /** No file of `paths` before index `i` has base name `b`. */
  predicate NewBefore(paths: seq<string>, i: nat, b: string) {
    forall j {:trigger Base(paths[j])} | 0 <= j < i && j < |paths| :: Base(paths[j]) != b
  }

  /** `paths[i]` is the file whose text ends up under its base name: the last file of
      that base name with a non-empty parse tree, or the first of them when all are empty. */
  predicate Chosen(disk: Disk, engine: Engine, paths: seq<string>, i: nat)
    requires i < |paths|
  {
    var b := Base(paths[i]);
    || (!engine.blank(TextOf(disk, paths[i])) && BlankAfter(disk, engine, paths, i, b))
    || (AllBlank(disk, engine, paths, b) && NewBefore(paths, i, b))
  }

  /** Loading succeeds exactly when there is a path and every file exists and parses;
      then the set holds one template per base name, with the text of the chosen file
      of that base name. */
  lemma LoadTemplatesSpec(disk: Disk, engine: Engine, paths: seq<string>)
    ensures LoadTemplates(disk, engine, paths).Ok? <==> paths != [] && Loadable(disk, engine, paths)
    ensures LoadTemplates(disk, engine, paths).Ok? ==>
      var t := LoadTemplates(disk, engine, paths).value;
      && t.Keys == Bases(paths)
      && forall i | 0 <= i < |paths| && Chosen(disk, engine, paths, i) ::
        paths[i] in disk.files && t[Base(paths[i])] == disk.files[paths[i]]
  {
    ParseAllOk(disk, engine, paths, map[]);
    if paths != [] && Loadable(disk, engine, paths) {
      ParseAllKeys(disk, engine, paths, map[]);
      ParseAllAssociates(disk, engine, paths, map[]);
      var es := Entries(disk, paths);
      EntriesIndex(disk, paths);
      forall i | 0 <= i < |paths| && Chosen(disk, engine, paths, i)
        ensures paths[i] in disk.files && AssociateAll(map[], es, engine)[Base(paths[i])] == disk.files[paths[i]]
      {
        var b := Base(paths[i]);
        assert es[i] == Parsed(b, disk.files[paths[i]]);
        if !engine.blank(TextOf(disk, paths[i])) && BlankAfter(disk, engine, paths, i, b) {
          assert forall j | i < j < |es| && es[j].name == b :: engine.blank(es[j].text) by {
            forall j | i < j < |es| && es[j].name == b
              ensures engine.blank(es[j].text)
            {
              assert es[j] == Parsed(Base(paths[j]), TextOf(disk, paths[j]));
            }
          }
          LastNonBlankKept(map[], es, engine, i);
        } else {
          assert forall j | 0 <= j < |es| && es[j].name == b :: engine.blank(es[j].text) by {
            forall j | 0 <= j < |es| && es[j].name == b
              ensures engine.blank(es[j].text)
            {
              assert es[j] == Parsed(Base(paths[j]), TextOf(disk, paths[j]));
            }
          }
          assert forall j | 0 <= j < i :: es[j].name != b by {
            forall j | 0 <= j < i
              ensures es[j].name != b
            {
              assert es[j] == Parsed(Base(paths[j]), TextOf(disk, paths[j]));
            }
          }
          FirstBlankKept(map[], es, engine, i);
        }
      }
    }
  }

  lemma {:induction false} ParseAllOk(disk: Disk, engine: Engine, paths: seq<string>, acc: map<string, string>)
    ensures ParseAll(disk, engine, paths, acc).Ok? <==> Loadable(disk, engine, paths)
    decreases |paths|
  {
    if paths != [] {
      LoadableCons(disk, engine, paths);
      if paths[0] in disk.files && engine.parse(disk.files[paths[0]]).None? {
        ParseAllOk(disk, engine, paths[1..], Associate(acc, Base(paths[0]), disk.files[paths[0]], engine));
      }
    }
  }

  /** `paths` loads when its first file does and the rest of it loads. */
  lemma LoadableCons(disk: Disk, engine: Engine, paths: seq<string>)
    requires paths != []
    ensures Loadable(disk, engine, paths) <==>
      paths[0] in disk.files && engine.parse(disk.files[paths[0]]).None? && Loadable(disk, engine, paths[1..])
  {
    var tail := paths[1..];
    assert forall i | 0 <= i < |tail| :: tail[i] == paths[i + 1];
  }

  lemma {:induction false} ParseAllKeys(disk: Disk, engine: Engine, paths: seq<string>, acc: map<string, string>)
    requires ParseAll(disk, engine, paths, acc).Ok?
    ensures ParseAll(disk, engine, paths, acc).value.Keys == acc.Keys + Bases(paths)
    decreases |paths|
  {
    if paths != [] {
      var tail := paths[1..];
      assert Bases(paths) == {Base(paths[0])} + Bases(tail) by {
        assert forall p | p in paths :: p == paths[0] || p in tail;
      }
      ParseAllKeys(disk, engine, tail, Associate(acc, Base(paths[0]), disk.files[paths[0]], engine));
    }
  }

  /** The loop after a first file that exists and parses. */
  lemma ParseAllStep(disk: Disk, engine: Engine, paths: seq<string>, acc: map<string, string>)
    requires paths != [] && paths[0] in disk.files && engine.parse(disk.files[paths[0]]).None?
    ensures ParseAll(disk, engine, paths, acc) ==
      ParseAll(disk, engine, paths[1..], Associate(acc, Base(paths[0]), disk.files[paths[0]], engine))
  {
  }

  /** A parsed file as the loop adds it to the set: its base name and its text. */
  datatype Parsed = Parsed(name: string, text: string)

  /** The entries of `paths`, in order. */
  function Entries(disk: Disk, paths: seq<string>): seq<Parsed>
    decreases |paths|
  {
    if paths == [] then [] else [Parsed(Base(paths[0]), TextOf(disk, paths[0]))] + Entries(disk, paths[1..])
  }

  lemma {:induction false} EntriesIndex(disk: Disk, paths: seq<string>)
    ensures |Entries(disk, paths)| == |paths|
    ensures forall j | 0 <= j < |paths| :: Entries(disk, paths)[j] == Parsed(Base(paths[j]), TextOf(disk, paths[j]))
    decreases |paths|
  {
    if paths != [] {
      var tail := paths[1..];
      EntriesIndex(disk, tail);
      assert forall j | 0 < j < |paths| :: paths[j] == tail[j - 1];
    }
  }

  /** The set after `es` are added to `acc` in order. */
  function AssociateAll(acc: map<string, string>, es: seq<Parsed>, engine: Engine): map<string, string>
    decreases |es|
  {
    if es == [] then acc else AssociateAll(Associate(acc, es[0].name, es[0].text, engine), es[1..], engine)
  }

  /** Once every file loads, the loop adds the entries of `paths` in order. */
  lemma {:induction false} ParseAllAssociates(disk: Disk, engine: Engine, paths: seq<string>, acc: map<string, string>)
    requires Loadable(disk, engine, paths)
    ensures ParseAll(disk, engine, paths, acc) == Ok(AssociateAll(acc, Entries(disk, paths), engine))
    decreases |paths|
  {
    if paths != [] {
      LoadableCons(disk, engine, paths);
      ParseAllStep(disk, engine, paths, acc);
      var e := Parsed(Base(paths[0]), disk.files[paths[0]]);
      assert Entries(disk, paths) == [e] + Entries(disk, paths[1..]);
      assert ([e] + Entries(disk, paths[1..]))[1..] == Entries(disk, paths[1..]);
      ParseAllAssociates(disk, engine, paths[1..], Associate(acc, e.name, e.text, engine));
    }
  }

  /** Entries of name `b` with empty parse trees leave the template under `b` as it was. */
  lemma {:induction false} KeepsBlank(acc: map<string, string>, es: seq<Parsed>, engine: Engine, b: string)
    requires b in acc && forall j | 0 <= j < |es| && es[j].name == b :: engine.blank(es[j].text)
    ensures b in AssociateAll(acc, es, engine) && AssociateAll(acc, es, engine)[b] == acc[b]
    decreases |es|
  {
    if es != [] {
      var tail := es[1..];
      assert forall j | 0 <= j < |tail| :: tail[j] == es[j + 1];
      KeepsBlank(Associate(acc, es[0].name, es[0].text, engine), tail, engine, b);
    }
  }

  /** The last entry of a name with a non-empty parse tree is the one kept. */
  lemma {:induction false} LastNonBlankKept(acc: map<string, string>, es: seq<Parsed>, engine: Engine, i: nat)
    requires i < |es| && !engine.blank(es[i].text)
    requires forall j | i < j < |es| && es[j].name == es[i].name :: engine.blank(es[j].text)
    ensures es[i].name in AssociateAll(acc, es, engine) && AssociateAll(acc, es, engine)[es[i].name] == es[i].text
    decreases i
  {
    var tail := es[1..];
    assert forall j | 0 <= j < |tail| :: tail[j] == es[j + 1];
    var acc' := Associate(acc, es[0].name, es[0].text, engine);
    if i == 0 {
      KeepsBlank(acc', tail, engine, es[0].name);
    } else {
      LastNonBlankKept(acc', tail, engine, i - 1);
    }
  }

  /** When every entry of a name has an empty parse tree, the first is the one kept. */
  lemma {:induction false} FirstBlankKept(acc: map<string, string>, es: seq<Parsed>, engine: Engine, i: nat)
    requires i < |es| && es[i].name !in acc
    requires forall j | 0 <= j < |es| && es[j].name == es[i].name :: engine.blank(es[j].text)
    requires forall j | 0 <= j < i :: es[j].name != es[i].name
    ensures es[i].name in AssociateAll(acc, es, engine) && AssociateAll(acc, es, engine)[es[i].name] == es[i].text
    decreases i
  {
    var tail := es[1..];
    assert forall j | 0 <= j < |tail| :: tail[j] == es[j + 1];
    var acc' := Associate(acc, es[0].name, es[0].text, engine);
    if i == 0 {
      KeepsBlank(acc', tail, engine, es[0].name);
    } else {
      FirstBlankKept(acc', tail, engine, i - 1);
    }
  }

  /** Every input names a file: it has a character other than '/'. */
  predicate NamedInputs(inOuts: seq<InOut>) {
    forall i | 0 <= i < |inOuts| :: TrimSlashes(inOuts[i].input) != ""
  }

  /** The base name under which a mapping's template is stored is the base name
      `Generate` executes. */
  lemma InputPathBase(inOuts: seq<InOut>, i: nat)
    requires i < |inOuts| && TrimSlashes(inOuts[i].input) != ""
    ensures Base(InputPaths(inOuts)[i]) == Base(inOuts[i].input)
  {
    BaseUnder(ROOT_DIR, inOuts[i].input);
  }

  /** After a successful load, the template `Generate` executes for each mapping (the
      one named by its input's base name) is in the set. */
  lemma TemplatesCoverMappings(disk: Disk, engine: Engine, inOuts: seq<InOut>)
    requires LoadTemplates(disk, engine, InputPaths(inOuts)).Ok?
    requires NamedInputs(inOuts)
    ensures forall i | 0 <= i < |inOuts| :: Base(inOuts[i].input) in LoadTemplates(disk, engine, InputPaths(inOuts)).value
  {
    var paths := InputPaths(inOuts);
    LoadTemplatesSpec(disk, engine, paths);
    forall i | 0 <= i < |inOuts| ensures Base(inOuts[i].input) in Bases(paths) {
      InputPathBase(inOuts, i);
      assert paths[i] in paths;
    }
  }

  /** Mapping `i` renders the file of mapping `j` when that is the file chosen for
      their shared base name: inputs that share a base name in different directories
      all render the last of those files whose parse tree is not empty, or the first
      of them when every one is blank. */
  lemma TemplateForMapping(disk: Disk, engine: Engine, inOuts: seq<InOut>, i: nat, j: nat)
    requires LoadTemplates(disk, engine, InputPaths(inOuts)).Ok?
    requires NamedInputs(inOuts)
    requires i < |inOuts| && j < |inOuts| && Base(inOuts[j].input) == Base(inOuts[i].input)
    requires Chosen(disk, engine, InputPaths(inOuts), j)
    ensures var t := LoadTemplates(disk, engine, InputPaths(inOuts)).value;
      && Base(inOuts[i].input) in t
      && ROOT_DIR + "/" + inOuts[j].input in disk.files
      && t[Base(inOuts[i].input)] == disk.files[ROOT_DIR + "/" + inOuts[j].input]
  {
    var paths := InputPaths(inOuts);
    LoadTemplatesSpec(disk, engine, paths);
    InputPathBase(inOuts, j);
    assert paths[j] in paths;
  }

  /** The state after one mapping, and what happened to it. */
  datatype Outcome = Skipped | Wrote(change: Change) | Aborted(error: Error)
  datatype Stepped = Stepped(outcome: Outcome, disk: Disk, tty: Tty)

  /** One iteration of the mapping loop: an existing output needs the answer "y";
      then the output is written. */
  function Step(disk: Disk, tty: Tty, m: InOut, tmpls: map<string, string>, engine: Engine, data: Data): Stepped
  {
    var existed := disk.Exists(m.output);
    var tty' := if existed then tty.After(OverwritePrompt(m.output)) else tty;
    if existed && tty.Answer() != "y" then Stepped(Skipped, disk, tty')
    else
      var w := WriteOutput(disk, m, if existed then Updated else Added, tmpls, engine, data);
      Stepped(w.outcome, w.disk, tty')
  }

  /** The disk after writing one output, and what happened to the mapping. */
  datatype Written = Written(outcome: Outcome, disk: Disk)

  /** The parent directories are made, the file is created and the template named by
      the input's base name is executed into it; the first error stops the mapping. */
  function WriteOutput(disk: Disk, m: InOut, op: Operation, tmpls: map<string, string>, engine: Engine, data: Data): Written
  {
    match disk.MkdirAll(Dir(m.output))
    case Err(e) => Written(Aborted(e), disk)
    case Ok(made) =>
      match made.Create(m.output)
      case Err(e) => Written(Aborted(e), made)
      case Ok(created) => Render(created, m, op, tmpls, engine, data)
  }

  /** Executing the mapping's template into the freshly created output file. */
  function Render(created: Disk, m: InOut, op: Operation, tmpls: map<string, string>, engine: Engine, data: Data): Written
  {
    var name := Base(m.input);
    if name !in tmpls then Written(Aborted(NoSuchTemplate(name)), created)
    else
      var out := engine.execute(tmpls[name], data);
      var written := created.Write(m.output, out.text);
      match out.failure
      case Some(e) => Written(Aborted(e), written)
      case None => Written(Wrote(Change(op, m.output)), written)
  }

  /** What one iteration does: an existing output needs exactly "y" (one line read),
      otherwise it is skipped with the disk unchanged. A new or confirmed output is
      handed to `WriteOutput` (whose cases `WriteOutputCases` states): it is written
      exactly when its parent chain can be made, it can be created, and its template
      exists and runs without failure. A written mapping is recorded as updated exactly
      when its output existed, holds the rendered text, and has its parent chain. */
  lemma StepSpec(disk: Disk, tty: Tty, m: InOut, tmpls: map<string, string>, engine: Engine, data: Data)
    ensures var s := Step(disk, tty, m, tmpls, engine, data);
      var o := m.output;
      var name := Base(m.input);
      var op := if disk.Exists(o) then Updated else Added;
      && (s.tty == if disk.Exists(o) then tty.After(OverwritePrompt(o)) else tty)
      && (s.outcome.Skipped? <==> disk.Exists(o) && tty.Answer() != "y")
      && (s.outcome.Skipped? ==> s.disk == disk)
      && (!s.outcome.Skipped? ==> Written(s.outcome, s.disk) == WriteOutput(disk, m, op, tmpls, engine, data))
      && (s.outcome.Wrote? <==>
        && (!disk.Exists(o) || tty.Answer() == "y")
        && (forall x | x in Ancestors(Dir(o)) :: x !in disk.files)
        && o != "" && o[|o| - 1] != '/' && o !in disk.dirs && o !in Ancestors(Dir(o))
        && name in tmpls && engine.execute(tmpls[name], data).failure.None?)
      && (s.outcome.Wrote? ==>
        && s.outcome.change == Change(op, o)
        && name in tmpls
        && o in s.disk.files
        && s.disk.files[o] == engine.execute(tmpls[name], data).text
        && Ancestors(Dir(o)) <= s.disk.dirs)
  {
    var existed := disk.Exists(m.output);
    if !(existed && tty.Answer() != "y") {
      WriteOutputCases(disk, m, if existed then Updated else Added, tmpls, engine, data);
    }
  }

  /** Writing an output never skips it; success records `op` for the output and leaves
      the rendered text in it. */
  lemma WriteOutputSpec(disk: Disk, m: InOut, op: Operation, tmpls: map<string, string>, engine: Engine, data: Data)
    ensures var w := WriteOutput(disk, m, op, tmpls, engine, data);
      && !w.outcome.Skipped?
      && (w.outcome.Wrote? ==>
        && w.outcome.change == Change(op, m.output)
        && Base(m.input) in tmpls
        && m.output in w.disk.files
        && w.disk.files[m.output] == engine.execute(tmpls[Base(m.input)], data).text)
  {
    disk.MkdirAllSpec(Dir(m.output));
    match disk.MkdirAll(Dir(m.output))
    case Err(_) =>
    case Ok(made) =>
      made.CreateSpec(m.output);
      match made.Create(m.output)
      case Err(_) =>
      case Ok(created) =>
        assert WriteOutput(disk, m, op, tmpls, engine, data) == Render(created, m, op, tmpls, engine, data);
  }

  /** When `WriteOutput` writes, and which error stops it otherwise. The parent chain
      is made unless one of its directories is a file (the `mkdir` error names the
      longest such file); the output is then created unless it is empty, ends in a
      separator or is a directory (the `open` error); the template must exist
      (`NoSuchTemplate`) and the engine's failure stops the mapping, leaving the partial
      text in the file. Otherwise the file holds the rendered text. */
  lemma WriteOutputCases(disk: Disk, m: InOut, op: Operation, tmpls: map<string, string>, engine: Engine, data: Data)
    ensures var w := WriteOutput(disk, m, op, tmpls, engine, data);
      var o := m.output;
      var name := Base(m.input);
      var chainFree := forall x | x in Ancestors(Dir(o)) :: x !in disk.files;
      var creatable := o != "" && o[|o| - 1] != '/' && o !in disk.dirs && o !in Ancestors(Dir(o));
      && (w.outcome.Wrote? <==>
            chainFree && creatable && name in tmpls && engine.execute(tmpls[name], data).failure.None?)
      && (w.outcome.Wrote? ==> w.outcome.change == Change(op, o))
      && (!chainFree ==> w.disk == disk && w.outcome.Aborted? && var e := w.outcome.error;
            && e.PathError? && e == PathError("mkdir", e.path, NotDirectory)
            && e.path in Ancestors(Dir(o)) && e.path in disk.files
            && forall y | y in Ancestors(Dir(o)) && |y| > |e.path| :: y !in disk.files)
      && (chainFree ==> w.disk.dirs == disk.dirs + Ancestors(Dir(o)))
      && (chainFree && !creatable ==>
            && w.disk.files == disk.files
            && w.outcome == Aborted(PathError("open", o, if o == "" then NoEntry else IsDirectory)))
      && (chainFree && creatable && name !in tmpls ==>
            && w.outcome == Aborted(NoSuchTemplate(name))
            && o in w.disk.files && w.disk.files[o] == "")
      && (chainFree && creatable && name in tmpls ==>
            var out := engine.execute(tmpls[name], data);
            && o in w.disk.files && w.disk.files[o] == out.text
            && (out.failure.Some? ==> w.outcome == Aborted(out.failure.value)))
  {
    var o := m.output;
    disk.MkdirAllSpec(Dir(o));
    AncestorsSpec(Dir(o));
    match disk.MkdirAll(Dir(o))
    case Err(_) =>
    case Ok(made) =>
      made.CreateSpec(o);
      match made.Create(o)
      case Err(_) =>
      case Ok(created) =>
        assert WriteOutput(disk, m, op, tmpls, engine, data) == Render(created, m, op, tmpls, engine, data);
  }

  /** One iteration changes only its output file, removes nothing, and keeps files and
      directories disjoint. */
  lemma StepFrame(disk: Disk, tty: Tty, m: InOut, tmpls: map<string, string>, engine: Engine, data: Data)
    ensures var s := Step(disk, tty, m, tmpls, engine, data);
      && (forall p | p in disk.files && p != m.output :: p in s.disk.files && s.disk.files[p] == disk.files[p])
      && (disk.files.Keys <= s.disk.files.Keys <= disk.files.Keys + {m.output})
      && (disk.dirs <= s.disk.dirs)
      && (disk.Valid() ==> s.disk.Valid())
  {
    var existed := disk.Exists(m.output);
    if !(existed && tty.Answer() != "y") {
      WriteOutputFrame(disk, m, if existed then Updated else Added, tmpls, engine, data);
    }
  }

  lemma WriteOutputFrame(disk: Disk, m: InOut, op: Operation, tmpls: map<string, string>, engine: Engine, data: Data)
    ensures var w := WriteOutput(disk, m, op, tmpls, engine, data);
      && (forall p | p in disk.files && p != m.output :: p in w.disk.files && w.disk.files[p] == disk.files[p])
      && (disk.files.Keys <= w.disk.files.Keys <= disk.files.Keys + {m.output})
      && (disk.dirs <= w.disk.dirs)
      && (disk.Valid() ==> w.disk.Valid())
  {
    disk.MkdirAllSpec(Dir(m.output));
    match disk.MkdirAll(Dir(m.output))
    case Err(_) =>
    case Ok(made) =>
      made.CreateSpec(m.output);
      match made.Create(m.output)
      case Err(_) =>
      case Ok(created) =>
        RenderFrame(created, m, op, tmpls, engine, data);
  }

  lemma RenderFrame(created: Disk, m: InOut, op: Operation, tmpls: map<string, string>, engine: Engine, data: Data)
    requires m.output in created.files
    ensures var w := Render(created, m, op, tmpls, engine, data);
      && (forall p | p in created.files && p != m.output :: p in w.disk.files && w.disk.files[p] == created.files[p])
      && w.disk.files.Keys == created.files.Keys
      && w.disk.dirs == created.dirs
  {
  }

  /** The state after the mapping loop, the summary of the files written so far, and
      the error that stopped the loop, if any. */
  datatype Run = Run(disk: Disk, tty: Tty, changes: seq<Change>, failure: Option<Error>) {
    function Result(): Result<seq<Change>> {
      if failure.Some? then Err(failure.value) else Ok(changes)
    }
  }

  /** The mapping loop: mappings in declaration order, a skip goes on to the next one,
      an error stops the loop and keeps what was written before it. */
  function RunMappings(disk: Disk, tty: Tty, inOuts: seq<InOut>, tmpls: map<string, string>, engine: Engine, data: Data): Run
    decreases |inOuts|
  {
    if inOuts == [] then Run(disk, tty, [], None)
    else
      var s := Step(disk, tty, inOuts[0], tmpls, engine, data);
      match s.outcome
      case Aborted(e) => Run(s.disk, s.tty, [], Some(e))
      case Skipped => RunMappings(s.disk, s.tty, inOuts[1..], tmpls, engine, data)
      case Wrote(c) =>
        var r := RunMappings(s.disk, s.tty, inOuts[1..], tmpls, engine, data);
        Run(r.disk, r.tty, [c] + r.changes, r.failure)
  }

  /** After `files` were recorded, the loop over `suffix` from `disk` and `tty`
      finishes the run `whole`. */
  predicate Resumes(whole: Run, files: seq<Change>, disk: Disk, tty: Tty, suffix: seq<InOut>, tmpls: map<string, string>, engine: Engine, data: Data) {
    var r := RunMappings(disk, tty, suffix, tmpls, engine, data);
    whole == Run(r.disk, r.tty, files + r.changes, r.failure)
  }

  /** One iteration of the mapping loop keeps `Resumes`, or ends the run with its error. */
  lemma ResumeStep(whole: Run, files: seq<Change>, disk: Disk, tty: Tty, inOuts: seq<InOut>, i: nat, tmpls: map<string, string>, engine: Engine, data: Data)
    requires i < |inOuts| && Resumes(whole, files, disk, tty, inOuts[i..], tmpls, engine, data)
    ensures var s := Step(disk, tty, inOuts[i], tmpls, engine, data);
      match s.outcome
      case Aborted(e) => whole == Run(s.disk, s.tty, files, Some(e))
      case Skipped => Resumes(whole, files, s.disk, s.tty, inOuts[i + 1..], tmpls, engine, data)
      case Wrote(c) => Resumes(whole, files + [c], s.disk, s.tty, inOuts[i + 1..], tmpls, engine, data)
  {
    var s := Step(disk, tty, inOuts[i], tmpls, engine, data);
    var here := RunMappings(disk, tty, inOuts[i..], tmpls, engine, data);
    var rest := RunMappings(s.disk, s.tty, inOuts[i + 1..], tmpls, engine, data);
    assert inOuts[i..][0] == inOuts[i] && inOuts[i..][1..] == inOuts[i + 1..];
    match s.outcome
    case Aborted(e) =>
      assert here == Run(s.disk, s.tty, [], Some(e));
      assert files + [] == files;
    case Skipped =>
      assert here == rest;
    case Wrote(c) =>
      assert here == Run(rest.disk, rest.tty, [c] + rest.changes, rest.failure);
      assert files + ([c] + rest.changes) == (files + [c]) + rest.changes;
  }

  /** `Generate` as a function: all templates are loaded first, and a load failure
      leaves disk and terminal as they were. */
  function GenerateSpec(inOuts: seq<InOut>, data: Data, engine: Engine, disk: Disk, tty: Tty): (r: Run)
    ensures LoadTemplates(disk, engine, InputPaths(inOuts)).Err? ==>
      r == Run(disk, tty, [], Some(LoadTemplates(disk, engine, InputPaths(inOuts)).error))
  {
    match LoadTemplates(disk, engine, InputPaths(inOuts))
    case Err(e) => Run(disk, tty, [], Some(e))
    case Ok(tmpls) => RunMappings(disk, tty, inOuts, tmpls, engine, data)
  }

  /** `xs` is `ys` with some elements left out. */
  predicate Subsequence(xs: seq<string>, ys: seq<string>)
    decreases |ys|
  {
    if xs == [] then true
    else if ys == [] then false
    else (xs[0] == ys[0] && Subsequence(xs[1..], ys[1..])) || Subsequence(xs, ys[1..])
  }

  function Paths(changes: seq<Change>): (paths: seq<string>)
    ensures |paths| == |changes|
    ensures forall i | 0 <= i < |changes| :: paths[i] == changes[i].path
  {
    seq(|changes|, i requires 0 <= i < |changes| => changes[i].path)
  }

  function OutputSeq(inOuts: seq<InOut>): (outs: seq<string>)
    ensures |outs| == |inOuts|
    ensures forall i | 0 <= i < |inOuts| :: outs[i] == inOuts[i].output
  {
    seq(|inOuts|, i requires 0 <= i < |inOuts| => inOuts[i].output)
  }

  /** The loop writes only declared outputs: every other file keeps its content, no
      file or directory disappears, and files and directories stay disjoint. */
  lemma {:induction false} RunTouchesOnlyOutputs(disk: Disk, tty: Tty, inOuts: seq<InOut>, tmpls: map<string, string>, engine: Engine, data: Data)
    ensures var r := RunMappings(disk, tty, inOuts, tmpls, engine, data);
      && (forall p | p in disk.files && p !in Outputs(inOuts) :: p in r.disk.files && r.disk.files[p] == disk.files[p])
      && disk.files.Keys <= r.disk.files.Keys <= disk.files.Keys + Outputs(inOuts)
      && disk.dirs <= r.disk.dirs
      && (disk.Valid() ==> r.disk.Valid())
    decreases |inOuts|
  {
    if inOuts != [] {
      var s := Step(disk, tty, inOuts[0], tmpls, engine, data);
      StepFrame(disk, tty, inOuts[0], tmpls, engine, data);
      OutputsCons(inOuts);
      if !s.outcome.Aborted? {
        RunTouchesOnlyOutputs(s.disk, s.tty, inOuts[1..], tmpls, engine, data);
        assert RunMappings(disk, tty, inOuts, tmpls, engine, data).disk ==
          RunMappings(s.disk, s.tty, inOuts[1..], tmpls, engine, data).disk;
      }
    }
  }

  /** The summary's paths are outputs of the mappings, in mapping order. */
  lemma {:induction false} RunSummaryInOrder(disk: Disk, tty: Tty, inOuts: seq<InOut>, tmpls: map<string, string>, engine: Engine, data: Data)
    ensures Subsequence(Paths(RunMappings(disk, tty, inOuts, tmpls, engine, data).changes), OutputSeq(inOuts))
    decreases |inOuts|
  {
    if inOuts != [] {
      var m := inOuts[0];
      var s := Step(disk, tty, m, tmpls, engine, data);
      var r := RunMappings(disk, tty, inOuts, tmpls, engine, data);
      var rest := RunMappings(s.disk, s.tty, inOuts[1..], tmpls, engine, data);
      RunSummaryInOrder(s.disk, s.tty, inOuts[1..], tmpls, engine, data);
      OutputSeqCons(inOuts);
      match s.outcome
      case Aborted(_) =>
        assert r.changes == [];
      case Skipped =>
        assert r == rest;
        SubsequenceDropHead(Paths(r.changes), OutputSeq(inOuts));
      case Wrote(c) =>
        StepWrotePath(disk, tty, m, tmpls, engine, data);
        assert r.changes == [c] + rest.changes;
        PathsCons(c, rest.changes);
        SubsequenceKeepHead(Paths(r.changes), OutputSeq(inOuts));
    }
  }

  lemma OutputSeqCons(inOuts: seq<InOut>)
    requires inOuts != []
    ensures OutputSeq(inOuts) != [] && OutputSeq(inOuts)[0] == inOuts[0].output
    ensures OutputSeq(inOuts)[1..] == OutputSeq(inOuts[1..])
  {
  }

  lemma PathsCons(c: Change, changes: seq<Change>)
    ensures Paths([c] + changes) != [] && Paths([c] + changes)[0] == c.path
    ensures Paths([c] + changes)[1..] == Paths(changes)
  {
  }

  /** A written mapping is recorded under its output path, which is then a file. */
  lemma StepWrotePath(disk: Disk, tty: Tty, m: InOut, tmpls: map<string, string>, engine: Engine, data: Data)
    ensures var s := Step(disk, tty, m, tmpls, engine, data);
      s.outcome.Wrote? ==> s.outcome.change.path == m.output && m.output in s.disk.files
  {
    var existed := disk.Exists(m.output);
    if !(existed && tty.Answer() != "y") {
      WriteOutputSpec(disk, m, if existed then Updated else Added, tmpls, engine, data);
    }
  }

  /** The iterations the mapping loop makes, each with the state it leaves: one per
      mapping, up to and including the first that fails. */
  function Steps(disk: Disk, tty: Tty, inOuts: seq<InOut>, tmpls: map<string, string>, engine: Engine, data: Data): (steps: seq<Stepped>)
    ensures |steps| <= |inOuts|
    decreases |inOuts|
  {
    if inOuts == [] then []
    else
      var s := Step(disk, tty, inOuts[0], tmpls, engine, data);
      if s.outcome.Aborted? then [s] else [s] + Steps(s.disk, s.tty, inOuts[1..], tmpls, engine, data)
  }

  /** The disk iteration `i` starts from. */
  function DiskBefore(disk: Disk, steps: seq<Stepped>, i: nat): Disk
    requires i <= |steps|
  {
    if i == 0 then disk else steps[i - 1].disk
  }

  /** The terminal iteration `i` starts from. */
  function TtyBefore(tty: Tty, steps: seq<Stepped>, i: nat): Tty
    requires i <= |steps|
  {
    if i == 0 then tty else steps[i - 1].tty
  }

  /** Iteration `i` of `[s] + rest` starts where iteration `i - 1` of `rest` does. */
  lemma BeforeShift(disk: Disk, tty: Tty, s: Stepped, rest: seq<Stepped>, i: nat)
    requires 0 < i <= |rest|
    ensures DiskBefore(disk, [s] + rest, i) == DiskBefore(s.disk, rest, i - 1)
    ensures TtyBefore(tty, [s] + rest, i) == TtyBefore(s.tty, rest, i - 1)
  {
  }

  /** The changes recorded by the iterations that wrote their output, in order. */
  function WroteChanges(steps: seq<Stepped>): seq<Change>
    decreases |steps|
  {
    if steps == [] then []
    else (if steps[0].outcome.Wrote? then [steps[0].outcome.change] else []) + WroteChanges(steps[1..])
  }

  lemma WroteChangesCons(s: Stepped, steps: seq<Stepped>)
    ensures WroteChanges([s] + steps) == (if s.outcome.Wrote? then [s.outcome.change] else []) + WroteChanges(steps)
  {
    assert ([s] + steps)[0] == s && ([s] + steps)[1..] == steps;
  }

  /** Iteration `i` is `Step` applied to mapping `i` in the state the previous iteration
      left, and only the last iteration can fail. */
  lemma {:induction false} StepsFollowLoop(disk: Disk, tty: Tty, inOuts: seq<InOut>, tmpls: map<string, string>, engine: Engine, data: Data, i: nat)
    requires i < |Steps(disk, tty, inOuts, tmpls, engine, data)|
    ensures var steps := Steps(disk, tty, inOuts, tmpls, engine, data);
      && steps[i] == Step(DiskBefore(disk, steps, i), TtyBefore(tty, steps, i), inOuts[i], tmpls, engine, data)
      && (i < |steps| - 1 ==> !steps[i].outcome.Aborted?)
    decreases i
  {
    var s := Step(disk, tty, inOuts[0], tmpls, engine, data);
    var steps := Steps(disk, tty, inOuts, tmpls, engine, data);
    if s.outcome.Aborted? {
      assert steps == [s];
    } else {
      var rest := Steps(s.disk, s.tty, inOuts[1..], tmpls, engine, data);
      assert steps == [s] + rest;
      if i > 0 {
        StepsFollowLoop(s.disk, s.tty, inOuts[1..], tmpls, engine, data, i - 1);
        assert steps[i] == rest[i - 1] && inOuts[i] == inOuts[1..][i - 1];
        BeforeShift(disk, tty, s, rest, i);
      }
    }
  }

  /** The summary is exactly the changes of the iterations that wrote their output, in
      order: a skipped mapping, and the mapping that failed, record nothing. */
  lemma {:induction false} RunSummaryFromSteps(disk: Disk, tty: Tty, inOuts: seq<InOut>, tmpls: map<string, string>, engine: Engine, data: Data)
    ensures RunMappings(disk, tty, inOuts, tmpls, engine, data).changes == WroteChanges(Steps(disk, tty, inOuts, tmpls, engine, data))
    decreases |inOuts|
  {
    if inOuts != [] {
      var s := Step(disk, tty, inOuts[0], tmpls, engine, data);
      var r := RunMappings(disk, tty, inOuts, tmpls, engine, data);
      var rest := RunMappings(s.disk, s.tty, inOuts[1..], tmpls, engine, data);
      var steps := Steps(disk, tty, inOuts, tmpls, engine, data);
      var tail := Steps(s.disk, s.tty, inOuts[1..], tmpls, engine, data);
      match s.outcome
      case Aborted(e) =>
        assert r.changes == [] && steps == [s] + [];
        WroteChangesCons(s, []);
      case Skipped =>
        RunSummaryFromSteps(s.disk, s.tty, inOuts[1..], tmpls, engine, data);
        assert r.changes == rest.changes && steps == [s] + tail;
        WroteChangesCons(s, tail);
      case Wrote(c) =>
        RunSummaryFromSteps(s.disk, s.tty, inOuts[1..], tmpls, engine, data);
        assert r.changes == [c] + rest.changes && steps == [s] + tail;
        WroteChangesCons(s, tail);
    }
  }

  /** With no failure every mapping had its iteration. */
  lemma {:induction false} RunWithoutFailureSteps(disk: Disk, tty: Tty, inOuts: seq<InOut>, tmpls: map<string, string>, engine: Engine, data: Data)
    requires RunMappings(disk, tty, inOuts, tmpls, engine, data).failure.None?
    ensures |Steps(disk, tty, inOuts, tmpls, engine, data)| == |inOuts|
    decreases |inOuts|
  {
    if inOuts != [] {
      var s := Step(disk, tty, inOuts[0], tmpls, engine, data);
      var rest := RunMappings(s.disk, s.tty, inOuts[1..], tmpls, engine, data);
      var tail := Steps(s.disk, s.tty, inOuts[1..], tmpls, engine, data);
      match s.outcome
      case Aborted(_) =>
        assert false;
      case Skipped =>
        assert rest.failure.None?;
        RunWithoutFailureSteps(s.disk, s.tty, inOuts[1..], tmpls, engine, data);
        assert Steps(disk, tty, inOuts, tmpls, engine, data) == [s] + tail;
      case Wrote(_) =>
        assert rest.failure.None?;
        RunWithoutFailureSteps(s.disk, s.tty, inOuts[1..], tmpls, engine, data);
        assert Steps(disk, tty, inOuts, tmpls, engine, data) == [s] + tail;
    }
  }

  /** A failure is the error of the last iteration. */
  lemma {:induction false} RunFailureSteps(disk: Disk, tty: Tty, inOuts: seq<InOut>, tmpls: map<string, string>, engine: Engine, data: Data)
    requires RunMappings(disk, tty, inOuts, tmpls, engine, data).failure.Some?
    ensures var steps := Steps(disk, tty, inOuts, tmpls, engine, data);
      steps != [] && steps[|steps| - 1].outcome == Aborted(RunMappings(disk, tty, inOuts, tmpls, engine, data).failure.value)
    decreases |inOuts|
  {
    var s := Step(disk, tty, inOuts[0], tmpls, engine, data);
    var r := RunMappings(disk, tty, inOuts, tmpls, engine, data);
    var rest := RunMappings(s.disk, s.tty, inOuts[1..], tmpls, engine, data);
    var tail := Steps(s.disk, s.tty, inOuts[1..], tmpls, engine, data);
    match s.outcome
    case Aborted(e) =>
      assert r.failure == Some(e) && Steps(disk, tty, inOuts, tmpls, engine, data) == [s];
    case Skipped =>
      assert r.failure == rest.failure;
      RunFailureSteps(s.disk, s.tty, inOuts[1..], tmpls, engine, data);
      assert Steps(disk, tty, inOuts, tmpls, engine, data) == [s] + tail;
      LastOfCons(s, tail);
    case Wrote(_) =>
      assert r.failure == rest.failure;
      RunFailureSteps(s.disk, s.tty, inOuts[1..], tmpls, engine, data);
      assert Steps(disk, tty, inOuts, tmpls, engine, data) == [s] + tail;
      LastOfCons(s, tail);
  }

  lemma LastOfCons(s: Stepped, tail: seq<Stepped>)
    ensures |[s] + tail| == |tail| + 1
    ensures tail != [] ==> ([s] + tail)[|tail|] == tail[|tail| - 1]
  {
  }

  /** What each iteration records: mapping `i` is skipped exactly when its output
      existed at that point and the answer was not "y"; a written mapping is recorded
      as updated exactly when its output existed at that point. */
  lemma StepsRecordOutcomes(disk: Disk, tty: Tty, inOuts: seq<InOut>, tmpls: map<string, string>, engine: Engine, data: Data)
    ensures var steps := Steps(disk, tty, inOuts, tmpls, engine, data);
      forall i | 0 <= i < |steps| ::
        var before := DiskBefore(disk, steps, i);
        var o := inOuts[i].output;
        && (steps[i].outcome.Skipped? <==> before.Exists(o) && TtyBefore(tty, steps, i).Answer() != "y")
        && (steps[i].outcome.Wrote? ==>
          steps[i].outcome.change == Change(if before.Exists(o) then Updated else Added, o))
  {
    var steps := Steps(disk, tty, inOuts, tmpls, engine, data);
    forall i | 0 <= i < |steps|
      ensures var before := DiskBefore(disk, steps, i);
        var o := inOuts[i].output;
        && (steps[i].outcome.Skipped? <==> before.Exists(o) && TtyBefore(tty, steps, i).Answer() != "y")
        && (steps[i].outcome.Wrote? ==>
          steps[i].outcome.change == Change(if before.Exists(o) then Updated else Added, o))
    {
      StepsFollowLoop(disk, tty, inOuts, tmpls, engine, data, i);
      StepSpec(DiskBefore(disk, steps, i), TtyBefore(tty, steps, i), inOuts[i], tmpls, engine, data);
    }
  }

  /** Every file in the summary is on disk at the end, also when a later mapping failed. */
  lemma {:induction false} RunSummaryOnDisk(disk: Disk, tty: Tty, inOuts: seq<InOut>, tmpls: map<string, string>, engine: Engine, data: Data)
    ensures SummaryOnDisk(RunMappings(disk, tty, inOuts, tmpls, engine, data))
    decreases |inOuts|
  {
    if inOuts != [] {
      var s := Step(disk, tty, inOuts[0], tmpls, engine, data);
      var r := RunMappings(disk, tty, inOuts, tmpls, engine, data);
      var rest := RunMappings(s.disk, s.tty, inOuts[1..], tmpls, engine, data);
      match s.outcome
      case Aborted(_) =>
      case Skipped =>
        RunSummaryOnDisk(s.disk, s.tty, inOuts[1..], tmpls, engine, data);
        assert r == rest;
      case Wrote(c) =>
        StepWrotePath(disk, tty, inOuts[0], tmpls, engine, data);
        RunSummaryOnDisk(s.disk, s.tty, inOuts[1..], tmpls, engine, data);
        RunTouchesOnlyOutputs(s.disk, s.tty, inOuts[1..], tmpls, engine, data);
        assert r.changes == [c] + rest.changes && r.disk == rest.disk;
        SummaryOnDiskCons(r, c, rest);
    }
  }

  /** Every file named in the run's summary is a file on its final disk. */
  predicate SummaryOnDisk(r: Run) {
    forall i | 0 <= i < |r.changes| :: r.changes[i].path in r.disk.files
  }

  lemma SummaryOnDiskCons(r: Run, c: Change, rest: Run)
    requires r.changes == [c] + rest.changes && r.disk == rest.disk
    requires c.path in rest.disk.files && SummaryOnDisk(rest)
    ensures SummaryOnDisk(r)
  {
    assert forall i | 1 <= i < |r.changes| :: r.changes[i] == rest.changes[i - 1];
  }

  lemma SubsequenceDropHead(xs: seq<string>, ys: seq<string>)
    requires ys != [] && Subsequence(xs, ys[1..])
    ensures Subsequence(xs, ys)
  {
  }

  lemma SubsequenceKeepHead(xs: seq<string>, ys: seq<string>)
    requires xs != [] && ys != [] && xs[0] == ys[0] && Subsequence(xs[1..], ys[1..])
    ensures Subsequence(xs, ys)
  {
  }

  /** The state `Generate` works on: the definition and the collected data. */
  class Generator {
    var config: Config
    var data: Data

    constructor (config: Config)
      ensures this.config == config && data == map[]
    {
      this.config := config;
      data := map[];
    }

    /** Prompts for every value `initial` lacks and keeps the merged map as the data. */
    method BuildData(initial: Data, console: Console)
      modifies this, console
      ensures config == old(config)
      ensures data == Collect(config.prompts, initial, old(console.State())).data
      ensures console.State() == Collect(config.prompts, initial, old(console.State())).tty
    {
      var d := initial;
      var prompts := config.prompts;
      for i := 0 to |prompts|
        invariant config == old(config)
        invariant Collect(prompts[i..], d, console.State()) == Collect(prompts, initial, old(console.State()))
      {
        var p := prompts[i];
        if p.name in d {
          continue;
        }
        var message := p.message;
        if message == "" {
          message := "input " + p.name;
        }
        var input := console.Scanln(message + ": ");
        d := d[p.name := input];
      }
      data := d;
    }

    /** Replaces the mappings by their resolved form. The YAML round trip and the
        template execution over it are the abstract `resolve`. */
    method ParseInOuts(resolve: (seq<InOut>, Data) -> Result<seq<InOut>>) returns (err: Option<Error>)
      modifies this
      ensures data == old(data)
      ensures match resolve(old(config.inOuts), data)
        case Ok(inOuts) => err == None && config == old(config).(inOuts := inOuts)
        case Err(e) => err == Some(e) && config == old(config)
    {
      match resolve(config.inOuts, data)
      case Err(e) => err := Some(e);
      case Ok(inOuts) => config := config.(inOuts := inOuts); err := None;
    }

    /** One iteration of the mapping loop of `Generate`. */
    method WriteMapping(m: InOut, tmpls: map<string, string>, fs: FileSystem, console: Console, engine: Engine)
      returns (outcome: Outcome)
      modifies fs, console
      ensures var s := Step(old(fs.State()), old(console.State()), m, tmpls, engine, data);
        outcome == s.outcome && fs.State() == s.disk && console.State() == s.tty
    {
      var operation := Added;
      var existed := fs.Stat(m.output);
      if existed {
        var input := console.Scanln(OverwritePrompt(m.output));
        if input != "y" {
          return Skipped;
        }
        operation := Updated;
      }
      outcome := WriteFile(m, operation, tmpls, fs, engine);
    }

    /** The part of an iteration after the overwrite question: making the parent
        directories, creating the output and executing its template into it. */
    method WriteFile(m: InOut, operation: Operation, tmpls: map<string, string>, fs: FileSystem, engine: Engine)
      returns (outcome: Outcome)
      modifies fs
      ensures var w := WriteOutput(old(fs.State()), m, operation, tmpls, engine, data);
        outcome == w.outcome && fs.State() == w.disk
    {
      var err := fs.MkdirAll(Dir(m.output));
      if err.Some? {
        return Aborted(err.value);
      }
      err := fs.Create(m.output);
      if err.Some? {
        return Aborted(err.value);
      }
      outcome := RenderFile(m, operation, tmpls, fs, engine);
    }

    /** Executing the mapping's template into the created output file. */
    method RenderFile(m: InOut, operation: Operation, tmpls: map<string, string>, fs: FileSystem, engine: Engine)
      returns (outcome: Outcome)
      modifies fs
      ensures var w := Render(old(fs.State()), m, operation, tmpls, engine, data);
        outcome == w.outcome && fs.State() == w.disk
    {
      var name := Base(m.input);
      if name !in tmpls {
        return Aborted(NoSuchTemplate(name));
      }
      var out := engine.execute(tmpls[name], data);
      fs.Write(m.output, out.text);
      if out.failure.Some? {
        return Aborted(out.failure.value);
      }
      return Wrote(Change(operation, m.output));
    }

    /** The mapping loop of `Generate`, with the templates already loaded. */
    method WriteAll(inOuts: seq<InOut>, tmpls: map<string, string>, fs: FileSystem, console: Console, engine: Engine)
      returns (r: Result<seq<Change>>)
      modifies fs, console
      ensures var run := RunMappings(old(fs.State()), old(console.State()), inOuts, tmpls, engine, data);
        fs.State() == run.disk && console.State() == run.tty && r == run.Result()
    {
      var files: seq<Change> := [];
      ghost var whole := RunMappings(old(fs.State()), old(console.State()), inOuts, tmpls, engine, data);
      assert inOuts[0..] == inOuts;
      for i := 0 to |inOuts|
        invariant Resumes(whole, files, fs.State(), console.State(), inOuts[i..], tmpls, engine, data)
      {
        ghost var disk, tty := fs.State(), console.State();
        ghost var s := Step(disk, tty, inOuts[i], tmpls, engine, data);
        ResumeStep(whole, files, disk, tty, inOuts, i, tmpls, engine, data);
        var outcome := WriteMapping(inOuts[i], tmpls, fs, console, engine);
        assert outcome == s.outcome && fs.State() == s.disk && console.State() == s.tty;
        match outcome
        case Skipped =>
        case Aborted(e) =>
          return Err(e);
        case Wrote(c) =>
          files := files + [c];
      }
      assert inOuts[|inOuts|..] == [];
      assert files + [] == files;
      return Ok(files);
    }

    /** Loads every template, then writes the mappings one by one. */
    method Generate(fs: FileSystem, console: Console, engine: Engine) returns (r: Result<seq<Change>>)
      modifies fs, console
      ensures var run := GenerateSpec(config.inOuts, data, engine, old(fs.State()), old(console.State()));
        fs.State() == run.disk && console.State() == run.tty && r == run.Result()
    {
      var inOuts := config.inOuts;
      var inputPaths: seq<string> := [];
      for i := 0 to |inOuts|
        invariant inputPaths == InputPaths(inOuts[..i])
        invariant unchanged(fs) && unchanged(console)
      {
        inputPaths := inputPaths + [ROOT_DIR + "/" + inOuts[i].input];
      }
      assert inOuts[..|inOuts|] == inOuts;
      var loaded := LoadTemplates(fs.State(), engine, inputPaths);
      if loaded.Err? {
        return Err(loaded.error);
      }
      var tmpls := loaded.value;

      r := WriteAll(inOuts, tmpls, fs, console, engine);
    }
  }
}

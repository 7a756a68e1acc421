# forge `new` pipeline, modelled in Dafny

This project models the core of **forge**, a file-scaffolding generator. `forge new <generator>`
goes through five stages:

1. It finds the generator definition file under `.forge` whose `name` matches.
2. It collects a value for every prompt, from `--<prompt>=<value>` flags or from standard input.
3. It resolves the input/output path mappings.
4. It loads every template file.
5. It renders each template to its output path, asking before it overwrites an existing file.

Modules (one `.dfy` file each):

- `Results` (`results.dfy`): `Option`, `Result` and the `Error` values the program returns. `Error.Message` gives the texts the program fixes itself, e.g. `generator '<name>' not found` and `generator is required`, and the path errors in the `<op> <path>: <reason>` form of Go's `os` package.
- `ConfigTypes` (`config.dfy`): `Prompt`, `InOut`, `Config` and the `Data` map of `codegen/config.go` and `codegen/generator.go:16`.
- `Platform` (`platform.dfy`): the parts of `path/filepath`, `os` and `fmt.Scanln` the pipeline relies on.
  - `Ext`, `Dir` and `Base` work on `/`-separated paths.
  - `Disk` is a value: file contents by path plus a set of directories. `FileSystem` is the class the program changes in place.
  - `Tty` is a value: a queue of input lines plus the prompts shown so far. `Console` is its class.
- `Codegen` (`generator.dfy`): `NewGenerator` (the lookup), and the class `Generator` with `BuildData`, `ParseInOuts` and `Generate`. Each method is proved equal to a specification function (`Lookup`, `Collect`, `GenerateSpec`/`RunMappings`/`Step`, where `Step` writes one output through `WriteOutput` and `Render`), and the lemmas state what the program promises about those functions.
- `NewCommand` (`newcmd.dfy`): the help-flag scan of `PreRunE`, the copy of flag values into the initial data, and `runNewCmd`'s stage order (`RunSpec`).

The collaborators this model does not contain are parameters:

- the directory walk is a sequence of `Entry` values, in the order the walk visits them;
- Cobra's flag parsing is a `FlagParser` function;
- the YAML round trip inside `ParseInOuts` is a `resolve` function;
- `html/template` is an `Engine`: whether a text parses, and what executing it writes;
- the file system is a `Disk`, and standard input is a queue of lines.

Points where the behaviour is easy to misread, as the code decides them:

- `BuildData` skips a prompt when its name is a **key** of the data, even with an empty value (`codegen/generator.go:70`). That an empty flag value still leads to a question comes from `runNewCmd`, which copies only non-empty flag values into the data (`cmd/new.go:64-66`). `FlagsDecidePrompting` proves that the two together ask exactly the prompts without a non-empty flag value.
- A read or decode error in any definition file visited before the match aborts the lookup (`codegen/generator.go:39-47`). Looking up the empty name never succeeds. When the requested name is empty, the walk still stops at the first definition without a name, so errors after that file are not reached (`EmptyNameNeverFound`, `LookupStopsAt`).
- The summary records `added` or `updated`. A mapping that was skipped is not recorded at all.
- Templates are loaded with `template.ParseFiles`, which names each template by the base name of its file. Called with no files, it fails. If two inputs share a base name in different directories, one template is stored under that name: the last of those files whose parse tree is not empty, or the first of them when every one is blank (a blank file does not replace a template already defined). Every such mapping renders that file (`TemplateForMapping`). The model keeps this behaviour as written.

## Model

| member | source | states |
|---|---|---|
| `Codegen.NewGenerator` | codegen/generator.go:25-65 | The walk callback applied entry by entry gives exactly `Lookup`: the first walk/read/decode error, the first definition file whose name matches, or "not found" |
| `Codegen.DefinitionExtIff` | codegen/generator.go:34-37 | An entry's extension passes the allow-list exactly when its path ends in ".yml" or ".yaml" |
| `Codegen.LookupIgnoresOtherFiles` | codegen/generator.go:34-37 | Dropping directories and files with other extensions (with whatever their read outcome) does not change the lookup |
| `Codegen.WalkExhaustedIff` | codegen/generator.go:27-58 | The walk reaches the end exactly when every entry is ignored or is a definition with another name |
| `Codegen.LookupNotFound` | codegen/generator.go:56-62 | If no entry stops the walk, the lookup fails with "generator '<name>' not found" |
| `Codegen.LookupStopsAt` | codegen/generator.go:30-52 | The first entry that stops the walk decides the result: its walk, read or decode error, or its config (not found if the name is empty); entries after it have no influence |
| `Codegen.LookupOkAt` | codegen/generator.go:49-64 | A successful lookup returns the config of a definition file whose name equals the non-empty request, and every entry before it passed |
| `Codegen.WalkMatchedAt` | codegen/generator.go:49-52 | A walk that ends at a match ends at a definition entry whose decoded name equals the request, after entries that all passed |
| `Codegen.EmptyNameNeverFound` | codegen/generator.go:60-62 | Looking up the empty name always fails |
| `Codegen.Generator.constructor` | codegen/generator.go:50 | A new generator holds the found config and no data |
| `Codegen.Generator.BuildData` | codegen/generator.go:68-86 | The new data and terminal are those of `Collect` on the prompts, the initial data and the old terminal |
| `Codegen.CollectKeepsAndCovers` | codegen/generator.go:69-82 | After `BuildData` the keys are the initial keys plus all prompt names, and every initial key keeps its value, even an empty one |
| `Codegen.CollectShowsAndConsumes` | codegen/generator.go:74-81 | It shows "<message>: " (message defaulting to "input <name>") for exactly the asked prompts, in order, and consumes one input line per asked prompt |
| `Codegen.CollectStoresLines` | codegen/generator.go:79-82 | The j-th asked prompt's name maps to the j-th input line verbatim, or to "" once input is exhausted |
| `Codegen.AskedExactlyMissing` | codegen/generator.go:69-72 | Asked prompts are prompts whose name was not a key, and every missing name is asked |
| `Codegen.AskedAll` | codegen/generator.go:69-83 | With distinct names and none present, every prompt is asked in declaration order |
| `Codegen.CollectNonInteractive` | codegen/generator.go:69-72 | When every prompt name is already a key, nothing is asked, no input is read and the data is unchanged |
| `Codegen.Generator.ParseInOuts` | codegen/generator.go:89-110 | On success the mappings are replaced by the resolved ones, with name, prompts and data unchanged; on error nothing changes and the error is returned |
| `Codegen.Generator.Generate` | codegen/generator.go:113-162 | Disk, terminal and result are those of `GenerateSpec` on the old disk and terminal |
| `Codegen.Generator.WriteAll` | codegen/generator.go:127-161 | The mapping loop gives the disk, terminal and summary of `RunMappings` |
| `Codegen.Generator.WriteMapping` | codegen/generator.go:129-155 | One loop iteration gives the outcome and state of `Step` |
| `Codegen.Generator.WriteFile` | codegen/generator.go:140-155 | Creating the parent chain and the output, then rendering, gives the outcome and disk of `WriteOutput`; `WriteOutputCases` states when that writes and which error it stops with |
| `Codegen.Generator.RenderFile` | codegen/generator.go:150-155 | Executing the mapping's template into the created file gives the outcome and disk of `Render`: the missing-template error, the engine's failure with the partial text left in the file, or the written change (stated through `WriteOutputCases`) |
| `Codegen.GenerateSpec` | codegen/generator.go:117-125 | A template load failure returns that error with disk, terminal and summary untouched |
| `Codegen.LoadTemplatesSpec` | codegen/generator.go:119-125 | Loading succeeds exactly when there is a mapping and every `.forge/<input>` file exists and parses; then there is one template per base name, holding the text of the last non-blank file of that base name, or of the first one when all of them are blank |
| `Codegen.InputPathBase` | codegen/generator.go:119-150 | The base name a template is stored under equals the base name of the mapping's input |
| `Codegen.TemplatesCoverMappings` | codegen/generator.go:150-151 | After a successful load, the template each mapping executes is in the set |
| `Codegen.TemplateForMapping` | codegen/generator.go:119-151 | Each mapping renders the chosen file among the inputs with its base name: the last non-blank one, or the first when all are blank |
| `Codegen.StepSpec` | codegen/generator.go:129-155 | An existing output needs exactly "y" (one line read), otherwise it is skipped with the disk unchanged. A new or confirmed output goes through `WriteOutput` and is written exactly when no directory of its parent chain is a file, the output is non-empty, has no trailing separator and is not a directory, and its template exists and runs without failure. A written mapping is recorded as updated exactly when the output existed; the output holds the rendered text and its parent chain exists |
| `Codegen.WriteOutputCases` | codegen/generator.go:140-155 | Writing an output succeeds exactly when its parent chain can be made, it can be created and its template exists and runs without failure. Otherwise it stops with the `mkdir` error naming the longest file in the parent chain (disk unchanged), the `open` error (no such file for the empty path, is a directory otherwise), `NoSuchTemplate` with the file left empty, or the engine's failure with its partial text in the file. Once the chain is made, all of its directories exist |
| `Codegen.StepFrame` | codegen/generator.go:135-155 | One iteration changes no file other than its output, removes no file or directory, and keeps files and directories disjoint, whether it succeeds or fails |
| `Codegen.RunTouchesOnlyOutputs` | codegen/generator.go:128-156 | The loop changes only declared outputs. No file or directory is removed, and files and directories stay disjoint, also when an error stops the loop |
| `Codegen.RunSummaryInOrder` | codegen/generator.go:155-159 | The summary's paths are a subsequence of the mapping outputs in order |
| `Codegen.StepsFollowLoop` | codegen/generator.go:128-156 | Iteration i of the trace is one loop step on mapping i, from the disk and terminal the previous iteration left; only the last iteration can fail |
| `Codegen.RunSummaryFromSteps` | codegen/generator.go:128-159 | The summary is exactly the changes of the iterations that wrote their output, in order; skipped and failing iterations record nothing |
| `Codegen.RunWithoutFailureSteps` | codegen/generator.go:128-161 | A loop that ends without an error made one iteration per mapping |
| `Codegen.RunFailureSteps` | codegen/generator.go:132-153 | A loop that ends with an error stopped at the iteration that failed with exactly that error |
| `Codegen.StepsRecordOutcomes` | codegen/generator.go:129-155 | An iteration is skipped exactly when its output existed at that point and the answer read was not "y"; a written iteration records `updated` exactly when its output existed then, else `added`, with its own output path |
| `Codegen.RunSummaryOnDisk` | codegen/generator.go:141-156 | Every file in the summary is on disk at the end; earlier writes stay after a later error |
| `Platform.Ext` | codegen/generator.go:34 | The extension is the suffix from the last '.' of the last path element, or "" when that element has no '.' |
| `Platform.DirSpec` | codegen/generator.go:140 | The parent directory is "." without a separator; otherwise the prefix before the last separator with exactly its trailing separators removed, or "/" when only separators precede the last one |
| `Platform.Base` | codegen/generator.go:150 | The base name is "." for the empty path and "/" for a path of separators only; otherwise it is the last element of the path without trailing separators, a suffix holding no separator |
| `Platform.BaseUnder` | codegen/generator.go:119 | Putting an input path under a directory does not change its base name |
| `Platform.FileSystem.Stat` | codegen/generator.go:130 | Reports whether the path is a file or a directory |
| `Platform.FileSystem.MkdirAll` | codegen/generator.go:141 | On success the state becomes that of `Disk.MkdirAll`; on error the state is unchanged and the error is returned |
| `Platform.FileSystem.Create` | codegen/generator.go:144 | On success the state becomes that of `Disk.Create`; on error the state is unchanged and the error is returned |
| `Platform.FileSystem.Write` | codegen/generator.go:151 | The output file's content becomes the rendered text; nothing else changes |
| `Platform.Disk.ReadFile` | codegen/generator.go:39 | Reading succeeds exactly for existing files and returns their content; a directory fails with `read <path>: is a directory`, a missing path with `open <path>: no such file or directory` |
| `Platform.Disk.MkdirAllSpec` | codegen/generator.go:141 | Fails exactly when the directory or an ancestor is a file, naming the longest such ancestor with `mkdir <it>: not a directory`; otherwise files are unchanged, the new directories are exactly the old ones plus the directory and its ancestors, and files and directories stay disjoint |
| `Platform.FileAncestorSpec` | codegen/generator.go:141 | The ancestor found is a file and no longer ancestor is one; when none is found, no ancestor is a file |
| `Platform.AncestorsSpec` | codegen/generator.go:141 | The directories `MkdirAll` needs are exactly the non-empty prefixes of the path that end at a separator or at its end |
| `Platform.Disk.CreateSpec` | codegen/generator.go:144 | Fails exactly when the path is empty or its parent is missing (`open <path>: no such file or directory`), or when it is a directory or ends in a separator (`open <path>: is a directory`); otherwise the file exists, is empty, and no other file changes |
| `Platform.CreateAfterMkdirAll` | codegen/generator.go:140-147 | After the parent chain is created, creating the output fails exactly when the output is empty, ends in a separator, or is a directory |
| `Platform.Console.Scanln` | codegen/generator.go:80-81 | Shows the prompt and returns the next input line, or "" once input is exhausted |
| `NewCommand.HasHelpFlag` | cmd/new.go:23-28 | True exactly when some argument is "-h" or "--help" |
| `NewCommand.Execute` | cmd/new.go:20-32 | With a help flag anywhere, help is shown and nothing else runs; otherwise the result and state are those of `runNewCmd` |
| `NewCommand.SuppliedData` | cmd/new.go:59-69 | The flag data's keys are prompt names, and a prompt's name is a key exactly when its flag value is non-empty, stored verbatim |
| `NewCommand.FlagData` | cmd/new.go:59-69 | The loop over prompts builds exactly `SuppliedData` |
| `NewCommand.RunSpec` | cmd/new.go:35-83 | No argument fails with "generator is required" before any lookup; a lookup error or flag error is returned with nothing prompted or written; then `BuildData`, `ParseInOuts` (an error leaves the disk untouched) and `Generate` run in order |
| `NewCommand.RunNewCmd` | cmd/new.go:35-83 | Result, disk and terminal are those of `RunSpec` |
| `NewCommand.NameOnlyAsksEveryPrompt` | cmd/new.go:46-72 | With only the name and distinct prompt names, the initial data is empty and every prompt is shown in order |
| `NewCommand.NameOnlyAsksFirstOfEachName` | cmd/new.go:46-72 | With only the name (no flag is registered, so repeated names do not panic), the initial data is empty and the first prompt of each name is shown, in order; a repeated name is asked only once |
| `NewCommand.InitialData` | cmd/new.go:47-70 | No flag arguments give empty data; a flag-parsing error is returned unchanged and only when flag arguments were given; otherwise the data holds exactly the prompts whose flag value is non-empty, every value non-empty and keyed by a declared prompt name |
| `NewCommand.FlagsDecidePrompting` | cmd/new.go:59-72 | A prompt with a non-empty flag value gets that value and is never asked; only prompts whose flag value is empty are asked, and each of them is |
| `NewCommand.AllFlagsNonInteractive` | cmd/new.go:59-72 | With a non-empty flag value for every prompt, nothing is asked and no input is read |

## Left out

- Directory traversal (`filepath.Walk`, `os.Lstat`): the visit order, and the single callback that carries the read error of a directory that cannot be listed, are given as the `Entry` sequence. It is not computed from a directory tree.
- The YAML codec (`yaml.v3`): reading a definition file and decoding it is each entry's `load` outcome. The serialize/render/reparse inside `ParseInOuts` is the abstract `resolve`, so its round-trip and idempotence properties are not stated. A decode error that partly overwrites the mappings before failing is not modelled; the command stops on it anyway.
- `html/template`: parsing, execution, escaping and missing-key handling are the abstract `Engine`. The undefined-template message quotes the name without Go's `%q` escaping of special characters. A `{{define}}` block inside a template file, which adds further named templates, is not modelled. Each file gives exactly one template, named by its base name. A write error from the output file is part of the engine's failure.
- `fmt.Scanln` tokenising: each queued line counts as one word. On a line with several words, Go keeps the first word, fails with "expected newline" after reading the first character of the second word, and leaves the rest of the line for the next read; the model consumes the whole line instead.
- Standard output other than prompts: the banners, the "Files:" listing (`SummaryLine` gives each line's text; the list is the returned summary) and the deferred "Done." line, which also prints on error.
- Path cleaning: `Dir` strips trailing separators but does not remove `.`/`..` elements or repeated inner separators. Paths are compared as strings; symbolic links and permissions are not modelled. `Disk.Valid` only keeps files and directories disjoint: the parent directories of a file are not required to exist. The only `os.MkdirAll`/`os.Create` failures are a file where a directory is needed, a directory where a file is needed (including a path ending in a separator), the empty path, and a missing parent. `os.Create` of a path ending in a separator whose prefix is a file fails with "not a directory" in Go; the model reports a missing parent. `os.Stat` looks paths up as written: a path with a trailing separator is not found even when it names a directory.
- File closing (`defer outputFile.Close()`): it has no effect on the modelled contents.
- Cobra: registering one string flag per prompt, `DisableFlagParsing`, `cmd.Help()`/`os.Exit(0)` and `init()` command registration. Flag parsing is the abstract `FlagParser`. `GetString` cannot fail on a flag registered just before, so that error branch of `cmd/new.go:60-63` is not modelled. Flags are registered only when flag arguments follow the generator name (`cmd/new.go:49-52`). Only then can Cobra panic: when two prompts share a name and their flag is registered twice, or for a prompt named `help`, whose flag clashes with the help flag Cobra has already registered. That panic is not modelled. Without flag arguments nothing is registered, and a repeated name is asked once (`NameOnlyAsksFirstOfEachName`).
- `cmd/init.go` (writing a fixed sample definition) and the command root are not part of this model.

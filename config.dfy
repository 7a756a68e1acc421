/** The definition-file records of `codegen/config.go` and the template data map. */
module ConfigTypes {

  /** A value the user is asked for; `message` may be empty. */
  datatype Prompt = Prompt(name: string, message: string)

  /** A template path (relative to the definition root) and the output path expression. */
  datatype InOut = InOut(input: string, output: string)

  /** A generator definition: YAML keys `name`, `prompts` and `mappings`. */
  datatype Config = Config(name: string, prompts: seq<Prompt>, inOuts: seq<InOut>)

  /** Go's zero `Config`, the value of a `Generator` no definition was assigned to. */
  const ZERO_CONFIG := Config("", [], [])

  /** Template data: prompt name to value. */
  type Data = map<string, string>

  /** The names of the prompts, in declaration order. */
  function PromptNames(prompts: seq<Prompt>): (names: seq<string>)
    ensures |names| == |prompts|
    ensures forall i | 0 <= i < |prompts| :: names[i] == prompts[i].name
  {
    seq(|prompts|, i requires 0 <= i < |prompts| => prompts[i].name)
  }

  /** The set of prompt names. */
  function NameSet(prompts: seq<Prompt>): set<string> {
    set p | p in prompts :: p.name
  }
}

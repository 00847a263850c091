/**
  The collaborators the pipeline calls but does not implement: the language
  model behind `real_generate_content`, the search tool `search_tool.search`,
  and `json.dumps` / `json.loads`. Each is left uninterpreted: the model is
  given as a response function, the others as plain functions, so every
  property proved about the pipeline holds whatever they do.
 */
module Externals {
  import opened Prompts

  datatype Option<T> = None | Some(value: T)

  /** The research record the pipeline expects `json.loads` to produce: a JSON
      object in which the key `keywords` and the key `facts` may each be
      missing (`None`) or hold a list of strings. */
  datatype ResearchData = ResearchData(keywords: Option<seq<string>>, facts: Option<seq<string>>)

  /** The outcome of `json.loads` on the model's research reply: either the
      text is not JSON (`json.JSONDecodeError`) or it decodes to a record. */
  datatype Loaded = DecodeError | Decoded(data: ResearchData)

  /** What the search tool hands back: `{"search_results": [{"snippet": ...}, ...]}`. */
  datatype SearchResults = SearchResults(snippets: seq<string>)

  /** The search tool, `json.dumps` of its results, and `json.loads`. */
  datatype Tools = Tools(
    search: string -> SearchResults,
    dumps: SearchResults -> string,
    loads: string -> Loaded)

  /** One generation request: a system instruction and a user prompt. */
  datatype Request = Request(systemInstruction: Instruction, prompt: Prompt)

  /** The generation client. `respond` is whatever the backend answers to a
      request; `log` records every request issued, in order, so that a caller
      can prove how many calls were made and with what. */
  class GenerationClient {
    const respond: Request -> string
    var log: seq<Request>

    constructor (respond: Request -> string)
      ensures this.respond == respond && log == []
    {
      this.respond := respond;
      log := [];
    }

    /** `real_generate_content(system_instruction, prompt)`. */
    method Generate(systemInstruction: Instruction, prompt: Prompt) returns (reply: string)
      modifies this
      ensures log == old(log) + [Request(systemInstruction, prompt)]
      ensures reply == respond(Request(systemInstruction, prompt))
    {
      log := log + [Request(systemInstruction, prompt)];
      reply := respond(Request(systemInstruction, prompt));
    }
  }
}

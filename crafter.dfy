/**
  The three-stage content pipeline of `Project.py`: research, outline and
  draft, run in order by `run_content_crafter` over one shared context.

  Each stage is a method over a `Context` object, as in the source, and is
  proved against the specification functions below it (`ResearchRequest`,
  `ResearchValue`, `ResearchFailure`, `OutlineCall`, `DraftCall`, ...).
  `Pipeline` is the whole run as one function: its result and the exact list
  of generation requests made.
 */
module ContentCrafter {
  import opened Text
  import opened Prompts
  import opened Externals

  /** The only exception the stages let escape: a `KeyError` raised by the
      success report of the research stage. */
  datatype Exception = KeyError(key: string)

  /** A Python call either returns a value or raises. */
  datatype Outcome<T> = Returned(value: T) | Raised(error: Exception)

  /** The context dictionary threaded through the stages. Its keys are
      `topic`, `research_data` and `outline`; `None` stands for a key that
      has not been written. */
  class Context {
    var topic: string
    var researchData: Option<ResearchData>
    var outline: Option<string>

    /** `{'topic': topic}` */
    constructor (topic: string)
      ensures this.topic == topic && researchData == None && outline == None
    {
      this.topic := topic;
      researchData := None;
      outline := None;
    }
  }

  /** The prefix by which the caller recognises a failed run. */
  const ErrorMarker := "ERROR"

  /** What the draft stage returns when there is no outline. */
  const OutlineMissing := ErrorMarker + ": Cannot draft the post. Outline is missing."

  /** The caller can tell the sentinel from a post by its prefix. */
  lemma SentinelCarriesMarker()
    ensures StartsWith(OutlineMissing, ErrorMarker)
  {
    assert OutlineMissing[..|ErrorMarker|] == ErrorMarker;
  }

  /** `{}`: a research record with neither key. */
  const NoResearch := ResearchData(None, None)

  /** `{'keywords': [], 'facts': []}`: the fallback when the reply is not JSON. */
  const EmptyResearch := ResearchData(Some([]), Some([]))

  // ---------------------------------------------------------------------------
  // Research stage
  // ---------------------------------------------------------------------------

  /** The search query: a fixed request for SEO keywords and facts, ending
      with the topic. */
  function ResearchQuery(topic: string): (q: string)
    ensures |q| > |topic| && q[|q| - |topic|..] == topic
  {
    "SEO keywords and current facts about: " + topic
  }

  /** The one generation request the research stage makes: the prompt embeds
      the serialised search results for the topic's query. */
  function ResearchRequest(topic: string, tools: Tools): (r: Request)
    ensures r.systemInstruction == ResearchAnalyst
    ensures r.prompt.ResearchPrompt? && r.prompt.topic == topic
    ensures r.prompt.searchText == tools.dumps(tools.search(ResearchQuery(topic)))
  {
    Request(ResearchAnalyst, ResearchPrompt(topic, tools.dumps(tools.search(ResearchQuery(topic)))))
  }

  /** What the research stage stores under `research_data` for a reply. */
  function ResearchValue(reply: string, tools: Tools): (d: ResearchData)
    ensures tools.loads(reply).DecodeError? ==> d == ResearchData(Some([]), Some([]))
    ensures tools.loads(reply).Decoded? ==> d == tools.loads(reply).data
  {
    match tools.loads(reply)
    case DecodeError => EmptyResearch
    case Decoded(data) => data
  }

  /** The `KeyError` the success report raises when it indexes a key the
      decoded object lacks; `keywords` is read first. */
  function MissingKey(d: ResearchData): (e: Option<Exception>)
    ensures e.None? <==> d.keywords.Some? && d.facts.Some?
    ensures d.keywords.None? ==> e == Some(KeyError("keywords"))
    ensures d.keywords.Some? && d.facts.None? ==> e == Some(KeyError("facts"))
  {
    if d.keywords.None? then Some(KeyError("keywords"))
    else if d.facts.None? then Some(KeyError("facts"))
    else None
  }

  /** Whether the research stage raises for a reply: only a reply that decodes
      to an object missing a key does; the fallback never does. */
  function ResearchFailure(reply: string, tools: Tools): (e: Option<Exception>)
    ensures tools.loads(reply).DecodeError? ==> e == None
    ensures tools.loads(reply).Decoded? ==> e == MissingKey(tools.loads(reply).data)
  {
    match tools.loads(reply)
    case DecodeError => None
    case Decoded(data) => MissingKey(data)
  }

  /** `research_agent`: search, ask the model for JSON, store the decoded
      object or the empty fallback under `research_data`, and return the same
      context; only `research_data` is written. */
  method ResearchStage(topic: string, ctx: Context, client: GenerationClient, tools: Tools)
    returns (result: Outcome<Context>)
    modifies ctx, client
    ensures client.log == old(client.log) + [ResearchRequest(topic, tools)]
    ensures ctx.researchData == Some(ResearchValue(client.respond(ResearchRequest(topic, tools)), tools))
    ensures ctx.topic == old(ctx.topic) && ctx.outline == old(ctx.outline)
    ensures var failure := ResearchFailure(client.respond(ResearchRequest(topic, tools)), tools);
            result == if failure.Some? then Raised(failure.value) else Returned(ctx)
  {
    var searchData := tools.search(ResearchQuery(topic));
    var searchText := tools.dumps(searchData);
    var prompt := ResearchPrompt(topic, searchText);
    var reply := client.Generate(ResearchAnalyst, prompt);
    match tools.loads(reply)
    case Decoded(data) =>
      ctx.researchData := Some(data);
      // the report indexes both keys before anything else happens
      if data.keywords.None? {
        result := Raised(KeyError("keywords"));
      } else if data.facts.None? {
        result := Raised(KeyError("facts"));
      } else {
        result := Returned(ctx);
      }
    case DecodeError =>
      ctx.researchData := Some(EmptyResearch);
      result := Returned(ctx);
  }

  // ---------------------------------------------------------------------------
  // Outline stage
  // ---------------------------------------------------------------------------

  /** Python truthiness of `research_data.get(key)` for a list-valued key. */
  predicate Truthy(list: Option<seq<string>>) {
    list.Some? && list.value != []
  }

  /** A list-valued key is falsy exactly when it is missing or holds the
      empty list. */
  lemma FalsyLists(list: Option<seq<string>>)
    ensures !Truthy(list) <==> list == None || list == Some([])
  {
  }

  /** The generation request the outline stage makes, or `None` when its gate
      skips the call: the gate opens only when research data is present and
      both of its lists are present and non-empty. */
  function OutlineCall(topic: string, researchData: Option<ResearchData>): (r: Option<Request>)
    ensures r.Some? <==>
      researchData.Some? &&
      researchData.value.keywords.Some? && |researchData.value.keywords.value| > 0 &&
      researchData.value.facts.Some? && |researchData.value.facts.value| > 0
    ensures r.Some? ==> r.value.systemInstruction == ContentStrategist
  {
    var data := if researchData.Some? then researchData.value else NoResearch;
    if !Truthy(data.keywords) || !Truthy(data.facts) then None
    else Some(Request(ContentStrategist, OutlinePrompt(topic, data.keywords.value, data.facts.value)))
  }

  /** What the outline stage stores under `outline`: `""` when the gate is
      closed, the model's reply to the outline request otherwise. */
  function OutlineValue(topic: string, researchData: Option<ResearchData>, respond: Request -> string): (o: string) {
    match OutlineCall(topic, researchData)
    case None => ""
    case Some(request) => respond(request)
  }

  /** The stored outline, in terms of the research data alone. */
  lemma StoredOutline(topic: string, researchData: Option<ResearchData>, respond: Request -> string)
    ensures !(researchData.Some? && Truthy(researchData.value.keywords) && Truthy(researchData.value.facts)) ==>
      OutlineValue(topic, researchData, respond) == ""
    ensures researchData.Some? && Truthy(researchData.value.keywords) && Truthy(researchData.value.facts) ==>
      OutlineValue(topic, researchData, respond) ==
        respond(Request(ContentStrategist,
                        OutlinePrompt(topic, researchData.value.keywords.value, researchData.value.facts.value)))
  {
  }

  /** The requests one optional call contributes to the log. */
  function Calls(call: Option<Request>): (log: seq<Request>)
    ensures |log| == if call.Some? then 1 else 0
  {
    match call
    case None => []
    case Some(request) => [request]
  }

  /** `outline_agent`: either skip (store `""`, no call) or store the model's
      reply verbatim under `outline`; only `outline` is written. */
  method OutlineStage(topic: string, ctx: Context, client: GenerationClient) returns (result: Context)
    modifies ctx, client
    ensures result == ctx
    ensures client.log == old(client.log) + Calls(OutlineCall(topic, old(ctx.researchData)))
    ensures ctx.outline == Some(OutlineValue(topic, old(ctx.researchData), client.respond))
    ensures ctx.topic == old(ctx.topic) && ctx.researchData == old(ctx.researchData)
  {
    var researchData := if ctx.researchData.Some? then ctx.researchData.value else NoResearch;
    if !Truthy(researchData.keywords) || !Truthy(researchData.facts) {
      ctx.outline := Some("");
      return ctx;
    }
    var prompt := OutlinePrompt(topic, researchData.keywords.value, researchData.facts.value);
    var outline := client.Generate(ContentStrategist, prompt);
    ctx.outline := Some(outline);
    result := ctx;
  }

  // ---------------------------------------------------------------------------
  // Draft stage
  // ---------------------------------------------------------------------------

  /** `research_data.get(key, [])` */
  function ListOrEmpty(list: Option<seq<string>>): (l: seq<string>)
    ensures list.Some? ==> l == list.value
    ensures list.None? ==> l == []
  {
    if list.Some? then list.value else []
  }

  /** The draft's default and the outline's gate agree: a list read with its
      default is non-empty exactly when the key is truthy. */
  lemma DefaultAgreesWithGate(list: Option<seq<string>>)
    ensures Truthy(list) <==> ListOrEmpty(list) != []
  {
  }

  /** The generation request the draft stage makes, or `None` when the outline
      is missing or empty; absent research lists are read as empty lists. */
  function DraftCall(topic: string, outline: Option<string>, researchData: Option<ResearchData>): (r: Option<Request>)
    ensures r.None? <==> outline.None? || outline.value == ""
    ensures r.Some? ==> r.value.systemInstruction == ContentWriter
  {
    var text := if outline.Some? then outline.value else "";
    var data := if researchData.Some? then researchData.value else NoResearch;
    if text == "" then None
    else Some(Request(ContentWriter, DraftPrompt(topic, text, ListOrEmpty(data.keywords), ListOrEmpty(data.facts))))
  }

  /** What the draft stage returns: the outline-missing message when the
      outline is missing or empty, the model's reply to the draft request
      otherwise. */
  function DraftValue(topic: string, outline: Option<string>, researchData: Option<ResearchData>,
                      respond: Request -> string): (post: string) {
    match DraftCall(topic, outline, researchData)
    case None => OutlineMissing
    case Some(request) => respond(request)
  }

  /** The draft, in terms of the outline and the research data alone. */
  lemma ReturnedDraft(topic: string, outline: Option<string>, researchData: Option<ResearchData>,
                      respond: Request -> string)
    ensures outline.None? || outline.value == "" ==> DraftValue(topic, outline, researchData, respond) == OutlineMissing
    ensures outline.Some? && outline.value != "" ==>
      var data := if researchData.Some? then researchData.value else NoResearch;
      DraftValue(topic, outline, researchData, respond) ==
        respond(Request(ContentWriter,
                        DraftPrompt(topic, outline.value, ListOrEmpty(data.keywords), ListOrEmpty(data.facts))))
  {
  }

  /** `drafting_agent`: returns the sentinel without a call when there is no
      outline, and the model's reply otherwise. It only reads the context:
      the context is not in its frame. */
  method DraftingStage(topic: string, ctx: Context, client: GenerationClient) returns (post: string)
    modifies client
    ensures client.log == old(client.log) + Calls(DraftCall(topic, ctx.outline, ctx.researchData))
    ensures post == DraftValue(topic, ctx.outline, ctx.researchData, client.respond)
  {
    var outline := if ctx.outline.Some? then ctx.outline.value else "";
    var researchData := if ctx.researchData.Some? then ctx.researchData.value else NoResearch;
    if outline == "" {
      return OutlineMissing;
    }
    var prompt := DraftPrompt(topic, outline, ListOrEmpty(researchData.keywords), ListOrEmpty(researchData.facts));
    post := client.Generate(ContentWriter, prompt);
  }

  // ---------------------------------------------------------------------------
  // Orchestrator
  // ---------------------------------------------------------------------------

  /** The final check of `run_content_crafter`: a post that starts with the
      error marker passes through untouched, any other is stripped. */
  function Finalize(post: string): (r: string)
    ensures StartsWith(post, ErrorMarker) ==> r == post
    ensures !StartsWith(post, ErrorMarker) ==> IsTrimOf(r, post)
    ensures StartsWith(r, ErrorMarker) || NoSurroundingSpace(r)
  {
    if StartsWith(post, ErrorMarker) then post else Strip(post)
  }

  /** One run: what it returns or raises, and every generation request made. */
  datatype Trace = Trace(result: Outcome<string>, calls: seq<Request>)

  /** `run_content_crafter(topic)` as a function of the oracles. */
  function Pipeline(topic: string, respond: Request -> string, tools: Tools): (t: Trace)
    ensures 1 <= |t.calls| <= 3 && t.calls[0] == ResearchRequest(topic, tools)
    ensures t.result.Raised? ==> |t.calls| == 1
    ensures t.result.Returned? && |t.calls| < 3 ==> t.result.value == OutlineMissing
    ensures t.result.Returned? ==> StartsWith(t.result.value, ErrorMarker) || NoSurroundingSpace(t.result.value)
  {
    var research := ResearchRequest(topic, tools);
    var reply := respond(research);
    var data := ResearchValue(reply, tools);
    match ResearchFailure(reply, tools)
    case Some(e) => Trace(Raised(e), [research])
    case None =>
      var outline := OutlineValue(topic, Some(data), respond);
      var post := DraftValue(topic, Some(outline), Some(data), respond);
      SentinelCarriesMarker();
      Trace(Returned(Finalize(post)),
            [research] + Calls(OutlineCall(topic, Some(data))) + Calls(DraftCall(topic, Some(outline), Some(data))))
  }

  /** A run whose research stage raises makes no further call. */
  lemma PipelineRaises(topic: string, respond: Request -> string, tools: Tools)
    requires ResearchFailure(respond(ResearchRequest(topic, tools)), tools).Some?
    ensures Pipeline(topic, respond, tools) ==
      Trace(Raised(ResearchFailure(respond(ResearchRequest(topic, tools)), tools).value), [ResearchRequest(topic, tools)])
  {
  }

  /** A run whose research stage does not raise: the outline and draft
      stages follow, and the finalised draft is returned. */
  lemma PipelineAfterResearch(topic: string, respond: Request -> string, tools: Tools)
    requires ResearchFailure(respond(ResearchRequest(topic, tools)), tools).None?
    ensures var data := ResearchValue(respond(ResearchRequest(topic, tools)), tools);
            var outline := OutlineValue(topic, Some(data), respond);
            Pipeline(topic, respond, tools) ==
              Trace(Returned(Finalize(DraftValue(topic, Some(outline), Some(data), respond))),
                    [ResearchRequest(topic, tools)] + Calls(OutlineCall(topic, Some(data))) +
                    Calls(DraftCall(topic, Some(outline), Some(data))))
  {
  }

  /** Appending a run's requests to a log at once or one stage at a time
      gives the same log. */
  lemma AppendLog(log: seq<Request>, a: seq<Request>, b: seq<Request>, c: seq<Request>)
    ensures log + (a + b + c) == log + a + b + c
  {
  }

  /** `run_content_crafter`: a fresh context holding only the topic, the three
      stages in order, then the final check. A `KeyError` from the research
      stage propagates to the caller. */
  method RunContentCrafter(topic: string, client: GenerationClient, tools: Tools) returns (result: Outcome<string>)
    modifies client
    ensures result == Pipeline(topic, client.respond, tools).result
    ensures client.log == old(client.log) + Pipeline(topic, client.respond, tools).calls
  {
    ghost var log0 := client.log;
    ghost var research := ResearchRequest(topic, tools);
    ghost var data := ResearchValue(client.respond(research), tools);
    var context := new Context(topic);
    var researched := ResearchStage(topic, context, client, tools);
    if researched.Raised? {
      PipelineRaises(topic, client.respond, tools);
      return Raised(researched.error);
    }
    context := researched.value;
    assert context.researchData == Some(data);
    PipelineAfterResearch(topic, client.respond, tools);
    context := OutlineStage(topic, context, client);
    ghost var outline := OutlineValue(topic, Some(data), client.respond);
    assert context.outline == Some(outline) && context.researchData == Some(data);
    ghost var log1 := log0 + [research] + Calls(OutlineCall(topic, Some(data)));
    assert client.log == log1;
    var finalPost := DraftingStage(topic, context, client);
    assert finalPost == DraftValue(topic, Some(outline), Some(data), client.respond);
    assert client.log == log1 + Calls(DraftCall(topic, Some(outline), Some(data)));
    result := Returned(Finalize(finalPost));
    AppendLog(log0, [research], Calls(OutlineCall(topic, Some(data))), Calls(DraftCall(topic, Some(outline), Some(data))));
  }
}

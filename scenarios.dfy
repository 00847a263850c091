/**
  What a whole run of the pipeline does, stated over `Pipeline` for every
  behaviour of the oracles: when the research reply is not JSON, when it
  misses a key, when a research list is empty, when the outline reply is
  empty, and when all three calls go through.
 */
module Scenarios {
  import opened Text
  import opened Prompts
  import opened Externals
  import opened ContentCrafter

  /** A reply that is not JSON degrades to empty research, the outline is
      skipped, and the run returns the outline-missing sentinel verbatim
      after the research call alone. */
  lemma UnparsedResearchEndsInSentinel(topic: string, respond: Request -> string, tools: Tools)
    requires tools.loads(respond(ResearchRequest(topic, tools))).DecodeError?
    ensures Pipeline(topic, respond, tools) == Trace(Returned(OutlineMissing), [ResearchRequest(topic, tools)])
  {
    var data := ResearchValue(respond(ResearchRequest(topic, tools)), tools);
    assert data == EmptyResearch;
    assert OutlineCall(topic, Some(data)) == None;
    SentinelCarriesMarker();
  }

  /** A reply that decodes to an object without `keywords` (or, failing that,
      without `facts`) makes the run raise `KeyError` after one call; it is
      not treated as the not-JSON fallback. */
  lemma MissingKeyAbortsRun(topic: string, respond: Request -> string, tools: Tools, data: ResearchData)
    requires tools.loads(respond(ResearchRequest(topic, tools))) == Decoded(data)
    requires data.keywords.None? || data.facts.None?
    ensures Pipeline(topic, respond, tools) ==
      Trace(Raised(KeyError(if data.keywords.None? then "keywords" else "facts")), [ResearchRequest(topic, tools)])
  {
  }

  /** The outline gate: one missing or empty list is enough to skip the
      outline, whatever the other list holds, and so is absent research. */
  lemma EitherListClosesOutlineGate(topic: string, data: ResearchData, respond: Request -> string)
    requires !Truthy(data.keywords) || !Truthy(data.facts)
    ensures OutlineCall(topic, Some(data)) == None
    ensures OutlineCall(topic, None) == None
    ensures OutlineValue(topic, Some(data), respond) == ""
    ensures OutlineValue(topic, None, respond) == ""
  {
  }

  /** No keywords but one fact: the outline is still skipped, and the run
      ends in the sentinel after the research call alone. */
  lemma NoKeywordsOneFactEndsInSentinel(topic: string, respond: Request -> string, tools: Tools, fact: string)
    requires tools.loads(respond(ResearchRequest(topic, tools))) == Decoded(ResearchData(Some([]), Some([fact])))
    ensures Pipeline(topic, respond, tools) == Trace(Returned(OutlineMissing), [ResearchRequest(topic, tools)])
  {
    SentinelCarriesMarker();
  }

  /** The outline reply is stored without validation: an empty reply counts
      as a missing outline, so the run ends in the sentinel after two calls. */
  lemma EmptyOutlineReplyEndsInSentinel(topic: string, respond: Request -> string, tools: Tools,
                                        keywords: seq<string>, facts: seq<string>)
    requires tools.loads(respond(ResearchRequest(topic, tools))) == Decoded(ResearchData(Some(keywords), Some(facts)))
    requires keywords != [] && facts != []
    requires respond(Request(ContentStrategist, OutlinePrompt(topic, keywords, facts))) == ""
    ensures Pipeline(topic, respond, tools) ==
      Trace(Returned(OutlineMissing),
            [ResearchRequest(topic, tools), Request(ContentStrategist, OutlinePrompt(topic, keywords, facts))])
  {
    SentinelCarriesMarker();
  }

  /** When research decodes with both lists non-empty and the outline reply
      is non-empty, all three calls are made in order, the draft prompt
      carries the outline reply, and the run returns the finalised draft. */
  lemma CompleteRun(topic: string, respond: Request -> string, tools: Tools,
                    keywords: seq<string>, facts: seq<string>)
    requires tools.loads(respond(ResearchRequest(topic, tools))) == Decoded(ResearchData(Some(keywords), Some(facts)))
    requires keywords != [] && facts != []
    requires respond(Request(ContentStrategist, OutlinePrompt(topic, keywords, facts))) != ""
    ensures var outlineRequest := Request(ContentStrategist, OutlinePrompt(topic, keywords, facts));
            var outline := respond(outlineRequest);
            var draftRequest := Request(ContentWriter, DraftPrompt(topic, outline, keywords, facts));
            Pipeline(topic, respond, tools) ==
              Trace(Returned(Finalize(respond(draftRequest))),
                    [ResearchRequest(topic, tools), outlineRequest, draftRequest])
  {
    var research := ResearchRequest(topic, tools);
    var data := ResearchData(Some(keywords), Some(facts));
    var outlineRequest := Request(ContentStrategist, OutlinePrompt(topic, keywords, facts));
    var outline := respond(outlineRequest);
    var draftRequest := Request(ContentWriter, DraftPrompt(topic, outline, keywords, facts));
    assert ResearchValue(respond(research), tools) == data;
    assert ResearchFailure(respond(research), tools) == None;
    PipelineAfterResearch(topic, respond, tools);
    assert OutlineCall(topic, Some(data)) == Some(outlineRequest);
    assert OutlineValue(topic, Some(data), respond) == outline;
    assert DraftCall(topic, Some(outline), Some(data)) == Some(draftRequest);
    assert DraftValue(topic, Some(outline), Some(data), respond) == respond(draftRequest);
    assert [research] + Calls(Some(outlineRequest)) + Calls(Some(draftRequest)) == [research, outlineRequest, draftRequest];
  }

  /** A draft that does not start with the marker comes back stripped, so a
      run can return the empty string: the research reply decodes to
      non-empty lists, the outline reply is non-empty, and the draft reply is
      one space. */
  lemma BlankDraftYieldsEmptyPost(topic: string, respond: Request -> string, tools: Tools,
                                  keywords: seq<string>, facts: seq<string>)
    requires tools.loads(respond(ResearchRequest(topic, tools))) == Decoded(ResearchData(Some(keywords), Some(facts)))
    requires keywords != [] && facts != []
    requires respond(Request(ContentStrategist, OutlinePrompt(topic, keywords, facts))) != ""
    requires var outline := respond(Request(ContentStrategist, OutlinePrompt(topic, keywords, facts)));
             respond(Request(ContentWriter, DraftPrompt(topic, outline, keywords, facts))) == " "
    ensures Pipeline(topic, respond, tools).result == Returned("")
  {
    CompleteRun(topic, respond, tools, keywords, facts);
    BlankFinalizesToEmpty();
  }

  lemma BlankFinalizesToEmpty()
    ensures Finalize(" ") == ""
  {
    assert !StartsWith(" ", ErrorMarker);
    assert TrimStart(" ") == TrimStart(" "[1..]);
  }

  /** The draft stage reads a missing research list as an empty one, and
      absent research as a record with both lists empty. */
  lemma DraftDefaultsMissingLists(topic: string, outline: Option<string>, keywords: Option<seq<string>>, facts: Option<seq<string>>)
    ensures DraftCall(topic, outline, Some(ResearchData(None, facts))) == DraftCall(topic, outline, Some(ResearchData(Some([]), facts)))
    ensures DraftCall(topic, outline, Some(ResearchData(keywords, None))) == DraftCall(topic, outline, Some(ResearchData(keywords, Some([]))))
    ensures DraftCall(topic, outline, None) == DraftCall(topic, outline, Some(ResearchData(Some([]), Some([]))))
  {
  }

  /** The requests of one run carry pairwise distinct system instructions, so
      no request is sent twice within a run. */
  lemma RunRequestsDistinct(topic: string, respond: Request -> string, tools: Tools)
    ensures var calls := Pipeline(topic, respond, tools).calls;
            forall i, j :: 0 <= i < j < |calls| ==> calls[i].systemInstruction != calls[j].systemInstruction
  {
    var research := ResearchRequest(topic, tools);
    var reply := respond(research);
    if ResearchFailure(reply, tools).None? {
      PipelineAfterResearch(topic, respond, tools);
      var data := ResearchValue(reply, tools);
      var outline := OutlineValue(topic, Some(data), respond);
      var c1 := Calls(OutlineCall(topic, Some(data)));
      var c2 := Calls(DraftCall(topic, Some(outline), Some(data)));
      assert forall k :: 0 <= k < |c1| ==> c1[k].systemInstruction == ContentStrategist;
      assert forall k :: 0 <= k < |c2| ==> c2[k].systemInstruction == ContentWriter;
      var calls := [research] + c1 + c2;
      assert calls[0].systemInstruction == ResearchAnalyst;
      assert forall k :: 1 <= k < |calls| ==>
        calls[k].systemInstruction == (if k <= |c1| then ContentStrategist else ContentWriter);
    }
  }

  /** The final check is idempotent: finalising a finalised post changes
      nothing. */
  lemma FinalizeIdempotent(post: string)
    ensures Finalize(Finalize(post)) == Finalize(post)
  {
    if !StartsWith(post, ErrorMarker) {
      StripIdempotent(post);
    }
  }

  /** With a deterministic client, two runs on the same topic give the same
      result and issue the same requests. */
  method RunTwice(topic: string, client: GenerationClient, tools: Tools) returns (first: Outcome<string>, second: Outcome<string>)
    modifies client
    ensures first == second
    ensures client.log == old(client.log) + Pipeline(topic, client.respond, tools).calls + Pipeline(topic, client.respond, tools).calls
  {
    first := RunContentCrafter(topic, client, tools);
    second := RunContentCrafter(topic, client, tools);
  }
}

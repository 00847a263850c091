# Content Crafter pipeline, modelled in Dafny

This project models the three-agent blog-writing pipeline of `Project.py`. There are three stages:

- `research_agent` searches the web for the topic. It asks a language model to turn the results into a JSON object with `keywords` and `facts`, and stores that object in a shared context.
- `outline_agent` asks the model for a Markdown outline built from the keywords and facts.
- `drafting_agent` asks the model for the post, using the outline.

`run_content_crafter` runs the three stages in order over one context dictionary. A post that starts with `ERROR` is passed back as it is. Any other post is stripped of surrounding whitespace.

The language model, the search tool, `json.dumps` and `json.loads` are not implemented here. Each one is a parameter, so every result below holds whatever they answer:

- the model is a response function inside a `GenerationClient` object that logs every request;
- the search tool, `json.dumps` and `json.loads` are plain functions bundled in `Tools`.

The project has five modules:

- `Text`: the Python string built-ins the code relies on. These are `str.strip()` (exact `str.isspace` set, proved to be the unique trim), `str.startswith`, `str.join`, and substring occurrence.
- `Prompts`: the three system instructions, and the three user prompts as the values their f-strings interpolate. `Render` gives the exact prompt text. Lemmas show the text embeds the search results, the outline, and every keyword and fact.
- `Externals`: the oracles, the research record, and the generation client with its request log.
- `ContentCrafter`: the context object, the three stages as methods that update it, and the final check. Each stage is proved against a specification function: which request it makes (or that it makes none), and what it stores or returns. `Pipeline` is the whole run as a function: its result, or the `KeyError` it raises, plus the exact list of requests. `RunContentCrafter` is proved equal to it.
- `Scenarios`: one lemma per way a run can go, stated over `Pipeline`.

Behaviours of the code worth knowing, each stated by a lemma:

- **Outline gate.** The outline stage is skipped when *either* research list is missing or empty, not only when both are (`not kw or not facts`, line 159). `Scenarios.EitherListClosesOutlineGate` and `Scenarios.NoKeywordsOneFactEndsInSentinel` state this.
- **Empty result.** A draft that does not start with `ERROR` is stripped (line 252). So a draft that is all whitespace comes back as `""`, and a run can return the empty string (`Scenarios.BlankDraftYieldsEmptyPost`).
- **Missing key.** If the reply decodes but lacks `keywords` or `facts`, the success report on line 143 raises `KeyError`. Only `json.JSONDecodeError` is caught, so the error reaches the caller. `research_data` has already been stored at that point. The model returns `Raised(KeyError(...))`, with `keywords` checked first.
- **Prefix.** The final check tests the prefix `ERROR`, not `ERROR:`.

## Model

| member | source | states |
|---|---|---|
| Text.TrimStart | Project.py:252 | the result is a suffix of the input, everything cut off is whitespace, and the result does not start with whitespace |
| Text.TrimEnd | Project.py:252 | the result is a prefix of the input, everything cut off is whitespace, and the result does not end with whitespace |
| Text.Strip | Project.py:252 | `str.strip()`: the result is a contiguous slice of the input, only whitespace lies outside it, and it neither starts nor ends with whitespace |
| Text.StripUnique | Project.py:252 | that characterisation admits exactly one string, the one `Strip` returns |
| Text.StripIdempotent | Project.py:252 | stripping a stripped string changes nothing |
| Text.SpaceRange | Project.py:252 | about `IsSpace`, the characters `str.strip()` removes (Python's `str.isspace`): every ASCII whitespace character is one, and all lie between U+0009 and U+3000 |
| Text.StartsWithPointwise | Project.py:248 | about `StartsWith` (`str.startswith`): true exactly when the prefix fits and agrees with the string character by character |
| Text.Join | Project.py:172-173 | `sep.join`: `""` for no parts, the part itself for one, starts with the first part, and its length is the parts' total plus one separator per gap |
| Text.JoinSnoc | Project.py:172-173 | `sep.join` puts exactly one separator before every part after the first |
| Text.JoinContains | Project.py:172-173 | every part of a join occurs in the joined text |
| Prompts.Render | Project.py:132-213 | the exact text of the three f-strings (lines 132, 170-175, 207-213); each text is longer than the values it interpolates put together |
| Prompts.ResearchPromptGrounded | Project.py:132 | the serialised search results occur in the research prompt |
| Prompts.InOutlineKeywords | Project.py:170-175 | any text inside the joined keywords is inside the outline prompt |
| Prompts.InOutlineFacts | Project.py:170-175 | any text inside the joined facts is inside the outline prompt |
| Prompts.OutlinePromptGrounded | Project.py:170-175 | the outline prompt contains the keywords joined by `", "` and the facts joined by `"; "`, and so every single keyword and fact |
| Prompts.InDraftKeywords | Project.py:207-213 | any text inside the joined keywords is inside the draft prompt |
| Prompts.InDraftFacts | Project.py:207-213 | any text inside the joined facts is inside the draft prompt |
| Prompts.DraftPromptGrounded | Project.py:207-213 | the draft prompt contains the whole outline and every keyword and fact |
| Externals.GenerationClient.constructor | Project.py:23 | a client answering with the given backend, with no requests logged yet |
| Externals.GenerationClient.Generate | Project.py:29-51 | `real_generate_content` logs exactly one request (this instruction, this prompt) and returns the backend's answer to it |
| ContentCrafter.Context.constructor | Project.py:234 | the context holds only the topic |
| ContentCrafter.SentinelCarriesMarker | Project.py:199 | the outline-missing message starts with the `ERROR` prefix the final check tests on line 248 |
| ContentCrafter.ResearchQuery | Project.py:120 | the search query is a fixed phrase that ends with the topic |
| ContentCrafter.ResearchRequest | Project.py:120-138 | the research request carries the research-analyst instruction and a research prompt for the topic, built from `json.dumps` of the search results for the query |
| ContentCrafter.ResearchValue | Project.py:140-146 | a reply that is not JSON stores the empty fallback `{'keywords': [], 'facts': []}`; a decoded reply stores the decoded object as it is |
| ContentCrafter.MissingKey | Project.py:143 | the success report raises exactly when a key is missing; `KeyError('keywords')` takes precedence over `KeyError('facts')` |
| ContentCrafter.ResearchFailure | Project.py:140-146 | the not-JSON fallback never raises; a decoded reply raises what `MissingKey` says |
| ContentCrafter.ResearchStage | Project.py:112-148 | exactly one request, with the search results for `"SEO keywords and current facts about: " + topic`; `research_data` is written (even when a `KeyError` follows), and nothing else is; the context is returned unless a `KeyError` is raised |
| ContentCrafter.FalsyLists | Project.py:159 | about `Truthy` (Python truthiness of `research_data.get(key)`): false exactly for a missing key and for the empty list |
| ContentCrafter.OutlineCall | Project.py:157-181 | the outline request is made iff research data is present and both lists are present and non-empty, and it carries the content-strategist instruction |
| ContentCrafter.StoredOutline | Project.py:157-183 | about `OutlineValue`: the stored outline is `""` when research is absent or a list is missing or empty, and otherwise the backend's reply to the content-strategist request for those lists |
| ContentCrafter.OutlineStage | Project.py:150-186 | the log grows by exactly the gated request; `outline` is `""` when skipped and the model's reply, unvalidated, otherwise; nothing else is written; the same context is returned |
| ContentCrafter.ListOrEmpty | Project.py:210-211 | `.get(key, [])`: the stored list, or `[]` when the key is missing |
| ContentCrafter.DefaultAgreesWithGate | Project.py:159-211 | a list read with the draft's default `[]` is non-empty exactly when the outline gate finds the key truthy |
| ContentCrafter.DraftCall | Project.py:195-219 | the draft request is made iff the outline is present and non-empty, and it carries the content-writer instruction |
| ContentCrafter.ReturnedDraft | Project.py:195-221 | about `DraftValue`: the draft is the outline-missing message when the outline is missing or empty, and otherwise the backend's reply to the content-writer request with missing lists read as `[]` |
| ContentCrafter.DraftingStage | Project.py:188-221 | the log grows by exactly the draft request when there is one; the result is the outline-missing message when there is none and the model's reply otherwise; the context is not modified |
| ContentCrafter.Finalize | Project.py:247-254 | a post that starts with `ERROR` is returned untouched; any other post is its `strip()`; either way the result has the prefix or no surrounding whitespace |
| ContentCrafter.Pipeline | Project.py:225-254 | a run makes one to three requests and the first is always the research request; a raising run makes only that one; a run that returns after fewer than three requests returns the outline-missing message; every returned value has the `ERROR` prefix or no surrounding whitespace |
| ContentCrafter.PipelineRaises | Project.py:237-243 | when the research stage raises, the run raises that error after the research request and makes no further call |
| ContentCrafter.PipelineAfterResearch | Project.py:237-254 | when the research stage does not raise, the run makes the outline and draft requests the stages call for and returns the finalised draft |
| ContentCrafter.RunContentCrafter | Project.py:225-254 | the imperative run over a fresh context returns (or raises) exactly what `Pipeline` says and logs exactly its requests, in order |
| Scenarios.UnparsedResearchEndsInSentinel | Project.py:144-146 | a research reply that is not JSON leads to the outline-missing message after the research request alone |
| Scenarios.MissingKeyAbortsRun | Project.py:140-143 | a decoded reply without `keywords` (or else without `facts`) makes the run raise that `KeyError` after one request |
| Scenarios.EitherListClosesOutlineGate | Project.py:157-162 | one missing or empty list, or no research at all, skips the outline call and stores `""`, whatever the backend |
| Scenarios.RunRequestsDistinct | Project.py:225-243 | the requests of one run carry pairwise distinct system instructions, so none is sent twice |
| Scenarios.NoKeywordsOneFactEndsInSentinel | Project.py:159 | no keywords and one fact: the outline is still skipped and the run returns the outline-missing message |
| Scenarios.EmptyOutlineReplyEndsInSentinel | Project.py:183-199 | an empty outline reply is stored as it is and then treated as missing: two requests, then the outline-missing message |
| Scenarios.CompleteRun | Project.py:225-254 | with both lists non-empty and a non-empty outline reply, the three requests are made in order, the draft prompt carries the outline reply, and the run returns the finalised draft |
| Scenarios.BlankDraftYieldsEmptyPost | Project.py:247-254 | for any backend whose research reply decodes to non-empty lists, whose outline reply is non-empty and whose draft reply is one space, the run returns `""` |
| Scenarios.BlankFinalizesToEmpty | Project.py:252 | an all-blank draft finalises to `""` |
| Scenarios.DraftDefaultsMissingLists | Project.py:196-211 | the draft stage reads a missing list as `[]` and absent research as two empty lists |
| Scenarios.FinalizeIdempotent | Project.py:247-254 | applying the final check twice gives the same result as applying it once |
| Scenarios.RunTwice | Project.py:225-254 | with a deterministic backend, two runs on one topic give the same outcome and log the same requests twice |

## Left out

- Client setup (`Project.py:1-91`): API keys, the choice between the real SDK and `SimulatedGeminiClient`, and that client's canned replies. The backend is an arbitrary response function.
- The canned results of the simulated `GoogleSearchTool.search` and its log line. The search is an arbitrary function of the query.
- The JSON grammar, and the exact output of `json.dumps(..., indent=2)`. Both are arbitrary functions. Only two outcomes of `json.loads` are modelled: it fails, or it returns an object whose `keywords` and `facts` are each missing or a list of strings. Other decoded shapes, such as non-objects, `null` or non-string list items, are not modelled.
- The wording of the three system instructions. `Instruction` stands for each fixed text by a tag, and nothing the code does depends on the wording.
- The prompts sent to the backend. The backend receives the structured `Prompt` rather than its rendered text. This is no loss, since a backend that reads only the text is the special case `respond ∘ Render`. `Render` gives the exact text.
- Every `print` and the `__main__` block, which are I/O only.
- Nondeterminism of the model. `respond` maps each request to one reply. Within one run no request repeats, because the three system instructions differ (`Scenarios.RunRequestsDistinct`).
- Context keys other than `topic`, `research_data` and `outline`. The code writes no others.
- The `tools` argument of `real_generate_content`, which the stages never pass.

/**
  What the stages send to the language model. A prompt is kept as the values
  its f-string interpolates; `Render` is the f-string itself and gives the
  exact text that is sent. The lemmas say what that text embeds.
 */
module Prompts {
  import opened Text

  /** The three fixed system instructions the stages send: the research
      analyst (answer only with a JSON object of `keywords` and `facts`), the
      content strategist (a Markdown outline with H2 and H3 headers) and the
      content writer (a long-form Markdown post). Each stands for its fixed
      text, which is not spelled out here. */
  datatype Instruction = ResearchAnalyst | ContentStrategist | ContentWriter

  /** The user prompt of each stage, by the values it interpolates. */
  datatype Prompt =
    | ResearchPrompt(topic: string, searchText: string)
    | OutlinePrompt(topic: string, keywords: seq<string>, facts: seq<string>)
    | DraftPrompt(topic: string, outline: string, keywords: seq<string>, facts: seq<string>)

  /** The text of a prompt, as the f-strings build it: keywords joined by
      `", "`, facts joined by `"; "`. */
  function Render(p: Prompt): (r: string)
    ensures p.ResearchPrompt? ==> |r| > |p.topic| + |p.searchText|
    ensures p.OutlinePrompt? ==> |r| > |p.topic| + |Join(p.keywords, ", ")| + |Join(p.facts, "; ")|
    ensures p.DraftPrompt? ==> |r| > |p.topic| + |p.outline| + |Join(p.keywords, ", ")| + |Join(p.facts, "; ")|
  {
    match p
    case ResearchPrompt(topic, searchText) =>
      "Topic: " + topic + "\n\nRaw Search Results:\n" + searchText + "\n\nExtract the requested structured data."
    case OutlinePrompt(topic, keywords, facts) =>
      "Topic: " + topic + "\n" +
      "Target Keywords: " + Join(keywords, ", ") + "\n" +
      "Key Facts to Include: " + Join(facts, "; ") + "\n\n" +
      "Generate a detailed, full blog post outline in Markdown."
    case DraftPrompt(topic, outline, keywords, facts) =>
      "Topic: " + topic + "\n" +
      "Outline to Follow:\n" + outline + "\n\n" +
      "Keywords to Integrate: " + Join(keywords, ", ") + "\n" +
      "Key Facts to Reference: " + Join(facts, "; ") + "\n\n" +
      "Write the complete blog post following this structure."
  }

  /** The research prompt carries the serialised search results. */
  lemma ResearchPromptGrounded(topic: string, searchText: string)
    ensures Occurs(searchText, Render(ResearchPrompt(topic, searchText)))
  {
    var p := "Topic: " + topic + "\n\nRaw Search Results:\n";
    OccursSelf(searchText);
    OccursAfter(searchText, p, searchText);
    OccursBefore(searchText, p + searchText, "\n\nExtract the requested structured data.");
  }

  /** Anything inside the joined keywords is inside the outline prompt. */
  lemma InOutlineKeywords(x: string, topic: string, keywords: seq<string>, facts: seq<string>)
    requires Occurs(x, Join(keywords, ", "))
    ensures Occurs(x, Render(OutlinePrompt(topic, keywords, facts)))
  {
    var p := "Topic: " + topic + "\n" + "Target Keywords: ";
    OccursAfter(x, p, Join(keywords, ", "));
    p := p + Join(keywords, ", ");
    OccursBefore(x, p, "\n");
    p := p + "\n";
    OccursBefore(x, p, "Key Facts to Include: ");
    p := p + "Key Facts to Include: ";
    OccursBefore(x, p, Join(facts, "; "));
    p := p + Join(facts, "; ");
    OccursBefore(x, p, "\n\n");
    p := p + "\n\n";
    OccursBefore(x, p, "Generate a detailed, full blog post outline in Markdown.");
  }

  /** Anything inside the joined facts is inside the outline prompt. */
  lemma InOutlineFacts(x: string, topic: string, keywords: seq<string>, facts: seq<string>)
    requires Occurs(x, Join(facts, "; "))
    ensures Occurs(x, Render(OutlinePrompt(topic, keywords, facts)))
  {
    var p := "Topic: " + topic + "\n" + "Target Keywords: " + Join(keywords, ", ") + "\n" + "Key Facts to Include: ";
    OccursAfter(x, p, Join(facts, "; "));
    p := p + Join(facts, "; ");
    OccursBefore(x, p, "\n\n");
    p := p + "\n\n";
    OccursBefore(x, p, "Generate a detailed, full blog post outline in Markdown.");
  }

  /** The outline prompt grounds the model: it embeds the keywords joined by
      `", "`, the facts joined by `"; "`, and so every single keyword and
      every single fact. */
  lemma OutlinePromptGrounded(topic: string, keywords: seq<string>, facts: seq<string>)
    ensures Occurs(Join(keywords, ", "), Render(OutlinePrompt(topic, keywords, facts)))
    ensures Occurs(Join(facts, "; "), Render(OutlinePrompt(topic, keywords, facts)))
    ensures forall i :: 0 <= i < |keywords| ==> Occurs(keywords[i], Render(OutlinePrompt(topic, keywords, facts)))
    ensures forall i :: 0 <= i < |facts| ==> Occurs(facts[i], Render(OutlinePrompt(topic, keywords, facts)))
  {
    OccursSelf(Join(keywords, ", "));
    InOutlineKeywords(Join(keywords, ", "), topic, keywords, facts);
    OccursSelf(Join(facts, "; "));
    InOutlineFacts(Join(facts, "; "), topic, keywords, facts);
    forall i | 0 <= i < |keywords|
      ensures Occurs(keywords[i], Render(OutlinePrompt(topic, keywords, facts)))
    {
      JoinContains(keywords, ", ", i);
      InOutlineKeywords(keywords[i], topic, keywords, facts);
    }
    forall i | 0 <= i < |facts|
      ensures Occurs(facts[i], Render(OutlinePrompt(topic, keywords, facts)))
    {
      JoinContains(facts, "; ", i);
      InOutlineFacts(facts[i], topic, keywords, facts);
    }
  }

  /** Anything inside the joined keywords is inside the draft prompt. */
  lemma InDraftKeywords(x: string, topic: string, outline: string, keywords: seq<string>, facts: seq<string>)
    requires Occurs(x, Join(keywords, ", "))
    ensures Occurs(x, Render(DraftPrompt(topic, outline, keywords, facts)))
  {
    var p := "Topic: " + topic + "\n" + "Outline to Follow:\n" + outline + "\n\n" + "Keywords to Integrate: ";
    OccursAfter(x, p, Join(keywords, ", "));
    p := p + Join(keywords, ", ");
    OccursBefore(x, p, "\n");
    p := p + "\n";
    OccursBefore(x, p, "Key Facts to Reference: ");
    p := p + "Key Facts to Reference: ";
    OccursBefore(x, p, Join(facts, "; "));
    p := p + Join(facts, "; ");
    OccursBefore(x, p, "\n\n");
    p := p + "\n\n";
    OccursBefore(x, p, "Write the complete blog post following this structure.");
  }

  /** Anything inside the joined facts is inside the draft prompt. */
  lemma InDraftFacts(x: string, topic: string, outline: string, keywords: seq<string>, facts: seq<string>)
    requires Occurs(x, Join(facts, "; "))
    ensures Occurs(x, Render(DraftPrompt(topic, outline, keywords, facts)))
  {
    var p := "Topic: " + topic + "\n" + "Outline to Follow:\n" + outline + "\n\n" + "Keywords to Integrate: " +
      Join(keywords, ", ") + "\n" + "Key Facts to Reference: ";
    OccursAfter(x, p, Join(facts, "; "));
    p := p + Join(facts, "; ");
    OccursBefore(x, p, "\n\n");
    p := p + "\n\n";
    OccursBefore(x, p, "Write the complete blog post following this structure.");
  }

  /** The draft prompt embeds the whole outline, and every keyword and every
      fact. */
  lemma DraftPromptGrounded(topic: string, outline: string, keywords: seq<string>, facts: seq<string>)
    ensures Occurs(outline, Render(DraftPrompt(topic, outline, keywords, facts)))
    ensures forall i :: 0 <= i < |keywords| ==> Occurs(keywords[i], Render(DraftPrompt(topic, outline, keywords, facts)))
    ensures forall i :: 0 <= i < |facts| ==> Occurs(facts[i], Render(DraftPrompt(topic, outline, keywords, facts)))
  {
    var p := "Topic: " + topic + "\n" + "Outline to Follow:\n";
    OccursSelf(outline);
    OccursAfter(outline, p, outline);
    p := p + outline;
    OccursBefore(outline, p, "\n\n");
    p := p + "\n\n";
    OccursBefore(outline, p, "Keywords to Integrate: ");
    p := p + "Keywords to Integrate: ";
    OccursBefore(outline, p, Join(keywords, ", "));
    p := p + Join(keywords, ", ");
    OccursBefore(outline, p, "\n");
    p := p + "\n";
    OccursBefore(outline, p, "Key Facts to Reference: ");
    p := p + "Key Facts to Reference: ";
    OccursBefore(outline, p, Join(facts, "; "));
    p := p + Join(facts, "; ");
    OccursBefore(outline, p, "\n\n");
    p := p + "\n\n";
    OccursBefore(outline, p, "Write the complete blog post following this structure.");
    forall i | 0 <= i < |keywords|
      ensures Occurs(keywords[i], Render(DraftPrompt(topic, outline, keywords, facts)))
    {
      JoinContains(keywords, ", ", i);
      InDraftKeywords(keywords[i], topic, outline, keywords, facts);
    }
    forall i | 0 <= i < |facts|
      ensures Occurs(facts[i], Render(DraftPrompt(topic, outline, keywords, facts)))
    {
      JoinContains(facts, "; ", i);
      InDraftFacts(facts[i], topic, outline, keywords, facts);
    }
  }
}

/** `DefaultSummarizationConfigRepository`: a constant table from the five
    summarization config ids to a prompt and the Bedrock model that runs it.
    The prompt texts are elided: each is modelled as its attribution
    sentence between two placeholders for the text around it. */
module Summarization {
  import opened Results
  import opened Strings
  import opened Articles

  /** The members of the `SummarizationConfigID` union. */
  const ConfigIds: seq<string> := ["aws", "tech-event", "tech-company-blog", "tech-trend", "official-blog"]

  datatype SummarizationConfig = SummarizationConfig(prompt: string, modelId: string)

  /** The sentence every prompt asks the model to end the digest with. */
  const Attribution: string := "このメールは summarize-rss（https://github.com/a-takamin/summarize-rss）によって作られました。"

  /** The prompt of `id`: elided instructions, the attribution sentence, and
      the elided notes that follow it. */
  function Prompt(id: string): string {
    "<" + id + " instructions>\n\n" + Attribution + "\n\n<" + id + " notes>\n"
  }

  function Entry(id: string): SummarizationConfig {
    SummarizationConfig(Prompt(id), ClaudeSonnet45.Id())
  }

  const SummarizationConfigMap: map<string, SummarizationConfig> := map[
    "aws" := Entry("aws"),
    "tech-event" := Entry("tech-event"),
    "tech-company-blog" := Entry("tech-company-blog"),
    "tech-trend" := Entry("tech-trend"),
    "official-blog" := Entry("official-blog")]

  function UnknownIdMessage(id: string): string {
    "Unknown SummarizationConfigID: " + id
  }

  /** `get(id)`: the table entry, or the error naming the id. */
  function Get(id: string): (r: Result<SummarizationConfig>)
    ensures id in SummarizationConfigMap <==> r.Ok?
    ensures r.Ok? ==> r.value == SummarizationConfigMap[id]
    ensures r.Err? ==> r.error == UnknownIdMessage(id)
  {
    if id in SummarizationConfigMap then Ok(SummarizationConfigMap[id]) else Err(UnknownIdMessage(id))
  }

  /** The table has exactly the five ids of the union as keys, so `get` of
      a well-typed id never throws. */
  lemma KeysAreConfigIds(id: string)
    ensures id in SummarizationConfigMap <==> id in ConfigIds
    ensures id in ConfigIds ==> Get(id).Ok?
  {
    if id in ConfigIds {
      var k :| 0 <= k < |ConfigIds| && ConfigIds[k] == id;
      assert k == 0 || k == 1 || k == 2 || k == 3 || k == 4;
    }
  }

  /** Every prompt asks for the attribution sentence. */
  lemma PromptCarriesAttribution(id: string)
    ensures exists i :: OccursAt(Attribution, Prompt(id), i)
  {
    var p := Prompt(id);
    var head := "<" + id + " instructions>\n\n";
    assert |head| == |id| + 17;
    assert p == head + Attribution + ("\n\n<" + id + " notes>\n");
    assert p[|head|..|head| + |Attribution|] == Attribution;
    assert OccursAt(Attribution, p, |head|);
  }

  lemma TableEntry(id: string)
    requires id in SummarizationConfigMap
    ensures SummarizationConfigMap[id] == Entry(id)
  {
  }

  /** Every entry runs on Claude Sonnet 4.5 and its prompt asks for the
      attribution sentence. */
  lemma EveryEntrySonnetWithAttribution(id: string)
    requires Get(id).Ok?
    ensures Get(id).value.modelId == ClaudeSonnet45.Id()
    ensures exists i :: OccursAt(Attribution, Get(id).value.prompt, i)
  {
    TableEntry(id);
    PromptCarriesAttribution(id);
  }
}

/** The feed entry every component passes around, and the two Bedrock model
    identifiers the summarization table refers to. */
module Articles {

  /** One unread feed entry. */
  datatype Article = Article(id: string, title: string, url: string, feedTitle: string)

  /** `articles.map((a) => a.id)`. */
  function Ids(articles: seq<Article>): (r: seq<string>)
    ensures |r| == |articles|
    ensures forall k :: 0 <= k < |r| ==> r[k] == articles[k].id
  {
    if articles == [] then [] else [articles[0].id] + Ids(articles[1..])
  }

  /** The Bedrock models the program knows about. */
  datatype BedrockModel = ClaudeHaiku45 | ClaudeSonnet45 {
    function Id(): string {
      match this
      case ClaudeHaiku45 => "us.anthropic.claude-haiku-4-5-20251001-v1:0"
      case ClaudeSonnet45 => "us.anthropic.claude-sonnet-4-5-20250929-v1:0"
    }
  }
}

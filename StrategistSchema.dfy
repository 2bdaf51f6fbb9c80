/** The records of the publisher strategist (app/schemas/strategist.py). */
module StrategistSchema {
  import opened Wrappers

  /** The six required fields of a manuscript profile. */
  datatype StrategistManuscript = StrategistManuscript(
    title: string,
    genre: string,
    wordCount: int,
    blurb: string,
    comparativeTitles: seq<string>,
    targetAudience: string)

  /** The two queries the model formulates: one for dense search, keywords for BM25. */
  datatype HybridSearchQueries = HybridSearchQueries(
    semanticQuery: string,
    lexicalKeywords: seq<string>)

  /** One reranked publisher. `score` is a plain integer: the 1 to 10 range is only a
      description for the model and is not enforced. */
  datatype PublisherScore = PublisherScore(
    publisherId: string,
    publisherName: Option<string>,
    score: int,
    reasoning: string,
    comps: seq<string>)

  datatype RerankedList = RerankedList(scoredPublishers: seq<PublisherScore>)

  /** A score as the model returns it: the name is left out and defaults to `None`. */
  function NewPublisherScore(publisherId: string, score: int, reasoning: string, comps: seq<string>)
    : (r: PublisherScore)
    ensures r.publisherName == None
    ensures r.publisherId == publisherId && r.score == score && r.reasoning == reasoning && r.comps == comps
  {
    PublisherScore(publisherId, None, score, reasoning, comps)
  }

  /** The sort key of both pipelines. */
  function ScoreOf(p: PublisherScore): int {
    p.score
  }
}

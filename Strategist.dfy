/** The deterministic parts of the publisher strategist (app/agents/strategist.py):
    the choice between dense and hybrid search, the projection of the retrieved
    matches into prompt entries, and the post-processing of the reranked list (stable
    sort by score, top five, names filled in from the matches). The embeddings, the
    BM25 encoding, the index query and the model's reranking are inputs. */
module Strategist {
  import opened Wrappers
  import opened Text
  import opened Ranking
  import opened StrategistSchema

  /** The metadata of an index match; a key the record lacks is `None`. The rating is
      carried but never computed with. */
  datatype Metadata = Metadata(
    publisherName: Option<string>,
    activeGenres: Option<seq<string>>,
    recentCompTitles: Option<seq<string>>,
    avgGoodreadsRating: Option<real>)

  /** A match returned by the index query; its metadata may be missing. */
  datatype Match = Match(id: string, metadata: Option<Metadata>)

  // ===========================================================================
  // retrieve_candidates
  // ===========================================================================

  /** The BM25 encoding of the keyword string: `None` when the encoder returns nothing,
      `indices` is `None` when that key is absent. */
  datatype SparseVector = SparseVector(indices: Option<seq<int>>)

  datatype SearchMode = DenseOnly | Hybrid

  /** `" ".join(queries.lexical_keywords)`. */
  function SparseQueryString(keywords: seq<string>): string {
    Join(" ", keywords)
  }

  /** Keywords without spaces come back, in order, when the query string is split at
      spaces; no keywords give the empty query. */
  lemma SparseQueryWords(keywords: seq<string>)
    requires forall i :: 0 <= i < |keywords| ==> ' ' !in keywords[i]
    ensures keywords == [] ==> SparseQueryString(keywords) == ""
    ensures keywords != [] ==> Split(SparseQueryString(keywords), ' ') == keywords
  {
    if keywords != [] {
      SplitJoin(keywords, ' ');
    }
  }

  /** `if not sparse_vec or len(sparse_vec.get("indices", [])) == 0`: dense-only search
      unless the encoding holds at least one index. */
  function ChooseSearch(sparse: Option<SparseVector>): (r: SearchMode)
    ensures r == Hybrid <==> sparse.Some? && sparse.value.indices.Some? && sparse.value.indices.value != []
    ensures r == DenseOnly <==> sparse.None? || sparse.value.indices.GetOr([]) == []
  {
    if sparse.None? || |sparse.value.indices.GetOr([])| == 0 then DenseOnly else Hybrid
  }

  // ===========================================================================
  // rerank_publishers: the projection into prompt entries
  // ===========================================================================

  /** The entry the prompt shows for one match. */
  datatype CleanCandidate = CleanCandidate(
    publisherId: string,
    name: Option<string>,
    activeGenres: Option<seq<string>>,
    recentCompTitles: Option<seq<string>>,
    avgGoodreadsRating: Option<real>)

  /** What `meta.get(...)` raises when a match has no metadata. */
  const MetadataNoneError: string := "'NoneType' object has no attribute 'get'"

  predicate AllHaveMetadata(candidates: seq<Match>) {
    forall i :: 0 <= i < |candidates| ==> candidates[i].metadata.Some?
  }

  function Project(id: string, meta: Metadata): CleanCandidate {
    CleanCandidate(id, meta.publisherName, meta.activeGenres, meta.recentCompTitles, meta.avgGoodreadsRating)
  }

  /** The loop building `clean_candidates`: one entry per match, in order, with the
      match's id and its four metadata fields; a match without metadata raises. */
  method RerankProjection(candidates: seq<Match>) returns (r: Result<seq<CleanCandidate>>)
    ensures r.Ok? <==> AllHaveMetadata(candidates)
    ensures r.Err? ==> r.error == MetadataNoneError
    ensures r.Ok? ==> |r.value| == |candidates|
    ensures r.Ok? ==> forall i :: 0 <= i < |candidates| ==>
              candidates[i].metadata.Some?
              && r.value[i] == Project(candidates[i].id, candidates[i].metadata.value)
  {
    var clean := [];
    var i := 0;
    while i < |candidates|
      invariant 0 <= i <= |candidates|
      invariant |clean| == i
      invariant forall k :: 0 <= k < i ==>
                  candidates[k].metadata.Some? && clean[k] == Project(candidates[k].id, candidates[k].metadata.value)
    {
      var meta := candidates[i].metadata;
      if meta.None? {
        return Err(MetadataNoneError);
      }
      clean := clean + [Project(candidates[i].id, meta.value)];
      i := i + 1;
    }
    r := Ok(clean);
  }

  // ===========================================================================
  // execute_strategist_pipeline
  // ===========================================================================

  /** `(match.metadata or {}).get("publisher_name")`. */
  function NameOf(m: Match): Option<string> {
    if m.metadata.None? then None else m.metadata.value.publisherName
  }

  /** `candidate_names`: a dict comprehension, so a later match with the same id
      overrides an earlier one. */
  function CandidateNames(candidates: seq<Match>): map<string, Option<string>> {
    if candidates == [] then map[]
    else
      var last := candidates[|candidates| - 1];
      CandidateNames(candidates[..|candidates| - 1])[last.id := NameOf(last)]
  }

  /** An id has an entry exactly when some match carries it, and the entry is the name
      of the last such match. */
  lemma {:induction false} CandidateNamesSpec(candidates: seq<Match>, id: string)
    ensures id in CandidateNames(candidates) <==> exists i :: 0 <= i < |candidates| && candidates[i].id == id
    ensures id in CandidateNames(candidates) ==>
              exists i :: 0 <= i < |candidates| && candidates[i].id == id
                && CandidateNames(candidates)[id] == NameOf(candidates[i])
                && forall j :: i < j < |candidates| ==> candidates[j].id != id
  {
    if candidates != [] {
      var n := |candidates|;
      var init := candidates[..n - 1];
      CandidateNamesSpec(init, id);
      if candidates[n - 1].id != id {
        if id in CandidateNames(init) {
          var i :| 0 <= i < n - 1 && init[i].id == id && CandidateNames(init)[id] == NameOf(init[i])
                   && forall j :: i < j < n - 1 ==> init[j].id != id;
          assert candidates[i] == init[i];
          forall j | i < j < n ensures candidates[j].id != id {
            if j < n - 1 {
              assert candidates[j] == init[j];
            }
          }
        } else {
          forall i | 0 <= i < n ensures candidates[i].id != id {
            if i < n - 1 {
              assert candidates[i] == init[i];
            }
          }
        }
      }
    }
  }

  /** `candidate_names.get(id)`. */
  function Lookup(names: map<string, Option<string>>, id: string): Option<string> {
    if id in names then names[id] else None
  }

  /** `not result.publisher_name`. */
  predicate Falsy(name: Option<string>) {
    name.None? || name.value == ""
  }

  function FillName(result: PublisherScore, names: map<string, Option<string>>): PublisherScore {
    if Falsy(result.publisherName) then result.(publisherName := Lookup(names, result.publisherId)) else result
  }

  /** The top results after the fill-in loop. */
  function Backfilled(top: seq<PublisherScore>, names: map<string, Option<string>>): (r: seq<PublisherScore>)
    ensures |r| == |top|
  {
    seq(|top|, i requires 0 <= i < |top| => FillName(top[i], names))
  }

  /** The loop that assigns `result.publisher_name` for the results without one. */
  method Backfill(top: seq<PublisherScore>, names: map<string, Option<string>>) returns (out: seq<PublisherScore>)
    ensures out == Backfilled(top, names)
  {
    out := top;
    var i := 0;
    while i < |out|
      invariant 0 <= i <= |out| == |top|
      invariant forall k :: 0 <= k < i ==> out[k] == FillName(top[k], names)
      invariant forall k :: i <= k < |out| ==> out[k] == top[k]
    {
      if Falsy(out[i].publisherName) {
        out := out[i := out[i].(publisherName := Lookup(names, out[i].publisherId))];
      }
      i := i + 1;
    }
  }

  /** What `execute_strategist_pipeline` returns for the retrieved matches and the
      model's reranked list. */
  function Pipeline(candidates: seq<Match>, scored: seq<PublisherScore>): Result<seq<PublisherScore>> {
    if candidates == [] then Ok([])
    else if !AllHaveMetadata(candidates) then Err(MetadataNoneError)
    else Ok(Backfilled(Take(SortDesc(scored, ScoreOf), 5), CandidateNames(candidates)))
  }

  /** `execute_strategist_pipeline` after the queries are formulated and the matches
      retrieved; `scored` is the model's reranking. */
  method ExecuteStrategistPipeline(candidates: seq<Match>, scored: seq<PublisherScore>)
    returns (r: Result<seq<PublisherScore>>)
    ensures r == Pipeline(candidates, scored)
  {
    if candidates == [] {
      return Ok([]);
    }
    var clean := RerankProjection(candidates);
    if clean.Err? {
      return Err(clean.error);
    }
    var sorted := SortDesc(scored, ScoreOf);
    var top := Take(sorted, 5);
    var filled := Backfill(top, CandidateNames(candidates));
    r := Ok(filled);
  }

  // ---------------------------------------------------------------------------
  // What the pipeline promises
  // ---------------------------------------------------------------------------

  /** Two results that differ at most in the publisher name. */
  predicate SameButName(a: PublisherScore, b: PublisherScore) {
    a.publisherId == b.publisherId && a.score == b.score && a.reasoning == b.reasoning && a.comps == b.comps
  }

  /** No matches give an empty list before any reranking; a match without metadata
      makes the projection raise. Otherwise there are at most five results, the i-th
      best of the stably sorted reranking up to its name, with scores never increasing,
      and no result left out scores above one kept. */
  lemma PipelineRanking(candidates: seq<Match>, scored: seq<PublisherScore>)
    ensures candidates == [] ==> Pipeline(candidates, scored) == Ok([])
    ensures candidates != [] ==> (Pipeline(candidates, scored).Ok? <==> AllHaveMetadata(candidates))
    ensures candidates != [] && AllHaveMetadata(candidates) ==>
              var r := Pipeline(candidates, scored).value;
              var sorted := SortDesc(scored, ScoreOf);
              && |r| == (if |scored| < 5 then |scored| else 5)
              && (forall i :: 0 <= i < |r| ==> SameButName(r[i], sorted[i]))
              && SortedDesc(r, ScoreOf)
              && (forall i, j :: 0 <= i < |r| <= j < |sorted| ==> r[i].score >= sorted[j].score)
  {
    if candidates != [] && AllHaveMetadata(candidates) {
      var sorted := SortDesc(scored, ScoreOf);
      var top := Take(sorted, 5);
      TopK(scored, ScoreOf, 5);
      var r := Backfilled(top, CandidateNames(candidates));
      assert forall i :: 0 <= i < |r| ==> r[i] == FillName(top[i], CandidateNames(candidates));
      assert forall i :: 0 <= i < |r| ==> SameButName(r[i], top[i]);
    }
  }

  /** A result keeps a name it already has; one without a name takes the name of the
      last match with its id, and stays `None` when no match has that id. */
  lemma PipelineNames(candidates: seq<Match>, scored: seq<PublisherScore>, i: nat)
    requires candidates != [] && AllHaveMetadata(candidates)
    requires i < |Pipeline(candidates, scored).value|
    ensures var r := Pipeline(candidates, scored).value;
            var before := SortDesc(scored, ScoreOf)[i];
            && (!Falsy(before.publisherName) ==> r[i].publisherName == before.publisherName)
            && (Falsy(before.publisherName) && (forall k :: 0 <= k < |candidates| ==> candidates[k].id != before.publisherId)
                ==> r[i].publisherName == None)
            && (Falsy(before.publisherName) && (exists k :: 0 <= k < |candidates| && candidates[k].id == before.publisherId)
                ==> exists k :: 0 <= k < |candidates| && candidates[k].id == before.publisherId
                      && r[i].publisherName == NameOf(candidates[k])
                      && forall j :: k < j < |candidates| ==> candidates[j].id != before.publisherId)
  {
    var sorted := SortDesc(scored, ScoreOf);
    var top := Take(sorted, 5);
    var names := CandidateNames(candidates);
    assert Pipeline(candidates, scored).value[i] == FillName(top[i], names);
    assert top[i] == sorted[i];
    CandidateNamesSpec(candidates, sorted[i].publisherId);
  }
}

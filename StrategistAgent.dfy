/** The stand-alone strategist script (Strategist/strategist_agent.py). Its search
    fallback, keyword string and candidate projection are the same as the service's
    (module Strategist); its pipeline differs: the scores carry no publisher name, and
    the display name of each of the top five is looked up only to be printed. */
module StrategistAgent {
  import opened Wrappers
  import opened Ranking
  import Strategist

  /** The script's own score record: no publisher name. */
  datatype PublisherScore = PublisherScore(
    publisherId: string,
    score: int,
    reasoning: string,
    comps: seq<string>)

  function ScoreOf(p: PublisherScore): int {
    p.score
  }

  /** What `c.metadata["publisher_name"]` raises on a match without metadata, and on
      metadata without that key. */
  const NotSubscriptableError: string := "'NoneType' object is not subscriptable"
  const NameKeyError: string := "'publisher_name'"

  /** `next((c.metadata["publisher_name"] for c in candidates if c.id == id),
      "Unknown Publisher")`: only the first match with the id is looked at. */
  function DisplayName(candidates: seq<Strategist.Match>, id: string): Result<string> {
    if candidates == [] then Ok("Unknown Publisher")
    else if candidates[0].id != id then DisplayName(candidates[1..], id)
    else match candidates[0].metadata
      case None => Err(NotSubscriptableError)
      case Some(meta) =>
        match meta.publisherName
        case None => Err(NameKeyError)
        case Some(name) => Ok(name)
  }

  /** Without a match for the id the name is "Unknown Publisher"; otherwise it is read
      from the first match carrying the id, and later matches do not matter. */
  lemma {:induction false} DisplayNameSpec(candidates: seq<Strategist.Match>, id: string)
    ensures (forall i :: 0 <= i < |candidates| ==> candidates[i].id != id) ==>
              DisplayName(candidates, id) == Ok("Unknown Publisher")
    ensures forall k :: 0 <= k < |candidates| && candidates[k].id == id
                        && (forall i :: 0 <= i < k ==> candidates[i].id != id) ==>
              DisplayName(candidates, id) == DisplayName([candidates[k]], id)
  {
    if candidates != [] {
      DisplayNameSpec(candidates[1..], id);
      forall k | 0 <= k < |candidates| && candidates[k].id == id
                 && (forall i :: 0 <= i < k ==> candidates[i].id != id)
        ensures DisplayName(candidates, id) == DisplayName([candidates[k]], id)
      {
        if k > 0 {
          assert candidates[1..][k - 1] == candidates[k];
          assert forall i :: 0 <= i < k - 1 ==> candidates[1..][i] == candidates[i + 1];
        }
      }
      if forall i :: 0 <= i < |candidates| ==> candidates[i].id != id {
        assert forall i :: 0 <= i < |candidates| - 1 ==> candidates[1..][i] == candidates[i + 1];
      }
    }
  }

  /** The printing loop over the top five: each display name in rank order; the first
      lookup that raises ends the script. */
  function DisplayNames(candidates: seq<Strategist.Match>, top: seq<PublisherScore>): Result<seq<string>> {
    if top == [] then Ok([])
    else match DisplayName(candidates, top[0].publisherId)
      case Err(e) => Err(e)
      case Ok(name) =>
        match DisplayNames(candidates, top[1..])
        case Err(e) => Err(e)
        case Ok(rest) => Ok([name] + rest)
  }

  /** What the script's `execute_strategist_pipeline` returns for the retrieved matches
      and the model's reranking. */
  function AgentPipeline(candidates: seq<Strategist.Match>, scored: seq<PublisherScore>)
    : Result<seq<PublisherScore>>
  {
    if candidates == [] then Ok([])
    else if !Strategist.AllHaveMetadata(candidates) then Err(Strategist.MetadataNoneError)
    else
      var top := Take(SortDesc(scored, ScoreOf), 5);
      match DisplayNames(candidates, top)
      case Err(e) => Err(e)
      case Ok(_) => Ok(top)
  }

  /** The display names are only printed: when the script returns, it returns the top
      five of the stable sort unchanged, scores never increasing, and nothing left out
      scores above anything kept. */
  lemma AgentPipelineSpec(candidates: seq<Strategist.Match>, scored: seq<PublisherScore>)
    ensures candidates == [] ==> AgentPipeline(candidates, scored) == Ok([])
    ensures candidates != [] && AgentPipeline(candidates, scored).Ok? ==>
              var r := AgentPipeline(candidates, scored).value;
              var sorted := SortDesc(scored, ScoreOf);
              && r == Take(sorted, 5)
              && |r| == (if |scored| < 5 then |scored| else 5)
              && SortedDesc(r, ScoreOf)
              && (forall i, j :: 0 <= i < |r| <= j < |sorted| ==> r[i].score >= sorted[j].score)
  {
    TopK(scored, ScoreOf, 5);
  }

  /** A lookup can only fail on a name key: with metadata on every match, the script
      fails exactly when some top result's first match lacks a publisher name. */
  lemma {:induction false} DisplayNamesFail(candidates: seq<Strategist.Match>, top: seq<PublisherScore>)
    requires Strategist.AllHaveMetadata(candidates)
    ensures DisplayNames(candidates, top).Err? <==>
              exists i :: 0 <= i < |top| && DisplayName(candidates, top[i].publisherId).Err?
    ensures DisplayNames(candidates, top).Err? ==> DisplayNames(candidates, top).error == NameKeyError
    ensures DisplayNames(candidates, top).Ok? ==> |DisplayNames(candidates, top).value| == |top|
  {
    if top != [] {
      DisplayNamesFail(candidates, top[1..]);
      DisplayNameMetadata(candidates, top[0].publisherId);
      if DisplayName(candidates, top[0].publisherId).Ok? {
        if exists i :: 0 <= i < |top| && DisplayName(candidates, top[i].publisherId).Err? {
          var i :| 0 <= i < |top| && DisplayName(candidates, top[i].publisherId).Err?;
          assert top[1..][i - 1] == top[i];
        }
        if exists i :: 0 <= i < |top[1..]| && DisplayName(candidates, top[1..][i].publisherId).Err? {
          var i :| 0 <= i < |top[1..]| && DisplayName(candidates, top[1..][i].publisherId).Err?;
          assert top[1..][i] == top[i + 1];
        }
      }
    }
  }

  /** With metadata on every match, a failed lookup is the missing name key. */
  lemma {:induction false} DisplayNameMetadata(candidates: seq<Strategist.Match>, id: string)
    requires Strategist.AllHaveMetadata(candidates)
    ensures DisplayName(candidates, id).Err? ==> DisplayName(candidates, id).error == NameKeyError
  {
    if candidates != [] && candidates[0].id != id {
      assert Strategist.AllHaveMetadata(candidates[1..]) by {
        forall i | 0 <= i < |candidates[1..]| ensures candidates[1..][i].metadata.Some? {
          assert candidates[1..][i] == candidates[i + 1];
        }
      }
      DisplayNameMetadata(candidates[1..], id);
    }
  }
}

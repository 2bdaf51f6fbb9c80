/** The Slushpilot demo graph (Supervisor.py): a supervisor whose routing decision
    comes from a model, a strategist worker that runs the stand-alone strategist
    script, and a mock pitch writer. The model's decision and the strategist's search
    results of each step are inputs. */
module Slushpilot {
  import opened Wrappers
  import StrategistAgent
  import Strategist

  /** `state["manuscript"]`: the keys of `ManuscriptProfile`, each present or not. */
  datatype ManuscriptData = ManuscriptData(
    title: Option<string>,
    genre: Option<string>,
    wordCount: Option<int>,
    blurb: Option<string>,
    comparativeTitles: Option<seq<string>>,
    targetAudience: Option<string>)

  /** `ManuscriptProfile`: six required fields. */
  datatype ManuscriptProfile = ManuscriptProfile(
    title: string,
    genre: string,
    wordCount: int,
    blurb: string,
    comparativeTitles: seq<string>,
    targetAudience: string)

  /** `SlushpilotState`. The publishers are the dumped score records. */
  datatype State = State(
    manuscript: ManuscriptData,
    publishers: seq<StrategistAgent.PublisherScore>,
    emailsDrafted: bool,
    draftedEmails: seq<string>,
    nextAction: string)

  const ProfileValidationError: string := "validation error for ManuscriptProfile"

  /** `ManuscriptProfile(**state["manuscript"])`. */
  function ToProfile(m: ManuscriptData): (r: Result<ManuscriptProfile>)
    ensures r.Ok? <==> m.title.Some? && m.genre.Some? && m.wordCount.Some? && m.blurb.Some?
                       && m.comparativeTitles.Some? && m.targetAudience.Some?
    ensures r.Ok? ==> r.value.title == m.title.value && r.value.wordCount == m.wordCount.value
                      && r.value.comparativeTitles == m.comparativeTitles.value
    ensures r.Err? ==> r.error == ProfileValidationError
  {
    if m.title.Some? && m.genre.Some? && m.wordCount.Some? && m.blurb.Some?
       && m.comparativeTitles.Some? && m.targetAudience.Some?
    then Ok(ManuscriptProfile(m.title.value, m.genre.value, m.wordCount.value, m.blurb.value,
                              m.comparativeTitles.value, m.targetAudience.value))
    else Err(ProfileValidationError)
  }

  // ---------------------------------------------------------------------------
  // Routing
  // ---------------------------------------------------------------------------

  datatype Node = SupervisorNode | StrategistWorker | PitchWriterWorker

  datatype Target = ToNode(node: Node) | ToEnd

  /** `route_from_supervisor`. */
  function RouteFromSupervisor(decision: string): Target {
    if decision == "Strategist" then ToNode(StrategistWorker)
    else if decision == "PitchWriter" then ToNode(PitchWriterWorker)
    else ToEnd
  }

  /** Only the two worker names route to a worker; any other decision, "FINISH" and the
      empty initial value included, ends the run; the supervisor is never routed back
      to itself. */
  lemma RouteTable(decision: string)
    ensures RouteFromSupervisor(decision) == ToNode(StrategistWorker) <==> decision == "Strategist"
    ensures RouteFromSupervisor(decision) == ToNode(PitchWriterWorker) <==> decision == "PitchWriter"
    ensures RouteFromSupervisor(decision) == ToEnd <==> decision != "Strategist" && decision != "PitchWriter"
    ensures RouteFromSupervisor(decision) != ToNode(SupervisorNode)
  {
  }

  /** The fixed edges: both workers hand back to the supervisor. */
  function WorkerEdge(n: Node): Node {
    SupervisorNode
  }

  // ---------------------------------------------------------------------------
  // Workers
  // ---------------------------------------------------------------------------

  /** The mock email of one publisher. */
  function MockEmail(p: StrategistAgent.PublisherScore): string {
    "Drafted email for " + p.publisherId
  }

  /** The keys `pitch_writer_node` returns. */
  datatype PitchUpdate = PitchUpdate(emailsDrafted: bool, draftedEmails: seq<string>)

  /** `pitch_writer_node`. */
  function PitchWriter(s: State): (u: PitchUpdate)
    ensures u.emailsDrafted
    ensures |u.draftedEmails| == |s.publishers|
    ensures forall i :: 0 <= i < |s.publishers| ==> u.draftedEmails[i] == MockEmail(s.publishers[i])
  {
    PitchUpdate(true, seq(|s.publishers|, i requires 0 <= i < |s.publishers| => MockEmail(s.publishers[i])))
  }

  /** Applies the pitch writer's keys: everything else is left as it was. */
  function ApplyPitch(s: State, u: PitchUpdate): State {
    s.(emailsDrafted := u.emailsDrafted, draftedEmails := u.draftedEmails)
  }

  /** One email per publisher, in order, each naming the publisher's id; the manuscript,
      the publishers and the routing decision are untouched. */
  lemma PitchWriterSpec(s: State)
    ensures var t := ApplyPitch(s, PitchWriter(s));
            && t.emailsDrafted
            && |t.draftedEmails| == |t.publishers|
            && (forall i :: 0 <= i < |t.publishers| ==>
                  t.draftedEmails[i] == "Drafted email for " + s.publishers[i].publisherId)
            && t.manuscript == s.manuscript && t.publishers == s.publishers && t.nextAction == s.nextAction
  {
  }

  /** `strategist_node`: the profile, then the script's pipeline on the retrieved
      matches and the model's reranking; its results replace the publishers. */
  function StrategistStep(s: State, candidates: seq<Strategist.Match>, scored: seq<StrategistAgent.PublisherScore>)
    : Result<State>
  {
    match ToProfile(s.manuscript)
    case Err(e) => Err(e)
    case Ok(_) =>
      match StrategistAgent.AgentPipeline(candidates, scored)
      case Err(e) => Err(e)
      case Ok(top) => Ok(s.(publishers := top))
  }

  // ---------------------------------------------------------------------------
  // Running the graph
  // ---------------------------------------------------------------------------

  /** What one step is given: the supervisor model's decision and the strategist's
      matches and reranking. */
  datatype Oracle = Oracle(
    decision: string,
    candidates: seq<Strategist.Match>,
    scored: seq<StrategistAgent.PublisherScore>)

  datatype Config = At(node: Node, state: State) | Done(state: State) | Failed(error: string)

  /** One node; `START` leads to the supervisor. */
  function Step(c: Config, o: Oracle): Config {
    match c
    case Done(_) => c
    case Failed(_) => c
    case At(n, s) =>
      match n
      case SupervisorNode =>
        var t := s.(nextAction := o.decision);
        (match RouteFromSupervisor(t.nextAction)
         case ToNode(m) => At(m, t)
         case ToEnd => Done(t))
      case StrategistWorker =>
        (match StrategistStep(s, o.candidates, o.scored)
         case Err(e) => Failed(e)
         case Ok(t) => At(WorkerEdge(n), t))
      case PitchWriterWorker => At(WorkerEdge(n), ApplyPitch(s, PitchWriter(s)))
  }

  function Run(c: Config, oracles: seq<Oracle>): Config
    decreases |oracles|
  {
    if oracles == [] then c else Run(Step(c, oracles[0]), oracles[1..])
  }

  /** After any worker the next node is the supervisor. */
  lemma WorkersReturn(s: State, n: Node, o: Oracle)
    requires n != SupervisorNode
    ensures Step(At(n, s), o).At? ==> Step(At(n, s), o).node == SupervisorNode
  {
  }

  /** Following the rules the prompt states (strategist while there are no publishers,
      then the pitch writer, then finish), a run from a complete manuscript with matches
      and a non-empty reranking that names its publishers ends after five steps with one
      email per publisher found. */
  lemma FollowingTheRules(s: State, candidates: seq<Strategist.Match>, scored: seq<StrategistAgent.PublisherScore>)
    requires ToProfile(s.manuscript).Ok? && s.publishers == [] && !s.emailsDrafted
    requires StrategistAgent.AgentPipeline(candidates, scored).Ok?
    requires StrategistAgent.AgentPipeline(candidates, scored).value != []
    ensures var os := [Oracle("Strategist", candidates, scored), Oracle("", candidates, scored),
                       Oracle("PitchWriter", candidates, scored), Oracle("", candidates, scored),
                       Oracle("FINISH", candidates, scored)];
            var r := Run(At(SupervisorNode, s), os);
            && r.Done?
            && r.state.emailsDrafted
            && r.state.publishers == StrategistAgent.AgentPipeline(candidates, scored).value
            && |r.state.draftedEmails| == |r.state.publishers| > 0
  {
    var os := [Oracle("Strategist", candidates, scored), Oracle("", candidates, scored),
               Oracle("PitchWriter", candidates, scored), Oracle("", candidates, scored),
               Oracle("FINISH", candidates, scored)];
    var c1 := Step(At(SupervisorNode, s), os[0]);
    assert c1.At? && c1.node == StrategistWorker;
    var c2 := Step(c1, os[1]);
    assert c2.At? && c2.node == SupervisorNode;
    var c3 := Step(c2, os[2]);
    assert c3.At? && c3.node == PitchWriterWorker;
    var c4 := Step(c3, os[3]);
    var c5 := Step(c4, os[4]);
    assert c5.Done?;
    RunCons(At(SupervisorNode, s), os[0], os[1..]);
    RunCons(c1, os[1], os[2..]);
    RunCons(c2, os[2], os[3..]);
    RunCons(c3, os[3], os[4..]);
    RunCons(c4, os[4], []);
  }

  /** Running one more step first. */
  lemma RunCons(c: Config, o: Oracle, rest: seq<Oracle>)
    ensures Run(c, [o] + rest) == Run(Step(c, o), rest)
  {
    assert ([o] + rest)[1..] == rest;
  }

  // ---------------------------------------------------------------------------
  // The demo run
  // ---------------------------------------------------------------------------

  /** The manuscript of the script's demo state, as written: it has no "title". */
  const DemoManuscript: ManuscriptData := ManuscriptData(
    None,
    Some("Sci-Fi Thriller"),
    Some(85000),
    Some("In a future where memories can be extracted and sold..."),
    Some(["Dark Matter by Blake Crouch"]),
    Some("Adults who enjoy dystopian espionage."))

  function DemoState(m: ManuscriptData): State {
    State(m, [], false, [], "")
  }

  /** Routed to the strategist, as the prompt's first rule asks for empty publishers,
      the demo run stops with a validation error, whatever the search returns. */
  lemma DemoStrategistFails(candidates: seq<Strategist.Match>, scored: seq<StrategistAgent.PublisherScore>)
    ensures var c := Step(At(SupervisorNode, DemoState(DemoManuscript)), Oracle("Strategist", candidates, scored));
            Step(c, Oracle("Strategist", candidates, scored)) == Failed(ProfileValidationError)
  {
  }

  /** The demo manuscript with a title. */
  function DemoManuscriptWithTitle(title: string): ManuscriptData {
    DemoManuscript.(title := Some(title))
  }

  /** With a title the demo manuscript builds its profile and the strategist step runs
      the pipeline: with matches that all carry metadata it no longer fails on
      validation and returns to the supervisor with the pipeline's publishers. */
  lemma DemoWithTitleRuns(title: string, candidates: seq<Strategist.Match>, scored: seq<StrategistAgent.PublisherScore>)
    requires StrategistAgent.AgentPipeline(candidates, scored).Ok?
    ensures ToProfile(DemoManuscriptWithTitle(title)).Ok?
    ensures var o := Oracle("Strategist", candidates, scored);
            var c := Step(At(SupervisorNode, DemoState(DemoManuscriptWithTitle(title))), o);
            Step(c, o) == At(SupervisorNode, DemoState(DemoManuscriptWithTitle(title))
                                               .(nextAction := "Strategist",
                                                 publishers := StrategistAgent.AgentPipeline(candidates, scored).value))
  {
  }
}

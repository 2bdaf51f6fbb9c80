/** The query-letter graph (app/graphs/query_letter_graph.py): a supervisor that checks
    the configuration, routes a pending user message to intake, asks for missing fields
    through clarify, and otherwise runs the strategist and then the composer, each
    worker handing back to the supervisor. The state is a partial dictionary; a key that
    is absent reads as its empty value here (`""`, an all-`None` draft, `[]`, `None`).
    The configuration is fixed for a run; the model calls of each step are inputs. */
module QueryLetterGraph {
  import opened Wrappers
  import opened Text
  import opened ComposerSchema
  import opened StrategistSchema
  import Strategist
  import Composer
  import Clarify

  // ---------------------------------------------------------------------------
  // State
  // ---------------------------------------------------------------------------

  /** `strategist_data`: the fields of `StrategistDraft`, each absent or set. */
  datatype StrategistData = StrategistData(
    title: Option<string>,
    genre: Option<string>,
    wordCount: Option<int>,
    blurb: Option<string>,
    comparativeTitles: Option<seq<string>>,
    targetAudience: Option<string>)

  /** `composer_data`: the fields of `ComposerDraft`, each absent or set. */
  datatype ComposerData = ComposerData(
    title: Option<string>,
    wordCount: Option<int>,
    genre: Option<string>,
    summary: Option<string>,
    authorName: Option<string>,
    detailSummary: Option<string>,
    authorBio: Option<string>,
    personalizationNotes: Option<string>)

  const NoStrategistData: StrategistData := StrategistData(None, None, None, None, None, None)
  const NoComposerData: ComposerData := ComposerData(None, None, None, None, None, None, None, None)

  /** `QueryLetterState`. */
  datatype State = State(
    userMessage: string,
    assistantMessage: string,
    strategistData: StrategistData,
    composerData: ComposerData,
    strategistInput: Option<StrategistManuscript>,
    composerInput: Option<Manuscript>,
    publishers: seq<Publisher>,
    letters: Option<ComposerResponse>,
    missingFields: seq<string>,
    errors: seq<string>,
    nextStep: Option<StepName>)

  /** The values the nodes write to `next_step`. */
  datatype StepName = GoIntake | GoClarify | GoStrategist | GoComposer | GoEnd | GoSupervisor

  function StepKey(n: StepName): string {
    match n
    case GoIntake => "intake"
    case GoClarify => "clarify"
    case GoStrategist => "strategist"
    case GoComposer => "composer"
    case GoEnd => "end"
    case GoSupervisor => "supervisor"
  }

  /** The dictionary a node returns: the keys it sets. */
  datatype Update = Update(
    userMessage: Option<string>,
    assistantMessage: Option<string>,
    strategistData: Option<StrategistData>,
    composerData: Option<ComposerData>,
    strategistInput: Option<StrategistManuscript>,
    composerInput: Option<Manuscript>,
    publishers: Option<seq<Publisher>>,
    letters: Option<Option<ComposerResponse>>,
    missingFields: Option<seq<string>>,
    errors: Option<seq<string>>,
    nextStep: Option<StepName>)

  const NoUpdate: Update := Update(None, None, None, None, None, None, None, None, None, None, None)

  /** The graph writes every returned key over the state and keeps the others. */
  function Merge(s: State, u: Update): State {
    State(
      u.userMessage.GetOr(s.userMessage),
      u.assistantMessage.GetOr(s.assistantMessage),
      u.strategistData.GetOr(s.strategistData),
      u.composerData.GetOr(s.composerData),
      if u.strategistInput.Some? then u.strategistInput else s.strategistInput,
      if u.composerInput.Some? then u.composerInput else s.composerInput,
      u.publishers.GetOr(s.publishers),
      u.letters.GetOr(s.letters),
      u.missingFields.GetOr(s.missingFields),
      u.errors.GetOr(s.errors),
      if u.nextStep.Some? then u.nextStep else s.nextStep)
  }

  // ---------------------------------------------------------------------------
  // Configuration
  // ---------------------------------------------------------------------------

  /** The settings the graph reads: both API keys and whether the BM25 weights file
      exists at its path. */
  datatype Env = Env(openaiKey: bool, pineconeKey: bool, bm25Exists: bool, bm25Path: string)

  const MissingOpenAiKey: string := "Missing OPENAI_API_KEY"
  const MissingPineconeKey: string := "Missing PINECONE_API_KEY"

  function MissingBm25(path: string): string {
    "Missing BM25 weights: " + path
  }

  /** `_strategist_ready`: every missing setting, in the order checked. */
  function Readiness(env: Env): (r: seq<string>)
    ensures r == [] <==> env.openaiKey && env.pineconeKey && env.bm25Exists
    ensures !env.openaiKey ==> r[0] == MissingOpenAiKey
    ensures env.openaiKey && !env.pineconeKey ==> r[0] == MissingPineconeKey
    ensures env.openaiKey && env.pineconeKey && !env.bm25Exists ==> r == [MissingBm25(env.bm25Path)]
  {
    (if env.openaiKey then [] else [MissingOpenAiKey])
    + (if env.pineconeKey then [] else [MissingPineconeKey])
    + (if env.bm25Exists then [] else [MissingBm25(env.bm25Path)])
  }

  /** `create_strategist_service`: raises on the first missing setting. */
  function CreateService(env: Env): Result<()> {
    if !env.openaiKey then Err(MissingOpenAiKey)
    else if !env.pineconeKey then Err(MissingPineconeKey)
    else if !env.bm25Exists then Err(MissingBm25(env.bm25Path))
    else Ok(())
  }

  /** The supervisor's readiness check and the service constructor test the same
      settings: the service fails exactly when the check reports something, and with
      the first message the check reports. */
  lemma CreateServiceAgrees(env: Env)
    ensures CreateService(env).Err? <==> Readiness(env) != []
    ensures CreateService(env).Err? ==> CreateService(env).error == Readiness(env)[0]
  {
  }

  // ---------------------------------------------------------------------------
  // Validators
  // ---------------------------------------------------------------------------

  /** The field names the validators report. */
  datatype Field =
    | StrategistTitle | StrategistGenre | StrategistWordCount | StrategistBlurb
    | StrategistComparativeTitles | StrategistTargetAudience
    | ComposerTitle | ComposerWordCount | ComposerGenre | ComposerSummary | ComposerAuthorName

  /** A field's name in `missing_fields`. */
  function Key(f: Field): string {
    match f
    case StrategistTitle => "strategist.title"
    case StrategistGenre => "strategist.genre"
    case StrategistWordCount => "strategist.word_count"
    case StrategistBlurb => "strategist.blurb"
    case StrategistComparativeTitles => "strategist.comparative_titles"
    case StrategistTargetAudience => "strategist.target_audience"
    case ComposerTitle => "composer.title"
    case ComposerWordCount => "composer.word_count"
    case ComposerGenre => "composer.genre"
    case ComposerSummary => "composer.summary"
    case ComposerAuthorName => "composer.author_name"
  }

  /** The names of a list of fields, in order. */
  function Keys(fields: seq<Field>): (r: seq<string>)
    ensures |r| == |fields|
    ensures forall i :: 0 <= i < |fields| ==> r[i] == Key(fields[i])
  {
    seq(|fields|, i requires 0 <= i < |fields| => Key(fields[i]))
  }

  const StrategistFields: seq<Field> := [
    StrategistTitle, StrategistGenre, StrategistWordCount,
    StrategistBlurb, StrategistComparativeTitles, StrategistTargetAudience]

  const ComposerFields: seq<Field> := [
    ComposerTitle, ComposerWordCount, ComposerGenre,
    ComposerSummary, ComposerAuthorName]

  /** `(data.get(key) or "").strip()` is empty. */
  predicate BlankText(v: Option<string>) {
    Strip(v.GetOr("")) == ""
  }

  /** `(data.get("word_count") or 0) <= 0`. */
  predicate NoWordCount(v: Option<int>) {
    v.GetOr(0) <= 0
  }

  /** `[name]` when the check fails; this is one `missing.append`. */
  function Flag(failed: bool, name: Field): (r: seq<Field>)
    ensures forall x :: x in r <==> failed && x == name
    ensures |r| == if failed then 1 else 0
  {
    if failed then [name] else []
  }

  /** The missing strategist fields: each check in turn, in the fixed order. */
  function StrategistMissing(d: StrategistData): seq<Field> {
    Flag(BlankText(d.title), StrategistTitle)
    + Flag(BlankText(d.genre), StrategistGenre)
    + Flag(NoWordCount(d.wordCount), StrategistWordCount)
    + Flag(BlankText(d.blurb), StrategistBlurb)
    + Flag(d.comparativeTitles.GetOr([]) == [], StrategistComparativeTitles)
    + Flag(BlankText(d.targetAudience), StrategistTargetAudience)
  }

  /** The missing composer fields: each check in turn, in the fixed order. */
  function ComposerMissing(d: ComposerData): seq<Field> {
    Flag(BlankText(d.title), ComposerTitle)
    + Flag(NoWordCount(d.wordCount), ComposerWordCount)
    + Flag(BlankText(d.genre), ComposerGenre)
    + Flag(BlankText(d.summary), ComposerSummary)
    + Flag(BlankText(d.authorName), ComposerAuthorName)
  }

  /** Strategist data the validator passes. */
  predicate StrategistComplete(d: StrategistData) {
    !BlankText(d.title) && !BlankText(d.genre) && !NoWordCount(d.wordCount) && !BlankText(d.blurb)
    && d.comparativeTitles.GetOr([]) != [] && !BlankText(d.targetAudience)
  }

  /** Composer data the validator passes. */
  predicate ComposerComplete(d: ComposerData) {
    !BlankText(d.title) && !NoWordCount(d.wordCount) && !BlankText(d.genre) && !BlankText(d.summary)
    && !BlankText(d.authorName)
  }

  /** Nothing is missing exactly when every check passes. */
  lemma MissingEmptyIff(sd: StrategistData, cd: ComposerData)
    ensures StrategistMissing(sd) == [] <==> StrategistComplete(sd)
    ensures ComposerMissing(cd) == [] <==> ComposerComplete(cd)
  {
    assert |StrategistMissing(sd)| == 0 <==> StrategistComplete(sd);
    assert |ComposerMissing(cd)| == 0 <==> ComposerComplete(cd);
  }

  /** `_missing_strategist_fields`. */
  method MissingStrategistFields(d: StrategistData) returns (missing: seq<Field>)
    ensures missing == StrategistMissing(d)
  {
    if d == NoStrategistData {
      EmptyStrategistShortcut();
      return StrategistFields;
    }
    missing := [];
    if BlankText(d.title) {
      missing := missing + [StrategistTitle];
    }
    assert missing == Flag(BlankText(d.title), StrategistTitle);
    if BlankText(d.genre) {
      missing := missing + [StrategistGenre];
    }
    assert missing == Flag(BlankText(d.title), StrategistTitle) + Flag(BlankText(d.genre), StrategistGenre);
    if NoWordCount(d.wordCount) {
      missing := missing + [StrategistWordCount];
    }
    assert missing == Flag(BlankText(d.title), StrategistTitle) + Flag(BlankText(d.genre), StrategistGenre) + Flag(NoWordCount(d.wordCount), StrategistWordCount);
    if BlankText(d.blurb) {
      missing := missing + [StrategistBlurb];
    }
    assert missing == Flag(BlankText(d.title), StrategistTitle) + Flag(BlankText(d.genre), StrategistGenre) + Flag(NoWordCount(d.wordCount), StrategistWordCount) + Flag(BlankText(d.blurb), StrategistBlurb);
    if d.comparativeTitles.GetOr([]) == [] {
      missing := missing + [StrategistComparativeTitles];
    }
    assert missing == Flag(BlankText(d.title), StrategistTitle) + Flag(BlankText(d.genre), StrategistGenre) + Flag(NoWordCount(d.wordCount), StrategistWordCount) + Flag(BlankText(d.blurb), StrategistBlurb) + Flag(d.comparativeTitles.GetOr([]) == [], StrategistComparativeTitles);
    if BlankText(d.targetAudience) {
      missing := missing + [StrategistTargetAudience];
    }
  }

  /** `_missing_composer_fields`. */
  method MissingComposerFields(d: ComposerData) returns (missing: seq<Field>)
    ensures missing == ComposerMissing(d)
  {
    if d == NoComposerData {
      EmptyComposerShortcut();
      return ComposerFields;
    }
    missing := [];
    if BlankText(d.title) {
      missing := missing + [ComposerTitle];
    }
    assert missing == Flag(BlankText(d.title), ComposerTitle);
    if NoWordCount(d.wordCount) {
      missing := missing + [ComposerWordCount];
    }
    assert missing == Flag(BlankText(d.title), ComposerTitle) + Flag(NoWordCount(d.wordCount), ComposerWordCount);
    if BlankText(d.genre) {
      missing := missing + [ComposerGenre];
    }
    assert missing == Flag(BlankText(d.title), ComposerTitle) + Flag(NoWordCount(d.wordCount), ComposerWordCount) + Flag(BlankText(d.genre), ComposerGenre);
    if BlankText(d.summary) {
      missing := missing + [ComposerSummary];
    }
    assert missing == Flag(BlankText(d.title), ComposerTitle) + Flag(NoWordCount(d.wordCount), ComposerWordCount) + Flag(BlankText(d.genre), ComposerGenre) + Flag(BlankText(d.summary), ComposerSummary);
    if BlankText(d.authorName) {
      missing := missing + [ComposerAuthorName];
    }
  }

  /** The shortcut for empty data lists what the checks list on it: every field. */
  lemma EmptyStrategistShortcut()
    ensures StrategistMissing(NoStrategistData) == StrategistFields
  {
    BlankNone();
  }

  /** The same for the composer data. */
  lemma EmptyComposerShortcut()
    ensures ComposerMissing(NoComposerData) == ComposerFields
  {
    BlankNone();
  }

  /** The validators' blank test is `IsBlank` on the value or "". */
  lemma BlankTextIff(v: Option<string>)
    ensures BlankText(v) <==> IsBlank(v.GetOr(""))
  {
    StripEmptyIff(v.GetOr(""));
  }

  /** An absent value is blank. */
  lemma BlankNone()
    ensures BlankText(None)
  {
    StripEmptyIff("");
  }

  /** Each check puts exactly its own field on the list. */
  lemma StrategistMissingMembers(d: StrategistData)
    ensures StrategistTitle in StrategistMissing(d) <==> BlankText(d.title)
    ensures StrategistGenre in StrategistMissing(d) <==> BlankText(d.genre)
    ensures StrategistWordCount in StrategistMissing(d) <==> NoWordCount(d.wordCount)
    ensures StrategistBlurb in StrategistMissing(d) <==> BlankText(d.blurb)
    ensures StrategistComparativeTitles in StrategistMissing(d) <==> d.comparativeTitles.GetOr([]) == []
    ensures StrategistTargetAudience in StrategistMissing(d) <==> BlankText(d.targetAudience)
  {
    StrategistMissingFirst(d);
    StrategistMissingSecond(d);
  }

  lemma StrategistMissingFirst(d: StrategistData)
    ensures StrategistTitle in StrategistMissing(d) <==> BlankText(d.title)
    ensures StrategistGenre in StrategistMissing(d) <==> BlankText(d.genre)
    ensures StrategistWordCount in StrategistMissing(d) <==> NoWordCount(d.wordCount)
  {
  }

  lemma StrategistMissingSecond(d: StrategistData)
    ensures StrategistBlurb in StrategistMissing(d) <==> BlankText(d.blurb)
    ensures StrategistComparativeTitles in StrategistMissing(d) <==> d.comparativeTitles.GetOr([]) == []
    ensures StrategistTargetAudience in StrategistMissing(d) <==> BlankText(d.targetAudience)
  {
  }

  /** A field is listed exactly when it is blank after stripping, when the word count
      is absent or not positive, or when the comparable titles are absent or empty. */
  lemma StrategistMissingSpec(d: StrategistData)
    ensures StrategistTitle in StrategistMissing(d) <==> IsBlank(d.title.GetOr(""))
    ensures StrategistGenre in StrategistMissing(d) <==> IsBlank(d.genre.GetOr(""))
    ensures StrategistWordCount in StrategistMissing(d) <==> d.wordCount.None? || d.wordCount.value <= 0
    ensures StrategistBlurb in StrategistMissing(d) <==> IsBlank(d.blurb.GetOr(""))
    ensures StrategistComparativeTitles in StrategistMissing(d)
            <==> d.comparativeTitles.None? || d.comparativeTitles.value == []
    ensures StrategistTargetAudience in StrategistMissing(d) <==> IsBlank(d.targetAudience.GetOr(""))
  {
    StrategistMissingMembers(d);
    BlankTextIff(d.title);
    BlankTextIff(d.genre);
    BlankTextIff(d.blurb);
    BlankTextIff(d.targetAudience);
  }

  /** The same for the composer fields. */
  lemma ComposerMissingSpec(d: ComposerData)
    ensures ComposerTitle in ComposerMissing(d) <==> IsBlank(d.title.GetOr(""))
    ensures ComposerWordCount in ComposerMissing(d) <==> d.wordCount.None? || d.wordCount.value <= 0
    ensures ComposerGenre in ComposerMissing(d) <==> IsBlank(d.genre.GetOr(""))
    ensures ComposerSummary in ComposerMissing(d) <==> IsBlank(d.summary.GetOr(""))
    ensures ComposerAuthorName in ComposerMissing(d) <==> IsBlank(d.authorName.GetOr(""))
  {
    ComposerMissingFirst(d);
    ComposerMissingSecond(d);
  }

  lemma ComposerMissingFirst(d: ComposerData)
    ensures ComposerTitle in ComposerMissing(d) <==> IsBlank(d.title.GetOr(""))
    ensures ComposerWordCount in ComposerMissing(d) <==> d.wordCount.None? || d.wordCount.value <= 0
    ensures ComposerGenre in ComposerMissing(d) <==> IsBlank(d.genre.GetOr(""))
  {
    BlankTextIff(d.title);
    BlankTextIff(d.genre);
  }

  lemma ComposerMissingSecond(d: ComposerData)
    ensures ComposerSummary in ComposerMissing(d) <==> IsBlank(d.summary.GetOr(""))
    ensures ComposerAuthorName in ComposerMissing(d) <==> IsBlank(d.authorName.GetOr(""))
  {
    BlankTextIff(d.summary);
    BlankTextIff(d.authorName);
  }

  /** Every field a validator can report has an entry of its own in the hint table, so
      no clarification falls back to a raw field name. */
  lemma ValidatorFieldsHaveHints(fields: seq<Field>)
    ensures forall i :: 0 <= i < |fields| ==>
              Key(fields[i]) in Clarify.FieldHints && Clarify.Hint(Key(fields[i])) == Clarify.FieldHints[Key(fields[i])]
  {
    forall i | 0 <= i < |fields|
      ensures Key(fields[i]) in Clarify.FieldHints && Clarify.Hint(Key(fields[i])) == Clarify.FieldHints[Key(fields[i])]
    {
      FieldHint(fields[i]);
    }
  }

  /** Each field's name is a key of the hint table. */
  lemma FieldHint(f: Field)
    ensures Key(f) in Clarify.FieldHints
  {
    Clarify.HintTable();
    match f
    case StrategistTitle =>
    case StrategistGenre =>
    case StrategistWordCount =>
    case StrategistBlurb =>
    case StrategistComparativeTitles =>
    case StrategistTargetAudience =>
    case ComposerTitle =>
    case ComposerWordCount =>
    case ComposerGenre =>
    case ComposerSummary =>
    case ComposerAuthorName =>
  }

  // ---------------------------------------------------------------------------
  // Supervisor and routing
  // ---------------------------------------------------------------------------

  /** `_supervisor_node`. `user_message` is checked for truthiness as it is, without stripping. */
  function Supervisor(s: State, readiness: seq<string>): Update {
    if readiness != [] then NoUpdate.(errors := Some(readiness), nextStep := Some(GoEnd))
    else if s.userMessage != "" then NoUpdate.(nextStep := Some(GoIntake))
    else if StrategistMissing(s.strategistData) != [] then
      NoUpdate.(missingFields := Some(Keys(StrategistMissing(s.strategistData))), nextStep := Some(GoClarify))
    else if s.publishers == [] then NoUpdate.(missingFields := Some([]), nextStep := Some(GoStrategist))
    else if ComposerMissing(s.composerData) != [] then
      NoUpdate.(missingFields := Some(Keys(ComposerMissing(s.composerData))), nextStep := Some(GoClarify))
    else if s.letters.None? then NoUpdate.(missingFields := Some([]), nextStep := Some(GoComposer))
    else NoUpdate.(missingFields := Some([]), nextStep := Some(GoEnd))
  }

  /** The supervisor's decisions, in priority order: a configuration problem ends the
      run with the errors; a pending message goes to intake; missing strategist fields
      are asked for; without publishers the strategist runs; missing composer fields are
      asked for; without letters the composer runs; otherwise the run ends. It never
      changes the data, the publishers or the letters. */
  lemma SupervisorPriority(s: State, readiness: seq<string>)
    ensures var u := Supervisor(s, readiness);
            && (readiness != [] ==> u.errors == Some(readiness) && u.nextStep == Some(GoEnd))
            && (readiness == [] && s.userMessage != "" ==> u == NoUpdate.(nextStep := Some(GoIntake)))
            && (readiness == [] && s.userMessage == "" && StrategistMissing(s.strategistData) != [] ==>
                  u.nextStep == Some(GoClarify) && u.missingFields == Some(Keys(StrategistMissing(s.strategistData))))
            && (readiness == [] && s.userMessage == "" && StrategistMissing(s.strategistData) == []
                && s.publishers == [] ==>
                  u.nextStep == Some(GoStrategist))
            && (readiness == [] && s.userMessage == "" && StrategistMissing(s.strategistData) == []
                && s.publishers != [] && ComposerMissing(s.composerData) != [] ==>
                  u.nextStep == Some(GoClarify) && u.missingFields == Some(Keys(ComposerMissing(s.composerData))))
            && (readiness == [] && s.userMessage == "" && StrategistMissing(s.strategistData) == []
                && s.publishers != [] && ComposerMissing(s.composerData) == [] ==>
                  u.nextStep == Some(if s.letters.None? then GoComposer else GoEnd))
            && u.nextStep.Some?
            && u.strategistData.None? && u.composerData.None? && u.publishers.None? && u.letters.None?
            && u.userMessage.None?
  {
  }

  datatype Node = SupervisorNode | IntakeNode | StrategistNode | ComposerNode | ClarifyNode

  /** Where an edge leads: a node, the end, or a name the graph does not map. */
  datatype Target = ToNode(node: Node) | ToEnd | Unmapped(name: string)

  /** `_route_from_supervisor`: `next_step`, "end" when absent. */
  function Route(s: State): (r: StepName)
    ensures s.nextStep.None? ==> r == GoEnd
    ensures s.nextStep.Some? ==> r == s.nextStep.value
  {
    s.nextStep.GetOr(GoEnd)
  }

  /** The supervisor's conditional edges. */
  function RouteTarget(name: StepName): Target {
    match name
    case GoIntake => ToNode(IntakeNode)
    case GoClarify => ToNode(ClarifyNode)
    case GoStrategist => ToNode(StrategistNode)
    case GoComposer => ToNode(ComposerNode)
    case GoEnd => ToEnd
    case GoSupervisor => Unmapped(StepKey(name))
  }

  /** The fixed edges: every worker returns to the supervisor, clarify ends the run. */
  function FixedEdge(n: Node): Target {
    match n
    case IntakeNode => ToNode(SupervisorNode)
    case StrategistNode => ToNode(SupervisorNode)
    case ComposerNode => ToNode(SupervisorNode)
    case ClarifyNode => ToEnd
    case SupervisorNode => Unmapped("supervisor")
  }

  /** Every decision of the supervisor is a mapped edge, so a run never stops on an
      unknown route; and the edge table sends every worker but clarify back. */
  lemma RoutesMapped(s: State, readiness: seq<string>)
    ensures !RouteTarget(Route(Merge(s, Supervisor(s, readiness)))).Unmapped?
    ensures RouteTarget(Route(Merge(s, Supervisor(s, readiness)))) != ToNode(SupervisorNode)
    ensures FixedEdge(IntakeNode) == FixedEdge(StrategistNode) == FixedEdge(ComposerNode) == ToNode(SupervisorNode)
    ensures FixedEdge(ClarifyNode) == ToEnd
  {
  }

  // ---------------------------------------------------------------------------
  // Intake
  // ---------------------------------------------------------------------------

  /** `IntakeResult`: the drafts the model extracted, either possibly absent. */
  datatype IntakeResult = IntakeResult(strategist: Option<StrategistData>, composer: Option<ComposerData>)

  /** `dict(prior).update(draft.model_dump(exclude_none=True))`. */
  function OverlayStrategist(prior: StrategistData, draft: StrategistData): StrategistData {
    StrategistData(
      if draft.title.Some? then draft.title else prior.title,
      if draft.genre.Some? then draft.genre else prior.genre,
      if draft.wordCount.Some? then draft.wordCount else prior.wordCount,
      if draft.blurb.Some? then draft.blurb else prior.blurb,
      if draft.comparativeTitles.Some? then draft.comparativeTitles else prior.comparativeTitles,
      if draft.targetAudience.Some? then draft.targetAudience else prior.targetAudience)
  }

  /** The same for the composer draft. */
  function OverlayComposer(prior: ComposerData, draft: ComposerData): ComposerData {
    ComposerData(
      if draft.title.Some? then draft.title else prior.title,
      if draft.wordCount.Some? then draft.wordCount else prior.wordCount,
      if draft.genre.Some? then draft.genre else prior.genre,
      if draft.summary.Some? then draft.summary else prior.summary,
      if draft.authorName.Some? then draft.authorName else prior.authorName,
      if draft.detailSummary.Some? then draft.detailSummary else prior.detailSummary,
      if draft.authorBio.Some? then draft.authorBio else prior.authorBio,
      if draft.personalizationNotes.Some? then draft.personalizationNotes else prior.personalizationNotes)
  }

  /** The copy-and-update of the intake node, key by key. */
  method MergeStrategistData(prior: StrategistData, draft: StrategistData) returns (merged: StrategistData)
    ensures merged == OverlayStrategist(prior, draft)
  {
    merged := prior;
    if draft.title.Some? {
      merged := merged.(title := draft.title);
    }
    if draft.genre.Some? {
      merged := merged.(genre := draft.genre);
    }
    if draft.wordCount.Some? {
      merged := merged.(wordCount := draft.wordCount);
    }
    if draft.blurb.Some? {
      merged := merged.(blurb := draft.blurb);
    }
    if draft.comparativeTitles.Some? {
      merged := merged.(comparativeTitles := draft.comparativeTitles);
    }
    if draft.targetAudience.Some? {
      merged := merged.(targetAudience := draft.targetAudience);
    }
  }

  /** The copy-and-update of the composer data, key by key. */
  method MergeComposerData(prior: ComposerData, draft: ComposerData) returns (merged: ComposerData)
    ensures merged == OverlayComposer(prior, draft)
  {
    merged := prior;
    if draft.title.Some? {
      merged := merged.(title := draft.title);
    }
    if draft.wordCount.Some? {
      merged := merged.(wordCount := draft.wordCount);
    }
    if draft.genre.Some? {
      merged := merged.(genre := draft.genre);
    }
    if draft.summary.Some? {
      merged := merged.(summary := draft.summary);
    }
    if draft.authorName.Some? {
      merged := merged.(authorName := draft.authorName);
    }
    if draft.detailSummary.Some? {
      merged := merged.(detailSummary := draft.detailSummary);
    }
    if draft.authorBio.Some? {
      merged := merged.(authorBio := draft.authorBio);
    }
    if draft.personalizationNotes.Some? {
      merged := merged.(personalizationNotes := draft.personalizationNotes);
    }
  }

  /** One key of `dict.update` with the non-None draft values: a value in the draft
      replaces the old one, a key the draft leaves out keeps its value, and so a key
      present before is present after. */
  predicate Fills<T(==)>(prior: Option<T>, draft: Option<T>, merged: Option<T>) {
    && (draft.Some? ==> merged == draft)
    && (draft.None? ==> merged == prior)
    && (prior.Some? ==> merged.Some?)
  }

  /** An extracted value can only fill a strategist field, never clear one, for each of
      the six keys; merging a draft twice is merging it once, and an empty draft changes
      nothing. */
  lemma OverlayKeeps(prior: StrategistData, draft: StrategistData)
    ensures var m := OverlayStrategist(prior, draft);
            && Fills(prior.title, draft.title, m.title)
            && Fills(prior.genre, draft.genre, m.genre)
            && Fills(prior.wordCount, draft.wordCount, m.wordCount)
            && Fills(prior.blurb, draft.blurb, m.blurb)
            && Fills(prior.comparativeTitles, draft.comparativeTitles, m.comparativeTitles)
            && Fills(prior.targetAudience, draft.targetAudience, m.targetAudience)
            && OverlayStrategist(m, draft) == m
            && OverlayStrategist(prior, NoStrategistData) == prior
  {
  }

  /** The same for the eight composer keys. */
  lemma OverlayComposerKeeps(prior: ComposerData, draft: ComposerData)
    ensures var m := OverlayComposer(prior, draft);
            && Fills(prior.title, draft.title, m.title)
            && Fills(prior.wordCount, draft.wordCount, m.wordCount)
            && Fills(prior.genre, draft.genre, m.genre)
            && Fills(prior.summary, draft.summary, m.summary)
            && Fills(prior.authorName, draft.authorName, m.authorName)
            && Fills(prior.detailSummary, draft.detailSummary, m.detailSummary)
            && Fills(prior.authorBio, draft.authorBio, m.authorBio)
            && Fills(prior.personalizationNotes, draft.personalizationNotes, m.personalizationNotes)
            && OverlayComposer(m, draft) == m
            && OverlayComposer(prior, NoComposerData) == prior
  {
  }

  /** `parse_intake` raises without a key before calling the model; `parsed` is what
      the model call gives otherwise. */
  function ParseIntake(env: Env, parsed: Result<IntakeResult>): Result<IntakeResult> {
    if !env.openaiKey then Err(MissingOpenAiKey) else parsed
  }

  /** `_intake_node`. */
  function Intake(s: State, env: Env, parsed: Result<IntakeResult>): Result<Update> {
    var message := Strip(s.userMessage);
    if message == "" then Ok(NoUpdate.(userMessage := Some(""), nextStep := Some(GoSupervisor)))
    else match ParseIntake(env, parsed)
      case Err(e) => Err(e)
      case Ok(result) =>
        var sd := if result.strategist.Some? then OverlayStrategist(s.strategistData, result.strategist.value)
                  else s.strategistData;
        var cd := if result.composer.Some? then OverlayComposer(s.composerData, result.composer.value)
                  else s.composerData;
        Ok(NoUpdate.(strategistData := Some(sd), composerData := Some(cd), userMessage := Some(""),
                     missingFields := Some([])))
  }

  /** A blank message only clears itself; otherwise the drafts are merged, the message
      is consumed and the missing fields are cleared, without touching the publishers or
      the letters. Either way the message is gone afterwards, so the next supervisor
      pass does not route to intake again. */
  lemma IntakeSpec(s: State, env: Env, parsed: Result<IntakeResult>, readiness: seq<string>)
    ensures IsBlank(s.userMessage) ==>
              Intake(s, env, parsed) == Ok(NoUpdate.(userMessage := Some(""), nextStep := Some(GoSupervisor)))
    ensures !IsBlank(s.userMessage) && env.openaiKey && parsed.Ok? ==>
              var u := Intake(s, env, parsed).value;
              && u.missingFields == Some([])
              && u.strategistData == Some(if parsed.value.strategist.Some?
                                          then OverlayStrategist(s.strategistData, parsed.value.strategist.value)
                                          else s.strategistData)
              && u.publishers.None? && u.letters.None?
    ensures !IsBlank(s.userMessage) && !env.openaiKey ==> Intake(s, env, parsed) == Err(MissingOpenAiKey)
    ensures Intake(s, env, parsed).Ok? ==>
              var after := Merge(s, Intake(s, env, parsed).value);
              after.userMessage == "" && Supervisor(after, readiness).nextStep != Some(GoIntake)
  {
    StripEmptyIff(s.userMessage);
  }

  // ---------------------------------------------------------------------------
  // Clarify
  // ---------------------------------------------------------------------------

  /** `_clarify_node`: no missing fields give an empty message; otherwise the model's
      clarification. The data, the publishers and the letters are written back as they
      are. */
  function ClarifyStep(s: State, env: Env, reply: Result<Option<string>>): Result<Update> {
    var keep := NoUpdate.(strategistData := Some(s.strategistData), composerData := Some(s.composerData),
                          publishers := Some(s.publishers), letters := Some(s.letters));
    if s.missingFields == [] then Ok(keep.(assistantMessage := Some("")))
    else match Clarify.GenerateClarification(s.missingFields, env.openaiKey, reply)
      case Err(e) => Err(e)
      case Ok(message) => Ok(keep.(assistantMessage := Some(message)))
  }

  /** Clarify changes nothing but the assistant message, which is empty when no field is
      missing; otherwise it fails exactly when the key is missing or the request fails,
      and the message is the stripped reply. */
  lemma ClarifySpec(s: State, env: Env, reply: Result<Option<string>>)
    ensures ClarifyStep(s, env, reply).Ok? ==>
              Merge(s, ClarifyStep(s, env, reply).value)
              == s.(assistantMessage := ClarifyStep(s, env, reply).value.assistantMessage.value)
    ensures s.missingFields == [] ==>
              ClarifyStep(s, env, reply).Ok? && ClarifyStep(s, env, reply).value.assistantMessage == Some("")
    ensures s.missingFields != [] ==> (ClarifyStep(s, env, reply).Err? <==> !env.openaiKey || reply.Err?)
    ensures s.missingFields != [] && env.openaiKey && reply.Err? ==> ClarifyStep(s, env, reply) == Err(reply.error)
    ensures s.missingFields != [] && env.openaiKey && reply.Ok? ==>
              ClarifyStep(s, env, reply).value.assistantMessage == Some(Strip(reply.value.GetOr("")))
  {
  }

  // ---------------------------------------------------------------------------
  // Strategist and composer nodes
  // ---------------------------------------------------------------------------

  /** The validation errors of the two manuscript models. */
  const StrategistValidationError: string := "validation error for StrategistManuscript"
  const ManuscriptValidationError: string := "validation error for Manuscript"

  /** `StrategistManuscript(**strategist_data)`: every field is required. */
  function ToStrategistManuscript(d: StrategistData): Result<StrategistManuscript> {
    if d.title.Some? && d.genre.Some? && d.wordCount.Some? && d.blurb.Some?
       && d.comparativeTitles.Some? && d.targetAudience.Some?
    then Ok(StrategistManuscript(d.title.value, d.genre.value, d.wordCount.value, d.blurb.value,
                                 d.comparativeTitles.value, d.targetAudience.value))
    else Err(StrategistValidationError)
  }

  /** `Manuscript(**composer_data)`: five fields are required, three optional. */
  function ToManuscript(d: ComposerData): Result<Manuscript> {
    if d.title.Some? && d.wordCount.Some? && d.genre.Some? && d.summary.Some? && d.authorName.Some?
    then Ok(Manuscript(d.title.value, d.wordCount.value, d.genre.value, d.summary.value, d.authorBio,
                       d.authorName.value, d.personalizationNotes, d.detailSummary))
    else Err(ManuscriptValidationError)
  }

  /** Data the validator passes always builds the model, with its values; the word
      count is positive and the comparable titles non-empty. */
  lemma ValidatedBuilds(sd: StrategistData, cd: ComposerData)
    ensures StrategistMissing(sd) == [] ==>
              var m := ToStrategistManuscript(sd);
              && m.Ok? && m.value.title == sd.title.value && m.value.wordCount > 0
              && m.value.comparativeTitles != [] && !IsBlank(m.value.targetAudience)
    ensures ComposerMissing(cd) == [] ==>
              var m := ToManuscript(cd);
              && m.Ok? && m.value.wordCount > 0 && !IsBlank(m.value.authorName)
              && m.value.detailSummary == cd.detailSummary
  {
    MissingEmptyIff(sd, cd);
    BlankNone();
    BlankTextIff(sd.targetAudience);
    BlankTextIff(cd.authorName);
  }

  /** The publishers built from the strategist's results: the name, or the id when the
      name is absent or empty, and the comparable titles. */
  function ToPublishers(results: seq<PublisherScore>): (r: seq<Publisher>)
    ensures |r| == |results|
  {
    seq(|results|, i requires 0 <= i < |results| =>
      NewPublisher(if Strategist.Falsy(results[i].publisherName) then results[i].publisherId
                   else results[i].publisherName.value,
                   Some(results[i].comps)))
  }

  /** One publisher per result, in rank order, named by the result's name or else its
      id, with its comparable titles and nothing else set. */
  lemma ToPublishersSpec(results: seq<PublisherScore>, i: nat)
    requires i < |results|
    ensures var p := ToPublishers(results)[i];
            && p.comps == Some(results[i].comps)
            && p.imprints.None? && p.specialCriteria.None?
            && (results[i].publisherName.Some? && results[i].publisherName.value != "" ==>
                  p.name == results[i].publisherName.value)
            && (results[i].publisherName.None? || results[i].publisherName == Some("") ==>
                  p.name == results[i].publisherId)
  {
  }

  /** `_strategist_node`, with the retrieved matches and the model's reranking. */
  function StrategistStep(s: State, env: Env, candidates: seq<Strategist.Match>, scored: seq<PublisherScore>)
    : Result<Update>
  {
    match ToStrategistManuscript(s.strategistData)
    case Err(e) => Err(e)
    case Ok(manuscript) =>
      match CreateService(env)
      case Err(e) => Err(e)
      case Ok(_) =>
        match Strategist.Pipeline(candidates, scored)
        case Err(e) => Err(e)
        case Ok(results) =>
          Ok(NoUpdate.(publishers := Some(ToPublishers(results)), strategistInput := Some(manuscript)))
  }

  /** `_composer_node`, with the few-shot examples and the model's reply. */
  function ComposerStep(s: State, examples: Result<seq<string>>, reply: Result<seq<Composer.BatchEntry>>)
    : Result<Update>
  {
    match ToManuscript(s.composerData)
    case Err(e) => Err(e)
    case Ok(manuscript) =>
      match Composer.Compose(Composer.WithDetailFields, NewRequest(manuscript, s.publishers), examples, reply)
      case Err(e) => Err(e)
      case Ok(letters) => Ok(NoUpdate.(letters := Some(Some(letters)), composerInput := Some(manuscript)))
  }

  // ---------------------------------------------------------------------------
  // Running the graph
  // ---------------------------------------------------------------------------

  /** What the models and the few-shot folder give in one step. */
  datatype Oracle = Oracle(
    intake: Result<IntakeResult>,
    clarification: Result<Option<string>>,
    candidates: seq<Strategist.Match>,
    scored: seq<PublisherScore>,
    examples: Result<seq<string>>,
    reply: Result<seq<Composer.BatchEntry>>)

  /** About to run a node, finished, or stopped by an exception. */
  datatype Config = At(node: Node, state: State) | Done(state: State) | Failed(error: string)

  /** Follows an edge. */
  function Follow(t: Target, s: State): Config {
    match t
    case ToNode(n) => At(n, s)
    case ToEnd => Done(s)
    case Unmapped(name) => Failed("unknown route: " + name)
  }

  /** Applies a node's update and follows its fixed edge. */
  function Continue(n: Node, s: State, u: Result<Update>): Config {
    match u
    case Err(e) => Failed(e)
    case Ok(v) => Follow(FixedEdge(n), Merge(s, v))
  }

  /** One node of the graph. */
  function Step(c: Config, env: Env, o: Oracle): Config {
    match c
    case Done(_) => c
    case Failed(_) => c
    case At(n, s) =>
      match n
      case SupervisorNode =>
        var next := Merge(s, Supervisor(s, Readiness(env)));
        Follow(RouteTarget(Route(next)), next)
      case IntakeNode => Continue(n, s, Intake(s, env, o.intake))
      case ClarifyNode => Continue(n, s, ClarifyStep(s, env, o.clarification))
      case StrategistNode => Continue(n, s, StrategistStep(s, env, o.candidates, o.scored))
      case ComposerNode => Continue(n, s, ComposerStep(s, o.examples, o.reply))
  }

  /** `graph.invoke(state)` for as many steps as there are oracles: the entry point is
      the supervisor. */
  function Run(c: Config, env: Env, oracles: seq<Oracle>): Config
    decreases |oracles|
  {
    if oracles == [] then c else Run(Step(c, env, oracles[0]), env, oracles[1..])
  }

  function Start(s: State): Config {
    At(SupervisorNode, s)
  }

  /** Without its settings the graph stops at once with the readiness errors, before
      any model is called. */
  lemma NotReadyEnds(s: State, env: Env, o: Oracle)
    requires Readiness(env) != []
    ensures Step(Start(s), env, o) == Done(Merge(s, NoUpdate.(errors := Some(Readiness(env)), nextStep := Some(GoEnd))))
  {
  }

  /** The supervisor hands over to a worker only when the settings are all there, so a
      worker never fails on a missing key or weights file: intake fails only when the
      model call does, clarify only when its model call does, and the strategist only in
      the pipeline. */
  lemma WorkersSeeReadySettings(s: State, env: Env, o: Oracle)
    requires Step(Start(s), env, o).At?
    ensures Readiness(env) == []
    ensures var c := Step(Start(s), env, o);
            && (c.node == IntakeNode && Intake(c.state, env, o.intake).Err? ==> o.intake.Err?)
            && (c.node == ClarifyNode && ClarifyStep(c.state, env, o.clarification).Err? ==> o.clarification.Err?)
            && (c.node == StrategistNode && StrategistStep(c.state, env, o.candidates, o.scored).Err? ==>
                  Strategist.Pipeline(o.candidates, o.scored).Err?)
  {
    var t := Merge(s, Supervisor(s, Readiness(env)));
    SupervisorPriority(s, Readiness(env));
    assert Step(Start(s), env, o) == Follow(RouteTarget(Route(t)), t);
    assert Readiness(env) != [] ==> Route(t) == GoEnd;
    var c := Step(Start(s), env, o);
    if c.node == StrategistNode {
      assert Route(t) == GoStrategist;
      assert t.strategistData == s.strategistData;
      StrategistReady(c.state, env, o.candidates, o.scored);
    }
  }

  /** With the settings there and the strategist data complete, the strategist node
      fails only in the pipeline. */
  lemma StrategistReady(s: State, env: Env, candidates: seq<Strategist.Match>, scored: seq<PublisherScore>)
    requires Readiness(env) == [] && StrategistMissing(s.strategistData) == []
    ensures StrategistStep(s, env, candidates, scored).Err? ==> Strategist.Pipeline(candidates, scored).Err?
  {
    ValidatedBuilds(s.strategistData, s.composerData);
  }

  /** The state of a run that can make no progress: the strategist data are complete,
      no message is pending and there are no publishers. */
  predicate StuckBeforeComposer(env: Env, s: State) {
    Readiness(env) == [] && s.userMessage == "" && StrategistMissing(s.strategistData) == [] && s.publishers == []
  }

  /** A strategist that finds no matches returns no publishers, and the supervisor sends
      it straight back to the strategist: with no matches in every step the run never
      ends, however many steps it is given. */
  lemma {:induction false} NoMatchesNeverEnds(env: Env, s: State, first: Node, oracles: seq<Oracle>)
    requires StuckBeforeComposer(env, s)
    requires first == SupervisorNode || first == StrategistNode
    requires forall i :: 0 <= i < |oracles| ==> oracles[i].candidates == []
    ensures Run(At(first, s), env, oracles).At?
    ensures StuckBeforeComposer(env, Run(At(first, s), env, oracles).state)
    decreases |oracles|
  {
    if oracles != [] {
      var next := Step(At(first, s), env, oracles[0]);
      if first == SupervisorNode {
        assert next == At(StrategistNode, Merge(s, Supervisor(s, Readiness(env))));
      } else {
        ValidatedBuilds(s.strategistData, s.composerData);
        assert StrategistStep(s, env, oracles[0].candidates, oracles[0].scored).Ok?;
      }
      assert next.At? && StuckBeforeComposer(env, next.state);
      assert next.node == SupervisorNode || next.node == StrategistNode;
      NoMatchesNeverEnds(env, next.state, next.node, oracles[1..]);
    }
  }

  /** A supervisor pass with the settings there, no message and complete strategist
      data: the data, publishers and letters are kept; without publishers it goes to the
      strategist, and with publishers and complete composer data it goes to the composer
      while there are no letters and ends once there are. */
  lemma SupervisorPass(s: State, env: Env, o: Oracle)
    requires Readiness(env) == [] && s.userMessage == "" && StrategistMissing(s.strategistData) == []
    ensures var c := Step(Start(s), env, o);
            && c.state.strategistData == s.strategistData && c.state.composerData == s.composerData
            && c.state.publishers == s.publishers && c.state.letters == s.letters && c.state.userMessage == ""
            && (s.publishers == [] ==> c.At? && c.node == StrategistNode)
            && (s.publishers != [] && ComposerMissing(s.composerData) == [] && s.letters.None? ==>
                  c.At? && c.node == ComposerNode)
            && (s.publishers != [] && ComposerMissing(s.composerData) == [] && s.letters.Some? ==> c.Done?)
  {
    SupervisorPriority(s, Readiness(env));
  }

  /** The strategist node on complete data and matches with metadata and a non-empty
      reranking: back to the supervisor with publishers, nothing else it reads changed. */
  lemma StrategistPass(s: State, env: Env, o: Oracle)
    requires Readiness(env) == [] && StrategistMissing(s.strategistData) == []
    requires o.candidates != [] && Strategist.AllHaveMetadata(o.candidates) && o.scored != []
    ensures var c := Continue(StrategistNode, s, StrategistStep(s, env, o.candidates, o.scored));
            && c.At? && c.node == SupervisorNode && c.state.publishers != []
            && c.state.strategistData == s.strategistData && c.state.composerData == s.composerData
            && c.state.userMessage == s.userMessage && c.state.letters == s.letters
  {
    ValidatedBuilds(s.strategistData, s.composerData);
    Strategist.PipelineRanking(o.candidates, o.scored);
  }

  /** The composer node on complete data and readable examples: back to the supervisor
      with one letter per publisher, nothing else it reads changed. */
  lemma ComposerPass(s: State, env: Env, o: Oracle)
    requires ComposerMissing(s.composerData) == [] && s.publishers != [] && o.examples.Ok?
    ensures var c := Continue(ComposerNode, s, ComposerStep(s, o.examples, o.reply));
            && c.At? && c.node == SupervisorNode && c.state.letters.Some?
            && |c.state.letters.value.letters| == |s.publishers| && c.state.publishers == s.publishers
            && c.state.strategistData == s.strategistData && c.state.composerData == s.composerData
            && c.state.userMessage == s.userMessage
  {
    ValidatedBuilds(s.strategistData, s.composerData);
    var m := ToManuscript(s.composerData).value;
    var request := NewRequest(m, s.publishers);
    Composer.ComposeShape(Composer.WithDetailFields, request, o.examples, o.reply);
    var r := Composer.Compose(Composer.WithDetailFields, request, o.examples, o.reply);
    assert r.Ok? && |r.value.letters| == |s.publishers|;
    var u := NoUpdate.(letters := Some(Some(r.value)), composerInput := Some(m));
    assert ComposerStep(s, o.examples, o.reply) == Ok(u);
    assert Continue(ComposerNode, s, ComposerStep(s, o.examples, o.reply)) == At(SupervisorNode, Merge(s, u));
  }

  /** With its settings, complete data, matches that all carry metadata, a non-empty
      reranking and the few-shot examples, a run from a state without publishers or
      letters ends after five steps, the strategist and the composer having run once
      each, with one letter per publisher. */
  lemma FiveStepsToLetters(env: Env, s: State, o: Oracle)
    requires Readiness(env) == [] && s.userMessage == ""
    requires StrategistMissing(s.strategistData) == [] && ComposerMissing(s.composerData) == []
    requires s.publishers == [] && s.letters.None?
    requires o.candidates != [] && Strategist.AllHaveMetadata(o.candidates) && o.scored != []
    requires o.examples.Ok?
    ensures var r := Run(Start(s), env, [o, o, o, o, o]);
            && r.Done?
            && r.state.publishers != []
            && r.state.letters.Some?
            && |r.state.letters.value.letters| == |r.state.publishers|
            && r.state.strategistData == s.strategistData && r.state.composerData == s.composerData
  {
    var c1 := Step(Start(s), env, o);
    SupervisorPass(s, env, o);
    var c2 := Step(c1, env, o);
    assert c2 == Continue(StrategistNode, c1.state, StrategistStep(c1.state, env, o.candidates, o.scored));
    StrategistPass(c1.state, env, o);
    var c3 := Step(c2, env, o);
    SupervisorPass(c2.state, env, o);
    var c4 := Step(c3, env, o);
    assert c4 == Continue(ComposerNode, c3.state, ComposerStep(c3.state, o.examples, o.reply));
    ComposerPass(c3.state, env, o);
    var c5 := Step(c4, env, o);
    SupervisorPass(c4.state, env, o);
    RunCons(Start(s), env, o, [o, o, o, o]);
    RunCons(c1, env, o, [o, o, o]);
    RunCons(c2, env, o, [o, o]);
    RunCons(c3, env, o, [o]);
    RunCons(c4, env, o, []);
  }

  /** Running one more step first. */
  lemma RunCons(c: Config, env: Env, o: Oracle, rest: seq<Oracle>)
    ensures Run(c, env, [o] + rest) == Run(Step(c, env, o), env, rest)
  {
    assert ([o] + rest)[1..] == rest;
  }
}

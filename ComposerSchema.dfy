/** The request and response records of the query-letter composer
    (app/schemas/composer.py). Required pydantic fields are plain fields; optional
    ones are `Option`s whose default is `None`. */
module ComposerSchema {
  import opened Wrappers

  /** A manuscript. `detailSummary` is not declared by the source schema although the
      prompt builder reads it; here it is an extra optional input (see the README's
      Findings). */
  datatype Manuscript = Manuscript(
    title: string,
    wordCount: int,
    genre: string,
    summary: string,
    authorBio: Option<string>,
    authorName: string,
    personalizationNotes: Option<string>,
    detailSummary: Option<string>)

  datatype Publisher = Publisher(
    name: string,
    imprints: Option<seq<string>>,
    comps: Option<seq<string>>,
    specialCriteria: Option<string>)

  /** Composer options. `inferDetailSummary` is read by the prompt builder but not
      declared by the source schema; here it is an extra optional input. */
  datatype ComposerOptions = ComposerOptions(
    format: string,
    paraphraseSummary: bool,
    inferDetailSummary: Option<bool>)

  datatype ComposerRequest = ComposerRequest(
    manuscript: Manuscript,
    publishers: seq<Publisher>,
    options: ComposerOptions)

  datatype LetterResult = LetterResult(
    publisher: string,
    letter: string,
    status: string,
    warnings: seq<string>)

  datatype ComposerResponse = ComposerResponse(
    letters: seq<LetterResult>,
    errors: seq<string>)

  /** `ComposerOptions()`. */
  const DefaultOptions: ComposerOptions := ComposerOptions("classic_query_letter", true, None)

  /** `Publisher(name=..., comps=...)`: the other optional fields stay `None`. */
  function NewPublisher(name: string, comps: Option<seq<string>>): (p: Publisher)
    ensures p.name == name && p.comps == comps
    ensures p.imprints == None && p.specialCriteria == None
  {
    Publisher(name, None, comps, None)
  }

  /** `ComposerRequest(manuscript=..., publishers=...)` with the default options. */
  function NewRequest(manuscript: Manuscript, publishers: seq<Publisher>): (r: ComposerRequest)
    ensures r.options == DefaultOptions
    ensures r.options.format == "classic_query_letter" && r.options.paraphraseSummary
  {
    ComposerRequest(manuscript, publishers, DefaultOptions)
  }

  /** `LetterResult(publisher=..., letter=..., warnings=...)`: the status defaults to "ok". */
  function NewLetterResult(publisher: string, letter: string, warnings: seq<string>): (r: LetterResult)
    ensures r.status == "ok"
    ensures r.publisher == publisher && r.letter == letter && r.warnings == warnings
  {
    LetterResult(publisher, letter, "ok", warnings)
  }
}

/** The clarification request (app/agents/clarify.py): each missing field is turned
    into a hint and the hints into the user text sent to the model. Whether the API
    key is configured and the model's reply are inputs. */
module Clarify {
  import opened Wrappers
  import opened Text

  /** `FIELD_HINTS`. */
  const FieldHints: map<string, string> := map[
    "strategist.title" := "the book title",
    "strategist.genre" := "the genre",
    "strategist.word_count" := "the approximate word count",
    "strategist.blurb" := "a short blurb (1\U{2013}3 sentences)",
    "strategist.comparative_titles" := "2\U{2013}3 comparable published titles",
    "strategist.target_audience" := "the target readers (age range/interests)",
    "composer.title" := "the book title",
    "composer.word_count" := "the approximate word count",
    "composer.genre" := "the genre",
    "composer.summary" := "a fuller summary of the story",
    "composer.author_name" := "the author name"]

  const MissingKeyError: string := "Missing OPENAI_API_KEY"
  const Heading: string := "Missing information:"

  /** `FIELD_HINTS.get(field, field)`. */
  function Hint(field: string): (r: string)
    ensures field in FieldHints ==> r == FieldHints[field]
    ensures field !in FieldHints ==> r == field
  {
    if field in FieldHints then FieldHints[field] else field
  }

  /** The "- {hint}" line of every missing field, in order. */
  function HintLines(fields: seq<string>): (r: seq<string>)
    ensures |r| == |fields|
    ensures forall i :: 0 <= i < |fields| ==> r[i] == "- " + Hint(fields[i])
  {
    seq(|fields|, i requires 0 <= i < |fields| => "- " + Hint(fields[i]))
  }

  /** `"Missing information:\n" + "\n".join(...)`. */
  function UserText(fields: seq<string>): string {
    Heading + "\n" + Join("\n", HintLines(fields))
  }

  /** The user text has the heading on its first line and then exactly one hint line
      per field, in order, as long as no hint breaks a line; with no fields it is the
      heading and an empty line. */
  lemma UserTextLines(fields: seq<string>)
    requires forall i :: 0 <= i < |fields| ==> '\n' !in Hint(fields[i])
    ensures fields == [] ==> UserText(fields) == Heading + "\n"
    ensures fields != [] ==> Split(UserText(fields), '\n') == [Heading] + HintLines(fields)
  {
    if fields != [] {
      var lines := [Heading] + HintLines(fields);
      assert lines[1..] == HintLines(fields);
      assert UserText(fields) == Join("\n", lines);
      forall i | 0 <= i < |lines| ensures '\n' !in lines[i] {
        if i > 0 {
          assert lines[i] == "- " + Hint(fields[i - 1]);
        }
      }
      SplitJoin(lines, '\n');
    }
  }

  /** The entries of the table, one by one. */
  lemma HintTable()
    ensures "strategist.title" in FieldHints && FieldHints["strategist.title"] == "the book title"
    ensures "strategist.genre" in FieldHints && FieldHints["strategist.genre"] == "the genre"
    ensures "strategist.word_count" in FieldHints && FieldHints["strategist.word_count"] == "the approximate word count"
    ensures "strategist.blurb" in FieldHints && FieldHints["strategist.blurb"] == "a short blurb (1\U{2013}3 sentences)"
    ensures "strategist.comparative_titles" in FieldHints && FieldHints["strategist.comparative_titles"] == "2\U{2013}3 comparable published titles"
    ensures "strategist.target_audience" in FieldHints && FieldHints["strategist.target_audience"] == "the target readers (age range/interests)"
    ensures "composer.title" in FieldHints && FieldHints["composer.title"] == "the book title"
    ensures "composer.word_count" in FieldHints && FieldHints["composer.word_count"] == "the approximate word count"
    ensures "composer.genre" in FieldHints && FieldHints["composer.genre"] == "the genre"
    ensures "composer.summary" in FieldHints && FieldHints["composer.summary"] == "a fuller summary of the story"
    ensures "composer.author_name" in FieldHints && FieldHints["composer.author_name"] == "the author name"
  {
  }

  /** `generate_clarification`: raises before any request without a key; a failed
      request raises its own error; otherwise the reply stripped, a missing reply being
      "". `reply` is the request's outcome: its error, or the message content. */
  function GenerateClarification(fields: seq<string>, hasApiKey: bool, reply: Result<Option<string>>)
    : (r: Result<string>)
    ensures !hasApiKey ==> r == Err(MissingKeyError)
    ensures r.Err? <==> !hasApiKey || reply.Err?
    ensures hasApiKey && reply.Err? ==> r == Err(reply.error)
    ensures hasApiKey && reply.Ok? ==> r == Ok(Strip(reply.value.GetOr(""))) && Trimmed(r.value)
    ensures hasApiKey && reply == Ok(None) ==> r == Ok("")
  {
    if !hasApiKey then Err(MissingKeyError)
    else match reply
      case Err(e) => Err(e)
      case Ok(content) =>
        StripTrimmed(content.GetOr(""));
        Ok(Strip(content.GetOr("")))
  }
}

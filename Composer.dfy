/** The query-letter composer (app/agents/composer.py): the letter is assembled from
    fixed lines, the optional blocks the model filled and a sentence filter over the
    summary; the batched reply of the model is mapped back to the publishers; and
    `compose_query_letters` turns all of it into per-publisher results.
    The model's reply (already JSON-decoded and validated) and the few-shot examples
    read from disk are inputs. */
module Composer {
  import opened Wrappers
  import opened Text
  import opened ComposerSchema

  /** The sections the model fills for one letter (`QueryLetterSections`). */
  datatype Sections = Sections(
    tone: string,
    openingPersonalization: string,
    summaryParagraphs: seq<string>,
    detailParagraph: string,
    bio: string,
    signoff: string)

  /** One entry of the batched reply (`BatchedPublisherSections`). */
  datatype BatchEntry = BatchEntry(
    publisher: string,
    tone: string,
    openingPersonalization: string,
    summaryParagraphs: seq<string>,
    detailParagraph: string,
    bio: string,
    signoff: string)

  // ===========================================================================
  // Small helpers
  // ===========================================================================

  /** `_format_word_count`: the digits grouped in threes by commas; deleting the commas
      gives `str(n)` back. */
  function FormatWordCount(wordCount: int): (r: string)
    ensures RemoveCommas(r) == IntToString(wordCount)
    ensures 0 <= wordCount < 1000 ==> r == IntToString(wordCount)
    ensures wordCount >= 0 ==> ThreeDigitGroups(r)
    ensures wordCount < 0 ==> |r| >= 2 && r[0] == '-' && ThreeDigitGroups(r[1..])
  {
    FormatThousandsRoundTrip(wordCount);
    FormatThousandsGroups(wordCount);
    FormatThousands(wordCount)
  }

  /** A word count of 93000 reads "93,000". */
  lemma FormatWordCountExample()
    ensures FormatWordCount(93000) == "93,000"
  {
    assert NatToString(93) == NatToString(9) + [DigitChar(3)];
    assert GroupThousands(93000) == GroupThousands(93) + "," + Pad3(0);
  }

  /** `_join_comps`: an English list with an Oxford comma. */
  function JoinComps(comps: seq<string>): string {
    if |comps| == 0 then ""
    else if |comps| == 1 then comps[0]
    else if |comps| == 2 then comps[0] + " and " + comps[1]
    else Join(", ", comps[..|comps| - 1]) + ", and " + comps[|comps| - 1]
  }

  /** The cases of `_join_comps`, and the Oxford-comma list unfolded one item at a
      time: every item but the last two is followed by ", ". */
  lemma JoinCompsCases(comps: seq<string>)
    ensures |comps| == 0 ==> JoinComps(comps) == ""
    ensures |comps| == 1 ==> JoinComps(comps) == comps[0]
    ensures |comps| == 2 ==> JoinComps(comps) == comps[0] + " and " + comps[1]
    ensures |comps| == 3 ==> JoinComps(comps) == comps[0] + ", " + comps[1] + ", and " + comps[2]
    ensures |comps| >= 4 ==> JoinComps(comps) == comps[0] + ", " + JoinComps(comps[1..])
  {
    var n := |comps|;
    if n == 3 {
      assert comps[..2] == [comps[0], comps[1]];
      assert Join(", ", [comps[0], comps[1]]) == comps[0] + ", " + comps[1];
    } else if n >= 4 {
      assert comps[..n - 1][1..] == comps[1..][..n - 2];
      assert comps[1..][n - 2] == comps[n - 1];
    }
  }

  /** `[c.strip() for c in comps if c.strip()]`. */
  function StrippedNonBlank(comps: seq<string>): (r: seq<string>)
    ensures |r| <= |comps|
  {
    if comps == [] then []
    else
      var init := StrippedNonBlank(comps[..|comps| - 1]);
      var v := Strip(comps[|comps| - 1]);
      if v == "" then init else init + [v]
  }

  /** Every item is stripped and non-empty and is the stripped form of an input item;
      every input item that is not blank appears, stripped. */
  lemma {:induction false} StrippedNonBlankSpec(comps: seq<string>)
    ensures var r := StrippedNonBlank(comps);
            && (forall i :: 0 <= i < |r| ==> r[i] != "" && Trimmed(r[i]))
            && (forall j :: 0 <= j < |comps| && Strip(comps[j]) != "" ==> Strip(comps[j]) in r)
            && (forall x :: x in r ==> exists j :: 0 <= j < |comps| && x == Strip(comps[j]))
  {
    if comps != [] {
      var n := |comps|;
      var init := comps[..n - 1];
      StrippedNonBlankSpec(init);
      StripTrimmed(comps[n - 1]);
      var r := StrippedNonBlank(comps);
      forall j | 0 <= j < n && Strip(comps[j]) != "" ensures Strip(comps[j]) in r {
        if j < n - 1 {
          assert comps[j] == init[j];
        }
      }
      forall x | x in r ensures exists j :: 0 <= j < n && x == Strip(comps[j]) {
        if x in StrippedNonBlank(init) {
          var j :| 0 <= j < n - 1 && x == Strip(init[j]);
          assert init[j] == comps[j];
        } else {
          assert x == Strip(comps[n - 1]);
        }
      }
    }
  }

  /** What `_sanitize_comps` returns: the first three stripped non-blank comps. */
  function SanitizedComps(comps: seq<string>): seq<string> {
    var cleaned := StrippedNonBlank(comps);
    if |cleaned| > 3 then cleaned[..3] else cleaned
  }

  /** `_sanitize_comps`: strips every comp, drops the blank ones, keeps at most three. */
  method SanitizeComps(comps: seq<string>) returns (cleaned: seq<string>)
    ensures cleaned == SanitizedComps(comps)
    ensures |cleaned| <= 3
    ensures |cleaned| == if |StrippedNonBlank(comps)| < 3 then |StrippedNonBlank(comps)| else 3
    ensures cleaned == StrippedNonBlank(comps)[..|cleaned|]
    ensures forall i :: 0 <= i < |cleaned| ==> cleaned[i] != "" && Trimmed(cleaned[i])
  {
    StrippedNonBlankSpec(comps);
    cleaned := [];
    var i := 0;
    while i < |comps|
      invariant 0 <= i <= |comps|
      invariant cleaned == StrippedNonBlank(comps[..i])
    {
      assert comps[..i + 1][..i] == comps[..i];
      var value := Strip(comps[i]);
      if value != "" {
        cleaned := cleaned + [value];
      }
      i := i + 1;
    }
    assert comps[..i] == comps;
    if |cleaned| > 3 {
      cleaned := cleaned[..3];
    }
  }

  /** The tones with a fixed signoff. */
  const SincereTones: set<string> := {"literary_professional", "tense_professional", "professional"}

  /** `_signoff_for_tone`: decided by the stripped, lower-cased tone alone; an unknown
      tone falls back to the model's signoff, or "Sincerely" if that is empty. */
  function SignoffForTone(tone: string, fallback: string): (r: string)
    ensures Lower(Strip(tone)) == "warm_professional" ==> r == "Warmly"
    ensures Lower(Strip(tone)) in SincereTones ==> r == "Sincerely"
    ensures Lower(Strip(tone)) != "warm_professional" && Lower(Strip(tone)) !in SincereTones ==>
              r == (if fallback == "" then "Sincerely" else fallback)
    ensures r != ""
  {
    var normalized := Lower(Strip(tone));
    if normalized == "warm_professional" then "Warmly"
    else if normalized == "literary_professional" then "Sincerely"
    else if normalized == "tense_professional" then "Sincerely"
    else if normalized == "professional" then "Sincerely"
    else if fallback == "" then "Sincerely"
    else fallback
  }

  // ===========================================================================
  // render_query_letter
  // ===========================================================================

  const Greeting: string := "Dear Acquisitions Team,"
  const Closing: string :=
    "Thank you for your time and consideration. The full manuscript is available upon request."
  const HopingLead: string := "i'm hoping you will consider"
  const SeekingLead: string := "i am seeking representation"

  /** The line that always introduces the novel. */
  function HopingLine(m: Manuscript): string {
    "I'm hoping you will consider my " + m.genre + " novel, " + m.title
    + ", complete at " + FormatWordCount(m.wordCount) + " words."
  }

  /** The paragraphs the summary comes from: the model's, or the manuscript's own
      summary verbatim when paraphrasing is off. */
  function SummarySource(m: Manuscript, sections: Sections, paraphraseSummary: bool): seq<string> {
    if paraphraseSummary then sections.summaryParagraphs else [Strip(m.summary)]
  }

  /** The stripped paragraph, with everything up to its first "." dropped when it opens
      with one of the two stock query sentences. */
  function DropLead(paragraph: string): string {
    var cleaned := Strip(paragraph);
    var lowered := Lower(cleaned);
    if StartsWith(lowered, HopingLead) || StartsWith(lowered, SeekingLead)
    then Strip(AfterFirst(cleaned, '.'))
    else cleaned
  }

  /** `[s.strip() for s in p.split(".") if s.strip()]`. */
  function Sentences(p: string): seq<string> {
    StrippedNonBlank(Split(p, '.'))
  }

  /** A sentence is dropped when it names the title (case-insensitively) or carries
      the word count, formatted or raw. */
  predicate Mentions(sentence: string, m: Manuscript) {
    || Contains(Lower(sentence), Lower(m.title))
    || Contains(sentence, FormatWordCount(m.wordCount))
    || Contains(sentence, IntToString(m.wordCount))
  }

  /** The sentences that survive the filter, in their original order. */
  function KeptSentences(sentences: seq<string>, m: Manuscript): (r: seq<string>)
    ensures |r| <= |sentences|
  {
    if sentences == [] then []
    else
      var init := KeptSentences(sentences[..|sentences| - 1], m);
      var last := sentences[|sentences| - 1];
      if Mentions(last, m) then init else init + [last]
  }

  /** A sentence is kept exactly when it is one of the paragraph's and gives away
      neither the title nor the word count. */
  lemma {:induction false} KeptSentencesSpec(sentences: seq<string>, m: Manuscript)
    ensures forall x :: x in KeptSentences(sentences, m) <==> x in sentences && !Mentions(x, m)
  {
    if sentences != [] {
      var last := sentences[|sentences| - 1];
      KeptSentencesSpec(sentences[..|sentences| - 1], m);
      assert sentences == sentences[..|sentences| - 1] + [last];
    }
  }

  /** One summary paragraph after cleaning; "" means it is left out of the letter. */
  function CleanParagraph(paragraph: string, m: Manuscript): string {
    var cleaned := DropLead(paragraph);
    if cleaned == "" then ""
    else Strip(Join(". ", KeptSentences(Sentences(cleaned), m)))
  }

  /** A paragraph followed by a blank line, or nothing when it is empty. */
  function Block(text: string): seq<string> {
    if text == "" then [] else [text, ""]
  }

  function SummaryLines(paragraphs: seq<string>, m: Manuscript): seq<string> {
    if paragraphs == [] then []
    else SummaryLines(paragraphs[..|paragraphs| - 1], m)
         + Block(CleanParagraph(paragraphs[|paragraphs| - 1], m))
  }

  function CompsLine(m: Manuscript, comps: seq<string>): string {
    m.title + " will appeal to readers of " + JoinComps(comps)
    + " because of its shared genre and tonal style."
  }

  function CompsBlock(m: Manuscript, p: Publisher): seq<string> {
    var comps := SanitizedComps(p.comps.GetOr([]));
    if comps == [] then [] else [CompsLine(m, comps), ""]
  }

  /** The lines closing every letter: bio, thanks, signoff and author. */
  function ClosingLines(m: Manuscript, sections: Sections): seq<string> {
    [Strip(sections.bio), "", Closing, "", SignoffForTone(sections.tone, sections.signoff) + ",",
     m.authorName]
  }

  /** The `lines` list that `render_query_letter` builds. */
  function LetterLines(m: Manuscript, p: Publisher, sections: Sections, paraphraseSummary: bool): seq<string> {
    [Greeting, ""]
    + Block(Strip(sections.openingPersonalization))
    + [HopingLine(m), ""]
    + SummaryLines(SummarySource(m, sections, paraphraseSummary), m)
    + Block(Strip(sections.detailParagraph))
    + CompsBlock(m, p)
    + ClosingLines(m, sections)
  }

  /** The letter `render_query_letter` returns. */
  function RenderLetter(m: Manuscript, p: Publisher, sections: Sections, paraphraseSummary: bool): string {
    Strip(Join("\n", LetterLines(m, p, sections, paraphraseSummary)))
  }

  /** The inner loop of `render_query_letter`: keeps the sentences that do not give
      away the title or the word count. */
  method FilterSentences(sentences: seq<string>, m: Manuscript) returns (filtered: seq<string>)
    ensures filtered == KeptSentences(sentences, m)
  {
    filtered := [];
    var i := 0;
    while i < |sentences|
      invariant 0 <= i <= |sentences|
      invariant filtered == KeptSentences(sentences[..i], m)
    {
      assert sentences[..i + 1][..i] == sentences[..i];
      var sentence := sentences[i];
      if !Mentions(sentence, m) {
        filtered := filtered + [sentence];
      }
      i := i + 1;
    }
    assert sentences[..i] == sentences;
  }

  lemma SummaryLinesSnoc(paragraphs: seq<string>, i: nat, m: Manuscript)
    requires i < |paragraphs|
    ensures SummaryLines(paragraphs[..i + 1], m)
            == SummaryLines(paragraphs[..i], m) + Block(CleanParagraph(paragraphs[i], m))
  {
    assert paragraphs[..i + 1][..i] == paragraphs[..i];
  }

  /** `if text: lines.extend([text, ""])`. */
  method AppendBlock(lines: seq<string>, text: string) returns (out: seq<string>)
    ensures out == lines + Block(text)
  {
    out := lines;
    if text != "" {
      out := out + [text, ""];
    }
  }

  lemma AppendAssoc(a: seq<string>, b: seq<string>, c: seq<string>)
    ensures (a + b) + c == a + (b + c)
  {
  }

  /** One pass of the summary loop: the paragraph with its lead dropped and the
      giveaway sentences filtered out. */
  method CleanSummaryParagraph(paragraph: string, m: Manuscript) returns (cleaned: string)
    ensures cleaned == CleanParagraph(paragraph, m)
  {
    cleaned := DropLead(paragraph);
    if cleaned != "" {
      var kept := FilterSentences(Sentences(cleaned), m);
      cleaned := Strip(Join(". ", kept));
    }
  }

  /** The summary loop of `render_query_letter`: appends each cleaned, non-empty
      paragraph and a blank line after it. */
  method AppendSummary(lines: seq<string>, paragraphs: seq<string>, m: Manuscript)
    returns (out: seq<string>)
    ensures out == lines + SummaryLines(paragraphs, m)
  {
    out := lines;
    var i := 0;
    while i < |paragraphs|
      invariant 0 <= i <= |paragraphs|
      invariant out == lines + SummaryLines(paragraphs[..i], m)
    {
      SummaryLinesSnoc(paragraphs, i, m);
      var cleaned := CleanSummaryParagraph(paragraphs[i], m);
      out := AppendBlock(out, cleaned);
      AppendAssoc(lines, SummaryLines(paragraphs[..i], m), Block(cleaned));
      i := i + 1;
    }
    assert paragraphs[..i] == paragraphs;
  }

  /** The comparison-titles sentence, when any comp survives `_sanitize_comps`. */
  method AppendComps(lines: seq<string>, m: Manuscript, p: Publisher) returns (out: seq<string>)
    ensures out == lines + CompsBlock(m, p)
  {
    out := lines;
    var comps := SanitizeComps(p.comps.GetOr([]));
    if comps != [] {
      out := out + [CompsLine(m, comps), ""];
    }
  }

  /** `render_query_letter`, appending to `lines` as the source does. */
  method RenderQueryLetter(m: Manuscript, p: Publisher, sections: Sections, paraphraseSummary: bool)
    returns (letter: string)
    ensures letter == RenderLetter(m, p, sections, paraphraseSummary)
  {
    var lines := [Greeting, ""];
    lines := AppendBlock(lines, Strip(sections.openingPersonalization));
    lines := lines + [HopingLine(m), ""];
    lines := AppendSummary(lines, SummarySource(m, sections, paraphraseSummary), m);
    lines := AppendBlock(lines, Strip(sections.detailParagraph));
    lines := AppendComps(lines, m, p);
    lines := lines + ClosingLines(m, sections);
    letter := Strip(Join("\n", lines));
  }

  // ---------------------------------------------------------------------------
  // What the rendered letter looks like
  // ---------------------------------------------------------------------------

  lemma {:induction false} JoinAppend(sep: string, a: seq<string>, b: seq<string>)
    requires |a| >= 1 && |b| >= 1
    ensures Join(sep, a + b) == Join(sep, a) + sep + Join(sep, b)
  {
    if |a| == 1 {
      assert (a + b)[1..] == b;
    } else {
      assert (a + b)[1..] == a[1..] + b;
      JoinAppend(sep, a[1..], b);
    }
  }

  /** The text after the signoff's comma once the letter is stripped. */
  function AuthorTail(authorName: string): string {
    if IsBlank(authorName) then "" else "\n" + RStrip(authorName)
  }

  lemma {:induction false} RStripBlank(s: string)
    requires IsBlank(s)
    ensures RStrip(s) == []
  {
    if s != [] {
      RStripBlank(s[..|s| - 1]);
    }
  }

  /** Right-stripping `a + b` where `b` keeps a non-space character. */
  lemma {:induction false} RStripPrefix(a: string, b: string)
    requires RStrip(b) != []
    ensures RStrip(a + b) == a + RStrip(b)
  {
    if |b| > 0 && IsSpace(b[|b| - 1]) {
      assert (a + b)[..|a + b| - 1] == a + b[..|b| - 1];
      RStripPrefix(a, b[..|b| - 1]);
    }
  }

  lemma AuthorTailIsRStrip(authorName: string)
    ensures RStrip("\n" + authorName) == [] <==> IsBlank(authorName)
    ensures !IsBlank(authorName) ==> RStrip("\n" + authorName) == AuthorTail(authorName)
  {
    if IsBlank(authorName) {
      RStripBlank("\n" + authorName);
    } else {
      RStripSpec(authorName);
      RStripPrefix("\n", authorName);
    }
  }

  /** The greeting and its blank line, joined, before the novel's line. */
  lemma HeadJoin(opening: seq<string>)
    ensures Join("\n", [Greeting, ""] + opening)
            == if opening == [] then Greeting + "\n" else Greeting + "\n\n" + Join("\n", opening)
  {
    if opening != [] {
      assert ([Greeting, ""] + opening)[1..] == [""] + opening;
      assert ([""] + opening)[1..] == opening;
    }
  }

  /** The frame of any letter whose lines are laid out as `render_query_letter` lays
      them out, whatever the paragraphs in between. */
  lemma {:induction false} FrameOfLines(opening: seq<string>, hope: string, post: seq<string>,
                                        signoff: string, author: string)
    requires |post| >= 1
    ensures var letter := Strip(Join("\n", [Greeting, ""] + opening + [hope] + post + [signoff + ",", author]));
            && StartsWith(letter, Greeting + "\n\n")
            && Contains(letter, "\n" + hope + "\n")
            && EndsWith(letter, signoff + "," + AuthorTail(author))
  {
    var pre := [Greeting, ""] + opening;
    var tail := [signoff + ",", author];
    assert [Greeting, ""] + opening + [hope] + post + tail == pre + ([hope] + (post + tail));
    JoinAppend("\n", post, tail);
    JoinAppend("\n", [hope], post + tail);
    JoinAppend("\n", pre, [hope] + (post + tail));
    var a := Join("\n", pre);
    var mid := Join("\n", post) + "\n" + signoff;
    var front := a + ("\n" + hope + "\n") + mid;
    var joined := Join("\n", pre + ([hope] + (post + tail)));
    JoinedPieces(a, hope, Join("\n", post), signoff, author);
    assert joined == front + [','] + ("\n" + author);
    HeadJoin(opening);
    assert joined[0] == 'D';
    LStripKeeps(joined);
    RStripAfterMark(front, ',', "\n" + author);
    AuthorTailIsRStrip(author);
    var letter := Strip(joined);
    assert letter == front + [','] + AuthorTail(author);
    LetterPieces(a, hope, Join("\n", post), signoff, AuthorTail(author));
    HeadPrefix(a, opening, "\n" + hope + "\n" + (mid + "," + AuthorTail(author)));
  }

  /** The joined lines, regrouped around the comma of the signoff. */
  lemma JoinedPieces(a: string, hope: string, body: string, signoff: string, author: string)
    ensures a + "\n" + (hope + "\n" + (body + "\n" + (signoff + "," + "\n" + author)))
            == a + ("\n" + hope + "\n") + (body + "\n" + signoff) + [','] + ("\n" + author)
  {
  }

  /** How the stripped letter splits around the novel's line and the signoff. */
  lemma LetterPieces(a: string, hope: string, body: string, signoff: string, tail: string)
    ensures var letter := a + ("\n" + hope + "\n") + (body + "\n" + signoff) + [','] + tail;
            && Contains(letter, "\n" + hope + "\n")
            && EndsWith(letter, signoff + "," + tail)
            && letter == a + ("\n" + hope + "\n" + ((body + "\n" + signoff) + "," + tail))
  {
    var letter := a + ("\n" + hope + "\n") + (body + "\n" + signoff) + [','] + tail;
    assert letter == a + ("\n" + hope + "\n") + ((body + "\n" + signoff) + "," + tail);
    ContainsMiddle(a, "\n" + hope + "\n", (body + "\n" + signoff) + "," + tail);
    var end := signoff + "," + tail;
    assert letter == (a + ("\n" + hope + "\n") + body + "\n") + end;
    assert letter[|letter| - |end|..] == end;
  }

  /** The greeting and its blank line come first whether or not there is an opening. */
  lemma HeadPrefix(a: string, opening: seq<string>, rest: string)
    requires a == Join("\n", [Greeting, ""] + opening)
    requires |rest| >= 1 && rest[0] == '\n'
    ensures StartsWith(a + rest, Greeting + "\n\n")
  {
    HeadJoin(opening);
    var g := Greeting + "\n\n";
    if opening == [] {
      assert a + rest == Greeting + "\n" + rest;
      assert (a + rest)[..|g|] == g;
    } else {
      assert a + rest == g + (Join("\n", opening) + rest);
      assert (a + rest)[..|g|] == g;
    }
  }

  lemma LayoutRegroup(opening: seq<string>, hope: string, summary: seq<string>, detail: seq<string>,
                      comps: seq<string>, bio: string, signoff: string, author: string)
    ensures [Greeting, ""] + opening + [hope, ""] + summary + detail + comps
            + [bio, "", Closing, "", signoff, author]
            == [Greeting, ""] + opening + [hope]
            + ([""] + summary + detail + comps + [bio, "", Closing, ""]) + [signoff, author]
  {
  }

  /** The fixed frame of every letter: it opens with the greeting and a blank line,
      introduces the novel on a line of its own, and ends with the signoff, a comma
      and the author name (right-stripped, and gone entirely if it is blank). So the
      letter is never empty. */
  lemma LetterFrame(m: Manuscript, p: Publisher, sections: Sections, paraphraseSummary: bool)
    ensures StartsWith(RenderLetter(m, p, sections, paraphraseSummary), Greeting + "\n\n")
    ensures Contains(RenderLetter(m, p, sections, paraphraseSummary), "\n" + HopingLine(m) + "\n")
    ensures EndsWith(RenderLetter(m, p, sections, paraphraseSummary),
                     SignoffForTone(sections.tone, sections.signoff) + "," + AuthorTail(m.authorName))
    ensures RenderLetter(m, p, sections, paraphraseSummary) != ""
  {
    var opening := Block(Strip(sections.openingPersonalization));
    var post := [""] + SummaryLines(SummarySource(m, sections, paraphraseSummary), m)
                + Block(Strip(sections.detailParagraph)) + CompsBlock(m, p)
                + [Strip(sections.bio), "", Closing, ""];
    var signoff := SignoffForTone(sections.tone, sections.signoff);
    LayoutRegroup(opening, HopingLine(m), SummaryLines(SummarySource(m, sections, paraphraseSummary), m),
                  Block(Strip(sections.detailParagraph)), CompsBlock(m, p), Strip(sections.bio),
                  signoff + ",", m.authorName);
    FrameOfLines(opening, HopingLine(m), post, signoff, m.authorName);
  }

  lemma LetterNonEmpty(m: Manuscript, p: Publisher, sections: Sections, paraphraseSummary: bool)
    ensures RenderLetter(m, p, sections, paraphraseSummary) != ""
  {
    LetterFrame(m, p, sections, paraphraseSummary);
  }

  /** Which lines the letter has where: the greeting and a blank line, then the
      opening only when it is not blank, then the novel's line; the signoff and the
      author name come last. Paraphrasing off means the only summary paragraph is the
      stripped manuscript summary. */
  lemma LetterLayout(m: Manuscript, p: Publisher, sections: Sections, paraphraseSummary: bool)
    ensures var lines := LetterLines(m, p, sections, paraphraseSummary);
            var opening := Strip(sections.openingPersonalization);
            && |lines| >= 10
            && lines[0] == Greeting && lines[1] == ""
            && (opening != "" ==> lines[2] == opening && lines[3] == "" && lines[4] == HopingLine(m))
            && (opening == "" ==> lines[2] == HopingLine(m))
            && lines[|lines| - 2] == SignoffForTone(sections.tone, sections.signoff) + ","
            && lines[|lines| - 1] == m.authorName
    ensures !paraphraseSummary ==>
              SummaryLines(SummarySource(m, sections, paraphraseSummary), m)
              == Block(CleanParagraph(Strip(m.summary), m))
    ensures (CompsBlock(m, p) != []) <==> (SanitizedComps(p.comps.GetOr([])) != [])
  {
    var opening := Strip(sections.openingPersonalization);
    var head := [Greeting, ""] + Block(opening) + [HopingLine(m), ""];
    var mid := SummaryLines(SummarySource(m, sections, paraphraseSummary), m)
               + Block(Strip(sections.detailParagraph)) + CompsBlock(m, p);
    var tail := ClosingLines(m, sections);
    Regroup7([Greeting, ""], Block(opening), [HopingLine(m), ""],
             SummaryLines(SummarySource(m, sections, paraphraseSummary), m),
             Block(Strip(sections.detailParagraph)), CompsBlock(m, p), tail);
    assert LetterLines(m, p, sections, paraphraseSummary) == head + mid + tail;
    LayoutSplit(head, mid, tail);
    HeadLayout(opening, HopingLine(m));
    VerbatimSummary(m, sections, paraphraseSummary);
  }

  /** The greeting, the optional opening and the novel's line. */
  lemma HeadLayout(opening: string, hoping: string)
    ensures var head := [Greeting, ""] + Block(opening) + [hoping, ""];
            && |head| >= 4 && head[0] == Greeting && head[1] == ""
            && (opening != "" ==> |head| == 6 && head[2] == opening && head[3] == "" && head[4] == hoping)
            && (opening == "" ==> head[2] == hoping)
  {
  }

  /** With paraphrasing off the summary is the manuscript's own, as one paragraph. */
  lemma VerbatimSummary(m: Manuscript, sections: Sections, paraphraseSummary: bool)
    ensures !paraphraseSummary ==>
              SummaryLines(SummarySource(m, sections, paraphraseSummary), m)
              == Block(CleanParagraph(Strip(m.summary), m))
  {
    if !paraphraseSummary {
      assert [Strip(m.summary)][..0] == [];
    }
  }

  lemma Regroup7(a: seq<string>, b: seq<string>, c: seq<string>, d: seq<string>,
                 e: seq<string>, f: seq<string>, g: seq<string>)
    ensures a + b + c + d + e + f + g == (a + b + c) + (d + e + f) + g
  {
  }

  /** Indexing into the three runs of lines. */
  lemma LayoutSplit(head: seq<string>, mid: seq<string>, tail: seq<string>)
    requires |tail| == 6
    ensures var lines := head + mid + tail;
            && |lines| == |head| + |mid| + 6
            && (forall k :: 0 <= k < |head| ==> lines[k] == head[k])
            && lines[|lines| - 2] == tail[4] && lines[|lines| - 1] == tail[5]
  {
  }

  /** What is left of one summary paragraph: sentences of the paragraph (its stock
      lead removed) that name neither the title nor the word count, rejoined with
      ". " and stripped. */
  lemma CleanParagraphSpec(paragraph: string, m: Manuscript)
    ensures DropLead(paragraph) == "" ==> CleanParagraph(paragraph, m) == ""
    ensures DropLead(paragraph) != "" ==>
              var kept := KeptSentences(Sentences(DropLead(paragraph)), m);
              && CleanParagraph(paragraph, m) == Strip(Join(". ", kept))
              && (forall x :: x in kept ==> x in Sentences(DropLead(paragraph)) && !Mentions(x, m))
              && (forall x :: x in Sentences(DropLead(paragraph)) && !Mentions(x, m) ==> x in kept)
  {
    KeptSentencesSpec(Sentences(DropLead(paragraph)), m);
  }

  /** Every sentence is stripped, non-empty, free of "." and taken from the text. */
  lemma SentencesSpec(p: string)
    ensures forall x :: x in Sentences(p) ==> x != "" && Trimmed(x) && '.' !in x
  {
    var pieces := Split(p, '.');
    StrippedNonBlankSpec(pieces);
    SplitPieces(p, '.');
    forall x | x in Sentences(p) ensures x != "" && Trimmed(x) && '.' !in x {
      var k :| 0 <= k < |Sentences(p)| && Sentences(p)[k] == x;
      var j :| 0 <= j < |pieces| && x == Strip(pieces[j]);
      StripSpec(pieces[j]);
      SliceKeepsOut(pieces[j], LeadingSpaces(pieces[j]), LeadingSpaces(pieces[j]) + |x|, '.');
    }
  }

  lemma SliceKeepsOut(s: string, i: nat, j: nat, c: char)
    requires i <= j <= |s| && c !in s
    ensures c !in s[i..j]
  {
  }

  /** The stock lead is cut at the first ".", so a lead with no "." at all stays. The
      result is always stripped. */
  lemma DropLeadSpec(paragraph: string)
    ensures var cleaned := Strip(paragraph);
            var lowered := Lower(cleaned);
            var lead := StartsWith(lowered, HopingLead) || StartsWith(lowered, SeekingLead);
            && (!lead ==> DropLead(paragraph) == cleaned)
            && (lead && '.' !in cleaned ==> DropLead(paragraph) == cleaned)
            && (lead && '.' in cleaned ==>
                  DropLead(paragraph) == Strip(cleaned[FirstIndex(cleaned, '.') + 1..]))
            && Trimmed(DropLead(paragraph))
  {
    var cleaned := Strip(paragraph);
    StripTrimmed(paragraph);
    StripTrimmed(cleaned);
    StripTrimmed(AfterFirst(cleaned, '.'));
  }

  // ===========================================================================
  // The publisher block of build_batched_composer_prompt
  // ===========================================================================

  /** `", ".join(publisher.comps) if publisher.comps else "None provided"`. */
  function CompsText(comps: Option<seq<string>>): string {
    if comps.GetOr([]) == [] then "None provided" else Join(", ", comps.value)
  }

  /** One numbered line of the publisher block. */
  function PublisherLine(index: nat, p: Publisher): string {
    NatToString(index) + ". " + p.name + " (comps: " + CompsText(p.comps) + ")"
  }

  /** The lines for `publishers`, numbered from `start`. */
  function PublisherLines(publishers: seq<Publisher>, start: nat): (r: seq<string>)
    ensures |r| == |publishers|
  {
    if publishers == [] then []
    else PublisherLines(publishers[..|publishers| - 1], start)
         + [PublisherLine(start + |publishers| - 1, publishers[|publishers| - 1])]
  }

  /** Line `i` is publisher `i`'s, numbered `start + i`. */
  lemma {:induction false} PublisherLinesSpec(publishers: seq<Publisher>, start: nat)
    ensures forall i :: 0 <= i < |publishers| ==>
              PublisherLines(publishers, start)[i] == PublisherLine(start + i, publishers[i])
  {
    if publishers != [] {
      var init := publishers[..|publishers| - 1];
      var lines := PublisherLines(publishers, start);
      PublisherLinesSpec(init, start);
      assert lines == PublisherLines(init, start) + [PublisherLine(start + |init|, publishers[|init|])];
      forall i | 0 <= i < |publishers|
        ensures lines[i] == PublisherLine(start + i, publishers[i])
      {
        if i < |init| {
          assert lines[i] == PublisherLines(init, start)[i];
          assert init[i] == publishers[i];
        } else {
          assert i == |init|;
        }
      }
    }
  }

  function PublisherBlock(publishers: seq<Publisher>): string {
    if publishers == [] then "None" else Join("\n", PublisherLines(publishers, 1))
  }

  /** The loop of `build_batched_composer_prompt` that numbers the publishers from 1. */
  method BuildPublisherBlock(publishers: seq<Publisher>) returns (block: string)
    ensures block == PublisherBlock(publishers)
  {
    var publisherLines := [];
    var i := 0;
    while i < |publishers|
      invariant 0 <= i <= |publishers|
      invariant publisherLines == PublisherLines(publishers[..i], 1)
    {
      assert publishers[..i + 1][..i] == publishers[..i];
      publisherLines := publisherLines + [PublisherLine(i + 1, publishers[i])];
      i := i + 1;
    }
    assert publishers[..i] == publishers;
    if publisherLines != [] {
      block := Join("\n", publisherLines);
    } else {
      block := "None";
    }
  }

  /** No line break inside a publisher's name or comps. */
  predicate SingleLine(p: Publisher) {
    '\n' !in p.name && forall j :: 0 <= j < |p.comps.GetOr([])| ==> '\n' !in p.comps.GetOr([])[j]
  }

  lemma {:induction false} JoinNoBreak(sep: string, parts: seq<string>)
    requires '\n' !in sep
    requires forall j :: 0 <= j < |parts| ==> '\n' !in parts[j]
    ensures '\n' !in Join(sep, parts)
  {
    if |parts| > 1 {
      JoinNoBreak(sep, parts[1..]);
    }
  }

  lemma PublisherLineNoBreak(index: nat, p: Publisher)
    requires SingleLine(p)
    ensures '\n' !in PublisherLine(index, p)
  {
    if p.comps.GetOr([]) != [] {
      JoinNoBreak(", ", p.comps.value);
    }
    NatToStringDigits(index);
  }

  /** The block reads "None" exactly when there are no publishers. */
  lemma PublisherBlockNone(publishers: seq<Publisher>)
    ensures PublisherBlock(publishers) == "None" <==> publishers == []
  {
    if publishers != [] {
      var lines := PublisherLines(publishers, 1);
      JoinHead("\n", lines);
      PublisherLinesSpec(publishers, 1);
      assert NatToString(1) == "1";
      assert lines[0][0] == '1';
      assert PublisherBlock(publishers)[0] == '1';
    }
  }

  /** Every line opens with its number, the publisher's name and the comps label. */
  lemma PublisherLineStarts(index: nat, p: Publisher)
    ensures StartsWith(PublisherLine(index, p), NatToString(index) + ". " + p.name + " (comps: ")
  {
    var pre := NatToString(index) + ". " + p.name + " (comps: ";
    assert PublisherLine(index, p) == pre + (CompsText(p.comps) + ")");
  }

  /** When no name or comp holds a line break, splitting the block at line breaks gives
      back one line per publisher, in order, numbered from 1. */
  lemma PublisherBlockLines(publishers: seq<Publisher>)
    requires publishers != []
    requires forall i :: 0 <= i < |publishers| ==> SingleLine(publishers[i])
    ensures Split(PublisherBlock(publishers), '\n') == PublisherLines(publishers, 1)
    ensures forall i :: 0 <= i < |publishers| ==>
              StartsWith(Split(PublisherBlock(publishers), '\n')[i],
                         NatToString(i + 1) + ". " + publishers[i].name + " (comps: ")
  {
    BlockSplits(publishers);
    LinesStart(publishers);
  }

  /** Line `i` starts with its number, counted from 1, and its publisher's name. */
  lemma LinesStart(publishers: seq<Publisher>)
    ensures forall i :: 0 <= i < |publishers| ==>
              StartsWith(PublisherLines(publishers, 1)[i],
                         NatToString(i + 1) + ". " + publishers[i].name + " (comps: ")
  {
    PublisherLinesSpec(publishers, 1);
    forall i | 0 <= i < |publishers|
      ensures StartsWith(PublisherLines(publishers, 1)[i],
                         NatToString(i + 1) + ". " + publishers[i].name + " (comps: ")
    {
      PublisherLineStarts(i + 1, publishers[i]);
    }
  }

  /** Without line breaks in the names and comps, the block splits into its lines. */
  lemma BlockSplits(publishers: seq<Publisher>)
    requires publishers != []
    requires forall i :: 0 <= i < |publishers| ==> SingleLine(publishers[i])
    ensures Split(PublisherBlock(publishers), '\n') == PublisherLines(publishers, 1)
  {
    var lines := PublisherLines(publishers, 1);
    PublisherLinesNoBreak(publishers, 1);
    assert PublisherBlock(publishers) == Join("\n", lines);
    SplitJoin(lines, '\n');
  }

  /** No line of the block holds a line break. */
  lemma PublisherLinesNoBreak(publishers: seq<Publisher>, start: nat)
    requires forall i :: 0 <= i < |publishers| ==> SingleLine(publishers[i])
    ensures forall j :: 0 <= j < |publishers| ==> '\n' !in PublisherLines(publishers, start)[j]
  {
    PublisherLinesSpec(publishers, start);
    forall j | 0 <= j < |publishers| ensures '\n' !in PublisherLines(publishers, start)[j] {
      PublisherLineNoBreak(start + j, publishers[j]);
    }
  }

  /** A join starts with its first part. */
  lemma JoinHead(sep: string, parts: seq<string>)
    requires |parts| >= 1
    ensures StartsWith(Join(sep, parts), parts[0])
  {
    if |parts| > 1 {
      assert Join(sep, parts) == parts[0] + (sep + Join(sep, parts[1..]));
    }
  }

  // ===========================================================================
  // The rest of the batched prompt, and the undeclared detail-summary fields
  // ===========================================================================

  /** Whether the manuscript and option records carry the detail-summary fields the
      prompt reads: as declared in app/schemas/composer.py they do not. */
  datatype Schema = AsDeclared | WithDetailFields

  /** The parts of the batched prompt that depend on the inputs; the fixed prose around
      them is not modelled. */
  datatype BatchedPrompt = BatchedPrompt(
    examplesBlock: string,
    publishersBlock: string,
    manuscriptLines: seq<string>,
    verbatimInstruction: bool)

  /** Python's `str()` of a bool and of an optional bool. */
  function BoolText(b: bool): string {
    if b then "True" else "False"
  }

  function OptBoolText(b: Option<bool>): string {
    match b
    case None => "None"
    case Some(v) => BoolText(v)
  }

  /** `x or 'None provided'` for an optional string. */
  function OrNoneProvided(x: Option<string>): string {
    if x.GetOr("") == "" then "None provided" else x.value
  }

  function ExampleEntries(examples: seq<string>, start: nat): (r: seq<string>)
    ensures |r| == |examples|
  {
    if examples == [] then []
    else ["Example " + NatToString(start + 1) + ":\n" + examples[0]] + ExampleEntries(examples[1..], start + 1)
  }

  function ManuscriptLines(m: Manuscript, options: ComposerOptions): seq<string> {
    [ "- Title: " + m.title,
      "- Word count: " + IntToString(m.wordCount),
      "- Genre: " + m.genre,
      "- Summary: " + m.summary,
      "- Detail summary: " + OrNoneProvided(m.detailSummary),
      "- Paraphrase summary: " + BoolText(options.paraphraseSummary),
      "- Infer detail summary: " + OptBoolText(options.inferDetailSummary),
      "- Author name: " + m.authorName,
      "- Author bio: " + OrNoneProvided(m.authorBio) ]
  }

  /** The message pydantic raises for an attribute the model does not declare. */
  const DetailSummaryError: string := "'Manuscript' object has no attribute 'detail_summary'"

  /** `build_batched_composer_prompt`. With the schema as declared, reading
      `manuscript.detail_summary` raises; with the two fields added, the prompt is
      always built. */
  function BuildBatchedPrompt(schema: Schema, m: Manuscript, publishers: seq<Publisher>,
                              options: ComposerOptions, examples: seq<string>): (r: Result<BatchedPrompt>)
    ensures schema == AsDeclared <==> r == Err(DetailSummaryError)
    ensures schema == WithDetailFields ==>
              r.Ok? && r.value.publishersBlock == PublisherBlock(publishers)
              && r.value.verbatimInstruction == !options.paraphraseSummary
              && |r.value.manuscriptLines| == 9
              && r.value.manuscriptLines[4] == "- Detail summary: " + OrNoneProvided(m.detailSummary)
  {
    match schema
    case AsDeclared => Err(DetailSummaryError)
    case WithDetailFields =>
      Ok(BatchedPrompt(Join("\n\n", ExampleEntries(examples, 0)), PublisherBlock(publishers),
                       ManuscriptLines(m, options), !options.paraphraseSummary))
  }

  // ===========================================================================
  // generate_query_letters_batch
  // ===========================================================================

  function ToSections(e: BatchEntry): Sections {
    Sections(e.tone, e.openingPersonalization, e.summaryParagraphs, e.detailParagraph, e.bio, e.signoff)
  }

  /** `sections_by_publisher.get(name)`: the dict comprehension keeps the last entry
      with each publisher name. */
  function SectionsFor(letters: seq<BatchEntry>, name: string): Option<Sections> {
    if letters == [] then None
    else if letters[|letters| - 1].publisher == name then Some(ToSections(letters[|letters| - 1]))
    else SectionsFor(letters[..|letters| - 1], name)
  }

  /** No sections exactly when no entry carries the name. */
  lemma {:induction false} SectionsForNone(letters: seq<BatchEntry>, name: string)
    ensures SectionsFor(letters, name).None? <==> forall i :: 0 <= i < |letters| ==> letters[i].publisher != name
  {
    if letters != [] && letters[|letters| - 1].publisher != name {
      var init := letters[..|letters| - 1];
      SectionsForNone(init, name);
      assert forall i :: 0 <= i < |init| ==> init[i] == letters[i];
    }
  }

  /** A found entry is the last one carrying that name. */
  lemma {:induction false} SectionsForLast(letters: seq<BatchEntry>, name: string)
    requires SectionsFor(letters, name).Some?
    ensures exists i :: 0 <= i < |letters| && letters[i].publisher == name
              && SectionsFor(letters, name).value == ToSections(letters[i])
              && forall j :: i < j < |letters| ==> letters[j].publisher != name
  {
    var n := |letters|;
    if letters[n - 1].publisher != name {
      var init := letters[..n - 1];
      SectionsForLast(init, name);
      var i :| 0 <= i < n - 1 && init[i].publisher == name
               && SectionsFor(init, name).value == ToSections(init[i])
               && forall j :: i < j < n - 1 ==> init[j].publisher != name;
      assert letters[i] == init[i];
      assert forall j :: i < j < n ==> letters[j].publisher != name by {
        forall j | i < j < n ensures letters[j].publisher != name {
          if j < n - 1 {
            assert letters[j] == init[j];
          }
        }
      }
    }
  }

  /** The publisher/sections pairs, in publisher order, or the error for the first
      publisher the reply has no entry for. */
  function MatchBatch(letters: seq<BatchEntry>, publishers: seq<Publisher>): Result<seq<(Publisher, Sections)>> {
    if publishers == [] then Ok([])
    else match SectionsFor(letters, publishers[0].name)
      case None => Err("Missing letter for publisher: " + publishers[0].name)
      case Some(sections) =>
        match MatchBatch(letters, publishers[1..])
        case Err(e) => Err(e)
        case Ok(rest) => Ok([(publishers[0], sections)] + rest)
  }

  /** One pair per publisher, in input order, each carrying that publisher's entry; or
      the error naming the first publisher without one. */
  lemma {:induction false} MatchBatchSpec(letters: seq<BatchEntry>, publishers: seq<Publisher>)
    ensures MatchBatch(letters, publishers).Ok? <==>
              forall i :: 0 <= i < |publishers| ==> SectionsFor(letters, publishers[i].name).Some?
    ensures MatchBatch(letters, publishers).Ok? ==>
              var pairs := MatchBatch(letters, publishers).value;
              && |pairs| == |publishers|
              && forall i :: 0 <= i < |pairs| ==>
                   pairs[i].0 == publishers[i] && Some(pairs[i].1) == SectionsFor(letters, publishers[i].name)
    ensures MatchBatch(letters, publishers).Err? ==>
              exists k :: 0 <= k < |publishers|
                && SectionsFor(letters, publishers[k].name).None?
                && (forall i :: 0 <= i < k ==> SectionsFor(letters, publishers[i].name).Some?)
                && MatchBatch(letters, publishers).error == "Missing letter for publisher: " + publishers[k].name
  {
    if publishers != [] {
      MatchBatchSpec(letters, publishers[1..]);
      var r := MatchBatch(letters, publishers);
      if SectionsFor(letters, publishers[0].name).Some? && MatchBatch(letters, publishers[1..]).Err? {
        var k :| 0 <= k < |publishers[1..]|
                 && SectionsFor(letters, publishers[1..][k].name).None?
                 && (forall i :: 0 <= i < k ==> SectionsFor(letters, publishers[1..][i].name).Some?)
                 && MatchBatch(letters, publishers[1..]).error == "Missing letter for publisher: " + publishers[1..][k].name;
        assert SectionsFor(letters, publishers[k + 1].name).None?;
        assert forall i :: 0 <= i < k + 1 ==> SectionsFor(letters, publishers[i].name).Some? by {
          forall i | 0 <= i < k + 1 ensures SectionsFor(letters, publishers[i].name).Some? {
            if i > 0 {
              assert publishers[i] == publishers[1..][i - 1];
            }
          }
        }
      } else if r.Ok? {
        forall i | 0 <= i < |publishers| ensures SectionsFor(letters, publishers[i].name).Some? {
          if i > 0 {
            assert publishers[i] == publishers[1..][i - 1];
          }
        }
      }
    }
  }

  /** `generate_query_letters_batch` after the reply is decoded and validated: the
      lookup loop over the publishers. */
  method GenerateQueryLettersBatch(letters: seq<BatchEntry>, publishers: seq<Publisher>)
    returns (r: Result<seq<(Publisher, Sections)>>)
    ensures r == MatchBatch(letters, publishers)
  {
    var results := [];
    ThenMatchEmpty(MatchBatch(letters, publishers));
    var i := 0;
    while i < |publishers|
      invariant 0 <= i <= |publishers|
      invariant MatchBatch(letters, publishers) == ThenMatch(results, MatchBatch(letters, publishers[i..]))
    {
      assert publishers[i..][0] == publishers[i];
      var sections := SectionsFor(letters, publishers[i].name);
      if sections.None? {
        assert MatchBatch(letters, publishers[i..]) == Err("Missing letter for publisher: " + publishers[i].name);
        return Err("Missing letter for publisher: " + publishers[i].name);
      }
      assert publishers[i..][1..] == publishers[i + 1..];
      ThenMatchSnoc(results, (publishers[i], sections.value), MatchBatch(letters, publishers[i + 1..]));
      results := results + [(publishers[i], sections.value)];
      i := i + 1;
    }
    assert publishers[i..] == [];
    assert results + [] == results;
    r := Ok(results);
  }

  /** The pairs found so far, followed by the outcome for the rest. */
  function ThenMatch(done: seq<(Publisher, Sections)>, rest: Result<seq<(Publisher, Sections)>>)
    : Result<seq<(Publisher, Sections)>>
  {
    match rest
    case Err(e) => Err(e)
    case Ok(more) => Ok(done + more)
  }

  lemma ThenMatchEmpty(rest: Result<seq<(Publisher, Sections)>>)
    ensures ThenMatch([], rest) == rest
  {
    if rest.Ok? {
      assert [] + rest.value == rest.value;
    }
  }

  lemma ThenMatchSnoc(done: seq<(Publisher, Sections)>, pair: (Publisher, Sections),
                      rest: Result<seq<(Publisher, Sections)>>)
    ensures ThenMatch(done, ThenMatch([pair], rest)) == ThenMatch(done + [pair], rest)
  {
    if rest.Ok? {
      assert done + ([pair] + rest.value) == done + [pair] + rest.value;
    }
  }

  // ===========================================================================
  // compose_query_letters
  // ===========================================================================

  /** The warnings of one publisher's result, in this order. */
  function Warnings(m: Manuscript, p: Publisher): (r: seq<string>)
    ensures "comps_missing" in r <==> p.comps.GetOr([]) == []
    ensures "personalization_missing" in r <==> m.personalizationNotes.GetOr("") == ""
    ensures |r| == 2 ==> r == ["comps_missing", "personalization_missing"]
  {
    (if p.comps.GetOr([]) == [] then ["comps_missing"] else [])
    + (if m.personalizationNotes.GetOr("") == "" then ["personalization_missing"] else [])
  }

  /** The results before the batch step: an empty letter and status "ok" each. */
  function InitialResults(m: Manuscript, publishers: seq<Publisher>): (r: seq<LetterResult>)
    ensures |r| == |publishers|
  {
    if publishers == [] then []
    else InitialResults(m, publishers[..|publishers| - 1])
         + [NewLetterResult(publishers[|publishers| - 1].name, "", Warnings(m, publishers[|publishers| - 1]))]
  }

  /** Result `i` is publisher `i`'s, with an empty letter, status "ok" and its warnings. */
  lemma {:induction false} InitialResultsSpec(m: Manuscript, publishers: seq<Publisher>)
    ensures forall i :: 0 <= i < |publishers| ==>
              InitialResults(m, publishers)[i] == NewLetterResult(publishers[i].name, "", Warnings(m, publishers[i]))
  {
    if publishers != [] {
      var init := publishers[..|publishers| - 1];
      InitialResultsSpec(m, init);
      assert forall i :: 0 <= i < |init| ==> init[i] == publishers[i];
    }
  }

  /** The rendered letter of every pair, with the publisher's name. */
  function RenderedLetters(m: Manuscript, pairs: seq<(Publisher, Sections)>, paraphraseSummary: bool)
    : (r: seq<(string, string)>)
    ensures |r| == |pairs|
    ensures forall i :: 0 <= i < |pairs| ==> r[i].0 == pairs[i].0.name
  {
    seq(|pairs|, i requires 0 <= i < |pairs| => (pairs[i].0.name, RenderLetter(m, pairs[i].0, pairs[i].1, paraphraseSummary)))
  }

  lemma RenderedLettersNonEmpty(m: Manuscript, pairs: seq<(Publisher, Sections)>, paraphraseSummary: bool)
    ensures forall i :: 0 <= i < |pairs| ==> RenderedLetters(m, pairs, paraphraseSummary)[i].1 != ""
  {
    forall i | 0 <= i < |pairs| ensures RenderedLetters(m, pairs, paraphraseSummary)[i].1 != "" {
      LetterNonEmpty(m, pairs[i].0, pairs[i].1, paraphraseSummary);
    }
  }

  /** A dict built from key/value pairs in order: a later key overrides an earlier one. */
  function LastByName(named: seq<(string, string)>): map<string, string> {
    if named == [] then map[]
    else LastByName(named[..|named| - 1])[named[|named| - 1].0 := named[|named| - 1].1]
  }

  /** Every key is present, and only the given values occur. */
  lemma {:induction false} LastByNameSpec(named: seq<(string, string)>)
    ensures forall i :: 0 <= i < |named| ==> named[i].0 in LastByName(named)
    ensures (forall i :: 0 <= i < |named| ==> named[i].1 != "") ==>
              forall k :: k in LastByName(named) ==> LastByName(named)[k] != ""
  {
    if named != [] {
      var init := named[..|named| - 1];
      LastByNameSpec(init);
      assert forall i :: 0 <= i < |init| ==> init[i] == named[i];
    }
  }

  /** With distinct keys, each key maps to its own value. */
  lemma {:induction false} LastByNameDistinct(named: seq<(string, string)>, i: nat)
    requires i < |named|
    requires forall a, b :: 0 <= a < b < |named| ==> named[a].0 != named[b].0
    ensures named[i].0 in LastByName(named) && LastByName(named)[named[i].0] == named[i].1
  {
    LastByNameSpec(named);
    if i < |named| - 1 {
      var init := named[..|named| - 1];
      assert init[i] == named[i];
      LastByNameDistinct(init, i);
    }
  }

  /** `letters_by_publisher`: rendered letters by publisher name, a later pair with the
      same name overriding an earlier one. */
  function LettersByName(m: Manuscript, pairs: seq<(Publisher, Sections)>, paraphraseSummary: bool)
    : map<string, string>
  {
    LastByName(RenderedLetters(m, pairs, paraphraseSummary))
  }

  /** Every pair's name has a letter, and no letter is empty. */
  lemma LettersByNameSpec(m: Manuscript, pairs: seq<(Publisher, Sections)>, paraphraseSummary: bool)
    ensures forall i :: 0 <= i < |pairs| ==> pairs[i].0.name in LettersByName(m, pairs, paraphraseSummary)
    ensures forall n :: n in LettersByName(m, pairs, paraphraseSummary) ==> LettersByName(m, pairs, paraphraseSummary)[n] != ""
  {
    RenderedLettersNonEmpty(m, pairs, paraphraseSummary);
    LastByNameSpec(RenderedLetters(m, pairs, paraphraseSummary));
  }

  /** The outcome of the `try` block up to the dict of letters. */
  function BatchLetters(schema: Schema, payload: ComposerRequest, examples: seq<string>,
                        reply: Result<seq<BatchEntry>>): Result<map<string, string>>
  {
    var prompt := BuildBatchedPrompt(schema, payload.manuscript, payload.publishers, payload.options, examples);
    if prompt.Err? then Err(prompt.error)
    else if reply.Err? then Err(reply.error)
    else match MatchBatch(reply.value, payload.publishers)
      case Err(e) => Err(e)
      case Ok(pairs) => Ok(LettersByName(payload.manuscript, pairs, payload.options.paraphraseSummary))
  }

  /** One entry after the lookup: its letter, or "" and status "error" when missing. */
  function FillEntry(e: LetterResult, letters: map<string, string>): LetterResult {
    var letter := if e.publisher in letters then letters[e.publisher] else "";
    e.(letter := letter, status := if letter == "" then "error" else e.status)
  }

  function MissingErrors(entries: seq<LetterResult>, letters: map<string, string>): seq<string> {
    if entries == [] then []
    else
      var e := entries[|entries| - 1];
      var more := if FillEntry(e, letters).letter == "" then [e.publisher + ": missing letter in batch response"] else [];
      MissingErrors(entries[..|entries| - 1], letters) + more
  }

  function MarkFailed(e: LetterResult): LetterResult {
    e.(status := "error")
  }

  /** Every entry after the lookup loop. */
  function FilledResults(base: seq<LetterResult>, letters: map<string, string>): (r: seq<LetterResult>)
    ensures |r| == |base|
  {
    seq(|base|, i requires 0 <= i < |base| => FillEntry(base[i], letters))
  }

  /** Every entry after the `except` branch. */
  function FailedResults(base: seq<LetterResult>): (r: seq<LetterResult>)
    ensures |r| == |base|
  {
    seq(|base|, i requires 0 <= i < |base| => MarkFailed(base[i]))
  }

  /** What `compose_query_letters` returns: the few-shot examples are read before the
      `try`, so their error propagates; every failure inside the `try` marks all
      entries "error" and is reported once. */
  function Compose(schema: Schema, payload: ComposerRequest, examples: Result<seq<string>>,
                   reply: Result<seq<BatchEntry>>): Result<ComposerResponse>
  {
    if payload.publishers == [] then Err("publishers list cannot be empty")
    else if examples.Err? then Err(examples.error)
    else
      var base := InitialResults(payload.manuscript, payload.publishers);
      match BatchLetters(schema, payload, examples.value, reply)
      case Err(e) => Ok(ComposerResponse(FailedResults(base), [e]))
      case Ok(letters) => Ok(ComposerResponse(FilledResults(base, letters), MissingErrors(base, letters)))
  }

  /** `load_fewshot_examples`. `letters` holds the text of the "modified" file of each
      folder that has one, in sorted folder order, or is `None` when the letters directory
      does not exist; the examples are those texts stripped, at most four. */
  function LoadFewshotExamples(letters: Option<seq<string>>, dir: string): (r: Result<seq<string>>)
    ensures letters.None? ==> r == Err("Missing composer letters directory: " + dir)
    ensures letters == Some([]) ==> r == Err("No few-shot examples found in: " + dir)
    ensures letters.Some? && letters.value != [] ==>
              r.Ok? && 1 <= |r.value| <= 4 && |r.value| <= |letters.value|
              && (|letters.value| >= 4 ==> |r.value| == 4)
              && forall i :: 0 <= i < |r.value| ==> r.value[i] == Strip(letters.value[i])
  {
    match letters
    case None => Err("Missing composer letters directory: " + dir)
    case Some(found) =>
      var examples := seq(|found|, i requires 0 <= i < |found| => Strip(found[i]));
      if examples == [] then Err("No few-shot examples found in: " + dir)
      else if |examples| > 4 then Ok(examples[..4])
      else Ok(examples)
  }

  /** The first loop of `compose_query_letters`: one entry per publisher. */
  method BuildInitialResults(m: Manuscript, publishers: seq<Publisher>) returns (results: seq<LetterResult>)
    ensures results == InitialResults(m, publishers)
  {
    results := [];
    var i := 0;
    while i < |publishers|
      invariant 0 <= i <= |publishers|
      invariant results == InitialResults(m, publishers[..i])
    {
      assert publishers[..i + 1][..i] == publishers[..i];
      var publisher := publishers[i];
      var warnings := CollectWarnings(m, publisher);
      results := results + [NewLetterResult(publisher.name, "", warnings)];
      i := i + 1;
    }
    assert publishers[..i] == publishers;
  }

  /** The two warning checks of the first loop. */
  method CollectWarnings(m: Manuscript, publisher: Publisher) returns (warnings: seq<string>)
    ensures warnings == Warnings(m, publisher)
  {
    warnings := [];
    if publisher.comps.GetOr([]) == [] {
      warnings := warnings + ["comps_missing"];
    }
    if m.personalizationNotes.GetOr("") == "" {
      warnings := warnings + ["personalization_missing"];
    }
  }

  /** The lookup loop: each entry takes its letter, or is marked "error" and reported
      when there is none. */
  method FillLetters(base: seq<LetterResult>, letters: map<string, string>)
    returns (results: seq<LetterResult>, errors: seq<string>)
    ensures results == FilledResults(base, letters)
    ensures errors == MissingErrors(base, letters)
  {
    results := base;
    errors := [];
    var j := 0;
    while j < |results|
      invariant 0 <= j <= |results| == |base|
      invariant forall k :: 0 <= k < j ==> results[k] == FillEntry(base[k], letters)
      invariant forall k :: j <= k < |results| ==> results[k] == base[k]
      invariant errors == MissingErrors(base[..j], letters)
    {
      assert base[..j + 1][..j] == base[..j];
      var entry, missing := FillOne(results[j], letters);
      assert MissingErrors(base[..j + 1], letters) == MissingErrors(base[..j], letters) + missing;
      errors := errors + missing;
      results := results[j := entry];
      j := j + 1;
    }
    assert base[..j] == base;
  }

  /** One pass of the lookup loop: the entry takes its letter, or is marked "error" with
      one message naming its publisher when there is none. */
  method FillOne(e: LetterResult, letters: map<string, string>) returns (entry: LetterResult, missing: seq<string>)
    ensures entry == FillEntry(e, letters)
    ensures missing == if entry.letter == "" then [e.publisher + ": missing letter in batch response"] else []
  {
    var letter := if e.publisher in letters then letters[e.publisher] else "";
    entry := e.(letter := letter);
    missing := [];
    if letter == "" {
      entry := entry.(status := "error");
      missing := [entry.publisher + ": missing letter in batch response"];
    }
  }

  /** The `except` branch: every entry is marked "error". */
  method MarkAllFailed(base: seq<LetterResult>) returns (results: seq<LetterResult>)
    ensures results == FailedResults(base)
  {
    results := base;
    var j := 0;
    while j < |results|
      invariant 0 <= j <= |results| == |base|
      invariant forall k :: 0 <= k < j ==> results[k] == MarkFailed(base[k])
      invariant forall k :: j <= k < |results| ==> results[k] == base[k]
    {
      results := results[j := results[j].(status := "error")];
      j := j + 1;
    }
  }

  /** `compose_query_letters`: builds the entries, then fills or fails them. */
  method ComposeQueryLetters(schema: Schema, payload: ComposerRequest, examples: Result<seq<string>>,
                             reply: Result<seq<BatchEntry>>) returns (r: Result<ComposerResponse>)
    ensures r == Compose(schema, payload, examples, reply)
  {
    if payload.publishers == [] {
      return Err("publishers list cannot be empty");
    }
    if examples.Err? {
      return Err(examples.error);
    }
    var results := BuildInitialResults(payload.manuscript, payload.publishers);
    ghost var base := results;
    var errors := [];
    var outcome := BatchLetters(schema, payload, examples.value, reply);
    if outcome.Ok? {
      results, errors := FillLetters(results, outcome.value);
      assert Compose(schema, payload, examples, reply)
             == Ok(ComposerResponse(FilledResults(base, outcome.value), MissingErrors(base, outcome.value)));
    } else {
      errors := [outcome.error];
      results := MarkAllFailed(results);
      assert Compose(schema, payload, examples, reply)
             == Ok(ComposerResponse(FailedResults(base), [outcome.error]));
    }
    r := Ok(ComposerResponse(results, errors));
  }

  // ---------------------------------------------------------------------------
  // What compose_query_letters promises
  // ---------------------------------------------------------------------------

  /** Without publishers the request is refused; otherwise (the examples read) there
      is one result per publisher, in order, with that publisher's warnings. */
  lemma ComposeShape(schema: Schema, payload: ComposerRequest, examples: Result<seq<string>>,
                     reply: Result<seq<BatchEntry>>)
    ensures payload.publishers == [] ==>
              Compose(schema, payload, examples, reply) == Err("publishers list cannot be empty")
    ensures payload.publishers != [] && examples.Err? ==>
              Compose(schema, payload, examples, reply) == Err(examples.error)
    ensures payload.publishers != [] && examples.Ok? ==>
              var r := Compose(schema, payload, examples, reply);
              && r.Ok?
              && |r.value.letters| == |payload.publishers|
              && forall i :: 0 <= i < |payload.publishers| ==>
                   r.value.letters[i].publisher == payload.publishers[i].name
                   && r.value.letters[i].warnings == Warnings(payload.manuscript, payload.publishers[i])
  {
    InitialResultsSpec(payload.manuscript, payload.publishers);
  }

  /** Any failure inside the batch step marks every entry "error", leaves every letter
      empty and reports exactly that failure. */
  lemma {:induction false} ComposeFailure(schema: Schema, payload: ComposerRequest, examples: Result<seq<string>>,
                                          reply: Result<seq<BatchEntry>>)
    requires payload.publishers != [] && examples.Ok?
    requires BatchLetters(schema, payload, examples.value, reply).Err?
    ensures var r := Compose(schema, payload, examples, reply);
            && r.Ok?
            && r.value.errors == [BatchLetters(schema, payload, examples.value, reply).error]
            && forall i :: 0 <= i < |r.value.letters| ==>
                 r.value.letters[i].status == "error" && r.value.letters[i].letter == ""
  {
    InitialResultsSpec(payload.manuscript, payload.publishers);
  }

  lemma {:induction false} MissingErrorsNone(entries: seq<LetterResult>, letters: map<string, string>)
    requires forall i :: 0 <= i < |entries| ==> entries[i].publisher in letters
    requires forall n :: n in letters ==> letters[n] != ""
    ensures MissingErrors(entries, letters) == []
  {
    if entries != [] {
      MissingErrorsNone(entries[..|entries| - 1], letters);
    }
  }

  /** When the reply covers every publisher, every entry gets its rendered letter,
      keeps status "ok" and no error is reported: the missing-letter branch never fires
      because a rendered letter is never empty. */
  lemma ComposeSuccess(payload: ComposerRequest, examples: Result<seq<string>>, letters: seq<BatchEntry>)
    requires payload.publishers != [] && examples.Ok?
    requires forall i :: 0 <= i < |payload.publishers| ==> SectionsFor(letters, payload.publishers[i].name).Some?
    ensures var r := Compose(WithDetailFields, payload, examples, Ok(letters));
            && r.Ok? && r.value.errors == []
            && |r.value.letters| == |payload.publishers|
            && forall i :: 0 <= i < |r.value.letters| ==>
                 r.value.letters[i].status == "ok" && r.value.letters[i].letter != ""
  {
    var byName := SuccessLetters(payload, examples.value, letters);
    var base := InitialResults(payload.manuscript, payload.publishers);
    ComposeFilled(WithDetailFields, payload, examples, Ok(letters), byName);
    InitialResultsOk(payload.manuscript, payload.publishers);
    MissingErrorsNone(base, byName);
    FilledAllOk(base, byName);
  }

  /** Every initial entry carries its publisher's name and status "ok". */
  lemma InitialResultsOk(m: Manuscript, publishers: seq<Publisher>)
    ensures var base := InitialResults(m, publishers);
            forall i :: 0 <= i < |base| ==> base[i].publisher == publishers[i].name && base[i].status == "ok"
  {
    InitialResultsSpec(m, publishers);
    var base := InitialResults(m, publishers);
    forall i | 0 <= i < |base| ensures base[i].publisher == publishers[i].name && base[i].status == "ok" {
      assert base[i] == NewLetterResult(publishers[i].name, "", Warnings(m, publishers[i]));
    }
  }

  /** A batch step that succeeds fills the initial entries from its letters. */
  lemma ComposeFilled(schema: Schema, payload: ComposerRequest, examples: Result<seq<string>>,
                      reply: Result<seq<BatchEntry>>, byName: map<string, string>)
    requires payload.publishers != [] && examples.Ok?
    requires BatchLetters(schema, payload, examples.value, reply) == Ok(byName)
    ensures var base := InitialResults(payload.manuscript, payload.publishers);
            Compose(schema, payload, examples, reply)
            == Ok(ComposerResponse(FilledResults(base, byName), MissingErrors(base, byName)))
  {
  }

  /** Entries whose names all have non-empty letters are all filled and stay "ok". */
  lemma FilledAllOk(base: seq<LetterResult>, byName: map<string, string>)
    requires forall i :: 0 <= i < |base| ==> base[i].publisher in byName && base[i].status == "ok"
    requires forall n :: n in byName ==> byName[n] != ""
    ensures var filled := FilledResults(base, byName);
            forall i :: 0 <= i < |filled| ==> filled[i].status == "ok" && filled[i].letter != ""
  {
  }

  /** With distinct publisher names, each entry's letter is the one rendered for that
      very publisher from the reply's entry for it. */
  lemma ComposeLetterIsRendered(payload: ComposerRequest, examples: Result<seq<string>>,
                                letters: seq<BatchEntry>, i: nat)
    requires payload.publishers != [] && examples.Ok?
    requires forall i :: 0 <= i < |payload.publishers| ==> SectionsFor(letters, payload.publishers[i].name).Some?
    requires forall a, b :: 0 <= a < b < |payload.publishers| ==>
               payload.publishers[a].name != payload.publishers[b].name
    requires i < |payload.publishers|
    ensures var r := Compose(WithDetailFields, payload, examples, Ok(letters));
            && r.Ok? && i < |r.value.letters|
            && r.value.letters[i].letter
               == RenderLetter(payload.manuscript, payload.publishers[i],
                               SectionsFor(letters, payload.publishers[i].name).value,
                               payload.options.paraphraseSummary)
  {
    var pubs := payload.publishers;
    var byName := SuccessLetters(payload, examples.value, letters);
    var base := InitialResults(payload.manuscript, pubs);
    InitialResultsSpec(payload.manuscript, pubs);
    var filled := FilledResults(base, byName);
    assert Compose(WithDetailFields, payload, examples, Ok(letters))
           == Ok(ComposerResponse(filled, MissingErrors(base, byName)));
    MatchBatchSpec(letters, pubs);
    var pairs := MatchBatch(letters, pubs).value;
    LettersByNameDistinct(payload.manuscript, pairs, payload.options.paraphraseSummary, i);
    assert filled[i] == FillEntry(base[i], byName);
  }

  /** The letters of a reply that covers every publisher: one, never empty, per name. */
  lemma SuccessLetters(payload: ComposerRequest, examples: seq<string>, letters: seq<BatchEntry>)
    returns (byName: map<string, string>)
    requires forall i :: 0 <= i < |payload.publishers| ==> SectionsFor(letters, payload.publishers[i].name).Some?
    ensures BatchLetters(WithDetailFields, payload, examples, Ok(letters)) == Ok(byName)
    ensures forall i :: 0 <= i < |payload.publishers| ==> payload.publishers[i].name in byName
    ensures forall n :: n in byName ==> byName[n] != ""
    ensures MatchBatch(letters, payload.publishers).Ok?
    ensures byName == LettersByName(payload.manuscript, MatchBatch(letters, payload.publishers).value,
                                    payload.options.paraphraseSummary)
  {
    MatchBatchSpec(letters, payload.publishers);
    var pairs := MatchBatch(letters, payload.publishers).value;
    byName := LettersByName(payload.manuscript, pairs, payload.options.paraphraseSummary);
    var prompt := BuildBatchedPrompt(WithDetailFields, payload.manuscript, payload.publishers, payload.options, examples);
    assert prompt.Ok?;
    assert BatchLetters(WithDetailFields, payload, examples, Ok(letters)) == Ok(byName);
    LettersByNameSpec(payload.manuscript, pairs, payload.options.paraphraseSummary);
    forall i | 0 <= i < |payload.publishers| ensures payload.publishers[i].name in byName {
      assert pairs[i].0 == payload.publishers[i];
    }
  }

  /** With distinct names, each name maps to the letter for its own pair. */
  lemma LettersByNameDistinct(m: Manuscript, pairs: seq<(Publisher, Sections)>,
                              paraphraseSummary: bool, i: nat)
    requires i < |pairs|
    requires forall a, b :: 0 <= a < b < |pairs| ==> pairs[a].0.name != pairs[b].0.name
    ensures pairs[i].0.name in LettersByName(m, pairs, paraphraseSummary)
    ensures LettersByName(m, pairs, paraphraseSummary)[pairs[i].0.name]
            == RenderLetter(m, pairs[i].0, pairs[i].1, paraphraseSummary)
  {
    var named := RenderedLetters(m, pairs, paraphraseSummary);
    RenderedLettersDistinct(m, pairs, paraphraseSummary);
    LastByNameDistinct(named, i);
    assert named[i] == (pairs[i].0.name, RenderLetter(m, pairs[i].0, pairs[i].1, paraphraseSummary));
  }

  lemma RenderedLettersDistinct(m: Manuscript, pairs: seq<(Publisher, Sections)>, paraphraseSummary: bool)
    requires forall a, b :: 0 <= a < b < |pairs| ==> pairs[a].0.name != pairs[b].0.name
    ensures var named := RenderedLetters(m, pairs, paraphraseSummary);
            forall a, b :: 0 <= a < b < |named| ==> named[a].0 != named[b].0
  {
  }

  /** The finding, as written: with the schema as declared, every request with
      publishers and examples ends with every entry "error" and the attribute error as
      the only message, whatever the model replies. */
  lemma ComposeAsDeclaredAlwaysFails(payload: ComposerRequest, examples: Result<seq<string>>,
                                     reply: Result<seq<BatchEntry>>)
    requires payload.publishers != [] && examples.Ok?
    ensures var r := Compose(AsDeclared, payload, examples, reply);
            && r.Ok?
            && r.value.errors == [DetailSummaryError]
            && forall i :: 0 <= i < |r.value.letters| ==> r.value.letters[i].status == "error"
  {
    ComposeFailure(AsDeclared, payload, examples, reply);
  }
}

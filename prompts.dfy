/**
 * The text handed to the generative-AI tools: the transcript when there is one,
 * cut to a fixed character budget, and a title (and tags) fallback otherwise.
 */
module Prompts {
  import opened Wrappers
  import opened Text

  /** Character budgets: forensic audit, title generator, and the studio tabs of the Vertex edition. */
  const ForensicBudget: nat := 8000
  const TitleBudget: nat := 4000
  const StudioBudget: nat := 6000

  const TitleLabel := "Title: "

  /**
   * Python truthiness of `get_transcript_text`'s result: `None` when the lookup
   * raised, the empty string when there were no caption fragments.
   */
  predicate HasTranscript(transcript: Option<string>) {
    transcript.Some? && transcript.value != ""
  }

  /** Which material the forensic audit analyses, and the material itself. */
  datatype AuditContext = AuditContext(source: string, data: string)

  /** `str(tags)` for a list of strings, e.g. `['a', 'b']` (the escaping of quotes inside a tag is not modelled). */
  function TagListRepr(tags: seq<string>): (s: string)
    ensures |s| >= 2 && s[0] == '[' && s[|s| - 1] == ']'
    ensures tags == [] <==> s == "[]"
  {
    "[" + QuotedTags(tags) + "]"
  }

  function QuotedTags(tags: seq<string>): (s: string)
    ensures tags == [] <==> s == ""
    decreases |tags|
  {
    if |tags| == 0 then ""
    else if |tags| == 1 then "'" + tags[0] + "'"
    else "'" + tags[0] + "', " + QuotedTags(tags[1..])
  }

  /** Each further tag is appended quoted, after a ", " separator. */
  lemma {:induction false} QuotedTagsAppend(a: seq<string>, t: string)
    requires a != []
    ensures QuotedTags(a + [t]) == QuotedTags(a) + ", '" + t + "'"
    decreases |a|
  {
    if |a| == 1 {
      assert (a + [t])[1..] == [t];
    } else {
      assert (a + [t])[1..] == a[1..] + [t];
      QuotedTagsAppend(a[1..], t);
    }
  }

  /** A single tag is rendered between single quotes. */
  lemma QuotedTagsSingle(t: string)
    ensures QuotedTags([t]) == "'" + t + "'"
    ensures TagListRepr([t]) == "['" + t + "']"
  {
  }

  /**
   * The context of `ai_forensic_audit`: the first 8000 characters of a transcript,
   * or "Title: <title>. Tags: <tag list>" when there is no transcript.
   */
  function ForensicContext(transcript: Option<string>, title: string, tags: seq<string>): (c: AuditContext)
    ensures HasTranscript(transcript) ==>
      && c.source == "Full Transcript"
      && |c.data| == Min(ForensicBudget, |transcript.value|)
      && c.data == transcript.value[..|c.data|]
    ensures !HasTranscript(transcript) ==>
      && c.source == "Title & Metadata (Transcript Unavailable)"
      && c.data == TitleLabel + title + ". Tags: " + TagListRepr(tags)
    ensures c.data != ""
  {
    if HasTranscript(transcript) then
      AuditContext("Full Transcript", Prefix(transcript.value, ForensicBudget))
    else
      AuditContext("Title & Metadata (Transcript Unavailable)", TitleLabel + title + ". Tags: " + TagListRepr(tags))
  }

  /** `get_transcript_text(id) or f"Title: {title}"`: the transcript, or the title line when there is none. */
  function TranscriptOrTitle(transcript: Option<string>, title: string): (s: string)
    ensures HasTranscript(transcript) ==> s == transcript.value
    ensures !HasTranscript(transcript) ==> s == TitleLabel + title
    ensures s != ""
  {
    if HasTranscript(transcript) then transcript.value else TitleLabel + title
  }

  /**
   * The transcript text of `ai_title_generator`: the transcript-or-title text
   * cut to 4000 characters.
   */
  function TitleGeneratorInput(transcript: Option<string>, title: string): (s: string)
    ensures |s| <= TitleBudget
    ensures HasTranscript(transcript) ==> s == transcript.value[..Min(TitleBudget, |transcript.value|)]
    ensures !HasTranscript(transcript) ==> |s| >= |TitleLabel| && s[..|TitleLabel|] == TitleLabel
    ensures !HasTranscript(transcript) && |TitleLabel + title| <= TitleBudget ==> s == TitleLabel + title
  {
    Prefix(TranscriptOrTitle(transcript, title), TitleBudget)
  }

  /**
   * The transcript text of the marketing and editing prompts in the Vertex edition:
   * the transcript-or-title text cut to 6000 characters.
   */
  function StudioInput(transcript: Option<string>, title: string): (s: string)
    ensures |s| <= StudioBudget
    ensures HasTranscript(transcript) ==> s == transcript.value[..Min(StudioBudget, |transcript.value|)]
    ensures !HasTranscript(transcript) ==> |s| >= |TitleLabel| && s[..|TitleLabel|] == TitleLabel
    ensures !HasTranscript(transcript) && |TitleLabel + title| <= StudioBudget ==> s == TitleLabel + title
  {
    Prefix(TranscriptOrTitle(transcript, title), StudioBudget)
  }

  /** The title generator sees a prefix of what the forensic audit sees, when both read the same transcript. */
  lemma TitleInputWithinForensicContext(transcript: Option<string>, title: string, tags: seq<string>)
    requires HasTranscript(transcript)
    ensures var f := ForensicContext(transcript, title, tags).data;
      var t := TitleGeneratorInput(transcript, title);
      |t| <= |f| && t == f[..|t|]
  {
  }
}

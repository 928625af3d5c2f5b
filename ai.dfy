/** The string building around the two model calls: the transcript handed to
    the note extractor (`summarize_messages`) and the hot/cold context of the
    answer prompt (`generate_answer`). The model calls themselves are
    parameters: `reply` maps a transcript to the decoded list of notes, or to
    None when generation or `json.loads` raises; `synth` maps a prompt to the
    generated text, or to the text of the exception it raised. */
module Ai {
  import opened Values

  /** Why a question could not be answered: the exception that escapes. */
  datatype AskError =
    | UndecodableEntry  // `json.loads` raised on a buffered string
    | MissingKey        // `m['user']` or `m['text']` raised KeyError

  /** One transcript line: the author, a colon and a space, the text; a missing
      author reads "Unknown" and a missing text reads "". */
  function TranscriptLine(m: Msg): string {
    ShownOr(m.user, "Unknown") + ": " + ShownOr(m.text, "")
  }

  function TranscriptLines(ms: seq<Msg>): seq<string> {
    seq(|ms|, i requires 0 <= i < |ms| => TranscriptLine(ms[i]))
  }

  /** The transcript: one line per message, in order, joined by newlines. */
  function Transcript(ms: seq<Msg>): string {
    Join(TranscriptLines(ms), "\n")
  }

  /** The ASCII characters `str.strip` removes: space, tab to carriage return,
      and the four separators 0x1C to 0x1F. */
  predicate IsSpace(c: char) {
    c == ' ' || '\t' <= c <= '\r' || '\U{1C}' <= c <= '\U{1F}'
  }

  /** `not s.strip()` */
  predicate IsBlank(s: string) {
    forall i :: 0 <= i < |s| ==> IsSpace(s[i])
  }

  /** The blank-transcript guard fires exactly on an empty message list: every
      line holds a colon, which is not whitespace. */
  lemma TranscriptBlankIff(ms: seq<Msg>)
    ensures IsBlank(Transcript(ms)) <==> ms == []
  {
    if ms != [] {
      var lines := TranscriptLines(ms);
      JoinStartsWithFirst(lines, "\n");
      var author := ShownOr(ms[0].user, "Unknown");
      assert lines[0][|author|] == ':';
      assert Transcript(ms)[|author|] == ':';
    }
  }

  predicate NoNewline(f: Field) {
    !(f.Str? && '\n' in f.s)
  }

  /** When no author or text holds a newline, splitting the transcript at
      newlines gives back exactly one line per message, in input order. */
  lemma {:induction false} TranscriptOneLinePerMessage(ms: seq<Msg>)
    requires ms != []
    requires forall i :: 0 <= i < |ms| ==> NoNewline(ms[i].user) && NoNewline(ms[i].text)
    ensures Split(Transcript(ms), '\n') == TranscriptLines(ms)
    ensures forall i :: 0 <= i < |ms| ==> Split(Transcript(ms), '\n')[i] == TranscriptLine(ms[i])
  {
    var lines := TranscriptLines(ms);
    forall i | 0 <= i < |lines|
      ensures '\n' !in lines[i]
    {
      assert lines[i] == ShownOr(ms[i].user, "Unknown") + ": " + ShownOr(ms[i].text, "");
    }
    SplitJoin(lines, '\n');
  }

  /** `summarize_messages`: no model call on a blank transcript; otherwise the
      decoded reply, with every failure turned into no notes. */
  function Summarize(ms: seq<Msg>, reply: string -> Option<seq<Note>>): (notes: seq<Note>)
    ensures ms == [] ==> notes == []
    ensures reply(Transcript(ms)).None? ==> notes == []
    ensures ms != [] && reply(Transcript(ms)).Some? ==> notes == reply(Transcript(ms)).value
  {
    var transcript := Transcript(ms);
    TranscriptBlankIff(ms);
    if IsBlank(transcript) then []
    else match reply(transcript)
      case None => []
      case Some(notes) => notes
  }

  /** `m['user']` and `m['text']` exist. */
  predicate HasHotKeys(m: Msg) {
    !m.user.Absent? && !m.text.Absent?
  }

  function HotLines(ms: seq<Msg>): seq<string> {
    seq(|ms|, i requires 0 <= i < |ms| => Shown(ms[i].user) + ": " + Shown(ms[i].text))
  }

  /** The short-term context of the answer prompt: None when a message lacks
      `user` or `text` (the KeyError escapes); otherwise the same text as the
      transcript the note extractor sees. */
  function HotContext(ms: seq<Msg>): (r: Option<string>)
    ensures r.Some? <==> forall i :: 0 <= i < |ms| ==> HasHotKeys(ms[i])
    ensures r.Some? ==> r.value == Transcript(ms)
  {
    if forall i :: 0 <= i < |ms| ==> HasHotKeys(ms[i]) then
      assert HotLines(ms) == TranscriptLines(ms);
      Some(Join(HotLines(ms), "\n"))
    else
      None
  }

  /** One long-term context line: a dash, the note's text, then its type in
      parentheses. */
  function ColdLine(n: NoteRecord): string {
    "- " + n.text + " (Type: " + n.kind + ")"
  }

  function ColdLines(ns: seq<NoteRecord>): seq<string> {
    seq(|ns|, i requires 0 <= i < |ns| => ColdLine(ns[i]))
  }

  function ColdContext(ns: seq<NoteRecord>): string {
    Join(ColdLines(ns), "\n")
  }

  /** One "- text (Type: type)" line per note, in order, when no note text or
      type holds a newline. */
  lemma {:induction false} ColdContextOneLinePerNote(ns: seq<NoteRecord>)
    requires ns != []
    requires forall i :: 0 <= i < |ns| ==> '\n' !in ns[i].text && '\n' !in ns[i].kind
    ensures Split(ColdContext(ns), '\n') == ColdLines(ns)
    ensures forall i :: 0 <= i < |ns| ==> ColdLines(ns)[i][..2] == "- "
  {
    var lines := ColdLines(ns);
    forall i | 0 <= i < |lines|
      ensures '\n' !in lines[i]
    {
      assert lines[i] == "- " + ns[i].text + " (Type: " + ns[i].kind + ")";
    }
    SplitJoin(lines, '\n');
  }

  const LONG_TERM_HEADER := "[LONG TERM MEMORY (Verified Decisions & Notes)]"
  const SHORT_TERM_HEADER := "[SHORT TERM MEMORY (Recent Raw Conversation)]"
  const QUESTION_HEADER := "[USER QUESTION]"
  const ERROR_PREFIX := "I encountered an error thinking about that: "

  /** The sections of the answer prompt: long-term memory, then short-term
      memory, then the question, each under its header. */
  function AnswerPrompt(query: string, hot: string, cold: string): string {
    LONG_TERM_HEADER + "\n" + cold + "\n\n" + SHORT_TERM_HEADER + "\n" + hot + "\n\n" + QUESTION_HEADER + "\n" + query
  }

  /** Long-term memory comes first, short-term memory after it, the question
      last, each at a fixed offset from the end of the one before. */
  lemma PromptSectionsInOrder(query: string, hot: string, cold: string)
    ensures var p := AnswerPrompt(query, hot, cold);
            var c0 := |LONG_TERM_HEADER| + 1;
            var h0 := c0 + |cold| + 2 + |SHORT_TERM_HEADER| + 1;
            var q0 := h0 + |hot| + 2 + |QUESTION_HEADER| + 1;
            c0 + |cold| < h0 && h0 + |hot| < q0 && q0 + |query| == |p| &&
            p[c0..c0 + |cold|] == cold && p[h0..h0 + |hot|] == hot && p[q0..] == query
  {
    var p := AnswerPrompt(query, hot, cold);
    var c0 := |LONG_TERM_HEADER| + 1;
    var h0 := c0 + |cold| + 2 + |SHORT_TERM_HEADER| + 1;
    var q0 := h0 + |hot| + 2 + |QUESTION_HEADER| + 1;
    var a := LONG_TERM_HEADER + "\n";
    var b := "\n\n" + SHORT_TERM_HEADER + "\n";
    var c := "\n\n" + QUESTION_HEADER + "\n";
    assert p == a + cold + b + hot + c + query;
    assert p[c0..c0 + |cold|] == cold;
    assert p[h0..h0 + |hot|] == hot;
    assert p[q0..] == query;
  }

  /** `generate_answer`: the synthesized text, or the error prefix followed by
      the exception's text when synthesis raises; a message without `user` or
      `text` makes it raise instead. */
  function GenerateAnswer(query: string, hot: seq<Msg>, cold: seq<NoteRecord>,
                          synth: string -> Result<string, string>): (r: Result<string, AskError>)
    ensures r.Err? <==> !(forall i :: 0 <= i < |hot| ==> HasHotKeys(hot[i]))
    ensures r.Err? ==> r.error == MissingKey
    ensures r.Ok? ==>
              var outcome := synth(AnswerPrompt(query, Transcript(hot), ColdContext(cold)));
              (outcome.Ok? ==> r.value == outcome.value) &&
              (outcome.Err? ==> r.value == ERROR_PREFIX + outcome.error && r.value[..|ERROR_PREFIX|] == ERROR_PREFIX)
  {
    match HotContext(hot)
    case None => Err(MissingKey)
    case Some(hotContext) =>
      match synth(AnswerPrompt(query, hotContext, ColdContext(cold)))
      case Ok(text) => Ok(text)
      case Err(e) => Ok(ERROR_PREFIX + e)
  }
}

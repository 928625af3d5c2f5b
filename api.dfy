/** The web process: `slack_events`, which buffers accepted chat messages,
    refreshes the channel's activity marker and schedules a flush attempt, and
    `ask_question`, which answers from the newest buffered messages and the
    notes retrieved for the question. */
module Api {
  import opened Values
  import opened RedisList
  import opened Ai
  import opened Store
  import opened KnowledgeIndex
  import opened Worker

  /** Seconds between accepting a message and the flush attempt it schedules. */
  const COUNTDOWN: int := 20
  /** `LRANGE buffer -50 -1` reads at most this many of the newest entries. */
  const HOT_WINDOW: nat := 50

  /** The keys of a Slack event that the handler reads. */
  datatype Event = Event(kind: Field, subtype: Field, botId: Field, channel: Field,
                         user: Field, text: Field, ts: Field)

  /** The "event" key of a webhook body: missing (read as `{}`), an object,
      or another JSON value, on which `.get` raises. */
  datatype EventField = NoEvent | EventObject(event: Event) | NotAnObject

  /** A webhook body, a JSON object. */
  datatype Body = Body(kind: Field, challenge: Field, event: EventField)

  /** What the handler answers: `{"challenge": ...}`, `{"status": ...}`, or an
      internal server error when an exception escapes. */
  datatype Response = Challenge(challenge: Field) | Status(status: string) | ServerError

  /** What the handler does with a body. */
  datatype Action =
    | Handshake(challenge: Field)        // URL verification
    | IgnoreBot                          // a message posted by a bot
    | Enqueue(channel: string, msg: Msg) // an accepted chat message
    | Pass                               // any other event
    | Fail                               // `.get` on a non-object "event"

  /** `body.get("event", {})` read as an event: missing means every key is missing. */
  function EventOf(body: Body): Event
    requires !body.event.NotAnObject?
  {
    match body.event
    case NoEvent => Event(Absent, Absent, Absent, Absent, Absent, Absent, Absent)
    case EventObject(e) => e
  }

  /** `json.dumps` of a value read with `.get`: a missing key is written as `null`. */
  function Stored(f: Field): (r: Field)
    ensures f.Absent? ==> r == Null
    ensures !f.Absent? ==> r == f
    ensures !r.Absent? && Shown(r) == Shown(f)
  {
    if f.Absent? then Null else f
  }

  /** The handler's decision. URL verification wins over everything; then a
      non-object event fails; then a truthy `bot_id` is ignored; then only a
      "message" event with no truthy subtype is buffered, under the key
      formatted from its channel and with its user, text and ts. */
  function Classify(body: Body): (a: Action)
    ensures body.kind == Str("url_verification") <==> a.Handshake?
    ensures a.Handshake? ==> a.challenge == body.challenge
    ensures a.Fail? <==> body.kind != Str("url_verification") && body.event.NotAnObject?
    ensures a.IgnoreBot? <==>
              body.kind != Str("url_verification") && !body.event.NotAnObject? && Truthy(EventOf(body).botId)
    ensures a.Enqueue? <==>
              body.kind != Str("url_verification") && !body.event.NotAnObject? &&
              !Truthy(EventOf(body).botId) &&
              EventOf(body).kind == Str("message") && !Truthy(EventOf(body).subtype)
    ensures a.Enqueue? ==>
              var e := EventOf(body);
              a.channel == Shown(e.channel) && HasHotKeys(a.msg) && !a.msg.ts.Absent? &&
              Shown(a.msg.user) == Shown(e.user) && Shown(a.msg.text) == Shown(e.text) &&
              Shown(a.msg.ts) == Shown(e.ts) &&
              a.msg == Msg(Stored(e.user), Stored(e.text), Stored(e.ts))
  {
    if body.kind == Str("url_verification") then Handshake(body.challenge)
    else if body.event.NotAnObject? then Fail
    else
      var e := EventOf(body);
      if Truthy(e.botId) then IgnoreBot
      else if e.kind == Str("message") && !Truthy(e.subtype) then
        Enqueue(Shown(e.channel), Msg(Stored(e.user), Stored(e.text), Stored(e.ts)))
      else Pass
  }

  /** The response for each decision. */
  function Reply(a: Action): (r: Response)
    ensures r.ServerError? <==> a.Fail?
    ensures r.Challenge? <==> a.Handshake?
    ensures a.Handshake? ==> r == Challenge(a.challenge)
    ensures r == Status("ignored_bot") <==> a.IgnoreBot?
    ensures r == Status("ok") <==> a.Enqueue? || a.Pass?
  {
    match a
    case Handshake(c) => Challenge(c)
    case IgnoreBot => Status("ignored_bot")
    case Enqueue(_, _) => Status("ok")
    case Pass => Status("ok")
    case Fail => ServerError
  }

  /** Every scheduled attempt for a channel that has a marker fires no later
      than COUNTDOWN after that marker. */
  ghost predicate Armed(active: map<string, int>, scheduled: seq<Attempt>) {
    forall i :: 0 <= i < |scheduled| && scheduled[i].channel in active ==>
      scheduled[i].fire <= active[scheduled[i].channel] + COUNTDOWN
  }

  /** Every attempt was scheduled at or before `now`. */
  ghost predicate ScheduledBy(scheduled: seq<Attempt>, now: int) {
    forall i :: 0 <= i < |scheduled| ==> scheduled[i].fire <= now + COUNTDOWN
  }

  /** Every buffered entry is one the handler wrote: a message object with
      "user", "text" and "ts" keys. */
  predicate FromIngress(buffers: map<string, seq<Entry>>) {
    forall c, i :: c in buffers && 0 <= i < |buffers[c]| ==>
      buffers[c][i].Encoded? && HasHotKeys(buffers[c][i].msg)
  }

  /** `slack_events` at time `now`. An accepted message is pushed at the tail
      of its channel's buffer, the marker is overwritten with `now` and one
      attempt is scheduled COUNTDOWN seconds later; every other body changes
      nothing. The handler keeps the buffers well formed and, with time
      moving forward, keeps every pending attempt armed. */
  method SlackEvents(store: ChannelStore, body: Body, now: int) returns (resp: Response)
    requires store.Valid()
    modifies store
    ensures store.Valid()
    ensures resp == Reply(Classify(body))
    ensures match Classify(body)
            case Enqueue(c, m) =>
              store.buffers == old(store.buffers)[c := old(store.Buffer(c)) + [Encoded(m)]] &&
              store.active == old(store.active)[c := now] &&
              store.scheduled == old(store.scheduled) + [Attempt(c, now + COUNTDOWN)]
            case _ =>
              store.buffers == old(store.buffers) && store.active == old(store.active) &&
              store.scheduled == old(store.scheduled)
    ensures FromIngress(old(store.buffers)) ==> FromIngress(store.buffers)
    ensures ScheduledBy(old(store.scheduled), now) ==> ScheduledBy(store.scheduled, now)
    ensures Armed(old(store.active), old(store.scheduled)) && ScheduledBy(old(store.scheduled), now) ==>
              Armed(store.active, store.scheduled)
  {
    var action := Classify(body);
    if action.Enqueue? {
      var c, m := action.channel, action.msg;
      ghost var before := store.buffers;
      store.RPush(c, Encoded(m));
      store.SetActive(c, now);
      store.ApplyAsync(c, now + COUNTDOWN);
      assert store.buffers == before[c := (if c in before then before[c] else []) + [Encoded(m)]];
    }
    resp := Reply(action);
  }

  /** Deleting a marker leaves every pending attempt armed. */
  lemma ArmedAfterFlush(active: map<string, int>, scheduled: seq<Attempt>, c: string)
    requires Armed(active, scheduled)
    ensures Armed(active - {c}, scheduled)
  {
    forall i | 0 <= i < |scheduled| && scheduled[i].channel in active - {c}
      ensures scheduled[i].fire <= (active - {c})[scheduled[i].channel] + COUNTDOWN
    {
      assert scheduled[i].channel in active;
    }
  }

  /** Removing a channel's buffer keeps the rest well formed. */
  lemma FromIngressAfterFlush(buffers: map<string, seq<Entry>>, c: string)
    requires FromIngress(buffers)
    ensures FromIngress(buffers - {c})
  {
    forall d, i | d in buffers - {c} && 0 <= i < |(buffers - {c})[d]|
      ensures (buffers - {c})[d][i].Encoded? && HasHotKeys((buffers - {c})[d][i].msg)
    {
      assert d in buffers && (buffers - {c})[d] == buffers[d];
    }
  }

  /** A flush attempt, as the broker runs it at time `now`: it skips or
      drains exactly as the worker task does, and whatever the debounce check
      decides, every pending attempt stays armed and the remaining buffers
      stay well formed, so the invariants the handler keeps hold across both
      processes. */
  method FlushAttempt(store: ChannelStore, index: NoteIndex, channel: string, now: int,
                      clock: nat -> int, reply: string -> Option<seq<Note>>)
    returns (outcome: Outcome)
    requires store.Valid()
    modifies store, index
    ensures store.Valid()
    ensures Armed(old(store.active), old(store.scheduled)) ==> Armed(store.active, store.scheduled)
    ensures store.scheduled == old(store.scheduled)
    ensures !PassesSilenceCheck(old(store.Marker(channel)), now) ==>
              outcome == SkippedTooActive &&
              store.buffers == old(store.buffers) && store.active == old(store.active) &&
              index.calls == old(index.calls)
    ensures PassesSilenceCheck(old(store.Marker(channel)), now) ==>
              var cs := Chunks(old(store.Buffer(channel)));
              outcome == Completed(NotesSaved(cs, reply)) &&
              store.buffers == old(store.buffers) - {channel} &&
              store.active == old(store.active) - {channel} &&
              index.calls == old(index.calls) + DrainLog(channel, cs, 0, clock, reply)
    ensures FromIngress(old(store.buffers)) ==> FromIngress(store.buffers)
    ensures ScheduledBy(old(store.scheduled), now) ==> ScheduledBy(store.scheduled, now)
  {
    ghost var active, buffers := store.active, store.buffers;
    outcome := ProcessChannelBuffer(store, index, channel, now, clock, reply);
    if Armed(active, store.scheduled) {
      ArmedAfterFlush(active, store.scheduled, channel);
    }
    if FromIngress(buffers) {
      FromIngressAfterFlush(buffers, channel);
    }
  }

  /** An armed attempt that fires on time while its channel still has a
      marker is skipped: the countdown is far shorter than the silence
      threshold, so the channel always looks active. */
  lemma OnTimeAttemptSkips(active: map<string, int>, scheduled: seq<Attempt>, i: nat)
    requires Armed(active, scheduled)
    requires i < |scheduled| && scheduled[i].channel in active
    ensures !PassesSilenceCheck(Some(active[scheduled[i].channel]), scheduled[i].fire)
  {
    assert scheduled[i].fire <= active[scheduled[i].channel] + COUNTDOWN;
  }

  /** The attempt scheduled with the latest message, run exactly when its
      countdown ends, proceeds if and only if the countdown reaches the
      silence threshold; with the 20-second countdown it never does. */
  lemma LatestAttemptProceedsIff(t: int, countdown: int)
    ensures PassesSilenceCheck(Some(t), t + countdown) <==> countdown >= SILENCE_THRESHOLD
    ensures !PassesSilenceCheck(Some(t), t + COUNTDOWN)
  {
  }

  /** A message accepted at `now`, followed by the attempt it schedules,
      delivered on time: the attempt skips, the message stays buffered and
      no note is saved. */
  method AcceptedMessageThenOnTimeAttempt(store: ChannelStore, index: NoteIndex, body: Body, now: int,
                                          clock: nat -> int, reply: string -> Option<seq<Note>>)
    returns (outcome: Outcome)
    requires store.Valid() && Classify(body).Enqueue?
    modifies store, index
    ensures outcome == SkippedTooActive
    ensures var c := Classify(body).channel;
            store.Buffer(c) == old(store.Buffer(c)) + [Encoded(Classify(body).msg)] &&
            store.Marker(c) == Some(now)
    ensures index.calls == old(index.calls)
  {
    var c := Classify(body).channel;
    var resp := SlackEvents(store, body, now);
    assert store.Marker(c) == Some(now);
    outcome := ProcessChannelBuffer(store, index, c, now + COUNTDOWN, clock, reply);
  }

  /** The hot window: the newest min(50, n) entries, oldest first. */
  function HotWindow(buf: seq<Entry>): (r: seq<Entry>)
    ensures |r| == Min(HOT_WINDOW, |buf|)
    ensures buf[..|buf| - |r|] + r == buf
  {
    Last(buf, HOT_WINDOW)
  }

  /** A buffer of ten messages is read whole. */
  lemma TenMessagesReadWhole(buf: seq<Entry>)
    requires |buf| == 10
    ensures HotWindow(buf) == buf
  {
  }

  /** The message pushed last is always the window's last entry, and the
      window of a longer buffer drops exactly its oldest entries. */
  lemma NewestMessageInWindow(buf: seq<Entry>, e: Entry)
    ensures var w := HotWindow(buf + [e]);
            w != [] && w[|w| - 1] == e
    ensures |buf| >= HOT_WINDOW ==> HotWindow(buf + [e]) == HotWindow(buf)[1..] + [e]
  {
    var w := HotWindow(buf + [e]);
    assert (buf + [e])[..|buf| + 1 - |w|] + w == buf + [e];
    if |buf| >= HOT_WINDOW {
      var v := HotWindow(buf);
      assert w == (buf + [e])[|buf| + 1 - HOT_WINDOW..];
      assert v == buf[|buf| - HOT_WINDOW..];
      assert (buf + [e])[|buf| + 1 - HOT_WINDOW..] == buf[|buf| + 1 - HOT_WINDOW..] + [e];
    }
  }

  /** Answering from a decoded-on-demand window: an undecodable entry makes
      the request fail; otherwise the answer is that of `generate_answer`. */
  function Answer(window: seq<Entry>, query: string, cold: seq<NoteRecord>,
                  synth: string -> Result<string, string>): (r: Result<string, AskError>)
    ensures r == Err(UndecodableEntry) <==> exists i :: 0 <= i < |window| && window[i].Garbled?
    ensures DecodeAll(window).Some? ==> r == GenerateAnswer(query, DecodeAll(window).value, cold, synth)
  {
    match DecodeAll(window)
    case None => Err(UndecodableEntry)
    case Some(hot) => GenerateAnswer(query, hot, cold, synth)
  }

  /** `ask_question`: the hot window of the channel's buffer (a missing
      channel id formats as "None") answered with `cold`, the notes retrieved
      for the question. Reading changes nothing. */
  function AskQuestion(store: ChannelStore, question: Field, channel: Field, cold: seq<NoteRecord>,
                       synth: string -> Result<string, string>): (r: Result<string, AskError>)
    reads store
    ensures var w := HotWindow(store.Buffer(Shown(channel)));
            r == Err(UndecodableEntry) <==> exists i :: 0 <= i < |w| && w[i].Garbled?
    ensures var w := HotWindow(store.Buffer(Shown(channel)));
            DecodeAll(w).Some? ==> r == GenerateAnswer(Shown(question), DecodeAll(w).value, cold, synth)
    ensures FromIngress(store.buffers) ==> r.Ok?
  {
    var c := Shown(channel);
    var window := HotWindow(store.Buffer(c));
    if FromIngress(store.buffers) && c in store.buffers then
      WindowFromIngress(store.buffers, c);
      AnswerFromWellFormedWindow(window, Shown(question), cold, synth);
      Answer(window, Shown(question), cold, synth)
    else
      Answer(window, Shown(question), cold, synth)
  }

  /** The newest entries of a buffer the handler wrote are all decodable
      messages with "user" and "text". */
  lemma WindowFromIngress(buffers: map<string, seq<Entry>>, c: string)
    requires FromIngress(buffers) && c in buffers
    ensures var w := HotWindow(buffers[c]);
            forall i :: 0 <= i < |w| ==> w[i].Encoded? && HasHotKeys(w[i].msg)
  {
    var buf := buffers[c];
    var w := HotWindow(buf);
    forall i | 0 <= i < |w|
      ensures w[i].Encoded? && HasHotKeys(w[i].msg)
    {
      assert w[i] == buf[|buf| - |w| + i];
    }
  }

  /** A window of well-formed messages always gets an answer: the model's
      text, or the error prefix and the failure's text, for a prompt whose
      short-term memory is the transcript of the window's messages. */
  lemma AnswerFromWellFormedWindow(window: seq<Entry>, query: string, cold: seq<NoteRecord>,
                                   synth: string -> Result<string, string>)
    requires forall i :: 0 <= i < |window| ==> window[i].Encoded? && HasHotKeys(window[i].msg)
    ensures DecodeAll(window).Some?
    ensures var r := Answer(window, query, cold, synth);
            var outcome := synth(AnswerPrompt(query, Transcript(DecodeAll(window).value), ColdContext(cold)));
            r.Ok? && r.value == if outcome.Ok? then outcome.value else ERROR_PREFIX + outcome.error
  {
    var hot := DecodeAll(window).value;
    forall i | 0 <= i < |hot|
      ensures HasHotKeys(hot[i])
    {
      assert hot[i] == window[i].msg;
    }
  }

  /** The transcript line of a message the handler stored shows the event's
      user and text as they were: a missing user reads "None", never the
      "Unknown" default, since the handler writes `null` for it. */
  lemma StoredLineShowsEvent(body: Body)
    requires Classify(body).Enqueue?
    ensures var e := EventOf(body);
            TranscriptLine(Classify(body).msg) == Shown(e.user) + ": " + Shown(e.text)
  {
  }
}

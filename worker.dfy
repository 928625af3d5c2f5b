/** `process_channel_buffer`: the debounce check, then the chunked drain of
    `buffer:{channel}` into the note index, then deletion of the activity
    marker. */
module Worker {
  import opened Values
  import opened RedisList
  import opened Ai
  import opened Store
  import opened KnowledgeIndex

  /** `LRANGE buffer 0 499` reads at most this many entries at a time. */
  const CHUNK_SIZE: nat := 500
  /** Seconds of quiet the debounce check demands. */
  const SILENCE_THRESHOLD: int := 280

  /** What the task returns: "Skipped: Too active", or the success message
      carrying the number of notes saved. */
  datatype Outcome = SkippedTooActive | Completed(saved: nat)

  /** The debounce check: with no marker the check is bypassed; with one, the
      channel must have been quiet for at least the threshold. */
  predicate PassesSilenceCheck(marker: Option<int>, now: int) {
    marker.None? || now - marker.value >= SILENCE_THRESHOLD
  }

  /** The chunks the drain takes from a buffer, oldest first. */
  function Chunks(buf: seq<Entry>): seq<seq<Entry>>
    decreases |buf|
  {
    if buf == [] then [] else [Front(buf, CHUNK_SIZE)] + Chunks(TrimFront(buf, CHUNK_SIZE))
  }

  /** The chunks put back together, in processing order. */
  function Concat(cs: seq<seq<Entry>>): seq<Entry> {
    if cs == [] then [] else Concat(cs[..|cs| - 1]) + cs[|cs| - 1]
  }

  lemma {:induction false} ConcatCons(c: seq<Entry>, cs: seq<seq<Entry>>)
    ensures Concat([c] + cs) == c + Concat(cs)
    decreases |cs|
  {
    if cs != [] {
      assert ([c] + cs)[..|cs|] == [c] + cs[..|cs| - 1];
      ConcatCons(c, cs[..|cs| - 1]);
    }
  }

  /** Chunking loses nothing, duplicates nothing and keeps the order: the
      chunks concatenated are the buffer; every chunk is non-empty and at most
      CHUNK_SIZE long, every chunk but the last is full, and there are
      ceil(n / CHUNK_SIZE) of them. */
  lemma {:induction false} ChunksPartition(buf: seq<Entry>)
    ensures Concat(Chunks(buf)) == buf
    ensures |Chunks(buf)| == (|buf| + CHUNK_SIZE - 1) / CHUNK_SIZE
    ensures forall i :: 0 <= i < |Chunks(buf)| ==> 0 < |Chunks(buf)[i]| <= CHUNK_SIZE
    ensures forall i :: 0 <= i < |Chunks(buf)| - 1 ==> |Chunks(buf)[i]| == CHUNK_SIZE
    decreases |buf|
  {
    if buf != [] {
      var first := Front(buf, CHUNK_SIZE);
      var rest := TrimFront(buf, CHUNK_SIZE);
      ChunksPartition(rest);
      ConcatCons(first, Chunks(rest));
      FrontThenTrim(buf, CHUNK_SIZE);
      if |buf| <= CHUNK_SIZE {
        assert rest == [];
      } else {
        assert |rest| == |buf| - CHUNK_SIZE;
      }
    }
  }

  /** 1200 buffered messages drain in three chunks: 500, 500, then 200. */
  lemma TwelveHundredMessagesMakeThreeChunks(buf: seq<Entry>)
    requires |buf| == 1200
    ensures |Chunks(buf)| == 3
    ensures |Chunks(buf)[0]| == 500 && |Chunks(buf)[1]| == 500 && |Chunks(buf)[2]| == 200
  {
    ChunksPartition(buf);
    var cs := Chunks(buf);
    assert cs == cs[..2] + [cs[2]];
    assert cs[..2] == cs[..1] + [cs[1]];
    assert cs[..1] == [cs[0]];
    assert |Concat(cs)| == |Concat(cs[..2])| + |cs[2]|;
    assert |Concat(cs[..2])| == |Concat(cs[..1])| + |cs[1]|;
    assert |Concat(cs[..1])| == |cs[0]|;
  }

  /** The notes a chunk yields: none when one of its entries does not decode
      (the chunk is dropped whole), otherwise what the extractor returns. */
  function ChunkNotes(chunk: seq<Entry>, reply: string -> Option<seq<Note>>): seq<Note> {
    match DecodeAll(chunk)
    case None => []
    case Some(ms) => Summarize(ms, reply)
  }

  /** A chunk the drain takes is never empty, so a decodable chunk always
      reaches the extraction model: the blank-transcript guard never fires
      from the worker. */
  lemma DecodedChunkConsultsModel(chunk: seq<Entry>, reply: string -> Option<seq<Note>>)
    requires chunk != [] && DecodeAll(chunk).Some?
    ensures var ms := DecodeAll(chunk).value;
            ms != [] &&
            ChunkNotes(chunk, reply) == match reply(Transcript(ms)) case None => [] case Some(ns) => ns
  {
  }

  /** The `upsert_note` calls for one chunk's notes, all stamped with the time
      `t` read once for the chunk. */
  function Stamp(channel: string, notes: seq<Note>, t: int): seq<NoteRecord> {
    if notes == [] then []
    else
      var n := notes[|notes| - 1];
      Stamp(channel, notes[..|notes| - 1], t) + [NoteRecord(channel, n.text, n.kind, t)]
  }

  /** Exactly one call per note, in note order, each with this channel, the
      note's text and type, and the chunk's shared timestamp. */
  lemma {:induction false} StampOneCallPerNote(channel: string, notes: seq<Note>, t: int)
    ensures |Stamp(channel, notes, t)| == |notes|
    ensures forall j :: 0 <= j < |notes| ==>
              Stamp(channel, notes, t)[j] == NoteRecord(channel, notes[j].text, notes[j].kind, t)
  {
    if notes != [] {
      StampOneCallPerNote(channel, notes[..|notes| - 1], t);
    }
  }

  /** All `upsert_note` calls made while draining the chunks `cs`, chunk by
      chunk, when the first of them is the k-th chunk of the run; chunk `k` is
      stamped with `clock(k)`. */
  function DrainLog(channel: string, cs: seq<seq<Entry>>, k: nat, clock: nat -> int,
                    reply: string -> Option<seq<Note>>): seq<NoteRecord>
    decreases |cs|
  {
    if cs == [] then []
    else Stamp(channel, ChunkNotes(cs[0], reply), clock(k)) + DrainLog(channel, cs[1..], k + 1, clock, reply)
  }

  /** The total the task reports: the sum of the lengths of the chunks' note
      lists. */
  function NotesSaved(cs: seq<seq<Entry>>, reply: string -> Option<seq<Note>>): nat
    decreases |cs|
  {
    if cs == [] then 0 else |ChunkNotes(cs[0], reply)| + NotesSaved(cs[1..], reply)
  }

  /** The reported total counts the upsert calls made: one per note. */
  lemma {:induction false} DrainLogCountsNotes(channel: string, cs: seq<seq<Entry>>, k: nat, clock: nat -> int,
                                               reply: string -> Option<seq<Note>>)
    ensures |DrainLog(channel, cs, k, clock, reply)| == NotesSaved(cs, reply)
    decreases |cs|
  {
    if cs != [] {
      DrainLogCountsNotes(channel, cs[1..], k + 1, clock, reply);
      StampOneCallPerNote(channel, ChunkNotes(cs[0], reply), clock(k));
    }
  }

  /** Two attempts that both pass the debounce check and interleave their
      LRANGE and LTRIM calls read the same first chunk, and their two trims
      remove the first two chunks: the second chunk leaves the buffer without
      having been read by either. */
  lemma InterleavedAttemptsSkipSecondChunk(buf: seq<Entry>)
    requires |buf| >= 2 * CHUNK_SIZE
    ensures var read := Front(buf, CHUNK_SIZE);
            read == buf[..CHUNK_SIZE] &&
            TrimFront(TrimFront(buf, |read|), |read|) == buf[2 * CHUNK_SIZE..]
  {
    var once := TrimFront(buf, CHUNK_SIZE);
    assert once == buf[CHUNK_SIZE..];
    assert TrimFront(once, CHUNK_SIZE) == once[CHUNK_SIZE..];
  }

  /** One turn of the drain loop on the buffer: trimming the chunk just taken
      keeps "processed chunks, then what is left" equal to the original
      buffer, and the buffer gets shorter. */
  lemma DrainStep(original: seq<Entry>, done: seq<seq<Entry>>, buf: seq<Entry>)
    requires buf != []
    requires Concat(done) + buf == original
    ensures var chunk := Front(buf, CHUNK_SIZE);
            var rest := TrimFront(buf, |chunk|);
            |rest| < |buf| && Concat(done + [chunk]) + rest == original
  {
    var chunk := Front(buf, CHUNK_SIZE);
    var rest := TrimFront(buf, |chunk|);
    assert Concat(done + [chunk]) == Concat(done) + chunk by {
      assert (done + [chunk])[..|done|] == done;
    }
    assert chunk + rest == buf by {
      FrontThenTrim(buf, CHUNK_SIZE);
    }
  }

  /** What is left to log and count after taking the first chunk off a
      buffer: that chunk's calls and notes come first. */
  lemma DrainLogStep(buf: seq<Entry>, channel: string, k: nat, clock: nat -> int,
                     reply: string -> Option<seq<Note>>)
    requires buf != []
    ensures var chunk := Front(buf, CHUNK_SIZE);
            var rest := Chunks(TrimFront(buf, |chunk|));
            DrainLog(channel, Chunks(buf), k, clock, reply)
              == Stamp(channel, ChunkNotes(chunk, reply), clock(k)) + DrainLog(channel, rest, k + 1, clock, reply) &&
            NotesSaved(Chunks(buf), reply) == |ChunkNotes(chunk, reply)| + NotesSaved(rest, reply)
  {
    var chunk := Front(buf, CHUNK_SIZE);
    assert TrimFront(buf, |chunk|) == TrimFront(buf, CHUNK_SIZE);
    var rest := Chunks(TrimFront(buf, CHUNK_SIZE));
    assert Chunks(buf) == [chunk] + rest;
    assert Chunks(buf)[1..] == rest;
  }

  lemma AppendAssoc<T>(a: seq<T>, b: seq<T>, c: seq<T>)
    ensures (a + b) + c == a + (b + c)
  {
  }

  /** Saving the first chunk's calls moves them from "still to log" to
      "logged": the calls made so far followed by what the rest of the buffer
      will log stay the same. */
  lemma ChunkAccounting(buf: seq<Entry>, before: seq<NoteRecord>, after: seq<NoteRecord>,
                        channel: string, k: nat, clock: nat -> int, reply: string -> Option<seq<Note>>)
    requires buf != []
    requires after == before + Stamp(channel, ChunkNotes(Front(buf, CHUNK_SIZE), reply), clock(k))
    ensures var rest := Chunks(TrimFront(buf, |Front(buf, CHUNK_SIZE)|));
            after + DrainLog(channel, rest, k + 1, clock, reply) == before + DrainLog(channel, Chunks(buf), k, clock, reply) &&
            |ChunkNotes(Front(buf, CHUNK_SIZE), reply)| + NotesSaved(rest, reply) == NotesSaved(Chunks(buf), reply)
  {
    var stamped := Stamp(channel, ChunkNotes(Front(buf, CHUNK_SIZE), reply), clock(k));
    var later := DrainLog(channel, Chunks(TrimFront(buf, |Front(buf, CHUNK_SIZE)|)), k + 1, clock, reply);
    DrainLogStep(buf, channel, k, clock, reply);
    AppendAssoc(before, stamped, later);
  }

  /** Saves one chunk's notes: one `upsert_note` call per note, in order, all
      with the same timestamp. */
  method SaveNotes(index: NoteIndex, channel: string, notes: seq<Note>, currentTime: int)
    modifies index
    ensures index.calls == old(index.calls) + Stamp(channel, notes, currentTime)
  {
    for i := 0 to |notes|
      invariant index.calls == old(index.calls) + Stamp(channel, notes[..i], currentTime)
    {
      index.UpsertNote(channel, notes[i].text, notes[i].kind, currentTime);
      assert notes[..i + 1][..i] == notes[..i];
    }
    assert notes[..|notes|] == notes;
  }

  /** Decode one chunk, have its notes extracted and save them, all stamped
      with `currentTime`. A chunk that does not decode gives no notes, and no
      model call is made for it. Returns the number of notes saved. */
  method SaveChunk(index: NoteIndex, channel: string, rawMessages: seq<Entry>, currentTime: int,
                   reply: string -> Option<seq<Note>>)
    returns (saved: nat)
    modifies index
    ensures saved == |ChunkNotes(rawMessages, reply)|
    ensures index.calls == old(index.calls) + Stamp(channel, ChunkNotes(rawMessages, reply), currentTime)
  {
    saved := 0;
    var messages := DecodeAll(rawMessages);
    if messages.Some? {
      var notes := Summarize(messages.value, reply);
      if notes != [] {
        SaveNotes(index, channel, notes, currentTime);
        saved := |notes|;
      }
    }
  }

  /** One turn of the drain, the k-th of the run: save the notes of the
      chunk just read, then trim it off the front of the buffer, whether or
      not it gave notes. */
  method ProcessChunk(store: ChannelStore, index: NoteIndex, channel: string, rawMessages: seq<Entry>,
                      k: nat, clock: nat -> int, reply: string -> Option<seq<Note>>)
    returns (saved: nat)
    requires store.Valid()
    requires rawMessages == Front(store.Buffer(channel), CHUNK_SIZE) && rawMessages != []
    modifies store, index
    ensures store.Valid()
    ensures store.Buffer(channel) == TrimFront(old(store.Buffer(channel)), |rawMessages|)
    ensures |store.Buffer(channel)| < |old(store.Buffer(channel))|
    ensures store.buffers - {channel} == old(store.buffers) - {channel}
    ensures store.active == old(store.active) && store.scheduled == old(store.scheduled)
    ensures saved == |ChunkNotes(rawMessages, reply)|
    ensures saved + NotesSaved(Chunks(store.Buffer(channel)), reply)
            == NotesSaved(Chunks(old(store.Buffer(channel))), reply)
    ensures index.calls + DrainLog(channel, Chunks(store.Buffer(channel)), k + 1, clock, reply)
            == old(index.calls) + DrainLog(channel, Chunks(old(store.Buffer(channel))), k, clock, reply)
  {
    ghost var buf := store.Buffer(channel);
    ghost var callsBefore := index.calls;
    saved := SaveChunk(index, channel, rawMessages, clock(k), reply);
    ChunkAccounting(buf, callsBefore, index.calls, channel, k, clock, reply);
    ghost var before := store.buffers;
    store.LTrim(channel, |rawMessages|);
    OtherKeysKept(before, store.buffers, channel);
  }

  /** Updating or removing one key leaves every other key as it was. */
  lemma OtherKeysKept(before: map<string, seq<Entry>>, after: map<string, seq<Entry>>, c: string)
    requires after == before - {c} || (c in after && after == before[c := after[c]])
    ensures after - {c} == before - {c}
  {
  }

  /** The drain loop: take the oldest chunk, process it, trim it, until the
      buffer is empty. Returns the number of notes saved. */
  method Drain(store: ChannelStore, index: NoteIndex, channel: string,
               clock: nat -> int, reply: string -> Option<seq<Note>>)
    returns (total: nat)
    requires store.Valid()
    modifies store, index
    ensures store.Valid()
    ensures store.buffers == old(store.buffers) - {channel}
    ensures store.active == old(store.active) && store.scheduled == old(store.scheduled)
    ensures var cs := Chunks(old(store.Buffer(channel)));
            total == NotesSaved(cs, reply) &&
            index.calls == old(index.calls) + DrainLog(channel, cs, 0, clock, reply)
  {
    total := 0;
    var k: nat := 0;
    ghost var original := store.Buffer(channel);
    ghost var done: seq<seq<Entry>> := [];
    while true
      invariant store.Valid()
      invariant Concat(done) + store.Buffer(channel) == original
      invariant store.buffers - {channel} == old(store.buffers) - {channel}
      invariant store.active == old(store.active) && store.scheduled == old(store.scheduled)
      invariant old(index.calls) + DrainLog(channel, Chunks(original), 0, clock, reply)
                == index.calls + DrainLog(channel, Chunks(store.Buffer(channel)), k, clock, reply)
      invariant NotesSaved(Chunks(original), reply) == total + NotesSaved(Chunks(store.Buffer(channel)), reply)
      decreases |store.Buffer(channel)|
    {
      var rawMessages := Front(store.Buffer(channel), CHUNK_SIZE);
      if rawMessages == [] {
        break;
      }
      DrainStep(original, done, store.Buffer(channel));
      var saved := ProcessChunk(store, index, channel, rawMessages, k, clock, reply);
      total := total + saved;
      done := done + [rawMessages];
      k := k + 1;
    }
    assert store.buffers == old(store.buffers) - {channel};
  }

  /** One run of the task for `channel` at time `now`. `clock(k)` is the time
      read before saving the notes of the k-th chunk; `reply` is the
      extraction model. */
  method ProcessChannelBuffer(store: ChannelStore, index: NoteIndex, channel: string, now: int,
                              clock: nat -> int, reply: string -> Option<seq<Note>>)
    returns (outcome: Outcome)
    requires store.Valid()
    modifies store, index
    ensures store.Valid()
    ensures store.scheduled == old(store.scheduled)
    ensures !PassesSilenceCheck(old(store.Marker(channel)), now) ==>
              outcome == SkippedTooActive &&
              store.buffers == old(store.buffers) && store.active == old(store.active) &&
              index.calls == old(index.calls)
    ensures PassesSilenceCheck(old(store.Marker(channel)), now) ==>
              var cs := Chunks(old(store.Buffer(channel)));
              outcome == Completed(NotesSaved(cs, reply)) &&
              store.buffers == old(store.buffers) - {channel} &&
              store.active == old(store.active) - {channel} &&
              index.calls == old(index.calls) + DrainLog(channel, cs, 0, clock, reply)
  {
    // Debounce: skip while the channel was active less than the threshold ago
    var lastActive := store.Marker(channel);
    if lastActive.Some? && now - lastActive.value < SILENCE_THRESHOLD {
      return SkippedTooActive;
    }
    var total := Drain(store, index, channel, clock, reply);
    // The session is closed: remove the activity marker
    store.DeleteActive(channel);
    outcome := Completed(total);
  }
}

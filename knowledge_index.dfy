/** The vector index as the worker sees it: the sequence of `upsert_note`
    calls made so far. Embedding, ids and similarity search are not part of
    this model. */
module KnowledgeIndex {
  import opened Values

  class NoteIndex {
    /** Every `upsert_note(channel_id, text, note_type, timestamp)` call, in
        call order. */
    var calls: seq<NoteRecord>

    constructor ()
      ensures calls == []
    {
      calls := [];
    }

    /** `upsert_note(channel_id=channel, text=text, note_type=kind, timestamp=t)` */
    method UpsertNote(channel: string, text: string, kind: string, t: int)
      modifies this
      ensures calls == old(calls) + [NoteRecord(channel, text, kind, t)]
    {
      calls := calls + [NoteRecord(channel, text, kind, t)];
    }
  }
}

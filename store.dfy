/** The Redis keys the pipeline shares between the web process and the worker:
    `buffer:{channel}` (a list of JSON strings) and `active:{channel}` (the time
    of the channel's latest buffered message), plus the deferred worker
    invocations handed to the Celery broker. */
module Store {
  import opened Values
  import opened RedisList

  /** A deferred `process_channel_buffer(channel)` invocation and the time at
      which its countdown ends. */
  datatype Attempt = Attempt(channel: string, fire: int)

  class ChannelStore {
    /** `buffer:{c}` for every channel whose list exists. */
    var buffers: map<string, seq<Entry>>
    /** `active:{c}`, the "last active" marker, in whole seconds. */
    var active: map<string, int>
    /** Every invocation ever scheduled, in scheduling order. */
    ghost var scheduled: seq<Attempt>

    /** Redis removes a list key once the list is empty. */
    ghost predicate Valid()
      reads this
    {
      forall c :: c in buffers ==> buffers[c] != []
    }

    constructor ()
      ensures Valid()
      ensures buffers == map[] && active == map[] && scheduled == []
    {
      buffers, active, scheduled := map[], map[], [];
    }

    /** The list at `buffer:{c}`; a missing key reads as the empty list. */
    function Buffer(c: string): seq<Entry>
      reads this
    {
      if c in buffers then buffers[c] else []
    }

    /** `GET active:{c}` */
    function Marker(c: string): Option<int>
      reads this
    {
      if c in active then Some(active[c]) else None
    }

    /** `RPUSH buffer:{c} e` */
    method RPush(c: string, e: Entry)
      requires Valid()
      modifies this
      ensures Valid()
      ensures buffers == old(buffers)[c := old(Buffer(c)) + [e]]
      ensures active == old(active) && scheduled == old(scheduled)
    {
      buffers := buffers[c := Buffer(c) + [e]];
    }

    /** `LTRIM buffer:{c} k -1`, which deletes the key when nothing is left. */
    method LTrim(c: string, k: nat)
      requires Valid()
      modifies this
      ensures Valid()
      ensures var rest := TrimFront(old(Buffer(c)), k);
              buffers == if rest == [] then old(buffers) - {c} else old(buffers)[c := rest]
      ensures active == old(active) && scheduled == old(scheduled)
    {
      var rest := TrimFront(Buffer(c), k);
      if rest == [] {
        buffers := buffers - {c};
      } else {
        buffers := buffers[c := rest];
      }
    }

    /** `SET active:{c} t`: the latest write wins. */
    method SetActive(c: string, t: int)
      modifies this
      ensures active == old(active)[c := t]
      ensures buffers == old(buffers) && scheduled == old(scheduled)
    {
      active := active[c := t];
    }

    /** `DEL active:{c}` */
    method DeleteActive(c: string)
      modifies this
      ensures active == old(active) - {c}
      ensures buffers == old(buffers) && scheduled == old(scheduled)
    {
      active := active - {c};
    }

    /** `process_channel_buffer.apply_async(args=[c], countdown=...)`: the
        broker will deliver the invocation at `fire`. */
    method ApplyAsync(c: string, fire: int)
      modifies this
      ensures scheduled == old(scheduled) + [Attempt(c, fire)]
      ensures buffers == old(buffers) && active == old(active)
    {
      scheduled := scheduled + [Attempt(c, fire)];
    }
  }
}

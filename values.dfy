/** Values as the pipeline's Python code sees them once JSON has been decoded,
    `sep.join(parts)`, which the code uses to build its texts, and
    `s.split(sep)`, used here only to read a joined text back into lines. */
module Values {

  datatype Option<T> = None | Some(value: T)

  datatype Result<T, E> = Ok(value: T) | Err(error: E)

  /** A string-valued key of a decoded JSON object: missing, `null`, or a string. */
  datatype Field = Absent | Null | Str(s: string)

  /** Python truthiness of what `d.get(key)` returns. */
  predicate Truthy(f: Field) {
    f.Str? && f.s != ""
  }

  /** `d.get(key)` formatted by an f-string: a missing key and `null` both read `None`. */
  function Shown(f: Field): string {
    if f.Str? then f.s else "None"
  }

  /** `d.get(key, default)` formatted by an f-string: the default stands in for a
      MISSING key only; a key present with `null` still reads `None`. */
  function ShownOr(f: Field, default: string): string {
    if f.Absent? then default else Shown(f)
  }

  /** One buffered chat message, the JSON object {"user", "text", "ts"}. */
  datatype Msg = Msg(user: Field, text: Field, ts: Field)

  /** One string of a channel's buffer list, as far as this model reads it:
      it decodes to a message object or makes `json.loads` raise. A string
      that decodes to a JSON value other than an object is not modelled. */
  datatype Entry = Encoded(msg: Msg) | Garbled(raw: string)

  /** A note as the extraction model returns it: {"type", "text"}. */
  datatype Note = Note(kind: string, text: string)

  /** The metadata of one stored note: one call of `upsert_note`. */
  datatype NoteRecord = NoteRecord(channel: string, text: string, kind: string, timestamp: int)

  function Min(a: int, b: int): int {
    if a <= b then a else b
  }

  /** `[json.loads(e) for e in es]`: all of the entries decoded, in order, or
      failure as soon as one of them does not decode. */
  function DecodeAll(es: seq<Entry>): (r: Option<seq<Msg>>)
    ensures r.Some? <==> forall i :: 0 <= i < |es| ==> es[i].Encoded?
    ensures r.Some? ==> |r.value| == |es| && forall i :: 0 <= i < |es| ==> r.value[i] == es[i].msg
  {
    if es == [] then Some([])
    else if es[0].Garbled? then None
    else match DecodeAll(es[1..])
      case None => None
      case Some(ms) => Some([es[0].msg] + ms)
  }

  /** `sep.join(parts)` */
  function Join(parts: seq<string>, sep: string): string {
    if |parts| == 0 then ""
    else if |parts| == 1 then parts[0]
    else parts[0] + sep + Join(parts[1..], sep)
  }

  /** `s.split(sep)` for a one-character separator. */
  function Split(s: string, sep: char): (r: seq<string>)
    ensures |r| >= 1
    decreases |s|
  {
    if |s| == 0 then [""]
    else
      var rest := Split(s[1..], sep);
      if s[0] == sep then [""] + rest else [[s[0]] + rest[0]] + rest[1..]
  }

  /** A joined string begins with its first part. */
  lemma JoinStartsWithFirst(parts: seq<string>, sep: string)
    requires |parts| > 0
    ensures |Join(parts, sep)| >= |parts[0]|
    ensures Join(parts, sep)[..|parts[0]|] == parts[0]
  {
  }

  lemma {:induction false} SplitWithoutSeparator(s: string, sep: char)
    requires sep !in s
    ensures Split(s, sep) == [s]
  {
    if |s| > 0 {
      assert sep !in s[1..];
      SplitWithoutSeparator(s[1..], sep);
      assert [s[0]] + s[1..] == s;
    }
  }

  lemma {:induction false} SplitAfterFirstSeparator(a: string, b: string, sep: char)
    requires sep !in a
    ensures Split(a + [sep] + b, sep) == [a] + Split(b, sep)
  {
    if |a| == 0 {
      assert a + [sep] + b == [sep] + b;
      assert ([sep] + b)[1..] == b;
    } else {
      var s := a + [sep] + b;
      assert s[0] == a[0] && s[1..] == a[1..] + [sep] + b;
      assert sep !in a[1..];
      SplitAfterFirstSeparator(a[1..], b, sep);
      assert [a[0]] + a[1..] == a;
    }
  }

  /** Splitting a joined string gives the parts back, as long as no part holds
      the separator. */
  lemma {:induction false} SplitJoin(parts: seq<string>, sep: char)
    requires |parts| > 0
    requires forall i :: 0 <= i < |parts| ==> sep !in parts[i]
    ensures Split(Join(parts, [sep]), sep) == parts
  {
    if |parts| == 1 {
      SplitWithoutSeparator(parts[0], sep);
    } else {
      SplitJoin(parts[1..], sep);
      SplitAfterFirstSeparator(parts[0], Join(parts[1..], [sep]), sep);
      assert [parts[0]] + parts[1..] == parts;
    }
  }
}

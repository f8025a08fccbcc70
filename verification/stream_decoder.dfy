/** The incremental decoder of the streamed response body of a remote session call: a string
    buffer accumulates chunks, complete records are split off at blank lines and handled in
    order, and the unterminated tail is kept for the next chunk. */
module StreamDecoder {
  import opened Values
  import opened Text

  /** The fields of an event's `data` object the decoder reads; an absent field is `Undefined`. */
  datatype Payload = Payload(status: JsValue, error: JsValue, result: JsValue, message: JsValue)

  /** What `JSON.parse` makes of a record's text. `Document` is any non-null value: `typ` is its
      `type` property and `data` its `data` property, `None` when that is null or undefined
      (so reading a field of it throws). A primitive document has `typ == Undefined`. */
  datatype Parsed = Malformed | NullDocument | Document(typ: JsValue, data: Option<Payload>)

  /** How a call ends: the `finished` result, `null` for a stream that ends with an empty
      buffer, no value at all when the loop falls through with an unterminated tail, or the
      response-parse error. */
  datatype Outcome = Returned(result: JsValue) | ReturnedNull | FellThrough | ParseFailed

  /** The decoder: still reading, with the unterminated tail and the log messages forwarded so
      far, or stopped with its outcome. */
  datatype Decoder = Reading(buffer: string, logs: seq<JsValue>) | Stopped(logs: seq<JsValue>, outcome: Outcome)

  const Initial: Decoder := Reading("", [])

  /** The literal every data record starts with. */
  const DataPrefix: string := "data: "

  predicate IsSeparatorAt(s: string, j: int) {
    0 <= j && j + 1 < |s| && s[j] == '\n' && s[j + 1] == '\n'
  }

  /** `s` contains no blank-line separator `"\n\n"`. */
  predicate NoSeparator(s: string) {
    forall j :: 0 <= j < |s| ==> !IsSeparatorAt(s, j)
  }

  /** Index of the first `"\n\n"` in `s`. */
  function FirstSeparator(s: string): (r: Option<nat>)
    ensures r.Some? ==> IsSeparatorAt(s, r.value)
  {
    if |s| < 2 then None
    else if s[0] == '\n' && s[1] == '\n' then Some(0)
    else
      match FirstSeparator(s[1..])
      case None => None
      case Some(i) => Some(i + 1)
  }

  /** `FirstSeparator` finds the leftmost separator, and finds none only when there is none. */
  lemma {:induction false} FirstSeparatorSpec(s: string)
    ensures FirstSeparator(s).None? <==> NoSeparator(s)
    ensures FirstSeparator(s).Some? ==> forall j :: 0 <= j < FirstSeparator(s).value ==> !IsSeparatorAt(s, j)
    decreases |s|
  {
    if |s| >= 2 {
      if !(s[0] == '\n' && s[1] == '\n') {
        FirstSeparatorSpec(s[1..]);
        assert forall j :: 1 <= j < |s| ==> (IsSeparatorAt(s, j) <==> IsSeparatorAt(s[1..], j - 1));
        assert !IsSeparatorAt(s, 0);
      }
    }
  }

  /** A separator with none before it is the one `FirstSeparator` finds. */
  lemma {:induction false} FirstSeparatorAt(s: string, i: nat)
    requires IsSeparatorAt(s, i)
    requires forall j :: 0 <= j < i ==> !IsSeparatorAt(s, j)
    ensures FirstSeparator(s) == Some(i)
    decreases i
  {
    if i > 0 {
      assert !IsSeparatorAt(s, 0);
      assert IsSeparatorAt(s[1..], i - 1);
      forall j | 0 <= j < i - 1
        ensures !IsSeparatorAt(s[1..], j)
      {
        assert !IsSeparatorAt(s, j + 1);
      }
      FirstSeparatorAt(s[1..], i - 1);
    }
  }

  /** The records joined back with `"\n\n"` after each, followed by the tail. */
  function Join(records: seq<string>, tail: string): string {
    if |records| == 0 then tail else records[0] + "\n\n" + Join(records[1..], tail)
  }

  /** `buffer.split("\n\n")` followed by `lines.pop()`: the complete records and the tail. */
  function SplitRecords(s: string): (seq<string>, string)
    decreases |s|
  {
    match FirstSeparator(s)
    case None => ([], s)
    case Some(i) =>
      var rest := SplitRecords(s[i + 2..]);
      ([s[..i]] + rest.0, rest.1)
  }

  /** The split loses nothing and leaves no separator inside a record or in the tail. */
  lemma {:induction false} SplitRecordsSound(s: string)
    ensures Join(SplitRecords(s).0, SplitRecords(s).1) == s
    ensures NoSeparator(SplitRecords(s).1)
    ensures forall k :: 0 <= k < |SplitRecords(s).0| ==> NoSeparator(SplitRecords(s).0[k])
    decreases |s|
  {
    FirstSeparatorSpec(s);
    match FirstSeparator(s)
    case None =>
    case Some(i) =>
      SplitRecordsSound(s[i + 2..]);
      SplitRecordsSoundStep(s, i);
  }

  /** The step of `SplitRecordsSound` at the first separator. */
  lemma SplitRecordsSoundStep(s: string, i: nat)
    requires FirstSeparator(s) == Some(i)
    requires i + 2 <= |s| && forall j :: 0 <= j < i ==> !IsSeparatorAt(s, j)
    requires var rest := SplitRecords(s[i + 2..]);
      Join(rest.0, rest.1) == s[i + 2..] && NoSeparator(rest.1) &&
      forall k :: 0 <= k < |rest.0| ==> NoSeparator(rest.0[k])
    ensures Join(SplitRecords(s).0, SplitRecords(s).1) == s
    ensures NoSeparator(SplitRecords(s).1)
    ensures forall k :: 0 <= k < |SplitRecords(s).0| ==> NoSeparator(SplitRecords(s).0[k])
  {
    SplitRecordsAt(s, i);
    JoinStep(s, i);
    RecordsStep(s, i);
  }

  /** Joining the split at the first separator gives the text back. */
  lemma JoinStep(s: string, i: nat)
    requires FirstSeparator(s) == Some(i) && i + 2 <= |s|
    requires var rest := SplitRecords(s[i + 2..]); Join(rest.0, rest.1) == s[i + 2..]
    ensures Join(SplitRecords(s).0, SplitRecords(s).1) == s
  {
    var rest := SplitRecords(s[i + 2..]);
    var head := s[..i];
    SplitRecordsAt(s, i);
    var r := SplitRecords(s);
    assert r.0 == [head] + rest.0 && r.1 == rest.1;
    JoinCons(head, rest.0, rest.1);
    assert Join(r.0, r.1) == head + "\n\n" + s[i + 2..];
    SplitAroundSeparator(s, i);
  }

  /** A text is its part before a separator, the separator and its part after. */
  lemma SplitAroundSeparator(s: string, i: nat)
    requires IsSeparatorAt(s, i)
    ensures s == s[..i] + "\n\n" + s[i + 2..]
  {
    assert s[i..i + 2] == "\n\n";
    assert s == s[..i] + s[i..i + 2] + s[i + 2..];
  }

  /** The first record and the later ones hold no separator. */
  lemma RecordsStep(s: string, i: nat)
    requires FirstSeparator(s) == Some(i)
    requires i + 2 <= |s| && forall j :: 0 <= j < i ==> !IsSeparatorAt(s, j)
    requires var rest := SplitRecords(s[i + 2..]); forall k :: 0 <= k < |rest.0| ==> NoSeparator(rest.0[k])
    ensures forall k :: 0 <= k < |SplitRecords(s).0| ==> NoSeparator(SplitRecords(s).0[k])
  {
    var rest := SplitRecords(s[i + 2..]);
    var records := [s[..i]] + rest.0;
    SplitRecordsAt(s, i);
    HeadHasNoSeparator(s, i);
    assert SplitRecords(s).0 == records;
    forall k | 0 <= k < |records|
      ensures NoSeparator(records[k])
    {
      if k > 0 {
        assert records[k] == rest.0[k - 1];
      }
    }
  }

  /** The text before the first separator holds none. */
  lemma HeadHasNoSeparator(s: string, i: nat)
    requires i <= |s| && forall j :: 0 <= j < i ==> !IsSeparatorAt(s, j)
    ensures NoSeparator(s[..i])
  {
    forall j | 0 <= j < i
      ensures !IsSeparatorAt(s[..i], j)
    {
      assert !IsSeparatorAt(s, j);
    }
  }

  /** Joining a record in front. */
  lemma JoinCons(head: string, records: seq<string>, tail: string)
    ensures Join([head] + records, tail) == head + "\n\n" + Join(records, tail)
  {
    assert ([head] + records)[1..] == records;
  }

  /** A separator found in `x` is still the first one in `x + y`. */
  lemma FirstSeparatorOfExtension(x: string, y: string)
    requires FirstSeparator(x).Some?
    ensures FirstSeparator(x + y) == FirstSeparator(x)
  {
    FirstSeparatorSpec(x);
    var i := FirstSeparator(x).value;
    var s := x + y;
    assert IsSeparatorAt(s, i);
    forall j | 0 <= j < i ensures !IsSeparatorAt(s, j) {
      assert !IsSeparatorAt(x, j);
    }
    FirstSeparatorAt(s, i);
  }

  /** One step of the split at a known first separator. */
  lemma SplitRecordsAt(s: string, i: nat)
    requires FirstSeparator(s) == Some(i)
    ensures i + 2 <= |s|
    ensures SplitRecords(s) == ([s[..i]] + SplitRecords(s[i + 2..]).0, SplitRecords(s[i + 2..]).1)
  {
  }

  /** The inductive step of `SplitRecordsAppend`: if the claim holds for what follows the
      first separator of `x`, it holds for `x`. */
  lemma SplitRecordsAppendStep(x: string, y: string, i: nat)
    requires FirstSeparator(x) == Some(i)
    requires i + 2 <= |x|
    requires SplitRecords(x[i + 2..] + y).0 == SplitRecords(x[i + 2..]).0 + SplitRecords(SplitRecords(x[i + 2..]).1 + y).0
    requires SplitRecords(x[i + 2..] + y).1 == SplitRecords(SplitRecords(x[i + 2..]).1 + y).1
    ensures SplitRecords(x + y).0 == SplitRecords(x).0 + SplitRecords(SplitRecords(x).1 + y).0
    ensures SplitRecords(x + y).1 == SplitRecords(SplitRecords(x).1 + y).1
  {
    FirstSeparatorOfExtension(x, y);
    var xy := x + y;
    var rest := x[i + 2..];
    assert xy[..i] == x[..i];
    assert xy[i + 2..] == rest + y;
    SplitRecordsAt(x, i);
    SplitRecordsAt(xy, i);
    var a := SplitRecords(rest);
    var b := SplitRecords(a.1 + y);
    assert SplitRecords(x) == ([x[..i]] + a.0, a.1);
    assert SplitRecords(xy) == ([x[..i]] + (a.0 + b.0), b.1);
    ConsAssociates(x[..i], a.0, b.0);
  }

  lemma ConsAssociates<T>(h: T, a: seq<T>, b: seq<T>)
    ensures [h] + (a + b) == ([h] + a) + b
  {
  }

  /** Splitting `x + y` in one go gives the records of `x`, then the records of `x`'s tail
      followed by `y`, and that second split's tail. */
  lemma {:induction false} SplitRecordsAppend(x: string, y: string)
    ensures SplitRecords(x + y).0 == SplitRecords(x).0 + SplitRecords(SplitRecords(x).1 + y).0
    ensures SplitRecords(x + y).1 == SplitRecords(SplitRecords(x).1 + y).1
    decreases |x|
  {
    match FirstSeparator(x)
    case None =>
      assert SplitRecords(x) == ([], x);
    case Some(i) =>
      SplitRecordsAppend(x[i + 2..], y);
      SplitRecordsAppendStep(x, y, i);
  }

  /** What handling one record leads to: keep going with the logs so far, or stop. */
  datatype Step = Go(logs: seq<JsValue>) | Stop(logs: seq<JsValue>, outcome: Outcome)

  /** The body of the record loop for one record. Records without the data prefix are skipped;
      the rest is parsed from offset 6. A `system` record with status `error` throws inside the
      `try` and, like malformed JSON or a field read on a missing object, surfaces as the parse
      error. */
  function HandleRecord(logs: seq<JsValue>, record: string, parse: string -> Parsed): (r: Step)
    ensures !StartsWith(record, DataPrefix) ==> r == Go(logs)
    ensures r.Go? ==> r.logs == logs || (exists m :: r.logs == logs + [m])
    ensures r.Stop? ==> r.logs == logs && !r.outcome.ReturnedNull? && !r.outcome.FellThrough?
  {
    if !StartsWith(record, DataPrefix) then Go(logs)
    else
      match parse(record[6..])
      case Malformed => Stop(logs, ParseFailed)
      case NullDocument => Stop(logs, ParseFailed)
      case Document(typ, data) =>
        if typ == Str("system") then
          if data.None? then Stop(logs, ParseFailed)
          else if data.value.status == Str("error") then Stop(logs, ParseFailed)
          else if data.value.status == Str("finished") then Stop(logs, Returned(data.value.result))
          else Go(logs)
        else if typ == Str("log") then
          if data.None? then Stop(logs, ParseFailed)
          else Go(logs + [data.value.message])
        else Go(logs)
  }

  /** The record loop: each record in order, until one stops the call. */
  function HandleRecords(logs: seq<JsValue>, records: seq<string>, parse: string -> Parsed): (r: Step)
    decreases |records|
  {
    if |records| == 0 then Go(logs)
    else
      match HandleRecord(logs, records[0], parse)
      case Go(logs') => HandleRecords(logs', records[1..], parse)
      case Stop(logs', outcome) => Stop(logs', outcome)
  }

  /** Handling `a + b` is handling `a` and then, unless it stopped, `b`. */
  lemma {:induction false} HandleRecordsAppend(logs: seq<JsValue>, a: seq<string>, b: seq<string>, parse: string -> Parsed)
    ensures HandleRecords(logs, a + b, parse) ==
      match HandleRecords(logs, a, parse)
      case Go(logs') => HandleRecords(logs', b, parse)
      case Stop(logs', outcome) => Stop(logs', outcome)
    decreases |a|
  {
    if |a| == 0 {
      assert a + b == b;
    } else {
      assert (a + b)[0] == a[0];
      assert (a + b)[1..] == a[1..] + b;
      match HandleRecord(logs, a[0], parse)
      case Go(logs') =>
        HandleRecordsAppend(logs', a[1..], b, parse);
      case Stop(_, _) =>
    }
  }

  /** One read that delivered a chunk: append it, split, handle the complete records, keep
      the tail. A stopped decoder reads nothing more. */
  function Feed(d: Decoder, chunk: string, parse: string -> Parsed): (r: Decoder)
    ensures d.Stopped? ==> r == d
    ensures r.Reading? ==> d.Reading? && NoSeparator(r.buffer) && d.logs <= r.logs
  {
    match d
    case Stopped(_, _) => d
    case Reading(buffer, logs) =>
      var (records, tail) := SplitRecords(buffer + chunk);
      match HandleRecords(logs, records, parse)
      case Go(logs') =>
        LogsOnlyGrow(logs, records, parse);
        SplitRecordsSound(buffer + chunk);
        Reading(tail, logs')
      case Stop(logs', outcome) => Stopped(logs', outcome)
  }

  /** Handling records only ever appends to the forwarded logs. */
  lemma {:induction false} LogsOnlyGrow(logs: seq<JsValue>, records: seq<string>, parse: string -> Parsed)
    ensures logs <= HandleRecords(logs, records, parse).logs
    decreases |records|
  {
    if |records| > 0 {
      match HandleRecord(logs, records[0], parse)
      case Go(logs') =>
        LogsOnlyGrow(logs', records[1..], parse);
        var final := HandleRecords(logs', records[1..], parse).logs;
        assert final[..|logs'|] == logs';
        assert logs'[..|logs|] == logs;
        assert final[..|logs|] == logs;
      case Stop(_, _) =>
    }
  }

  /** The reads that delivered chunks, in order. */
  function FeedAll(d: Decoder, chunks: seq<string>, parse: string -> Parsed): Decoder
    decreases |chunks|
  {
    if |chunks| == 0 then d else FeedAll(Feed(d, chunks[0], parse), chunks[1..], parse)
  }

  /** The final read (`done`): `null` if the buffer is empty; otherwise the buffer is split
      once more and, if nothing stops the call, the loop is left without a result. */
  function Finish(d: Decoder, parse: string -> Parsed): (r: (seq<JsValue>, Outcome))
    ensures d.Stopped? ==> r == (d.logs, d.outcome)
    ensures d.Reading? && d.buffer == "" ==> r == (d.logs, ReturnedNull)
  {
    match d
    case Stopped(logs, outcome) => (logs, outcome)
    case Reading(buffer, logs) =>
      if buffer == "" then (logs, ReturnedNull)
      else
        match Feed(d, "", parse)
        case Reading(_, logs') => (logs', FellThrough)
        case Stopped(logs', outcome) => (logs', outcome)
  }

  /** The whole body: the forwarded log messages, in order, and the outcome. */
  function Decode(chunks: seq<string>, parse: string -> Parsed): (seq<JsValue>, Outcome) {
    Finish(FeedAll(Initial, chunks, parse), parse)
  }

  /** A decoder that is reading holds no complete record in its buffer. */
  predicate Valid(d: Decoder) {
    d.Reading? ==> NoSeparator(d.buffer)
  }

  /** Two reads in a row do what one read of the joined chunks does. */
  lemma FeedTwice(d: Decoder, a: string, b: string, parse: string -> Parsed)
    ensures Feed(Feed(d, a, parse), b, parse) == Feed(d, a + b, parse)
  {
    if d.Reading? {
      var buffer, logs := d.buffer, d.logs;
      assert buffer + (a + b) == (buffer + a) + b;
      SplitRecordsAppend(buffer + a, b);
      var r1 := SplitRecords(buffer + a).0;
      var t1 := SplitRecords(buffer + a).1;
      HandleRecordsAppend(logs, r1, SplitRecords(t1 + b).0, parse);
    }
  }

  /** An empty read changes nothing in a valid decoder. */
  lemma FeedEmpty(d: Decoder, parse: string -> Parsed)
    requires Valid(d)
    ensures Feed(d, "", parse) == d
  {
    if d.Reading? {
      assert d.buffer + "" == d.buffer;
    }
  }

  /** Feeding the chunks one by one is feeding their concatenation once. */
  lemma {:induction false} FeedAllIsFeedConcat(d: Decoder, chunks: seq<string>, parse: string -> Parsed)
    requires Valid(d)
    ensures FeedAll(d, chunks, parse) == Feed(d, Concat(chunks), parse)
    decreases |chunks|
  {
    if |chunks| == 0 {
      FeedEmpty(d, parse);
    } else {
      var d' := Feed(d, chunks[0], parse);
      FeedAllIsFeedConcat(d', chunks[1..], parse);
      FeedTwice(d, chunks[0], Concat(chunks[1..]), parse);
    }
  }

  /** Chunk invariance: the forwarded log lines and the outcome depend only on the concatenated
      stream, not on where the chunk boundaries fall. */
  lemma ChunkingInvariant(chunks: seq<string>, parse: string -> Parsed)
    ensures Decode(chunks, parse) == Decode([Concat(chunks)], parse)
  {
    FeedAllIsFeedConcat(Initial, chunks, parse);
    FeedAllIsFeedConcat(Initial, [Concat(chunks)], parse);
    assert Concat([Concat(chunks)]) == Concat(chunks) + "";
  }

  /** Any two chunkings of the same stream decode alike. */
  lemma SameStreamSameDecoding(chunks1: seq<string>, chunks2: seq<string>, parse: string -> Parsed)
    requires Concat(chunks1) == Concat(chunks2)
    ensures Decode(chunks1, parse) == Decode(chunks2, parse)
  {
    ChunkingInvariant(chunks1, parse);
    ChunkingInvariant(chunks2, parse);
  }

  /** The decoding of a whole stream, stated over its complete records: they are handled in
      order; if none stops the call, the outcome is `null` exactly when the stream ends on a
      separator (or is empty), and no result when an unterminated tail remains, which is never
      parsed. */
  lemma DecodeByRecords(stream: string, parse: string -> Parsed)
    ensures Decode([stream], parse) ==
      match HandleRecords([], SplitRecords(stream).0, parse)
      case Stop(logs, outcome) => (logs, outcome)
      case Go(logs) => (logs, if SplitRecords(stream).1 == "" then ReturnedNull else FellThrough)
  {
    assert "" + stream == stream;
    var d := Feed(Initial, stream, parse);
    assert FeedAll(Initial, [stream], parse) == FeedAll(d, [], parse) == d;
    if d.Reading? {
      FeedEmpty(d, parse);
    }
  }

  /** A stream without any separator never has a record parsed: the decoder yields `null` if it
      is empty and otherwise falls through, whatever the text says. */
  lemma UnterminatedRecordNeverParsed(stream: string, parse: string -> Parsed)
    requires NoSeparator(stream)
    ensures Decode([stream], parse) == ([], if stream == "" then ReturnedNull else FellThrough)
  {
    DecodeByRecords(stream, parse);
  }

  /** Once stopped, the decoder ignores every later chunk. */
  lemma {:induction false} StoppedIgnoresLaterChunks(d: Decoder, chunks: seq<string>, parse: string -> Parsed)
    requires d.Stopped?
    ensures FeedAll(d, chunks, parse) == d
    decreases |chunks|
  {
    if |chunks| > 0 {
      StoppedIgnoresLaterChunks(Feed(d, chunks[0], parse), chunks[1..], parse);
    }
  }

  /** A record followed by one separator splits into exactly that record and an empty tail,
      provided the record holds no separator and does not end in a newline. */
  lemma SingleRecordSplits(record: string)
    requires NoSeparator(record) && |record| > 0 && record[|record| - 1] != '\n'
    ensures SplitRecords(record + "\n\n") == ([record], "")
  {
    var s := record + "\n\n";
    assert IsSeparatorAt(s, |record|);
    forall j | 0 <= j < |record| ensures !IsSeparatorAt(s, j) {
      if j + 1 < |record| { assert !IsSeparatorAt(record, j); }
    }
    FirstSeparatorAt(s, |record|);
    assert s[..|record|] == record;
    assert s[|record| + 2..] == "";
    assert SplitRecords("") == ([], "");
    SplitRecordsAt(s, |record|);
    assert SplitRecords(s).0 == [record] + [] == [record];
    assert SplitRecords(s).1 == "";
    assert s == record + "\n\n";
  }

  /** A `system`/`finished` record returns its result at once: nothing after it, in the same or
      any later chunk, is looked at. */
  lemma FinishedStopsDecoding(record: string, later: seq<string>, parse: string -> Parsed, result: JsValue)
    requires NoSeparator(record)
    requires StartsWith(record, DataPrefix) && record[|record| - 1] != '\n'
    requires parse(record[6..]).Document? && parse(record[6..]).typ == Str("system")
    requires parse(record[6..]).data.Some?
    requires parse(record[6..]).data.value.status == Str("finished")
    requires parse(record[6..]).data.value.result == result
    ensures Decode([record + "\n\n"] + later, parse) == ([], Returned(result))
  {
    var s := record + "\n\n";
    SingleRecordSplits(record);
    assert "" + s == s;
    var d := Feed(Initial, s, parse);
    assert HandleRecord([], record, parse) == Stop([], Returned(result));
    assert d == Stopped([], Returned(result));
    var chunks := [s] + later;
    assert chunks[1..] == later;
    StoppedIgnoresLaterChunks(d, later, parse);
  }

  /** `record` is a data record whose JSON is a `log` event carrying `message`. */
  predicate IsLogRecord(record: string, parse: string -> Parsed, message: JsValue) {
    StartsWith(record, DataPrefix) &&
    var p := parse(record[6..]);
    p.Document? && p.typ == Str("log") && p.data.Some? && p.data.value.message == message
  }

  /** `record` is a data record whose JSON is a `system` event with status `finished`. */
  predicate IsFinishedRecord(record: string, parse: string -> Parsed, result: JsValue) {
    StartsWith(record, DataPrefix) &&
    var p := parse(record[6..]);
    p.Document? && p.typ == Str("system") && p.data.Some? &&
    p.data.value.status == Str("finished") && p.data.value.result == result
  }

  /** Log records forward their messages, one each, in record order. */
  lemma {:induction false} LogsForwardedInOrder(logs: seq<JsValue>, records: seq<string>, messages: seq<JsValue>, parse: string -> Parsed)
    requires |records| == |messages|
    requires forall k :: 0 <= k < |records| ==> IsLogRecord(records[k], parse, messages[k])
    ensures HandleRecords(logs, records, parse) == Go(logs + messages)
    decreases |records|
  {
    if |records| == 0 {
      assert logs + messages == logs;
    } else {
      assert IsLogRecord(records[0], parse, messages[0]);
      assert HandleRecord(logs, records[0], parse) == Go(logs + [messages[0]]);
      LogsForwardedInOrder(logs + [messages[0]], records[1..], messages[1..], parse);
      assert (logs + [messages[0]]) + messages[1..] == logs + messages;
    }
  }

  /** Records that are not data records, data records of another event type, and `system`
      records of another status are passed over without effect. */
  lemma OtherRecordsIgnored(logs: seq<JsValue>, record: string, parse: string -> Parsed)
    requires !StartsWith(record, DataPrefix) ||
      (parse(record[6..]).Document? &&
       parse(record[6..]).typ != Str("system") && parse(record[6..]).typ != Str("log")) ||
      (parse(record[6..]).Document? && parse(record[6..]).typ == Str("system") &&
       parse(record[6..]).data.Some? &&
       parse(record[6..]).data.value.status != Str("error") &&
       parse(record[6..]).data.value.status != Str("finished"))
    ensures HandleRecord(logs, record, parse) == Go(logs)
  {
  }

  /** A `system` record with status `error` ends the call with the same parse error as
      malformed JSON. */
  lemma ServerErrorIsParseError(logs: seq<JsValue>, record: string, other: string, parse: string -> Parsed)
    requires StartsWith(record, DataPrefix) && StartsWith(other, DataPrefix)
    requires parse(record[6..]).Document? && parse(record[6..]).typ == Str("system")
    requires parse(record[6..]).data.Some? && parse(record[6..]).data.value.status == Str("error")
    requires parse(other[6..]).Malformed?
    ensures HandleRecord(logs, record, parse) == Stop(logs, ParseFailed)
    ensures HandleRecord(logs, record, parse) == HandleRecord(logs, other, parse)
  {
  }

  /** Two terminated records split back into exactly those two records. */
  lemma TwoRecordsSplit(first: string, second: string)
    requires NoSeparator(first) && |first| > 0 && first[|first| - 1] != '\n'
    requires NoSeparator(second) && |second| > 0 && second[|second| - 1] != '\n'
    ensures SplitRecords(first + "\n\n" + (second + "\n\n")) == ([first, second], "")
  {
    SingleRecordSplits(first);
    SingleRecordSplits(second);
    SplitRecordsAppend(first + "\n\n", second + "\n\n");
    assert "" + (second + "\n\n") == second + "\n\n";
    assert [first] + [second] == [first, second];
  }

  /** A log record then a `finished` record, in one chunk, forward the message and return. */
  lemma LogThenFinished(logRecord: string, finished: string, parse: string -> Parsed, message: JsValue, result: JsValue)
    requires NoSeparator(logRecord) && |logRecord| > 0 && logRecord[|logRecord| - 1] != '\n'
    requires NoSeparator(finished) && |finished| > 0 && finished[|finished| - 1] != '\n'
    requires IsLogRecord(logRecord, parse, message)
    requires IsFinishedRecord(finished, parse, result)
    ensures Decode([logRecord + "\n\n" + (finished + "\n\n")], parse) == ([message], Returned(result))
  {
    var stream := logRecord + "\n\n" + (finished + "\n\n");
    TwoRecordsSplit(logRecord, finished);
    DecodeByRecords(stream, parse);
    assert HandleRecord([], logRecord, parse) == Go([message]);
    assert HandleRecord([message], finished, parse) == Stop([message], Returned(result));
    assert [logRecord, finished][1..] == [finished];
  }

  /** A stream sent as a log record split anywhere inside it, then the rest of that record and
      a `finished` record, forwards exactly the one log message and returns the result. */
  lemma LogSplitAcrossChunksThenFinished(logRecord: string, finished: string, cut: nat,
                                         parse: string -> Parsed, message: JsValue, result: JsValue)
    requires NoSeparator(logRecord) && |logRecord| > 0 && logRecord[|logRecord| - 1] != '\n'
    requires NoSeparator(finished) && |finished| > 0 && finished[|finished| - 1] != '\n'
    requires cut <= |logRecord|
    requires IsLogRecord(logRecord, parse, message)
    requires IsFinishedRecord(finished, parse, result)
    ensures Decode([logRecord[..cut], logRecord[cut..] + "\n\n" + finished + "\n\n"], parse) == ([message], Returned(result))
  {
    var chunks := [logRecord[..cut], logRecord[cut..] + "\n\n" + finished + "\n\n"];
    assert Concat(chunks) == logRecord + "\n\n" + (finished + "\n\n") by {
      assert Concat(chunks[1..]) == chunks[1] + "";
      assert logRecord == logRecord[..cut] + logRecord[cut..];
    }
    ChunkingInvariant(chunks, parse);
    LogThenFinished(logRecord, finished, parse, message, result);
  }
}

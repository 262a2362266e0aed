/** Dead letter publication (dlq.py): routing, byte-for-byte copies, and headers that any number
    of replays leaves stable. */
module DeadLetters {
  import opened Orders
  import opened Selection
  import Control

  newtype Byte = x: int | 0 <= x < 256

  type Bytes = seq<Byte>

  /** Python's UTF-8 codec: library code, of which only the round trip is assumed where needed. */
  datatype Codec = Codec(encode: string -> Bytes, decode: Bytes -> string)

  ghost predicate RoundTrips(c: Codec) {
    forall s :: c.decode(c.encode(s)) == s
  }

  datatype RawValue = Text(text: string) | Raw(bytes: Bytes) | Missing

  type RawHeader = (string, RawValue)

  type Header = (string, Bytes)

  /** `message.headers()`: nothing, a list of pairs, or a dictionary listed in insertion order. */
  datatype RawHeaders = NoHeaders | Pairs(pairs: seq<RawHeader>) | Dict(items: seq<RawHeader>)

  datatype Message = Message(
    topic: Option<string>, partition: nat, offset: nat, key: Option<Bytes>, value: Option<Bytes>, headers: RawHeaders)

  // ---- normalising ----

  function NormalValue(c: Codec, v: RawValue): Bytes {
    match v
    case Text(t) => c.encode(t)
    case Raw(b) => b
    case Missing => []
  }

  function Items(h: RawHeaders): seq<RawHeader> {
    match h
    case NoHeaders => []
    case Pairs(pairs) => pairs
    case Dict(items) => items
  }

  function Normal(c: Codec, items: seq<RawHeader>): (r: seq<Header>)
    ensures |r| == |items|
    ensures forall i :: 0 <= i < |items| ==> r[i] == (items[i].0, NormalValue(c, items[i].1))
  {
    seq(|items|, i requires 0 <= i < |items| => (items[i].0, NormalValue(c, items[i].1)))
  }

  /** Every header given, whichever way they are given, under its key and with its value as bytes: text
      encoded, bytes as they are, nothing as no bytes. */
  predicate IsNormalized(hs: seq<Header>, c: Codec, raw: RawHeaders) {
    match raw
    case NoHeaders => hs == []
    case Pairs(pairs) => EachNormalized(hs, c, pairs)
    case Dict(items) => EachNormalized(hs, c, items)
  }

  predicate EachNormalized(hs: seq<Header>, c: Codec, items: seq<RawHeader>) {
    |hs| == |items| &&
    forall i :: 0 <= i < |hs| ==>
      hs[i].0 == items[i].0 &&
      match items[i].1
      case Text(text) => hs[i].1 == c.encode(text)
      case Raw(bytes) => hs[i].1 == bytes
      case Missing => hs[i].1 == []
  }

  lemma NormalIsNormalized(c: Codec, raw: RawHeaders)
    ensures IsNormalized(Normal(c, Items(raw)), c, raw)
  {
  }

  method NormalizeHeaders(c: Codec, message: Message) returns (normalized: seq<Header>)
    ensures normalized == Normal(c, Items(message.headers))
    ensures IsNormalized(normalized, c, message.headers)
  {
    NormalIsNormalized(c, message.headers);
    if message.headers.NoHeaders? {
      return [];
    }
    var items := Items(message.headers);
    normalized := [];
    var i := 0;
    while i < |items|
      invariant i <= |items| && normalized == Normal(c, items[..i])
    {
      var (key, value) := items[i];
      if value.Text? {
        normalized := normalized + [(key, c.encode(value.text))];
      } else {
        normalized := normalized + [(key, if value.Raw? then value.bytes else [])];
      }
      i := i + 1;
    }
    assert items[..i] == items;
  }

  // ---- routing ----

  datatype Reason = DeserializationFailure | ValidationFailure | RetriesExhausted | UnexpectedError

  function Classify(e: Error): Reason {
    if e.Deserialization? then DeserializationFailure
    else if e.RetryExhausted? then RetriesExhausted
    else if IsPermanent(e) then ValidationFailure
    else UnexpectedError
  }

  function ReasonText(r: Reason): string {
    match r
    case DeserializationFailure => "DESERIALIZATION_FAILURE"
    case ValidationFailure => "VALIDATION_FAILURE"
    case RetriesExhausted => "RETRY_EXHAUSTED"
    case UnexpectedError => "UNEXPECTED_ERROR"
  }

  function ClassName(e: Error): string {
    match e
    case Transient => "TransientProcessingError"
    case Permanent => "PermanentProcessingError"
    case Deserialization => "DeserializationError"
    case Validation => "ValidationError"
    case RetryExhausted(_) => "RetryExhaustedError"
    case Other => "ProcessingError"
    case Foreign => "Exception"
  }

  // ---- headers ----

  const REASON := "x-dlq-reason"
  const ERROR_CLASS := "x-dlq-error-class"
  const ERROR_MESSAGE := "x-dlq-error-message"
  const ATTEMPTS := "x-dlq-attempts"
  const FAILED_AT := "x-dlq-failed-at-ms"
  const CONSUMER_GROUP := "x-dlq-consumer-group"
  const HOST := "x-dlq-host"
  const ORIGIN_TOPIC := "x-origin-topic"
  const ORIGIN_PARTITION := "x-origin-partition"
  const ORIGIN_OFFSET := "x-origin-offset"

  const MANAGED_KEYS := [
    REASON, ERROR_CLASS, ERROR_MESSAGE, ATTEMPTS, FAILED_AT, CONSUMER_GROUP, HOST,
    ORIGIN_TOPIC, ORIGIN_PARTITION, ORIGIN_OFFSET]

  predicate Managed(key: string) {
    "x-dlq-" <= key || "x-origin-" <= key
  }

  /** The headers this consumer does not own, in order. */
  function Unmanaged(headers: seq<Header>): seq<Header> {
    if headers == [] then []
    else
      var h := headers[|headers| - 1];
      var before := Unmanaged(headers[..|headers| - 1]);
      if Managed(h.0) then before else before + [h]
  }

  /** Exactly the two prefixes are managed. */
  lemma ManagedExactly(key: string)
    ensures Managed(key) <==>
      (6 <= |key| && key[..6] == "x-dlq-") || (9 <= |key| && key[..9] == "x-origin-")
  {
  }

  function NotManaged(): Header -> bool {
    (h: Header) => !(6 <= |h.0| && h.0[..6] == "x-dlq-") && !(9 <= |h.0| && h.0[..9] == "x-origin-")
  }

  /** The headers kept are those without a managed prefix, all of them and in their order. */
  lemma {:induction false} UnmanagedExactly(hs: seq<Header>)
    ensures Picks(Unmanaged(hs), hs, NotManaged())
  {
    hide Picks;
    if hs == [] {
      PicksNothing(NotManaged());
    } else {
      var n := |hs| - 1;
      UnmanagedExactly(hs[..n]);
      ManagedExactly(hs[n].0);
      PicksLast(Unmanaged(hs[..n]), hs[..n], hs[n], NotManaged());
      assert hs[..n] + [hs[n]] == hs;
    }
  }

  /** `str(n)` */
  function Decimal(n: nat): string {
    var digit := [('0' as int + n % 10) as char];
    if n < 10 then digit else Decimal(n / 10) + digit
  }

  function ReadDecimal(s: string): nat
    requires forall i :: 0 <= i < |s| ==> '0' <= s[i] <= '9'
  {
    if s == [] then 0 else 10 * ReadDecimal(s[..|s| - 1]) + (s[|s| - 1] as int - '0' as int)
  }

  lemma {:induction false} DecimalReadsBack(n: nat)
    ensures forall i :: 0 <= i < |Decimal(n)| ==> '0' <= Decimal(n)[i] <= '9'
    ensures ReadDecimal(Decimal(n)) == n
    ensures Decimal(n) != [] && (1 < |Decimal(n)| ==> Decimal(n)[0] != '0')
  {
    var digit := [('0' as int + n % 10) as char];
    if n < 10 {
      assert digit[..0] == [];
      assert ReadDecimal(digit[..0]) == 0;
    } else {
      DecimalReadsBack(n / 10);
      assert Decimal(n)[..|Decimal(n)| - 1] == Decimal(n / 10);
    }
  }

  /** What one failure adds to what it was told: error text, attempt count, clock and identity. */
  datatype Failure = Failure(error: Error, text: string, attempts: nat, atMs: nat, group: string, host: string)

  function Truncated(text: string): string {
    if |text| <= 1024 then text else text[..1024]
  }

  /** The ten values, in the order of `MANAGED_KEYS`. */
  function ContextTexts(m: Message, f: Failure): (r: seq<string>)
    ensures |r| == |MANAGED_KEYS|
  {
    [ReasonText(Classify(f.error)), ClassName(f.error), Truncated(f.text), Decimal(f.attempts), Decimal(f.atMs),
     f.group, f.host, if m.topic.Some? then m.topic.value else "", Decimal(m.partition), Decimal(m.offset)]
  }

  function Context(c: Codec, m: Message, f: Failure): (r: seq<Header>)
    ensures |r| == |MANAGED_KEYS|
    ensures forall i :: 0 <= i < |r| ==> r[i] == (MANAGED_KEYS[i], c.encode(ContextTexts(m, f)[i]))
  {
    seq(|MANAGED_KEYS|, i requires 0 <= i < |MANAGED_KEYS| => (MANAGED_KEYS[i], c.encode(ContextTexts(m, f)[i])))
  }

  /** `_build_headers` */
  function BuildHeaders(c: Codec, m: Message, f: Failure): seq<Header> {
    Unmanaged(Normal(c, Items(m.headers))) + Context(c, m, f)
  }

  datatype Letter = Letter(topic: string, key: Option<Bytes>, value: Option<Bytes>, headers: seq<Header>)

  function LetterOf(c: Codec, dlqTopic: string, m: Message, f: Failure): Letter {
    Letter(dlqTopic, m.key, m.value, BuildHeaders(c, m, f))
  }

  /** A dead letter as its reader finds it, field by field: in the topic it was sent to, the original key
      and value; first the original's own headers, then the ten of this failure. */
  ghost predicate IsDeadLetter(l: Letter, c: Codec, topic: string, m: Message, e: Error, text: string,
                               attempts: nat, atMs: nat, group: string, host: string) {
    l.topic == topic && l.key == m.key && l.value == m.value && 10 <= |l.headers| &&
    var n := |l.headers| - 10;
    IsKept(l.headers[..n], c, m.headers) && TellsFailure(l.headers[n..], c, m, e, text, attempts, atMs, group, host)
  }

  predicate TellsFailure(of: seq<Header>, c: Codec, m: Message, e: Error, text: string,
                         attempts: nat, atMs: nat, group: string, host: string) {
    |of| == 10 &&
    of[0] == ("x-dlq-reason", c.encode(
      match e
      case Deserialization => "DESERIALIZATION_FAILURE"
      case Permanent => "VALIDATION_FAILURE"
      case Validation => "VALIDATION_FAILURE"
      case RetryExhausted(_) => "RETRY_EXHAUSTED"
      case _ => "UNEXPECTED_ERROR")) &&
    of[1] == ("x-dlq-error-class", c.encode(
      match e
      case Transient => "TransientProcessingError"
      case Permanent => "PermanentProcessingError"
      case Deserialization => "DeserializationError"
      case Validation => "ValidationError"
      case RetryExhausted(_) => "RetryExhaustedError"
      case Other => "ProcessingError"
      case Foreign => "Exception")) &&
    of[2] == ("x-dlq-error-message", c.encode(text[..if |text| < 1024 then |text| else 1024])) &&
    of[3] == ("x-dlq-attempts", c.encode(Decimal(attempts))) &&
    of[4] == ("x-dlq-failed-at-ms", c.encode(Decimal(atMs))) &&
    of[5] == ("x-dlq-consumer-group", c.encode(group)) &&
    of[6] == ("x-dlq-host", c.encode(host)) &&
    of[7] == ("x-origin-topic", c.encode(if m.topic.Some? then m.topic.value else "")) &&
    of[8] == ("x-origin-partition", c.encode(Decimal(m.partition))) &&
    of[9] == ("x-origin-offset", c.encode(Decimal(m.offset)))
  }

  ghost predicate IsKept(kept: seq<Header>, c: Codec, raw: RawHeaders) {
    exists given :: IsNormalized(given, c, raw) && Picks(kept, given, NotManaged())
  }

  lemma KeptIsKept(c: Codec, raw: RawHeaders)
    ensures IsKept(Unmanaged(Normal(c, Items(raw))), c, raw)
  {
    hide Normal, Items, Unmanaged, IsNormalized, Picks;
    NormalIsNormalized(c, raw);
    UnmanagedExactly(Normal(c, Items(raw)));
  }

  /** The letter handed over is the dead letter of its message and failure. */
  lemma LetterIsDeadLetter(c: Codec, topic: string, m: Message, f: Failure)
    ensures IsDeadLetter(LetterOf(c, topic, m, f), c, topic, m, f.error, f.text, f.attempts, f.atMs, f.group, f.host)
  {
    KeptIsKept(c, m.headers);
    ContextTellsFailure(c, m, f);
    hide Unmanaged, Normal, Items, IsKept, TellsFailure, Context;
    var kept := Unmanaged(Normal(c, Items(m.headers)));
    var hs := LetterOf(c, topic, m, f).headers;
    assert hs[..|kept|] == kept && hs[|kept|..] == Context(c, m, f);
  }

  lemma ContextTellsFailure(c: Codec, m: Message, f: Failure)
    ensures TellsFailure(Context(c, m, f), c, m, f.error, f.text, f.attempts, f.atMs, f.group, f.host)
  {
    hide Decimal;
    var texts, of := ContextTexts(m, f), Context(c, m, f);
    assert texts[2] == f.text[..if |f.text| < 1024 then |f.text| else 1024];
    assert of[0].0 == REASON && of[1].0 == ERROR_CLASS && of[2].0 == ERROR_MESSAGE && of[3].0 == ATTEMPTS;
    assert of[4].0 == FAILED_AT && of[5].0 == CONSUMER_GROUP && of[6].0 == HOST;
    assert of[7].0 == ORIGIN_TOPIC && of[8].0 == ORIGIN_PARTITION && of[9].0 == ORIGIN_OFFSET;
  }

  // ---- replay ----

  /** One fail-and-replay round: the failure, and where the replayed copy then lands. */
  datatype ReplayRound = ReplayRound(failure: Failure, topic: string, partition: nat, offset: nat)

  /** A dead letter copied back whole to a source topic. */
  function CopyBack(l: Letter, r: ReplayRound): Message {
    Message(Some(r.topic), r.partition, r.offset, l.key, l.value,
            Pairs(seq(|l.headers|, i requires 0 <= i < |l.headers| => (l.headers[i].0, Raw(l.headers[i].1)))))
  }

  function AfterRounds(c: Codec, dlqTopic: string, m: Message, rounds: seq<ReplayRound>): Message {
    if rounds == [] then m
    else
      var r := rounds[|rounds| - 1];
      CopyBack(LetterOf(c, dlqTopic, AfterRounds(c, dlqTopic, m, rounds[..|rounds| - 1]), r.failure), r)
  }

  lemma {:induction false} UnmanagedOfConcat(a: seq<Header>, b: seq<Header>)
    ensures Unmanaged(a + b) == Unmanaged(a) + Unmanaged(b)
  {
    if b == [] {
      assert a + b == a;
    } else {
      assert (a + b)[..|a + b| - 1] == a + b[..|b| - 1];
      UnmanagedOfConcat(a, b[..|b| - 1]);
    }
  }

  lemma {:induction false} UnmanagedTwice(hs: seq<Header>)
    ensures Unmanaged(Unmanaged(hs)) == Unmanaged(hs)
    ensures forall h :: h in Unmanaged(hs) ==> !Managed(h.0)
  {
    if hs != [] {
      var h := hs[|hs| - 1];
      UnmanagedTwice(hs[..|hs| - 1]);
      if !Managed(h.0) {
        var before := Unmanaged(hs[..|hs| - 1]);
        assert (before + [h])[..|before|] == before;
      }
    }
  }

  lemma {:induction false} AllManagedDropped(hs: seq<Header>)
    requires forall i :: 0 <= i < |hs| ==> Managed(hs[i].0)
    ensures Unmanaged(hs) == []
  {
    if hs != [] {
      AllManagedDropped(hs[..|hs| - 1]);
    }
  }

  lemma EveryKeyIsManaged(i: nat)
    requires i < |MANAGED_KEYS|
    ensures Managed(MANAGED_KEYS[i])
  {
    assert i == 0 || i == 1 || i == 2 || i == 3 || i == 4 || i == 5 || i == 6 || i == 7 || i == 8 || i == 9;
  }

  lemma KeysDistinct(i: nat, j: nat)
    requires i < j < |MANAGED_KEYS|
    ensures MANAGED_KEYS[i] != MANAGED_KEYS[j]
  {
    var a, b := MANAGED_KEYS[i], MANAGED_KEYS[j];
    assert |REASON| == 12 && |ERROR_CLASS| == 17 && |ERROR_MESSAGE| == 19 && |ATTEMPTS| == 14 && |FAILED_AT| == 18;
    assert |CONSUMER_GROUP| == 20 && |HOST| == 10 && |ORIGIN_TOPIC| == 14 && |ORIGIN_PARTITION| == 18 && |ORIGIN_OFFSET| == 15;
    assert ATTEMPTS[2] != ORIGIN_TOPIC[2] && FAILED_AT[2] != ORIGIN_PARTITION[2];
  }

  /** Copying back is lossless: normalising the copy's headers gives the letter's headers. */
  lemma CopyBackKeepsHeaders(c: Codec, l: Letter, r: ReplayRound)
    ensures Normal(c, Items(CopyBack(l, r).headers)) == l.headers
  {
    var got := Normal(c, Items(CopyBack(l, r).headers));
    forall i | 0 <= i < |l.headers| ensures got[i] == l.headers[i] {}
  }

  lemma ContextIsManaged(c: Codec, m: Message, f: Failure)
    ensures Unmanaged(Context(c, m, f)) == []
  {
    hide Managed, ContextTexts;
    forall i | 0 <= i < |MANAGED_KEYS| ensures Managed(Context(c, m, f)[i].0) {
      EveryKeyIsManaged(i);
    }
    AllManagedDropped(Context(c, m, f));
  }

  /** After any number of fail-and-replay rounds, key, value and unmanaged headers are the original's. */
  lemma {:induction false} ReplaysPreserve(c: Codec, dlqTopic: string, m: Message, rounds: seq<ReplayRound>)
    ensures var n := AfterRounds(c, dlqTopic, m, rounds);
      n.key == m.key && n.value == m.value &&
      Unmanaged(Normal(c, Items(n.headers))) == Unmanaged(Normal(c, Items(m.headers)))
  {
    if rounds != [] {
      hide Unmanaged, Context;
      var r := rounds[|rounds| - 1];
      var before := AfterRounds(c, dlqTopic, m, rounds[..|rounds| - 1]);
      ReplaysPreserve(c, dlqTopic, m, rounds[..|rounds| - 1]);
      var letter := LetterOf(c, dlqTopic, before, r.failure);
      CopyBackKeepsHeaders(c, letter, r);
      UnmanagedOfConcat(Unmanaged(Normal(c, Items(before.headers))), Context(c, before, r.failure));
      UnmanagedTwice(Normal(c, Items(before.headers)));
      ContextIsManaged(c, before, r.failure);
    }
  }

  function Occurrences(headers: seq<Header>, key: string): nat {
    if headers == [] then 0
    else Occurrences(headers[..|headers| - 1], key) + (if headers[|headers| - 1].0 == key then 1 else 0)
  }

  lemma {:induction false} OccurrencesOfConcat(a: seq<Header>, b: seq<Header>, key: string)
    ensures Occurrences(a + b, key) == Occurrences(a, key) + Occurrences(b, key)
  {
    if b == [] {
      assert a + b == a;
    } else {
      assert (a + b)[..|a + b| - 1] == a + b[..|b| - 1];
      OccurrencesOfConcat(a, b[..|b| - 1], key);
    }
  }

  lemma {:induction false} NoOccurrence(hs: seq<Header>, key: string)
    requires forall i :: 0 <= i < |hs| ==> hs[i].0 != key
    ensures Occurrences(hs, key) == 0
  {
    if hs != [] {
      NoOccurrence(hs[..|hs| - 1], key);
    }
  }

  lemma {:induction false} OneOccurrence(hs: seq<Header>, i: nat)
    requires i < |hs| && forall j :: 0 <= j < |hs| && j != i ==> hs[j].0 != hs[i].0
    ensures Occurrences(hs, hs[i].0) == 1
  {
    var n := |hs| - 1;
    if i == n {
      NoOccurrence(hs[..n], hs[i].0);
    } else {
      OneOccurrence(hs[..n], i);
    }
  }

  lemma ContextKeyOnce(c: Codec, m: Message, f: Failure, i: nat)
    requires i < |MANAGED_KEYS|
    ensures Occurrences(Context(c, m, f), MANAGED_KEYS[i]) == 1
  {
    hide ContextTexts;
    var hs := Context(c, m, f);
    forall j | 0 <= j < |hs| && j != i ensures hs[j].0 != hs[i].0 {
      KeysDistinct(if i < j then i else j, if i < j then j else i);
    }
    OneOccurrence(hs, i);
  }

  lemma UnmanagedHasNoKey(hs: seq<Header>, i: nat)
    requires i < |MANAGED_KEYS|
    ensures Occurrences(Unmanaged(hs), MANAGED_KEYS[i]) == 0
  {
    hide Unmanaged;
    UnmanagedTwice(hs);
    EveryKeyIsManaged(i);
    var us := Unmanaged(hs);
    forall j | 0 <= j < |us| ensures us[j].0 != MANAGED_KEYS[i] {
      assert us[j] in us;
    }
    NoOccurrence(us, MANAGED_KEYS[i]);
  }

  /** However often the message failed before, a letter is the original's key, value and unmanaged
      headers followed by this failure's context, with each of the ten managed headers once. */
  lemma LetterIsStable(c: Codec, dlqTopic: string, m: Message, rounds: seq<ReplayRound>, f: Failure)
    ensures var n := AfterRounds(c, dlqTopic, m, rounds);
      var letter := LetterOf(c, dlqTopic, n, f);
      letter.key == m.key && letter.value == m.value &&
      letter.headers == Unmanaged(Normal(c, Items(m.headers))) + Context(c, n, f) &&
      forall i :: 0 <= i < |MANAGED_KEYS| ==> Occurrences(letter.headers, MANAGED_KEYS[i]) == 1
  {
    hide Unmanaged, Context, Occurrences, Normal;
    var n := AfterRounds(c, dlqTopic, m, rounds);
    ReplaysPreserve(c, dlqTopic, m, rounds);
    var kept := Unmanaged(Normal(c, Items(m.headers)));
    forall i | 0 <= i < |MANAGED_KEYS|
      ensures Occurrences(kept + Context(c, n, f), MANAGED_KEYS[i]) == 1
    {
      OccurrencesOfConcat(kept, Context(c, n, f), MANAGED_KEYS[i]);
      ContextKeyOnce(c, n, f, i);
      UnmanagedHasNoKey(Normal(c, Items(m.headers)), i);
    }
  }

  // ---- the inspector's view ----

  /** `_decode_headers`: a dictionary, so the last of equal keys wins. */
  function DictView(c: Codec, headers: seq<Header>): map<string, string> {
    if headers == [] then map[]
    else
      var h := headers[|headers| - 1];
      DictView(c, headers[..|headers| - 1])[h.0 := c.decode(h.1)]
  }

  /** A key is in the view exactly if some header has it. */
  lemma {:induction false} ViewHasKeys(c: Codec, hs: seq<Header>, key: string)
    ensures key in DictView(c, hs) <==> exists h :: h in hs && h.0 == key
  {
    if hs != [] {
      var n := |hs| - 1;
      ViewHasKeys(c, hs[..n], key);
      assert hs == hs[..n] + [hs[n]];
    }
  }

  /** And it shows the value of the last header that does. */
  lemma {:induction false} ViewOf(c: Codec, hs: seq<Header>, i: nat)
    requires i < |hs| && forall j :: i < j < |hs| ==> hs[j].0 != hs[i].0
    ensures hs[i].0 in DictView(c, hs) && DictView(c, hs)[hs[i].0] == c.decode(hs[i].1)
  {
    if i < |hs| - 1 {
      ViewOf(c, hs[..|hs| - 1], i);
    }
  }

  /** Reading any dead letter through the inspector shows the context of its last failure only. */
  lemma InspectorShowsLastFailure(c: Codec, dlqTopic: string, m: Message, rounds: seq<ReplayRound>, f: Failure, i: nat)
    requires RoundTrips(c) && i < |MANAGED_KEYS|
    ensures var n := AfterRounds(c, dlqTopic, m, rounds);
      var view := DictView(c, LetterOf(c, dlqTopic, n, f).headers);
      MANAGED_KEYS[i] in view && view[MANAGED_KEYS[i]] == ContextTexts(n, f)[i]
  {
    hide Unmanaged, ContextTexts;
    var n := AfterRounds(c, dlqTopic, m, rounds);
    var kept := Unmanaged(Normal(c, Items(n.headers)));
    var hs := kept + Context(c, n, f);
    var k := |kept| + i;
    forall j | k < j < |hs| ensures hs[j].0 != hs[k].0 {
      KeysDistinct(i, j - |kept|);
    }
    ViewOf(c, hs, k);
  }

  // ---- the publisher ----

  /** What the producer does with one letter. */
  datatype Publication = Flushed(flush: Control.Flush) | ProduceRaises | FlushRaises

  class DeadLetterPublisher {
    const codec: Codec
    const topic: string
    const group: string
    const host: string
    var published: nat
    /** Everything handed to the producer, oldest first. */
    var letters: seq<Letter>
    /** The delivery reports `_on_delivery` was given: it writes them to the log and no more. */
    var logged: seq<Control.Report>

    constructor (codec: Codec, topic: string, group: string, host: string)
      ensures this.codec == codec && this.topic == topic && this.group == group && this.host == host
      ensures published == 0 && letters == [] && logged == []
    {
      this.codec, this.topic, this.group, this.host := codec, topic, group, host;
      published, letters, logged := 0, [], [];
    }

    function FailureOf(error: Error, text: string, attempts: nat, atMs: nat): Failure {
      Failure(error, text, attempts, atMs, group, host)
    }

    method OnDelivery(report: Control.Report)
      modifies this`logged
      ensures logged == old(logged) + [report]
    {
      logged := logged + [report];
    }

    method Publish(message: Message, error: Error, text: string, attempts: nat, atMs: nat, publication: Publication)
      returns (raised: bool)
      modifies this
      ensures raised == !publication.Flushed?
      ensures publication.ProduceRaises? ==> letters == old(letters)
      ensures !publication.ProduceRaises? ==>
        |letters| == |old(letters)| + 1 && letters[..|old(letters)|] == old(letters) &&
        IsDeadLetter(letters[|old(letters)|], codec, topic, message, error, text, attempts, atMs, group, host)
      ensures letters == old(letters) + (if publication.ProduceRaises? then []
        else [LetterOf(codec, topic, message, FailureOf(error, text, attempts, atMs))])
      ensures logged == old(logged) +
        (if publication.Flushed? && !publication.flush.report.Queued? then [publication.flush.report] else [])
      ensures published == old(published) + (if raised then 0 else 1)
    {
      hide IsDeadLetter;
      var f := FailureOf(error, text, attempts, atMs);
      LetterIsDeadLetter(codec, topic, message, f);
      var normalized := NormalizeHeaders(codec, message);
      var preserved := [];
      var i := 0;
      while i < |normalized|
        invariant i <= |normalized| && preserved == Unmanaged(normalized[..i])
      {
        if !Managed(normalized[i].0) {
          preserved := preserved + [normalized[i]];
        }
        assert normalized[..i + 1][..i] == normalized[..i];
        i := i + 1;
      }
      assert normalized[..i] == normalized;
      var headers := preserved + Context(codec, message, f);
      if publication.ProduceRaises? {
        return true;
      }
      letters := letters + [Letter(topic, message.key, message.value, headers)];
      if publication.FlushRaises? {
        return true;
      }
      if !publication.flush.report.Queued? {
        OnDelivery(publication.flush.report);
      }
      published := published + 1;
      return false;
    }
  }
}

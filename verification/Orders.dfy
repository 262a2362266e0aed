/** The order model, its business rules and the error taxonomy (models.py, errors.py). */
module Orders {

  datatype Option<+T> = None | Some(value: T)

  /** A Python float: finite values are exact reals here. */
  datatype Float = Finite(value: real) | PosInf | NegInf | NaN

  datatype Order = Order(orderId: string, product: string, price: Float)

  /** The exception classes that routing can tell apart. `Foreign` is anything outside
      `ProcessingError`; `Other` is a `ProcessingError` of no subclass below. */
  datatype Error =
    | Transient
    | Permanent
    | Deserialization
    | Validation
    | RetryExhausted(attempts: nat)
    | Other
    | Foreign

  /** isinstance(error, PermanentProcessingError) */
  predicate IsPermanent(e: Error) {
    e.Permanent? || e.Deserialization? || e.Validation?
  }

  datatype Result<+T> = Ok(value: T) | Raise(error: Error)

  /** What `float(x)` does with a field value. */
  datatype FloatOf = Number(value: Float) | Rejected | Escapes

  datatype Field = Field(text: string, number: FloatOf)

  /** What the Avro deserialiser hands back. */
  datatype Decoded = Undecodable | Null | NotARecord | AvroRecord(fields: map<string, Field>)

  const AVRO_FIELDS := ["orderId", "product", "price"]

  function FromAvro(fields: map<string, Field>): Result<Order> {
    if exists name :: name in AVRO_FIELDS && name !in fields then Raise(Validation)
    else
      assert AVRO_FIELDS[0] in fields && AVRO_FIELDS[1] in fields && AVRO_FIELDS[2] in fields;
      match fields["price"].number
      case Number(price) => Ok(Order(fields["orderId"].text, fields["product"].text, price))
      case Rejected => Raise(Validation)
      case Escapes => Raise(Foreign)
  }

  /** `_decode`: every failure of decoding or mapping becomes a `Deserialization` error. */
  function Decode(d: Decoded): Result<Order> {
    match d
    case Undecodable => Raise(Deserialization)
    case Null => Raise(Deserialization)
    case NotARecord => Raise(Deserialization)
    case AvroRecord(fields) =>
      match FromAvro(fields)
      case Ok(order) => Ok(order)
      case Raise(e) => if IsPermanent(e) then Raise(Deserialization) else Raise(e)
  }

  /** The characters `str.strip()` removes. */
  predicate IsSpace(c: char) {
    '\U{9}' <= c <= '\U{D}' || '\U{1C}' <= c <= ' ' || c == '\U{85}' || c == '\U{A0}' ||
    c == '\U{1680}' || '\U{2000}' <= c <= '\U{200A}' || c == '\U{2028}' || c == '\U{2029}' ||
    c == '\U{202F}' || c == '\U{205F}' || c == '\U{3000}'
  }

  function Strip(s: string): string
    decreases |s|
  {
    if s != [] && IsSpace(s[0]) then Strip(s[1..])
    else if s != [] && IsSpace(s[|s| - 1]) then Strip(s[..|s| - 1])
    else s
  }

  function Validate(o: Order): Result<()> {
    if Strip(o.orderId) == [] then Raise(Validation)
    else if Strip(o.product) == [] then Raise(Validation)
    else if o.price.NaN? || o.price.PosInf? || o.price.NegInf? then Raise(Validation)
    else if o.price.value <= 0.0 then Raise(Validation)
    else Ok(())
  }

  predicate Blank(s: string) {
    forall i :: 0 <= i < |s| ==> IsSpace(s[i])
  }

  lemma {:induction false} StripsToNothing(s: string)
    ensures Strip(s) == [] <==> Blank(s)
    decreases |s|
  {
    if s != [] && IsSpace(s[0]) {
      StripsToNothing(s[1..]);
      assert forall i :: 1 <= i < |s| ==> s[i] == s[1..][i - 1];
    } else if s != [] && IsSpace(s[|s| - 1]) {
      StripsToNothing(s[..|s| - 1]);
      assert s[..|s| - 1][0] == s[0];
    } else if s != [] {
      assert !IsSpace(s[0]);
    }
  }

  /** All of Python's whitespace, character by character. */
  const WHITESPACE :=
    "\t\n\U{B}\U{C}\r\U{1C}\U{1D}\U{1E}\U{1F} \U{85}\U{A0}\U{1680}" +
    "\U{2000}\U{2001}\U{2002}\U{2003}\U{2004}\U{2005}\U{2006}\U{2007}\U{2008}\U{2009}\U{200A}" +
    "\U{2028}\U{2029}\U{202F}\U{205F}\U{3000}"

  lemma SpacesExactly(c: char)
    ensures IsSpace(c) <==> c in WHITESPACE
  {
    assert |WHITESPACE| == 29;
    forall i | 0 <= i < 29 ensures IsSpace(WHITESPACE[i]) {}
    if IsSpace(c) {
      SpaceAt(c);
    }
  }

  lemma SpaceAt(c: char)
    requires IsSpace(c)
    ensures c in WHITESPACE
  {
    var i: int := c as int;
    var at :=
      if i <= 13 then i - 9
      else if i <= 32 then i - 23
      else if i == 0x85 then 10
      else if i == 0xA0 then 11
      else if i == 0x1680 then 12
      else if i <= 0x200A then i - 0x2000 + 13
      else if i == 0x2028 then 24
      else if i == 0x2029 then 25
      else if i == 0x202F then 26
      else if i == 0x205F then 27
      else 28;
    assert WHITESPACE[at] == c;
  }

  /** Stripping takes off the blank ends and nothing else. */
  lemma {:induction false} StripsTheEnds(s: string) returns (i: nat, j: nat)
    ensures i <= j <= |s| && Strip(s) == s[i..j]
    ensures forall k :: 0 <= k < i || j <= k < |s| ==> IsSpace(s[k])
    ensures i < j ==> !IsSpace(s[i]) && !IsSpace(s[j - 1])
    decreases |s|
  {
    hide IsSpace;
    i, j := 0, |s|;
    if s != [] && IsSpace(s[0]) {
      var rest := s[1..];
      var a, b := StripsTheEnds(rest);
      i, j := a + 1, b + 1;
      forall k | 1 <= k < |s| ensures s[k] == rest[k - 1] {}
    } else if s != [] && IsSpace(s[|s| - 1]) {
      var rest := s[..|s| - 1];
      i, j := StripsTheEnds(rest);
      forall k | 0 <= k < |rest| ensures s[k] == rest[k] {}
    }
  }

  /** An order is aggregated only with a non-blank id, a non-blank product and a finite positive price. */
  lemma ValidExactly(o: Order)
    ensures Validate(o).Ok? <==>
      !Blank(o.orderId) && !Blank(o.product) && o.price.Finite? && o.price.value > 0.0
    ensures Validate(o).Raise? ==> Validate(o).error == Validation
  {
    StripsToNothing(o.orderId);
    StripsToNothing(o.product);
  }

  /** An order comes out exactly of a record with all three fields and a price that converts, and it
      carries those fields. */
  lemma DecodesExactly(d: Decoded, o: Order)
    ensures Decode(d) == Ok(o) <==>
      d.AvroRecord? && "orderId" in d.fields && "product" in d.fields && "price" in d.fields &&
      o.orderId == d.fields["orderId"].text && o.product == d.fields["product"].text &&
      d.fields["price"].number == Number(o.price)
  {
    assert AVRO_FIELDS[0] in AVRO_FIELDS && AVRO_FIELDS[1] in AVRO_FIELDS && AVRO_FIELDS[2] in AVRO_FIELDS;
  }

  /** Decoding fails with exactly one error class, except where float() itself escapes. */
  lemma DecodeFailures(d: Decoded)
    ensures Decode(d).Raise? ==> Decode(d).error == Deserialization || Decode(d).error == Foreign
    ensures Decode(d) == Raise(Foreign) <==>
      d.AvroRecord? && "orderId" in d.fields && "product" in d.fields && "price" in d.fields && d.fields["price"].number.Escapes?
  {
    assert AVRO_FIELDS[2] in AVRO_FIELDS;
  }
}

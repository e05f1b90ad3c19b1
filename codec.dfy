/**
 * A stand-in for the schema library's `json()` / `parse_raw` pair. A schema
 * instance is a schema type with one string per field; it is written as the
 * fields in order, each with `\` and `;` escaped by a `\` and terminated by an
 * unescaped `;`. Only the round trip matters to the store: parsing what was
 * serialized gives back the instance.
 */
module Codec {
  import opened Wrappers
  import opened Models

  /** An instance of a schema type. */
  datatype SchemaValue = SchemaValue(schema: SchemaType, fields: seq<string>)

  /** Why a stored payload does not parse into the requested schema. */
  datatype ParseError = Unterminated | DanglingEscape | ArityMismatch(expected: nat, found: nat)

  /** An instance carries exactly the fields its schema declares. */
  predicate WellFormed(v: SchemaValue)
  {
    |v.fields| == v.schema.arity
  }

  predicate Special(c: char)
  {
    c == '\\' || c == ';'
  }

  function Escape(s: string): string
  {
    if s == [] then []
    else (if Special(s[0]) then ['\\', s[0]] else [s[0]]) + Escape(s[1..])
  }

  function EncodeFields(fs: seq<string>): string
  {
    if fs == [] then [] else Escape(fs[0]) + [';'] + EncodeFields(fs[1..])
  }

  /** The payload stored for an instance. */
  function Serialize(v: SchemaValue): string
  {
    EncodeFields(v.fields)
  }

  /**
   * Reads one field up to the first unescaped `;` and returns it with the
   * text after that `;`.
   */
  function ReadField(s: string): (r: Result<(string, string), ParseError>)
    ensures r.Success? ==> |r.value.1| < |s|
    ensures r.Failure? ==> !r.error.ArityMismatch?
  {
    if s == [] then Failure(Unterminated)
    else if s[0] == ';' then Success(([], s[1..]))
    else if s[0] == '\\' then
      if |s| == 1 then Failure(DanglingEscape)
      else match ReadField(s[2..])
        case Failure(e) => Failure(e)
        case Success(p) => Success(([s[1]] + p.0, p.1))
    else match ReadField(s[1..])
      case Failure(e) => Failure(e)
      case Success(p) => Success(([s[0]] + p.0, p.1))
  }

  function DecodeFields(s: string): (r: Result<seq<string>, ParseError>)
    ensures r.Failure? ==> !r.error.ArityMismatch?
    decreases |s|
  {
    if s == [] then Success([])
    else match ReadField(s)
      case Failure(e) => Failure(e)
      case Success(p) =>
        match DecodeFields(p.1)
        case Failure(e) => Failure(e)
        case Success(fs) => Success([p.0] + fs)
  }

  /** Parses a stored payload into an instance of `t`, or reports why it cannot. */
  function Parse(t: SchemaType, s: string): (r: Result<SchemaValue, ParseError>)
    ensures r.Success? ==> r.value.schema == t && WellFormed(r.value)
    ensures r.Failure? && r.error.ArityMismatch? ==> r.error.expected == t.arity != r.error.found
  {
    match DecodeFields(s)
    case Failure(e) => Failure(e)
    case Success(fs) =>
      if |fs| == t.arity then Success(SchemaValue(t, fs)) else Failure(ArityMismatch(t.arity, |fs|))
  }

  /** An escaped field followed by its terminator reads back as that field. */
  lemma {:induction false} ReadEscapedField(f: string, rest: string)
    ensures ReadField(Escape(f) + [';'] + rest) == Success((f, rest))
  {
    var s := Escape(f) + [';'] + rest;
    if f == [] {
      assert s == [';'] + rest;
    } else {
      ReadEscapedField(f[1..], rest);
      var tail := Escape(f[1..]) + [';'] + rest;
      assert [f[0]] + f[1..] == f;
      if Special(f[0]) {
        assert s == ['\\', f[0]] + tail;
        assert s[2..] == tail;
      } else {
        assert s == [f[0]] + tail;
        assert s[1..] == tail;
      }
    }
  }

  /** Decoding an encoding gives back the fields. */
  lemma {:induction false} DecodeEncode(fs: seq<string>)
    ensures DecodeFields(EncodeFields(fs)) == Success(fs)
  {
    if fs != [] {
      var rest := EncodeFields(fs[1..]);
      ReadEscapedField(fs[0], rest);
      DecodeEncode(fs[1..]);
      assert [fs[0]] + fs[1..] == fs;
    }
  }

  /** Parsing a serialized instance against its own schema returns the instance. */
  lemma RoundTrip(v: SchemaValue)
    requires WellFormed(v)
    ensures Parse(v.schema, Serialize(v)) == Success(v)
  {
    DecodeEncode(v.fields);
  }

  /** Two instances of one schema with the same payload are equal. */
  lemma SerializeInjective(v: SchemaValue, w: SchemaValue)
    requires WellFormed(v) && WellFormed(w) && v.schema == w.schema
    requires Serialize(v) == Serialize(w)
    ensures v == w
  {
    RoundTrip(v);
    RoundTrip(w);
  }
}

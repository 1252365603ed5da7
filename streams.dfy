/**
 * The transport streams the core writes to and reads from, abstracted as a sequence
 * of tokens. Each token stands for one primitive write of the stream library (a
 * boolean, a string, a string array, a node descriptor, a model output); the byte
 * layout of those primitives is not modelled. An optional value is written, as the
 * library does, as a presence flag followed by the value when the flag is true.
 */
module Streams {
  import opened Wrappers

  /** A cluster member; the core uses nothing of it but its id. */
  datatype DiscoveryNode = DiscoveryNode(id: string)

  /** The output of a model run; its own content and serialisation are opaque here. */
  datatype MLOutput = MLOutput(content: string)

  datatype Token =
    | Bool(flag: bool)
    | Str(text: string)
    | StrArray(items: seq<string>)
    | Node(node: DiscoveryNode)
    | Output(output: MLOutput)

  /** Why a read failed: the stream ended, or the next item was not of the expected kind. */
  datatype IOException = EndOfStream | Malformed(expected: string)

  /** A value read from a stream together with what is left unread. */
  datatype Decoded<+T> = Decoded(value: T, rest: seq<Token>)

  type Read<T> = Result<Decoded<T>, IOException>

  // ---- what each primitive write appends ----

  function EncodeOptionalString(s: Option<string>): seq<Token> {
    match s
    case None => [Bool(false)]
    case Some(v) => [Bool(true), Str(v)]
  }

  function EncodeOptionalStringArray(a: Option<seq<string>>): seq<Token> {
    match a
    case None => [Bool(false)]
    case Some(v) => [Bool(true), StrArray(v)]
  }

  // ---- what each primitive read consumes ----

  function DecodeBoolean(ts: seq<Token>): (r: Read<bool>)
    ensures r.Success? ==> ts == [Bool(r.value.value)] + r.value.rest
    ensures r.Failure? <==> ts == [] || !ts[0].Bool?
  {
    if ts == [] then Failure(EndOfStream)
    else if ts[0].Bool? then Success(Decoded(ts[0].flag, ts[1..]))
    else Failure(Malformed("boolean"))
  }

  function DecodeString(ts: seq<Token>): (r: Read<string>)
    ensures r.Success? ==> ts == [Str(r.value.value)] + r.value.rest
    ensures r.Failure? <==> ts == [] || !ts[0].Str?
  {
    if ts == [] then Failure(EndOfStream)
    else if ts[0].Str? then Success(Decoded(ts[0].text, ts[1..]))
    else Failure(Malformed("string"))
  }

  function DecodeStringArray(ts: seq<Token>): (r: Read<seq<string>>)
    ensures r.Success? ==> ts == [StrArray(r.value.value)] + r.value.rest
    ensures r.Failure? <==> ts == [] || !ts[0].StrArray?
  {
    if ts == [] then Failure(EndOfStream)
    else if ts[0].StrArray? then Success(Decoded(ts[0].items, ts[1..]))
    else Failure(Malformed("string array"))
  }

  function DecodeNode(ts: seq<Token>): (r: Read<DiscoveryNode>)
    ensures r.Success? ==> ts == [Node(r.value.value)] + r.value.rest
    ensures r.Failure? <==> ts == [] || !ts[0].Node?
  {
    if ts == [] then Failure(EndOfStream)
    else if ts[0].Node? then Success(Decoded(ts[0].node, ts[1..]))
    else Failure(Malformed("node"))
  }

  function DecodeOutput(ts: seq<Token>): (r: Read<MLOutput>)
    ensures r.Success? ==> ts == [Output(r.value.value)] + r.value.rest
    ensures r.Failure? <==> ts == [] || !ts[0].Output?
  {
    if ts == [] then Failure(EndOfStream)
    else if ts[0].Output? then Success(Decoded(ts[0].output, ts[1..]))
    else Failure(Malformed("model output"))
  }

  function DecodeOptionalString(ts: seq<Token>): (r: Read<Option<string>>)
    ensures r.Success? ==> ts == EncodeOptionalString(r.value.value) + r.value.rest
  {
    var present :- DecodeBoolean(ts);
    if !present.value then Success(Decoded(None, present.rest))
    else
      var s :- DecodeString(present.rest);
      Success(Decoded(Some(s.value), s.rest))
  }

  function DecodeOptionalStringArray(ts: seq<Token>): (r: Read<Option<seq<string>>>)
    ensures r.Success? ==> ts == EncodeOptionalStringArray(r.value.value) + r.value.rest
  {
    var present :- DecodeBoolean(ts);
    if !present.value then Success(Decoded(None, present.rest))
    else
      var a :- DecodeStringArray(present.rest);
      Success(Decoded(Some(a.value), a.rest))
  }

  lemma OptionalStringRoundTrip(s: Option<string>, tail: seq<Token>)
    ensures DecodeOptionalString(EncodeOptionalString(s) + tail) == Success(Decoded(s, tail))
  {
    var ts := EncodeOptionalString(s) + tail;
    assert ts[0] == Bool(s.Some?);
    if s.Some? {
      assert ts[1..][0] == Str(s.value) && ts[1..][1..] == tail;
    } else {
      assert ts[1..] == tail;
    }
  }

  lemma OptionalStringArrayRoundTrip(a: Option<seq<string>>, tail: seq<Token>)
    ensures DecodeOptionalStringArray(EncodeOptionalStringArray(a) + tail) == Success(Decoded(a, tail))
  {
    var ts := EncodeOptionalStringArray(a) + tail;
    assert ts[0] == Bool(a.Some?);
    if a.Some? {
      assert ts[1..][0] == StrArray(a.value) && ts[1..][1..] == tail;
    } else {
      assert ts[1..] == tail;
    }
  }

  /** The value of a read, without what it left unread. */
  function ValueOf<T>(r: Read<T>): Result<T, IOException> {
    match r
    case Success(d) => Success(d.value)
    case Failure(e) => Failure(e)
  }

  /** The sink a message writes itself to; `written` is everything written so far. */
  class StreamOutput {
    var written: seq<Token>

    constructor ()
      ensures written == []
    {
      written := [];
    }

    method WriteBoolean(b: bool)
      modifies this
      ensures written == old(written) + [Bool(b)]
    {
      written := written + [Bool(b)];
    }

    method WriteString(s: string)
      modifies this
      ensures written == old(written) + [Str(s)]
    {
      written := written + [Str(s)];
    }

    method WriteStringArray(a: seq<string>)
      modifies this
      ensures written == old(written) + [StrArray(a)]
    {
      written := written + [StrArray(a)];
    }

    method WriteOptionalString(s: Option<string>)
      modifies this
      ensures written == old(written) + EncodeOptionalString(s)
    {
      if s.Some? {
        WriteBoolean(true);
        WriteString(s.value);
      } else {
        WriteBoolean(false);
      }
    }

    method WriteOptionalStringArray(a: Option<seq<string>>)
      modifies this
      ensures written == old(written) + EncodeOptionalStringArray(a)
    {
      if a.Some? {
        WriteBoolean(true);
        WriteStringArray(a.value);
      } else {
        WriteBoolean(false);
      }
    }

    /** What a node response's base class writes for its node. */
    method WriteNode(n: DiscoveryNode)
      modifies this
      ensures written == old(written) + [Node(n)]
    {
      written := written + [Node(n)];
    }

    /** What a model output writes when asked to write itself. */
    method WriteOutput(o: MLOutput)
      modifies this
      ensures written == old(written) + [Output(o)]
    {
      written := written + [Output(o)];
    }
  }

  /**
   * The source a message reads itself from; `rest` is what is still unread. After a
   * failed read the position of the stream is not specified.
   */
  class StreamInput {
    var rest: seq<Token>

    constructor (ts: seq<Token>)
      ensures rest == ts
    {
      rest := ts;
    }

    method ReadBoolean() returns (r: Result<bool, IOException>)
      modifies this
      ensures r == ValueOf(DecodeBoolean(old(rest)))
      ensures r.Success? ==> rest == DecodeBoolean(old(rest)).value.rest
    {
      var d := DecodeBoolean(rest);
      if d.Failure? {
        return Failure(d.error);
      }
      rest := d.value.rest;
      r := Success(d.value.value);
    }

    method ReadString() returns (r: Result<string, IOException>)
      modifies this
      ensures r == ValueOf(DecodeString(old(rest)))
      ensures r.Success? ==> rest == DecodeString(old(rest)).value.rest
    {
      var d := DecodeString(rest);
      if d.Failure? {
        return Failure(d.error);
      }
      rest := d.value.rest;
      r := Success(d.value.value);
    }

    method ReadStringArray() returns (r: Result<seq<string>, IOException>)
      modifies this
      ensures r == ValueOf(DecodeStringArray(old(rest)))
      ensures r.Success? ==> rest == DecodeStringArray(old(rest)).value.rest
    {
      var d := DecodeStringArray(rest);
      if d.Failure? {
        return Failure(d.error);
      }
      rest := d.value.rest;
      r := Success(d.value.value);
    }

    method ReadOptionalString() returns (r: Result<Option<string>, IOException>)
      modifies this
      ensures r == ValueOf(DecodeOptionalString(old(rest)))
      ensures r.Success? ==> rest == DecodeOptionalString(old(rest)).value.rest
    {
      var present :- ReadBoolean();
      if !present {
        return Success(None);
      }
      var s :- ReadString();
      r := Success(Some(s));
    }

    method ReadOptionalStringArray() returns (r: Result<Option<seq<string>>, IOException>)
      modifies this
      ensures r == ValueOf(DecodeOptionalStringArray(old(rest)))
      ensures r.Success? ==> rest == DecodeOptionalStringArray(old(rest)).value.rest
    {
      var present :- ReadBoolean();
      if !present {
        return Success(None);
      }
      var a :- ReadStringArray();
      r := Success(Some(a));
    }

    /** What a node response's base class reads for its node. */
    method ReadNode() returns (r: Result<DiscoveryNode, IOException>)
      modifies this
      ensures r == ValueOf(DecodeNode(old(rest)))
      ensures r.Success? ==> rest == DecodeNode(old(rest)).value.rest
    {
      var d := DecodeNode(rest);
      if d.Failure? {
        return Failure(d.error);
      }
      rest := d.value.rest;
      r := Success(d.value.value);
    }

    /** What reading a model output from the stream consumes. */
    method ReadOutput() returns (r: Result<MLOutput, IOException>)
      modifies this
      ensures r == ValueOf(DecodeOutput(old(rest)))
      ensures r.Success? ==> rest == DecodeOutput(old(rest)).value.rest
    {
      var d := DecodeOutput(rest);
      if d.Failure? {
        return Failure(d.error);
      }
      rest := d.value.rest;
      r := Success(d.value.value);
    }
  }
}

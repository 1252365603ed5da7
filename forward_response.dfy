/**
 * The response a node sends back for forwarded work: an optional status string and
 * an optional model output. On the wire the status is an optional string and the
 * output follows a presence flag.
 */
module ForwardResponse {
  import opened Wrappers
  import opened Streams

  datatype MLForwardResponse = MLForwardResponse(status: Option<string>, mlOutput: Option<MLOutput>)

  /** What `writeTo` appends: the optional status, a flag telling whether an output follows, the output. */
  function Encode(r: MLForwardResponse): seq<Token> {
    EncodeOptionalString(r.status) + EncodeFlaggedOutput(r.mlOutput)
  }

  /** The presence flag, then the output when there is one. */
  function EncodeFlaggedOutput(o: Option<MLOutput>): seq<Token> {
    match o
    case Some(v) => [Bool(true), Output(v)]
    case None => [Bool(false)]
  }

  lemma EncodeSplits(r: MLForwardResponse, tail: seq<Token>)
    ensures Encode(r) + tail == EncodeOptionalString(r.status) + (EncodeFlaggedOutput(r.mlOutput) + tail)
  {
  }

  /**
   * The stream constructor: reads the optional status and the presence flag, and
   * reads an output only when the flag is true. Whatever it accepts is exactly the
   * wire form of the response it returns followed by the unread rest, so after a
   * false flag nothing more is consumed.
   */
  function Decode(ts: seq<Token>): (d: Read<MLForwardResponse>)
    ensures d.Success? ==> ts == Encode(d.value.value) + d.value.rest
  {
    var status :- DecodeOptionalString(ts);
    var present :- DecodeBoolean(status.rest);
    if present.value then
      var output :- DecodeOutput(present.rest);
      var r := MLForwardResponse(status.value, Some(output.value));
      assert ts == Encode(r) + output.rest by {
        EncodeSplits(r, output.rest);
      }
      Success(Decoded(r, output.rest))
    else
      var r := MLForwardResponse(status.value, None);
      assert ts == Encode(r) + present.rest by {
        EncodeSplits(r, present.rest);
      }
      Success(Decoded(r, present.rest))
  }

  /**
   * Decoding what `writeTo` produced restores the status (null included), gives a
   * null output exactly when the output was null, and leaves what followed unread.
   */
  lemma {:induction false} RoundTrip(r: MLForwardResponse, tail: seq<Token>)
    ensures Decode(Encode(r) + tail) == Success(Decoded(r, tail))
  {
    var payload := EncodeFlaggedOutput(r.mlOutput);
    EncodeSplits(r, tail);
    OptionalStringRoundTrip(r.status, payload + tail);
    assert (payload + tail)[0] == Bool(r.mlOutput.Some?);
    if r.mlOutput.Some? {
      assert (payload + tail)[1..] == [Output(r.mlOutput.value)] + tail;
    } else {
      assert (payload + tail)[1..] == tail;
    }
  }

  /**
   * The presence flag decides whether the output is read: after a false flag the
   * decoder stops, even when an output token comes next.
   */
  lemma {:induction false} AbsentOutputNotRead(status: Option<string>, tail: seq<Token>)
    ensures Decode(EncodeOptionalString(status) + [Bool(false)] + tail)
         == Success(Decoded(MLForwardResponse(status, None), tail))
  {
    RoundTrip(MLForwardResponse(status, None), tail);
  }

  /** `writeTo`: the optional status, then `true` and the output, or just `false`. */
  method WriteTo(r: MLForwardResponse, out: StreamOutput)
    modifies out
    ensures out.written == old(out.written) + Encode(r)
  {
    out.WriteOptionalString(r.status);
    if r.mlOutput.Some? {
      out.WriteBoolean(true);
      out.WriteOutput(r.mlOutput.value);
    } else {
      out.WriteBoolean(false);
    }
  }

  /** The stream constructor, reading step by step; the output is read only after a true flag. */
  method ReadFrom(input: StreamInput) returns (r: Result<MLForwardResponse, IOException>)
    modifies input
    ensures r == ValueOf(Decode(old(input.rest)))
    ensures r.Success? ==> input.rest == Decode(old(input.rest)).value.rest
  {
    var status :- input.ReadOptionalString();
    var present :- input.ReadBoolean();
    var mlOutput := None;
    if present {
      var o :- input.ReadOutput();
      mlOutput := Some(o);
    }
    r := Success(MLForwardResponse(status, mlOutput));
  }

  // ---- conversion from an arbitrary action response ----

  /**
   * A response as handed over by the transport layer: either already a forward
   * response, or a response of some other class, given by what its own `writeTo`
   * produced (the tokens, or the exception it threw).
   */
  datatype ActionResponse =
    | Forward(response: MLForwardResponse)
    | Other(serialised: Result<seq<Token>, IOException>)

  datatype UncheckedIOException = UncheckedIOException(message: string, cause: IOException)

  const ParseFailureMessage := "failed to parse ActionResponse into MLForwardResponse"

  /**
   * `fromActionResponse`: a forward response is returned as it is; any other
   * response is written out and read back as a forward response. An exception on
   * either side becomes an unchecked exception with a fixed message.
   */
  function FromActionResponse(a: ActionResponse): (r: Result<MLForwardResponse, UncheckedIOException>)
    ensures a.Forward? ==> r == Success(a.response)
    ensures r.Failure? ==> r.error.message == ParseFailureMessage
    ensures a.Other? && a.serialised.Failure? ==> r == Failure(UncheckedIOException(ParseFailureMessage, a.serialised.error))
    ensures a.Other? && r.Success? ==> a.serialised.Success? && Encode(r.value) <= a.serialised.value
  {
    match a
    case Forward(response) => Success(response)
    case Other(Failure(e)) => Failure(UncheckedIOException(ParseFailureMessage, e))
    case Other(Success(ts)) =>
      match Decode(ts)
      case Failure(e) => Failure(UncheckedIOException(ParseFailureMessage, e))
      case Success(d) => Success(d.value)
  }

  /**
   * A response of another class whose wire form is that of some forward response
   * converts to exactly that response, whatever trails it; so the shortcut for a
   * forward response agrees with writing it out and reading it back.
   */
  lemma {:induction false} ConvertsByWireForm(x: MLForwardResponse, tail: seq<Token>)
    ensures FromActionResponse(Other(Success(Encode(x) + tail))) == Success(x)
    ensures FromActionResponse(Other(Success(Encode(x) + tail))) == FromActionResponse(Forward(x))
  {
    RoundTrip(x, tail);
  }

  /** A wire form that does not start with a forward response is refused with the fixed message. */
  lemma {:induction false} UnparsableIsRefused(ts: seq<Token>)
    requires Decode(ts).Failure?
    ensures FromActionResponse(Other(Success(ts)))
         == Failure(UncheckedIOException(ParseFailureMessage, Decode(ts).error))
  {
  }

  // ---- rendering ----

  /** What a content builder records, one event per call. */
  datatype XContentEvent =
    | StartObject
    | EndObject
    | FieldName(name: string)
    | NullValue
    | OutputValue(output: MLOutput)

  class XContentBuilder {
    var events: seq<XContentEvent>

    constructor ()
      ensures events == []
    {
      events := [];
    }

    method StartObject()
      modifies this
      ensures events == old(events) + [XContentEvent.StartObject]
    {
      events := events + [XContentEvent.StartObject];
    }

    method EndObject()
      modifies this
      ensures events == old(events) + [XContentEvent.EndObject]
    {
      events := events + [XContentEvent.EndObject];
    }

    /** A named field whose value renders itself, or renders as null when it is null. */
    method Field(name: string, value: Option<MLOutput>)
      modifies this
      ensures events == old(events) + [FieldName(name), if value.Some? then OutputValue(value.value) else NullValue]
    {
      events := events + [FieldName(name)];
      if value.Some? {
        events := events + [OutputValue(value.value)];
      } else {
        events := events + [NullValue];
      }
    }
  }

  /** The rendering of a response: one object with the single field "result". */
  function Rendering(r: MLForwardResponse): seq<XContentEvent> {
    [XContentEvent.StartObject, FieldName("result"),
     if r.mlOutput.Some? then OutputValue(r.mlOutput.value) else NullValue,
     XContentEvent.EndObject]
  }

  /** `toXContent`: appends the rendering to the builder and hands the same builder back. */
  method ToXContent(r: MLForwardResponse, builder: XContentBuilder) returns (b: XContentBuilder)
    modifies builder
    ensures b == builder
    ensures builder.events == old(builder.events) + Rendering(r)
  {
    builder.StartObject();
    builder.Field("result", r.mlOutput);
    builder.EndObject();
    b := builder;
  }

  /**
   * The rendering holds exactly one field, named "result", and does not depend on the
   * status: two responses with the same output render alike, and different outputs
   * render differently.
   */
  lemma {:induction false} RenderingShowsOnlyResult(a: MLForwardResponse, b: MLForwardResponse)
    ensures forall i :: 0 <= i < |Rendering(a)| && Rendering(a)[i].FieldName? ==> i == 1 && Rendering(a)[i].name == "result"
    ensures Rendering(a) == Rendering(b) <==> a.mlOutput == b.mlOutput
  {
    if Rendering(a) == Rendering(b) {
      assert Rendering(a)[2] == Rendering(b)[2];
    }
  }
}

/**
 * One node's answer to the sync-up gather request: the node that answers, an
 * optional model status, the ids of the models it has loaded and the ids of the
 * model-load tasks it is running. Each of the last three may be null.
 */
module SyncNodeResponse {
  import opened Wrappers
  import opened Streams

  datatype MLSyncUpNodeResponse = MLSyncUpNodeResponse(
    node: DiscoveryNode,
    modelStatus: Option<string>,
    loadedModelIds: Option<seq<string>>,
    runningLoadModelTaskIds: Option<seq<string>>)

  /** The wire form: the node (written by the base class), then the three optional fields in order. */
  function Encode(r: MLSyncUpNodeResponse): seq<Token> {
    [Node(r.node)]
      + EncodeOptionalString(r.modelStatus)
      + EncodeOptionalStringArray(r.loadedModelIds)
      + EncodeOptionalStringArray(r.runningLoadModelTaskIds)
  }

  /**
   * The stream constructor: reads the node, then the three optional fields, and
   * leaves whatever follows them unread. Whatever it accepts is exactly the wire
   * form of the response it returns followed by the unread rest.
   */
  function Decode(ts: seq<Token>): (d: Read<MLSyncUpNodeResponse>)
    ensures d.Success? ==> ts == Encode(d.value.value) + d.value.rest
  {
    var node :- DecodeNode(ts);
    var status :- DecodeOptionalString(node.rest);
    var loaded :- DecodeOptionalStringArray(status.rest);
    var running :- DecodeOptionalStringArray(loaded.rest);
    var r := MLSyncUpNodeResponse(node.value, status.value, loaded.value, running.value);
    assert ts == Encode(r) + running.rest by {
      EncodeSplits(r, running.rest);
    }
    Success(Decoded(r, running.rest))
  }

  /** The wire form of a response followed by more data, taken field by field. */
  lemma EncodeSplits(r: MLSyncUpNodeResponse, tail: seq<Token>)
    ensures Encode(r) + tail
         == [Node(r.node)]
            + (EncodeOptionalString(r.modelStatus)
            + (EncodeOptionalStringArray(r.loadedModelIds)
            + (EncodeOptionalStringArray(r.runningLoadModelTaskIds) + tail)))
  {
  }

  /**
   * Decoding what `writeTo` produced gives back every field, null fields as null,
   * and consumes exactly the encoded fields: what followed is left unread.
   */
  lemma {:induction false} RoundTrip(r: MLSyncUpNodeResponse, tail: seq<Token>)
    ensures Decode(Encode(r) + tail) == Success(Decoded(r, tail))
  {
    var t3 := EncodeOptionalStringArray(r.runningLoadModelTaskIds) + tail;
    var t2 := EncodeOptionalStringArray(r.loadedModelIds) + t3;
    var t1 := EncodeOptionalString(r.modelStatus) + t2;
    assert Encode(r) + tail == [Node(r.node)] + t1;
    assert DecodeNode([Node(r.node)] + t1) == Success(Decoded(r.node, t1));
    OptionalStringRoundTrip(r.modelStatus, t2);
    OptionalStringArrayRoundTrip(r.loadedModelIds, t3);
    OptionalStringArrayRoundTrip(r.runningLoadModelTaskIds, tail);
  }

  /** Decoding is injective on wire forms: two responses with the same encoding are equal. */
  lemma {:induction false} EncodeInjective(a: MLSyncUpNodeResponse, b: MLSyncUpNodeResponse)
    requires Encode(a) == Encode(b)
    ensures a == b
  {
    RoundTrip(a, []);
    RoundTrip(b, []);
    assert Encode(a) + [] == Encode(b) + [];
  }

  /** `writeTo`: the base class writes the node, then the three optional fields follow in order. */
  method WriteTo(r: MLSyncUpNodeResponse, out: StreamOutput)
    modifies out
    ensures out.written == old(out.written) + Encode(r)
  {
    out.WriteNode(r.node);
    out.WriteOptionalString(r.modelStatus);
    out.WriteOptionalStringArray(r.loadedModelIds);
    out.WriteOptionalStringArray(r.runningLoadModelTaskIds);
  }

  /** The stream constructor, reading field by field; a failed read propagates as the exception. */
  method ReadFrom(input: StreamInput) returns (r: Result<MLSyncUpNodeResponse, IOException>)
    modifies input
    ensures r == ValueOf(Decode(old(input.rest)))
    ensures r.Success? ==> input.rest == Decode(old(input.rest)).value.rest
  {
    var node :- input.ReadNode();
    var modelStatus :- input.ReadOptionalString();
    var loadedModelIds :- input.ReadOptionalStringArray();
    var runningLoadModelTaskIds :- input.ReadOptionalStringArray();
    r := Success(MLSyncUpNodeResponse(node, modelStatus, loadedModelIds, runningLoadModelTaskIds));
  }

  /** `readStats`: the same as the stream constructor. */
  method ReadStats(input: StreamInput) returns (r: Result<MLSyncUpNodeResponse, IOException>)
    modifies input
    ensures r == ValueOf(Decode(old(input.rest)))
    ensures r.Success? ==> input.rest == Decode(old(input.rest)).value.rest
  {
    r := ReadFrom(input);
  }

  /** Writing a response to a stream and reading it back from there gives the same response. */
  method WriteThenRead(r: MLSyncUpNodeResponse) returns (back: Result<MLSyncUpNodeResponse, IOException>)
    ensures back == Success(r)
  {
    var out := new StreamOutput();
    WriteTo(r, out);
    var input := new StreamInput(out.written);
    RoundTrip(r, []);
    assert out.written == Encode(r) + [];
    back := ReadFrom(input);
  }
}

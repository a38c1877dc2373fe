/** Reading the output of a firmware command through a bounded buffer. */
module Output {
  import opened Wrappers

  const MAX_COMMAND_OUTPUT_BYTES: nat := 4096
  const CHUNK: nat := 512

  type u8 = n: nat | n < 256

  datatype CommandFailure = OutputRead | OutputTooLarge

  /** One `read` call: at most a chunk of bytes, none at the end of the stream, or an I/O error. */
  datatype Read = Data(bytes: seq<u8>) | Failed

  ghost predicate Chunked(calls: seq<Read>) {
    forall i :: 0 <= i < |calls| && calls[i].Data? ==> |calls[i].bytes| <= CHUNK
  }

  predicate EndsAt(read: Read) {
    read.Data? && read.bytes == []
  }

  /** The bytes before the end of the stream, or nothing when a read fails before it. */
  function Stream(calls: seq<Read>): (bytes: Option<seq<u8>>) {
    if calls == [] || EndsAt(calls[0]) then Some([])
    else if calls[0].Failed? then None
    else
      match Stream(calls[1..])
      case None => None
      case Some(rest) => Some(calls[0].bytes + rest)
  }

  /** The result of a command whose reads follow the bytes received so far. */
  ghost function Outcome(received: seq<u8>, calls: seq<Read>): (r: Result<seq<u8>, CommandFailure>) {
    match Stream(calls)
    case None => Failure(OutputRead)
    case Some(rest) =>
      if |received + rest| <= MAX_COMMAND_OUTPUT_BYTES then Success(received + rest) else Failure(OutputTooLarge)
  }

  lemma OutcomeStep(received: seq<u8>, calls: seq<Read>)
    requires calls != [] && calls[0].Data? && calls[0].bytes != []
    ensures Outcome(received, calls) == Outcome(received + calls[0].bytes, calls[1..])
  {
    if Stream(calls[1..]).Some? {
      var rest := Stream(calls[1..]).value;
      assert received + (calls[0].bytes + rest) == (received + calls[0].bytes) + rest;
    }
  }

  /**
   However the stream is cut into reads: the whole of it when it fits, too large otherwise;
   the buffer never overflows.
   */
  method ReadLimitedOutput(calls: seq<Read>) returns (r: Result<seq<u8>, CommandFailure>, ghost peak: nat)
    requires Chunked(calls)
    ensures r ==
      match Stream(calls)
      case None => Failure(OutputRead)
      case Some(bytes) => if |bytes| <= 4096 then Success(bytes) else Failure(OutputTooLarge)
    ensures peak <= 4096
  {
    var output: seq<u8> := [];
    var tooLarge := false;
    peak := 0;
    ghost var received: seq<u8> := [];
    var i := 0;
    assert calls[0..] == calls;
    assert Stream(calls).Some? ==> [] + Stream(calls).value == Stream(calls).value;
    while i < |calls|
      invariant 0 <= i <= |calls|
      invariant Outcome(received, calls[i..]) == Outcome([], calls)
      invariant output == received[..Min(|received|, MAX_COMMAND_OUTPUT_BYTES)]
      invariant tooLarge <==> |received| > MAX_COMMAND_OUTPUT_BYTES
      invariant |output| <= peak <= MAX_COMMAND_OUTPUT_BYTES
    {
      match calls[i] {
        case Failed =>
          return Failure(OutputRead), peak;
        case Data(bytes) =>
          var count := |bytes|;
          if count == 0 {
            break;
          }
          OutcomeStep(received, calls[i..]);
          assert calls[i..][1..] == calls[i + 1..];
          var remaining := MAX_COMMAND_OUTPUT_BYTES - |output|;
          output := output + bytes[..Min(count, remaining)];
          tooLarge := tooLarge || count > remaining;
          peak := |output|;
          received := received + bytes;
      }
      i := i + 1;
    }
    assert Stream(calls[i..]) == Some([]);
    assert received + [] == received;
    r := if tooLarge then Failure(OutputTooLarge) else Success(output);
  }

  /** Every way of cutting a byte string into nonempty reads is a stream of exactly that byte string. */
  lemma {:induction false} CutsAreStreams(pieces: seq<seq<u8>>)
    requires forall i :: 0 <= i < |pieces| ==> pieces[i] != []
    ensures Stream(seq(|pieces|, i requires 0 <= i < |pieces| => Data(pieces[i]))) == Some(Join(pieces))
    decreases |pieces|
  {
    var calls := seq(|pieces|, i requires 0 <= i < |pieces| => Data(pieces[i]));
    if pieces != [] {
      var rest := seq(|pieces[1..]|, i requires 0 <= i < |pieces[1..]| => Data(pieces[1..][i]));
      CutsAreStreams(pieces[1..]);
      assert calls[1..] == rest;
    }
  }

  function Join(pieces: seq<seq<u8>>): (bytes: seq<u8>) {
    if pieces == [] then [] else pieces[0] + Join(pieces[1..])
  }
}

/** Reading a response body without letting the peer grow it past a limit. */
module BodyReader {
  import opened Wrappers
  import opened Uuids

  datatype ReadError = ResponseTooLarge(limit: nat) | Transport

  /** A chunk of the body, or a transport failure. */
  type Chunk = Result<seq<Byte>, ()>

  const USIZE_MAX: nat := 0xFFFF_FFFF_FFFF_FFFF

  function Concat(chunks: seq<Chunk>): seq<Byte> {
    if chunks == [] then []
    else Concat(chunks[..|chunks| - 1]) + (if chunks[|chunks| - 1].Ok? then chunks[|chunks| - 1].value else [])
  }

  /** The body is the chunks one after the other, first chunk first. */
  lemma {:induction false} ConcatCons(first: seq<Byte>, rest: seq<Chunk>)
    ensures Concat([Ok(first)] + rest) == first + Concat(rest)
  {
    var chunks: seq<Chunk> := [Ok(first)] + rest;
    if rest == [] {
      assert chunks == [Ok(first)] && chunks[..0] == [];
    } else {
      var n := |rest| - 1;
      ConcatCons(first, rest[..n]);
      assert chunks[..|chunks| - 1] == [Ok(first)] + rest[..n];
    }
  }

  /** The first `k` chunks arrive and fit. */
  ghost predicate FitsUpTo(chunks: seq<Chunk>, k: nat, limit: nat)
    requires k <= |chunks|
  {
    (forall i :: 0 <= i < k ==> chunks[i].Ok?) && |Concat(chunks[..k])| <= limit
  }

  lemma {:induction false} ConcatGrows(chunks: seq<Chunk>, j: nat, k: nat)
    requires j <= k <= |chunks|
    ensures |Concat(chunks[..j])| <= |Concat(chunks[..k])|
  {
    if j < k {
      ConcatGrows(chunks, j, k - 1);
      assert chunks[..k][..k - 1] == chunks[..k - 1];
    }
  }

  /**
   `read_body_limited`. The whole body comes back exactly when the declared length, if any, and the total fit and no
   chunk fails; otherwise the first chunk that fails or overflows decides the error. At no time are more than `limit`
   bytes retained, which `peak` records.
   */
  method ReadBodyLimited(contentLength: Option<nat>, chunks: seq<Chunk>, limit: nat)
    returns (result: Result<seq<Byte>, ReadError>, ghost peak: nat)
    requires limit <= USIZE_MAX
    requires forall i :: 0 <= i < |chunks| && chunks[i].Ok? ==> |chunks[i].value| <= USIZE_MAX
    ensures peak <= limit
    ensures result.Ok? <==> (contentLength.Some? ==> contentLength.value <= limit) && FitsUpTo(chunks, |chunks|, limit)
    ensures result.Ok? ==> result.value == Concat(chunks)
    ensures result == Err(Transport) <==>
              (contentLength.Some? ==> contentLength.value <= limit)
              && exists k :: 0 <= k < |chunks| && FitsUpTo(chunks, k, limit) && chunks[k].Err?
    ensures result.Err? && result.error != Transport ==> result.error == ResponseTooLarge(limit)
  {
    peak := 0;
    if contentLength.Some? && contentLength.value > limit {
      return Err(ResponseTooLarge(limit)), peak;
    }
    var body: seq<Byte> := [];
    var next := 0;
    while next < |chunks|
      invariant 0 <= next <= |chunks|
      invariant FitsUpTo(chunks, next, limit)
      invariant body == Concat(chunks[..next])
      invariant peak <= limit && |body| <= peak
    {
      assert chunks[..next + 1][..next] == chunks[..next];
      if chunks[next].Err? {
        return Err(Transport), peak;
      }
      var chunk := chunks[next].value;
      if |body| + |chunk| > USIZE_MAX || |body| + |chunk| > limit {
        OverflowDecides(chunks, next, limit);
        return Err(ResponseTooLarge(limit)), peak;
      }
      body := body + chunk;
      peak := |body|;
      next := next + 1;
    }
    assert chunks[..|chunks|] == chunks;
    result := Ok(body);
  }

  /** Once a chunk overflows, no later chunk is reached and the total does not fit. */
  lemma OverflowDecides(chunks: seq<Chunk>, next: nat, limit: nat)
    requires next < |chunks| && chunks[next].Ok? && FitsUpTo(chunks, next, limit)
    requires |Concat(chunks[..next + 1])| > limit
    ensures forall k :: next < k <= |chunks| ==> !FitsUpTo(chunks, k, limit)
  {
    forall k | next < k <= |chunks| ensures !FitsUpTo(chunks, k, limit) {
      ConcatGrows(chunks, next + 1, k);
    }
  }
}

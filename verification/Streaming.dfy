/**
 * The body of a response: `body_from_cached_resource` sends the file of a
 * resource in chunks, with positional reads that may be short or fail.
 */
module Streaming {
  import opened Options
  import opened Model

  const BUFFER: nat := 16_384

  /** What the system does with one read: deliver at most so many bytes, or fail. */
  datatype Read = Short(limit: nat) | Fault

  /** What is passed to the channel. */
  datatype Chunk = Data(bytes: seq<Byte>) | Trouble

  /** The data among some chunks, in order. */
  function Payload(chunks: seq<Chunk>): seq<Byte> {
    if chunks == [] then []
    else
      var before, last := Payload(chunks[..|chunks| - 1]), chunks[|chunks| - 1];
      if last.Data? then before + last.bytes else before
  }

  lemma PayloadPush(chunks: seq<Chunk>, c: Chunk)
    ensures Payload(chunks + [c]) == if c.Data? then Payload(chunks) + c.bytes else Payload(chunks)
  {
    assert (chunks + [c])[..|chunks|] == chunks;
  }

  /** How many of the bytes left a read delivers. */
  function Delivered(limit: nat, left: nat): (n: nat)
    ensures n <= left && n <= BUFFER && n <= limit + 1
    ensures n == 0 <==> left == 0
  {
    Min(Min(if limit == 0 then 1 else limit, BUFFER), left)
  }

  /** What a read at an offset gives: at least one byte unless at the end, at most a buffer, or an error. */
  function ReadOf(file: seq<Byte>, offset: nat, read: Read): (r: Option<seq<Byte>>)
    requires offset <= |file|
    ensures r.Some? ==> |r.value| <= BUFFER && offset + |r.value| <= |file| && r.value == file[offset..offset + |r.value|]
    ensures r.Some? ==> (r.value == [] <==> offset == |file|)
  {
    match read
    case Fault => None
    case Short(limit) => Some(file[offset..offset + Delivered(limit, |file| - offset)])
  }

  /** The reads that are listed come first; those after them are not short. */
  function NthRead(script: seq<Read>, n: nat): Read {
    if n < |script| then script[n] else Short(BUFFER)
  }

  /** The message for a read at an offset; there is none for the end of the file. */
  ghost predicate MessageFor(file: seq<Byte>, offset: nat, read: Read, c: Chunk) {
    && offset <= |file|
    && match ReadOf(file, offset, read)
       case None => c == Trouble
       case Some(bytes) => bytes != [] && c == Data(bytes)
  }

  /**
   * Message m carries what read m gave: an error if it failed, and else the
   * bytes of the file that follow those of the messages before, as many as the
   * read delivered.
   */
  ghost predicate Carries(file: seq<Byte>, script: seq<Read>, sent: seq<Chunk>, m: nat)
    requires m < |sent|
  {
    MessageFor(file, |Payload(sent[..m])|, NthRead(script, m), sent[m])
  }

  ghost predicate EachCarries(file: seq<Byte>, script: seq<Read>, sent: seq<Chunk>) {
    forall m :: 0 <= m < |sent| ==> Carries(file, script, sent, m)
  }

  /** What the sending thread has sent once it has read the file up to an offset. */
  ghost predicate Sent(file: seq<Byte>, script: seq<Read>, sent: seq<Chunk>, offset: nat) {
    && offset <= |file| && Payload(sent) == file[..offset]
    && EachCarries(file, script, sent)
  }

  lemma CarriesPush(file: seq<Byte>, script: seq<Read>, sent: seq<Chunk>, c: Chunk, m: nat)
    requires m < |sent| && Carries(file, script, sent, m)
    ensures Carries(file, script, sent + [c], m)
  {
    assert (sent + [c])[..m] == sent[..m];
  }

  /** One more message for one more read. */
  lemma SentOneMore(file: seq<Byte>, script: seq<Read>, sent: seq<Chunk>, offset: nat, c: Chunk)
    requires Sent(file, script, sent, offset) && MessageFor(file, offset, NthRead(script, |sent|), c)
    ensures Sent(file, script, sent + [c], offset + if c.Data? then |c.bytes| else 0)
  {
    var more := sent + [c];
    PayloadPush(sent, c);
    assert more[..|sent|] == sent;
    forall m | 0 <= m < |more| ensures Carries(file, script, more, m) {
      if m < |sent| { CarriesPush(file, script, sent, c, m); }
    }
    if c.Data? { assert file[..offset] + c.bytes == file[..offset + |c.bytes|]; }
  }

  /** The messages that the receiver took. */
  function Accepted(sent: seq<Chunk>, accepts: Option<nat>): seq<Chunk> {
    if accepts.Some? && accepts.value < |sent| then sent[..accepts.value] else sent
  }

  lemma {:induction false} PayloadPrefix(chunks: seq<Chunk>, n: nat)
    requires n <= |chunks|
    ensures Payload(chunks[..n]) <= Payload(chunks)
  {
    if n < |chunks| {
      PayloadPrefix(chunks[..|chunks| - 1], n);
      assert chunks[..|chunks| - 1][..n] == chunks[..n];
    } else {
      assert chunks[..n] == chunks;
    }
  }

  /** There is an error message for each read that failed, and nowhere else. */
  ghost predicate ErrorsWhereFailed(script: seq<Read>, sent: seq<Chunk>) {
    forall m :: 0 <= m < |sent| ==> (sent[m].Trouble? <==> m < |script| && script[m].Fault?)
  }

  /** Each data message carries the bytes of the file that follow those before it, at least one and at most a buffer. */
  ghost predicate DataInOrder(file: seq<Byte>, sent: seq<Chunk>) {
    forall m :: 0 <= m < |sent| && sent[m].Data? ==>
      var o, n := |Payload(sent[..m])|, |sent[m].bytes|;
      0 < n <= BUFFER && o + n <= |file| && sent[m].bytes == file[o..o + n]
  }

  lemma MessageByMessage(file: seq<Byte>, script: seq<Read>, sent: seq<Chunk>, offset: nat, accepts: Option<nat>)
    requires Sent(file, script, sent, offset)
    ensures ErrorsWhereFailed(script, sent) && DataInOrder(file, sent) && Payload(sent) <= file
    ensures Payload(Accepted(sent, accepts)) <= file
  {
    forall m | 0 <= m < |sent|
      ensures sent[m].Trouble? <==> m < |script| && script[m].Fault?
      ensures sent[m].Data? ==>
        var o, n := |Payload(sent[..m])|, |sent[m].bytes|;
        0 < n <= BUFFER && o + n <= |file| && sent[m].bytes == file[o..o + n]
    {
      assert Carries(file, script, sent, m);
    }
    if accepts.Some? && accepts.value < |sent| { PayloadPrefix(sent, accepts.value); }
  }

  /**
   * The loop of the sending thread, for any behaviour of the reads and for a
   * receiver that accepts so many messages and then hangs up, or never does.
   * Reads after those listed succeed in full, so errors are finite in number.
   * Message by message: there is an error where the read failed, and else the
   * next bytes of the file, neither none nor more than the buffer. If the loop
   * ends at the end of the file, all messages together carry the whole file, and
   * one more read found the end; else it ends with the message that was refused.
   */
  method SendFile(file: seq<Byte>, script: seq<Read>, accepts: Option<nat>)
    returns (sent: seq<Chunk>, used: nat, complete: bool)
    ensures ErrorsWhereFailed(script, sent) && DataInOrder(file, sent)
    ensures EachCarries(file, script, sent)
    ensures used == Min(|script|, |sent| + if complete then 1 else 0)
    ensures complete ==> Payload(sent) == file && !(|sent| < |script| && script[|sent|].Fault?)
    ensures complete <==> accepts.None? || |sent| <= accepts.value
    ensures !complete ==> |sent| == accepts.value + 1
    ensures Payload(sent) <= file && Payload(Accepted(sent, accepts)) <= file
  {
    var offset: nat := 0;
    sent, used := [], 0;
    while true
      invariant Sent(file, script, sent, offset)
      invariant used == Min(|script|, |sent|)
      invariant accepts.None? || |sent| <= accepts.value
      decreases |script| - used, |file| - offset
    {
      var next := NthRead(script, used);
      var result := ReadOf(file, offset, next);
      used := if used < |script| then used + 1 else used;
      var message := Trouble;
      if result.Some? {
        if |result.value| == 0 {
          MessageByMessage(file, script, sent, offset, accepts);
          return sent, used, true;
        }
        message := Data(result.value);
      }
      SentOneMore(file, script, sent, offset, message);
      sent := sent + [message];
      if result.Some? {
        offset := offset + |result.value|;
      }
      if accepts.Some? && |sent| > accepts.value {
        MessageByMessage(file, script, sent, offset, accepts);
        return sent, used, false;
      }
    }
  }
}

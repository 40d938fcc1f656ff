/**
 * The GM3 gaussmeter's binary query protocol (device_models.py, class GM3).
 *
 * The meter is a serial port: `rx` holds the bytes the meter will still send,
 * in order, and `tx` records every byte written to it. A query writes its
 * opcode six times, reads a payload whose length is fixed by the opcode and
 * then one acknowledgement byte, and starts again until the acknowledgement
 * is 0x08 ("received"); every attempt with another acknowledgement adds one
 * to the module-wide error counter. The identification queries 01 and 02
 * then ask for more, six 0x08 bytes per round, appending each further chunk,
 * until the acknowledgement is 0x07 ("finished").
 *
 * The source retries without bound. Once the meter has nothing more to send,
 * every read comes back empty and the loop can only repeat itself; the model
 * stops at the first attempt whose acknowledgement read is empty and reports
 * `Hung`, so the remaining input is the termination measure.
 */
module Gm3Protocol {
  import opened Common
  import Gm3Decoder

  /** Acknowledgement: the meter received the request. */
  const RECEIVED: byte := 0x08
  /** Acknowledgement: the multi-part answer is complete. */
  const FINISHED: byte := 0x07
  /** Request byte asking for the next chunk of a multi-part answer. */
  const CONTINUE: byte := 0x08
  /** Opcode of KILL_ALL_PROCESS. */
  const KILL_ALL_PROCESS: byte := 0xFF
  /** Every opcode is sent this many times in a row. */
  const REPEATS: nat := 6

  /** One opcode written `REPEATS` times, as `bytes.fromhex(opcode * 6)`. */
  function Burst(b: byte): (r: seq<byte>)
    ensures |r| == REPEATS && forall i :: 0 <= i < |r| ==> r[i] == b
  {
    [b, b, b, b, b, b]
  }

  /** `k` bursts of `b`, one after the other. */
  function Bursts(b: byte, k: nat): (r: seq<byte>)
    ensures |r| == REPEATS * k
  {
    if k == 0 then [] else Bursts(b, k - 1) + Burst(b)
  }

  datatype Query = IdMeterProp | IdMeterSett | StreamData | ResetTime

  function QueryCode(q: Query): (b: byte)
    ensures 1 <= b <= 4
  {
    match q
    case IdMeterProp => 0x01
    case IdMeterSett => 0x02
    case StreamData => 0x03
    case ResetTime => 0x04
  }

  /** Payload bytes read per attempt (and per continuation round), fixed by the opcode. */
  function PayloadLength(q: Query): (n: nat)
    ensures n == (if QueryCode(q) <= 2 then 20 else if QueryCode(q) == 3 then 30 else 31)
  {
    match q
    case IdMeterProp => 20
    case IdMeterSett => 20
    case StreamData => 30
    case ResetTime => 31
  }

  /** The identification queries have a continuation phase. */
  predicate MultiPart(q: Query) {
    q == IdMeterProp || q == IdMeterSett
  }

  /** The twelve names a query accepts: manual name, bare hex and 0x-prefixed hex. */
  const QUERY_NAMES: map<string, Query> := map[
    "ID_METER_PROP" := IdMeterProp, "ID_METER_SETT" := IdMeterSett,
    "STREAM_DATA" := StreamData, "RESET_TIME" := ResetTime,
    "01" := IdMeterProp, "02" := IdMeterSett, "03" := StreamData, "04" := ResetTime,
    "0x01" := IdMeterProp, "0x02" := IdMeterSett, "0x03" := StreamData, "0x04" := ResetTime]

  /** The three names KILL_ALL_PROCESS accepts. */
  const COMMAND_NAMES: set<string> := {"KILL_ALL_PROCESS", "FF", "0xFF"}

  function LookupQuery(name: string): (q: Option<Query>)
    ensures q.Some? <==> name in QUERY_NAMES
  {
    if name in QUERY_NAMES then Some(QUERY_NAMES[name]) else None
  }

  /** Where the first phase ended: acknowledged or hung, after how many attempts. */
  datatype Handshake = Handshake(acked: bool, attempts: nat, payload: seq<byte>, consumed: nat)

  /**
   * The retry-until-received phase on input `rx`, `n` payload bytes per
   * attempt: the payload of the last attempt and the bytes read in all.
   */
  function FirstPhase(n: nat, rx: seq<byte>): (h: Handshake)
    ensures h.attempts >= 1 && h.consumed <= |rx|
    ensures h.acked ==> |h.payload| == n
    ensures !h.acked ==> h.consumed == |rx|
    decreases |rx|
  {
    if |rx| <= n then Handshake(false, 1, rx, |rx|)
    else if rx[n] == RECEIVED then Handshake(true, 1, rx[..n], n + 1)
    else var h := FirstPhase(n, rx[n + 1..]); h.(attempts := h.attempts + 1, consumed := h.consumed + n + 1)
  }

  /** Where the continuation phase ended. */
  datatype Continuation = Continuation(finished: bool, rounds: nat, chunks: seq<byte>, consumed: nat)

  /** The continuation phase on input `rx`: every chunk read, in order. */
  function SecondPhase(n: nat, rx: seq<byte>): (c: Continuation)
    ensures c.rounds >= 1 && c.consumed <= |rx|
    ensures !c.finished ==> c.consumed == |rx|
    decreases |rx|
  {
    if |rx| <= n then Continuation(false, 1, rx, |rx|)
    else if rx[n] == FINISHED then Continuation(true, 1, rx[..n], n + 1)
    else var c := SecondPhase(n, rx[n + 1..]); Continuation(c.finished, c.rounds + 1, rx[..n] + c.chunks, c.consumed + n + 1)
  }

  /**
   * How a query or a reading built on one ended: an answer, a name the meter
   * does not know, or a meter that stopped answering.
   */
  datatype Outcome<T> = Answer(payload: T) | UnknownCommand | Hung

  /**
   * Everything one query does: its outcome, the bytes it writes, how many
   * input bytes it reads, how many failed attempts it counts, and how many
   * attempts and continuation rounds it makes.
   */
  datatype Trace = Trace(outcome: Outcome<seq<byte>>, written: seq<byte>, consumed: nat, failures: nat, attempts: nat, rounds: nat)

  function QueryTrace(name: string, rx: seq<byte>): (t: Trace)
    ensures t.consumed <= |rx|
    ensures t.failures <= t.attempts && (t.outcome.Answer? ==> t.failures + 1 == t.attempts)
    ensures t.outcome.Hung? ==> t.consumed == |rx|
  {
    match LookupQuery(name)
    case None => Trace(UnknownCommand, [], 0, 0, 0, 0)
    case Some(q) =>
      var n := PayloadLength(q);
      var h := FirstPhase(n, rx);
      var opcodes := Bursts(QueryCode(q), h.attempts);
      if !h.acked then Trace(Hung, opcodes, h.consumed, h.attempts, h.attempts, 0)
      else if !MultiPart(q) then Trace(Answer(h.payload), opcodes, h.consumed, h.attempts - 1, h.attempts, 0)
      else
        var c := SecondPhase(n, rx[h.consumed..]);
        Trace(if c.finished then Answer(h.payload + c.chunks) else Hung,
              opcodes + Bursts(CONTINUE, c.rounds), h.consumed + c.consumed, h.attempts - 1, h.attempts, c.rounds)
  }

  /** The input holds at least `k + 1` complete frames of `n` payload bytes and one acknowledgement. */
  predicate HasFrame(n: nat, rx: seq<byte>, k: nat)
    decreases k
  {
    |rx| > n && (k == 0 || HasFrame(n, rx[n + 1..], k - 1))
  }

  /** The acknowledgement byte of frame `k`. */
  function AckAt(n: nat, rx: seq<byte>, k: nat): byte
    requires HasFrame(n, rx, k)
    decreases k
  {
    if k == 0 then rx[n] else AckAt(n, rx[n + 1..], k - 1)
  }

  /** The payload bytes of frame `k`. */
  function FrameAt(n: nat, rx: seq<byte>, k: nat): seq<byte>
    requires HasFrame(n, rx, k)
    decreases k
  {
    if k == 0 then rx[..n] else FrameAt(n, rx[n + 1..], k - 1)
  }

  /** The first phase stops at the first attempt acknowledged with 0x08, or where the input runs out. */
  lemma {:induction false} FirstPhaseFailures(n: nat, rx: seq<byte>)
    ensures var h := FirstPhase(n, rx);
      forall k :: 0 <= k < h.attempts - 1 ==> HasFrame(n, rx, k) && AckAt(n, rx, k) != RECEIVED
    decreases |rx|
  {
    if |rx| > n && rx[n] != RECEIVED {
      FirstPhaseFailures(n, rx[n + 1..]);
      FirstPhaseStep(n, rx);
      forall k | 0 < k < FirstPhase(n, rx).attempts - 1
        ensures HasFrame(n, rx, k) && AckAt(n, rx, k) != RECEIVED
      {
        assert HasFrame(n, rx[n + 1..], k - 1);
      }
    }
  }

  /** An acknowledged first phase ends on a 0x08 and keeps that attempt's payload. */
  lemma {:induction false} FirstPhaseAcked(n: nat, rx: seq<byte>)
    ensures var h := FirstPhase(n, rx);
      h.acked ==> && HasFrame(n, rx, h.attempts - 1)
                  && AckAt(n, rx, h.attempts - 1) == RECEIVED
                  && h.payload == FrameAt(n, rx, h.attempts - 1)
    decreases |rx|
  {
    if |rx| > n && rx[n] != RECEIVED {
      FirstPhaseAcked(n, rx[n + 1..]);
    }
  }

  /** One further attempt of a first phase that has not been acknowledged yet. */
  lemma FirstPhaseStep(n: nat, rx: seq<byte>)
    requires |rx| > n && rx[n] != RECEIVED
    ensures var h := FirstPhase(n, rx); var h' := FirstPhase(n, rx[n + 1..]);
      && h.acked == h'.acked && h.payload == h'.payload
      && h.attempts == h'.attempts + 1 && h.consumed == h'.consumed + n + 1
  {
  }

  /**
   * The first phase on the whole input `h0`, seen from a point `attempts`
   * attempts and `used` bytes in, where `h` is the phase on the remaining input.
   */
  ghost predicate Retrying(h0: Handshake, h: Handshake, attempts: nat, used: nat) {
    && h0.acked == h.acked && h0.payload == h.payload
    && h0.attempts == h.attempts + attempts && h0.consumed == h.consumed + used
  }

  /** What one more attempt on the remaining input `rx` does to the first phase seen so far. */
  lemma RetryingAttempt(n: nat, rx: seq<byte>, h0: Handshake, attempts: nat, used: nat)
    requires Retrying(h0, FirstPhase(n, rx), attempts, used)
    ensures |rx| <= n ==> !h0.acked && h0.attempts == attempts + 1 && h0.consumed == used + |rx|
    ensures |rx| > n && rx[n] == RECEIVED ==>
      h0.acked && h0.attempts == attempts + 1 && h0.payload == rx[..n] && h0.consumed == used + n + 1
    ensures |rx| > n && rx[n] != RECEIVED ==>
      Retrying(h0, FirstPhase(n, rx[n + 1..]), attempts + 1, used + n + 1)
  {
    if |rx| > n && rx[n] != RECEIVED {
      FirstPhaseStep(n, rx);
    }
  }

  /** The continuation phase runs at least one round and stops at the first 0x07. */
  lemma {:induction false} SecondPhaseRounds(n: nat, rx: seq<byte>)
    ensures var c := SecondPhase(n, rx);
      c.rounds >= 1 && forall k :: 0 <= k < c.rounds - 1 ==> HasFrame(n, rx, k) && AckAt(n, rx, k) != FINISHED
    decreases |rx|
  {
    if |rx| > n && rx[n] != FINISHED {
      SecondPhaseRounds(n, rx[n + 1..]);
    }
  }

  lemma MulSucc(a: nat, b: nat)
    ensures (a + 1) * b == a * b + b
  {
  }

  /** The first phase reads whole attempts of `n + 1` bytes, except a last one the input cannot complete. */
  lemma {:induction false} FirstPhaseConsumed(n: nat, rx: seq<byte>)
    ensures var h := FirstPhase(n, rx);
      && (h.acked ==> h.consumed == h.attempts * (n + 1))
      && (!h.acked ==> h.consumed == |rx|)
    decreases |rx|
  {
    if |rx| > n && rx[n] != RECEIVED {
      var rest := rx[n + 1..];
      FirstPhaseConsumed(n, rest);
      MulSucc(FirstPhase(n, rest).attempts, n + 1);
    }
  }

  /** A finished continuation reads whole rounds of `n + 1` bytes and keeps `n` of each. */
  lemma {:induction false} SecondPhaseFinished(n: nat, rx: seq<byte>)
    ensures var c := SecondPhase(n, rx);
      c.finished ==> c.consumed == c.rounds * (n + 1) && |c.chunks| == c.rounds * n
    decreases |rx|
  {
    if |rx| > n && rx[n] != FINISHED {
      var rest := rx[n + 1..];
      SecondPhaseFinished(n, rest);
      var c' := SecondPhase(n, rest);
      MulSucc(c'.rounds, n + 1);
      MulSucc(c'.rounds, n);
    }
  }

  /** Chunk `k` of a finished continuation is the payload of the `k`-th frame of its input. */
  lemma {:induction false} SecondPhaseChunks(n: nat, rx: seq<byte>, k: nat)
    requires SecondPhase(n, rx).finished && k < SecondPhase(n, rx).rounds
    ensures HasFrame(n, rx, k)
    ensures k * n + n <= |SecondPhase(n, rx).chunks|
    ensures SecondPhase(n, rx).chunks[k * n..k * n + n] == FrameAt(n, rx, k)
    decreases k
  {
    var c := SecondPhase(n, rx);
    if rx[n] != FINISHED {
      var rest := rx[n + 1..];
      SecondPhaseStep(n, rx);
      if k > 0 {
        var tail := SecondPhase(n, rest).chunks;
        SecondPhaseChunks(n, rest, k - 1);
        MulSucc(k - 1, n);
        SliceOfAppend(rx[..n], tail, k * n, k * n + n);
      }
    }
  }

  /** After a first chunk of `n` bytes, round `k`'s chunk sits at `n + k * n`. */
  lemma PrefixedChunks(n: nat, first: seq<byte>, rx: seq<byte>)
    requires |first| == n && SecondPhase(n, rx).finished
    ensures var c := SecondPhase(n, rx); var a := first + c.chunks;
      forall k :: 0 <= k < c.rounds ==>
        HasFrame(n, rx, k) && n + k * n + n <= |a| && a[n + k * n..n + k * n + n] == FrameAt(n, rx, k)
  {
    var c := SecondPhase(n, rx);
    forall k | 0 <= k < c.rounds
      ensures HasFrame(n, rx, k) && n + k * n + n <= |first + c.chunks|
              && (first + c.chunks)[n + k * n..n + k * n + n] == FrameAt(n, rx, k)
    {
      SecondPhaseChunks(n, rx, k);
      SliceOfAppend(first, c.chunks, n + k * n, n + k * n + n);
    }
  }

  /** One further round of a continuation that has not finished yet. */
  lemma SecondPhaseStep(n: nat, rx: seq<byte>)
    requires |rx| > n && rx[n] != FINISHED
    ensures var c := SecondPhase(n, rx); var c' := SecondPhase(n, rx[n + 1..]);
      && c.finished == c'.finished && c.rounds == c'.rounds + 1
      && c.chunks == rx[..n] + c'.chunks && c.consumed == c'.consumed + n + 1
  {
  }

  /**
   * The continuation phase on the whole input `c0`, seen from a point
   * `rounds` rounds and `used` bytes in, where `r'` is the answer so far and
   * `c` the phase on the remaining input.
   */
  ghost predicate Resumes(c0: Continuation, c: Continuation, rounds: nat, used: nat, r: seq<byte>, r': seq<byte>) {
    && c0.finished == c.finished && c0.rounds == c.rounds + rounds
    && r + c0.chunks == r' + c.chunks && c0.consumed == c.consumed + used
  }

  /** What one more round on the remaining input `rx` does to the continuation seen so far. */
  lemma ResumesRound(n: nat, rx: seq<byte>, c0: Continuation, rounds: nat, used: nat, r: seq<byte>, r': seq<byte>)
    requires Resumes(c0, SecondPhase(n, rx), rounds, used, r, r')
    ensures |rx| <= n ==> !c0.finished && c0.rounds == rounds + 1 && c0.consumed == used + |rx|
    ensures |rx| > n && rx[n] == FINISHED ==>
      c0.finished && c0.rounds == rounds + 1 && r + c0.chunks == r' + rx[..n] && c0.consumed == used + n + 1
    ensures |rx| > n && rx[n] != FINISHED ==>
      Resumes(c0, SecondPhase(n, rx[n + 1..]), rounds + 1, used + n + 1, r, r' + rx[..n])
  {
    if |rx| > n && rx[n] != FINISHED {
      SecondPhaseStep(n, rx);
      AppendAssoc(r', rx[..n], SecondPhase(n, rx[n + 1..]).chunks);
    }
  }

  /** A finished continuation ends on the first 0x07 acknowledgement. */
  lemma {:induction false} SecondPhaseEndsOnFinished(n: nat, rx: seq<byte>)
    ensures var c := SecondPhase(n, rx);
      c.finished ==> HasFrame(n, rx, c.rounds - 1) && AckAt(n, rx, c.rounds - 1) == FINISHED
    decreases |rx|
  {
    if |rx| > n && rx[n] != FINISHED {
      SecondPhaseEndsOnFinished(n, rx[n + 1..]);
    }
  }

  /** An unknown name fails before anything is written or read. */
  lemma UnknownQueryIsRejected(name: string, rx: seq<byte>)
    ensures QueryTrace(name, rx).outcome == UnknownCommand <==> name !in QUERY_NAMES
    ensures name !in QUERY_NAMES ==> QueryTrace(name, rx) == Trace(UnknownCommand, [], 0, 0, 0, 0)
  {
  }

  /**
   * A known query writes its opcode six times per attempt; an answer comes
   * from the first attempt acknowledged with 0x08, and the error count rises
   * by exactly the attempts before it, each of which got another
   * acknowledgement.
   */
  lemma QueryAttempts(name: string, rx: seq<byte>)
    requires name in QUERY_NAMES
    ensures var q := QUERY_NAMES[name]; var n := PayloadLength(q); var t := QueryTrace(name, rx);
      && t.attempts >= 1
      && t.written[..REPEATS * t.attempts] == Bursts(QueryCode(q), t.attempts)
      && (forall k :: 0 <= k < t.attempts - 1 ==> HasFrame(n, rx, k) && AckAt(n, rx, k) != RECEIVED)
      && (t.outcome.Answer? ==> HasFrame(n, rx, t.attempts - 1) && AckAt(n, rx, t.attempts - 1) == RECEIVED
                                && t.failures == t.attempts - 1)
      && (t.outcome.Hung? && t.rounds == 0 ==> t.failures == t.attempts)
      && (t.rounds > 0 ==> HasFrame(n, rx, t.attempts - 1) && AckAt(n, rx, t.attempts - 1) == RECEIVED
                           && t.failures == t.attempts - 1)
  {
    var q := QUERY_NAMES[name];
    FirstPhaseFailures(PayloadLength(q), rx);
    FirstPhaseAcked(PayloadLength(q), rx);
  }

  /**
   * STREAM_DATA and RESET_TIME answer with the payload of the acknowledged
   * attempt alone, and write no continuation bytes.
   */
  lemma SingleShotAnswer(name: string, rx: seq<byte>)
    requires name in QUERY_NAMES && !MultiPart(QUERY_NAMES[name])
    ensures var q := QUERY_NAMES[name]; var n := PayloadLength(q); var t := QueryTrace(name, rx);
      t.outcome.Answer? ==>
        && t.rounds == 0
        && t.written == Bursts(QueryCode(q), t.attempts)
        && t.consumed == t.attempts * (n + 1)
        && HasFrame(n, rx, t.attempts - 1)
        && t.outcome.payload == FrameAt(n, rx, t.attempts - 1)
  {
    FirstPhaseConsumed(PayloadLength(QUERY_NAMES[name]), rx);
    FirstPhaseAcked(PayloadLength(QUERY_NAMES[name]), rx);
  }

  /**
   * ID_METER_PROP and ID_METER_SETT run at least one continuation round of
   * six 0x08 bytes; the answer keeps the acknowledged attempt's payload as a
   * prefix and holds one payload-sized chunk per round besides.
   */
  lemma MultiPartAnswer(name: string, rx: seq<byte>)
    requires name in QUERY_NAMES && MultiPart(QUERY_NAMES[name])
    ensures var q := QUERY_NAMES[name]; var n := PayloadLength(q); var t := QueryTrace(name, rx);
      t.outcome.Answer? ==>
        && t.rounds >= 1
        && t.written == Bursts(QueryCode(q), t.attempts) + Bursts(CONTINUE, t.rounds)
        && t.consumed == t.attempts * (n + 1) + t.rounds * (n + 1)
        && |t.outcome.payload| == (t.rounds + 1) * n
        && t.outcome.payload[..n] == FirstPhase(n, rx).payload
  {
    var q := QUERY_NAMES[name];
    var n := PayloadLength(q);
    var h := FirstPhase(n, rx);
    FirstPhaseConsumed(n, rx);
    FirstPhaseAcked(n, rx);
    var t := QueryTrace(name, rx);
    if t.outcome.Answer? {
      var rest := rx[h.consumed..];
      var c := SecondPhase(n, rest);
      SecondPhaseFinished(n, rest);
      assert |h.payload| == n;
      MulSucc(c.rounds, n);
      assert t.outcome.payload == h.payload + c.chunks;
    }
  }

  /**
   * In the answer to ID_METER_PROP or ID_METER_SETT, the chunk after the
   * first one for round `k` is the payload of the `k`-th frame the meter sent
   * after the acknowledged attempt.
   */
  lemma MultiPartChunks(name: string, rx: seq<byte>)
    requires name in QUERY_NAMES && MultiPart(QUERY_NAMES[name])
    ensures var n := PayloadLength(QUERY_NAMES[name]); var t := QueryTrace(name, rx);
      var rest := rx[FirstPhase(n, rx).consumed..];
      t.outcome.Answer? ==> forall k :: 0 <= k < t.rounds ==>
        && HasFrame(n, rest, k) && n + k * n + n <= |t.outcome.payload|
        && t.outcome.payload[n + k * n..n + k * n + n] == FrameAt(n, rest, k)
  {
    var n := PayloadLength(QUERY_NAMES[name]);
    var h := FirstPhase(n, rx);
    var t := QueryTrace(name, rx);
    assert LookupQuery(name) == Some(QUERY_NAMES[name]);
    if t.outcome.Answer? {
      var rest := rx[h.consumed..];
      assert t.outcome.payload == h.payload + SecondPhase(n, rest).chunks;
      PrefixedChunks(n, h.payload, rest);
    }
  }

  /** The meter acknowledges STREAM_DATA at once: one request, one 30-byte answer, no error. */
  lemma StreamDataImmediateAck(rx: seq<byte>)
    requires |rx| > 30 && rx[30] == RECEIVED
    ensures QueryTrace("STREAM_DATA", rx) == Trace(Answer(rx[..30]), Burst(0x03), 31, 0, 1, 0)
  {
    assert LookupQuery("STREAM_DATA") == Some(StreamData);
  }

  /** A first STREAM_DATA attempt not acknowledged with 0x08 is repeated from scratch and counted once. */
  lemma StreamDataRetry(rx: seq<byte>)
    requires |rx| > 61 && rx[30] != RECEIVED && rx[61] == RECEIVED
    ensures QueryTrace("STREAM_DATA", rx) == Trace(Answer(rx[31..61]), Burst(0x03) + Burst(0x03), 62, 1, 2, 0)
  {
    assert LookupQuery("STREAM_DATA") == Some(StreamData);
    assert rx[31..][30] == rx[61];
    assert rx[31..][..30] == rx[31..61];
    assert FirstPhase(30, rx[31..]) == Handshake(true, 1, rx[31..61], 31);
    assert FirstPhase(30, rx) == Handshake(true, 2, rx[31..61], 62);
  }

  /** `out.replace(':', '\n')` on the answer text, byte by byte. */
  function ReplaceColons(s: seq<byte>): (r: seq<byte>)
    ensures |r| == |s|
    ensures forall i :: 0 <= i < |s| ==> r[i] == (if s[i] == 0x3A then 0x0A else s[i])
  {
    if s == [] then [] else [if s[0] == 0x3A then 0x0A else s[0]] + ReplaceColons(s[1..])
  }

  /** After the replacement no colon is left, and replacing again changes nothing. */
  lemma ReplaceColonsRemovesAll(s: seq<byte>)
    ensures 0x3A !in ReplaceColons(s)
    ensures ReplaceColons(ReplaceColons(s)) == ReplaceColons(s)
  {
    var r := ReplaceColons(s);
    assert forall i :: 0 <= i < |r| ==> r[i] != 0x3A;
  }

  /** The module-wide `error_count` of failed query attempts, shared by every meter. */
  class ErrorCounter {
    var count: nat

    constructor ()
      ensures count == 0
    {
      count := 0;
    }
  }

  class Gm3 {
    /** Bytes the meter will still send, in order. */
    var rx: seq<byte>
    /** Bytes written to the meter so far. */
    var tx: seq<byte>

    constructor (script: seq<byte>)
      ensures rx == script && tx == []
    {
      rx := script;
      tx := [];
    }

    method Write(data: seq<byte>)
      modifies this
      ensures tx == old(tx) + data && rx == old(rx)
    {
      tx := tx + data;
    }

    /** Up to `k` bytes; fewer only when the meter has no more to send. */
    method Read(k: nat) returns (got: seq<byte>)
      modifies this
      ensures k <= |old(rx)| ==> got == old(rx)[..k] && rx == old(rx)[k..]
      ensures k > |old(rx)| ==> got == old(rx) && rx == []
      ensures tx == old(tx)
    {
      var m := if k <= |rx| then k else |rx|;
      got := rx[..m];
      rx := rx[m..];
    }

    /** `read(1)`: the next byte, or nothing when the meter has no more to send. */
    method ReadByte() returns (b: Option<byte>)
      modifies this
      ensures |old(rx)| > 0 ==> b == Some(old(rx)[0]) && rx == old(rx)[1..]
      ensures |old(rx)| == 0 ==> b == None && rx == []
      ensures tx == old(tx)
    {
      if |rx| > 0 {
        b := Some(rx[0]);
        rx := rx[1..];
      } else {
        b := None;
      }
    }

    method Query(name: string, errors: ErrorCounter) returns (r: Outcome<seq<byte>>)
      modifies this, errors
      ensures var t := QueryTrace(name, old(rx));
        && r == t.outcome
        && tx == old(tx) + t.written
        && rx == old(rx)[t.consumed..]
        && errors.count == old(errors.count) + t.failures
    {
      if name !in QUERY_NAMES {
        return UnknownCommand;
      }
      var q := QUERY_NAMES[name];
      var n := PayloadLength(q);
      ghost var rx0, tx0 := rx, tx;
      ghost var h := FirstPhase(n, rx0);
      var acked, payload := RetryUntilReceived(QueryCode(q), n, errors);
      if !acked {
        return Hung;
      }
      if !MultiPart(q) {
        return Answer(payload);
      }
      var finished;
      finished, payload := ContinueUntilFinished(n, payload);
      ghost var c := SecondPhase(n, rx0[h.consumed..]);
      DropDrop(rx0, h.consumed, c.consumed);
      AppendAssoc(tx0, Bursts(QueryCode(q), h.attempts), Bursts(CONTINUE, c.rounds));
      r := if finished then Answer(payload) else Hung;
    }

    /**
     * The first loop of a query: write the opcode six times, read `n`
     * payload bytes and one acknowledgement, count a failure unless it is
     * 0x08, and repeat until it is.
     */
    method RetryUntilReceived(code: byte, n: nat, errors: ErrorCounter) returns (acked: bool, payload: seq<byte>)
      modifies this, errors
      ensures var h := FirstPhase(n, old(rx));
        && acked == h.acked && (acked ==> payload == h.payload)
        && tx == old(tx) + Bursts(code, h.attempts)
        && rx == old(rx)[h.consumed..]
        && errors.count == old(errors.count) + (if h.acked then h.attempts - 1 else h.attempts)
    {
      ghost var rx0, tx0, e0 := rx, tx, errors.count;
      ghost var h0 := FirstPhase(n, rx0);
      var ack: Option<byte> := None;
      payload := [];
      ghost var attempts: nat := 0;
      ghost var used: nat := 0;
      while ack != Some(RECEIVED)
        invariant used <= |rx0| && rx == rx0[used..]
        invariant tx == tx0 + Bursts(code, attempts)
        invariant ack != Some(RECEIVED) ==> Retrying(h0, FirstPhase(n, rx), attempts, used)
        invariant ack == Some(RECEIVED) ==>
          h0.acked && h0.attempts == attempts && h0.payload == payload && h0.consumed == used
        invariant errors.count == e0 + (if ack == Some(RECEIVED) then attempts - 1 else attempts)
        decreases |rx|
      {
        RetryingAttempt(n, rx, h0, attempts, used);
        AppendAssoc(tx0, Bursts(code, attempts), Burst(code));
        payload, ack := Attempt(code, n, errors);
        attempts := attempts + 1;
        if ack == None {
          return false, payload;
        }
        DropDrop(rx0, used, n + 1);
        used := used + n + 1;
      }
      acked := true;
    }

    /**
     * One attempt of the first loop: the opcode six times, then `n` payload
     * bytes and one acknowledgement, counting a failure unless it is 0x08.
     */
    method Attempt(code: byte, n: nat, errors: ErrorCounter) returns (payload: seq<byte>, ack: Option<byte>)
      modifies this, errors
      ensures tx == old(tx) + Burst(code)
      ensures |old(rx)| > n ==> payload == old(rx)[..n] && ack == Some(old(rx)[n]) && rx == old(rx)[n + 1..]
      ensures |old(rx)| <= n ==> payload == old(rx) && ack == None && rx == []
      ensures errors.count == old(errors.count) + (if ack == Some(RECEIVED) then 0 else 1)
    {
      Write(Burst(code));
      payload := Read(n);
      ack := ReadByte();
      if ack != Some(RECEIVED) {
        errors.count := errors.count + 1;
      }
    }

    /**
     * The second loop of a multi-part query, entered with the 0x08 the first
     * loop stopped on: write 0x08 six times, append `n` more bytes, read an
     * acknowledgement, and repeat until it is 0x07.
     */
    method ContinueUntilFinished(n: nat, r: seq<byte>) returns (finished: bool, r': seq<byte>)
      modifies this
      ensures var c := SecondPhase(n, old(rx));
        && finished == c.finished && (finished ==> r' == r + c.chunks)
        && tx == old(tx) + Bursts(CONTINUE, c.rounds)
        && rx == old(rx)[c.consumed..]
    {
      ghost var rx1, tx1 := rx, tx;
      ghost var c0 := SecondPhase(n, rx1);
      var ack: Option<byte> := Some(RECEIVED);
      r' := r;
      ghost var rounds: nat := 0;
      ghost var used: nat := 0;
      while ack != Some(FINISHED)
        invariant used <= |rx1| && rx == rx1[used..]
        invariant tx == tx1 + Bursts(CONTINUE, rounds)
        invariant ack != Some(FINISHED) ==> Resumes(c0, SecondPhase(n, rx), rounds, used, r, r')
        invariant ack == Some(FINISHED) ==>
          c0.finished && c0.rounds == rounds && r' == r + c0.chunks && c0.consumed == used
        decreases |rx|
      {
        ResumesRound(n, rx, c0, rounds, used, r, r');
        AppendAssoc(tx1, Bursts(CONTINUE, rounds), Burst(CONTINUE));
        var chunk;
        chunk, ack := Round(n);
        r' := r' + chunk;
        rounds := rounds + 1;
        if ack == None {
          return false, r';
        }
        DropDrop(rx1, used, n + 1);
        used := used + n + 1;
      }
      finished := true;
    }

    /** One round of the second loop: 0x08 six times, then `n` more bytes and one acknowledgement. */
    method Round(n: nat) returns (chunk: seq<byte>, ack: Option<byte>)
      modifies this
      ensures tx == old(tx) + Burst(CONTINUE)
      ensures |old(rx)| > n ==> chunk == old(rx)[..n] && ack == Some(old(rx)[n]) && rx == old(rx)[n + 1..]
      ensures |old(rx)| <= n ==> chunk == old(rx) && ack == None && rx == []
    {
      Write(Burst(CONTINUE));
      chunk := Read(n);
      ack := ReadByte();
    }

    /** KILL_ALL_PROCESS: writes 0xFF six times and waits for nothing. */
    method Command(name: string) returns (known: bool)
      modifies this
      ensures known == (name in COMMAND_NAMES)
      ensures tx == old(tx) + (if known then Burst(KILL_ALL_PROCESS) else [])
      ensures rx == old(rx)
    {
      known := name in COMMAND_NAMES;
      if known {
        Write(Burst(KILL_ALL_PROCESS));
      }
    }

    /** STREAM_DATA decoded: time index, x, y, z and magnitude. */
    method InstantaneousData(errors: ErrorCounter) returns (r: Outcome<seq<real>>)
      modifies this, errors
      ensures var t := QueryTrace("STREAM_DATA", old(rx));
        && tx == old(tx) + t.written && rx == old(rx)[t.consumed..]
        && errors.count == old(errors.count) + t.failures
        && r == (if t.outcome.Answer? then Answer(Gm3Decoder.Measurables(t.outcome.payload)) else Hung)
    {
      var answer := Query("STREAM_DATA", errors);
      r := Decoded(answer);
    }

    /** RESET_TIME decoded, after the meter resets its time index. */
    method InstantaneousDataT0(errors: ErrorCounter) returns (r: Outcome<seq<real>>)
      modifies this, errors
      ensures var t := QueryTrace("RESET_TIME", old(rx));
        && tx == old(tx) + t.written && rx == old(rx)[t.consumed..]
        && errors.count == old(errors.count) + t.failures
        && r == (if t.outcome.Answer? then Answer(Gm3Decoder.Measurables(t.outcome.payload)) else Hung)
    {
      var answer := Query("RESET_TIME", errors);
      r := Decoded(answer);
    }

    /** The meter's properties, one field per line. */
    method Properties(errors: ErrorCounter) returns (r: Outcome<seq<byte>>)
      modifies this, errors
      ensures var t := QueryTrace("ID_METER_PROP", old(rx));
        && tx == old(tx) + t.written && rx == old(rx)[t.consumed..]
        && errors.count == old(errors.count) + t.failures
        && r == (if t.outcome.Answer? then Answer(ReplaceColons(t.outcome.payload)) else Hung)
    {
      var answer := Query("ID_METER_PROP", errors);
      r := if answer.Answer? then Answer(ReplaceColons(answer.payload)) else Hung;
    }

    /** The meter's settings, one field per line. */
    method Settings(errors: ErrorCounter) returns (r: Outcome<seq<byte>>)
      modifies this, errors
      ensures var t := QueryTrace("ID_METER_SETT", old(rx));
        && tx == old(tx) + t.written && rx == old(rx)[t.consumed..]
        && errors.count == old(errors.count) + t.failures
        && r == (if t.outcome.Answer? then Answer(ReplaceColons(t.outcome.payload)) else Hung)
    {
      var answer := Query("ID_METER_SETT", errors);
      r := if answer.Answer? then Answer(ReplaceColons(answer.payload)) else Hung;
    }
  }

  /** Decoding step shared by the two sampling queries. */
  method Decoded(answer: Outcome<seq<byte>>) returns (r: Outcome<seq<real>>)
    ensures answer.Answer? ==> r == Answer(Gm3Decoder.Measurables(answer.payload))
    ensures answer.Hung? ==> r == Hung
    ensures answer.UnknownCommand? ==> r == UnknownCommand
  {
    match answer
    case Answer(payload) =>
      var values := Gm3Decoder.DecodeMeasurables(payload);
      r := Answer(values);
    case Hung => r := Hung;
    case UnknownCommand => r := UnknownCommand;
  }
}

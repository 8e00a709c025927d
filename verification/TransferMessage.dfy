/**
 The frames two RPC connections exchange: a type byte, and for requests and responses a payload
 with its size in front and its number and method index or result code behind.
 */
module TransferMessage {
  import opened Prelude
  import opened Bytes

  const MAX_TRANSFER: nat := 1024 * 1024 + 100
  const MAX_PROTO: nat := 1024 * 1024

  const REQ: byte := 0
  const RES: byte := 1
  const PING: byte := 2
  const PONG: byte := 3

  const HEADER: nat := 5
  const REQ_TRAILER: nat := 12
  const RES_TRAILER: nat := 9

  const TWO32: nat := 0x1_0000_0000
  const TWO64: nat := 0x1_0000_0000_0000_0000

  // ----- validity and accessors; None stands for the exception "invalid buffer" -----

  function ExtractSize(m: seq<byte>): nat
    requires |m| >= HEADER
  {
    Number(m[1..5])
  }

  predicate IsRequestValid(m: seq<byte>) {
    |m| >= HEADER + REQ_TRAILER && m[0] == REQ && ExtractSize(m) <= |m| - HEADER - REQ_TRAILER
  }

  predicate IsResponseValid(m: seq<byte>) {
    |m| >= HEADER + RES_TRAILER && m[0] == RES && ExtractSize(m) <= |m| - HEADER - RES_TRAILER
  }

  function MsgType(m: seq<byte>): Option<byte> {
    if |m| == 0 then None else Some(m[0])
  }

  function ProtoMessage(m: seq<byte>): Option<seq<byte>> {
    if HEADER > |m| || ExtractSize(m) > |m| - HEADER then None
    else Some(m[HEADER..HEADER + ExtractSize(m)])
  }

  /** Where the trailer of a message starts. */
  function TrailerAt(m: seq<byte>): nat
    requires |m| >= HEADER
  {
    HEADER + ExtractSize(m)
  }

  function MsgNumberReq(m: seq<byte>): Option<nat> {
    if !IsRequestValid(m) then None else Some(Number(m[TrailerAt(m)..TrailerAt(m) + 8]))
  }

  function MethodIdxReq(m: seq<byte>): Option<nat> {
    if !IsRequestValid(m) then None else Some(Number(m[TrailerAt(m) + 8..TrailerAt(m) + 12]))
  }

  function MsgNumberRes(m: seq<byte>): Option<nat> {
    if !IsResponseValid(m) then None else Some(Number(m[TrailerAt(m)..TrailerAt(m) + 8]))
  }

  function ResponseCodeRes(m: seq<byte>): Option<byte> {
    if !IsResponseValid(m) then None else Some(m[TrailerAt(m) + 8])
  }

  /**
   On any buffer that passes its check every accessor answers, the size it reads fits 32 bits, and
   the offsets it forms by adding to the start of the buffer, one after another, stay inside it. On
   a buffer of a size the TCP pipe lets through the last offset fits 32 bits as well.
   */
  lemma AccessorsStayInBounds(m: seq<byte>)
    ensures IsRequestValid(m) || IsResponseValid(m) ==>
              && ExtractSize(m) < TWO32
              && HEADER <= HEADER + ExtractSize(m) == TrailerAt(m) <= TrailerAt(m) + 8 < |m|
    ensures IsRequestValid(m) ==>
              && MsgNumberReq(m).Some? && MethodIdxReq(m).Some? && ProtoMessage(m).Some?
              && MsgNumberReq(m).value < TWO64 && MethodIdxReq(m).value < TWO32
              && TrailerAt(m) + 12 <= |m|
    ensures IsResponseValid(m) ==>
              && MsgNumberRes(m).Some? && ResponseCodeRes(m).Some? && ProtoMessage(m).Some?
              && MsgNumberRes(m).value < TWO64
              && TrailerAt(m) + 9 <= |m|
    ensures |m| <= MAX_TRANSFER && (IsRequestValid(m) || IsResponseValid(m)) ==> TrailerAt(m) + 12 < TWO32
    ensures !(IsRequestValid(m) && IsResponseValid(m))
  {
    Powers();
  }

  lemma Powers()
    ensures Pow256(4) == TWO32 && Pow256(8) == TWO64
  {
    assert Pow256(2) == 256 * 256;
    assert Pow256(4) == 256 * (256 * Pow256(2));
    assert Pow256(6) == 256 * (256 * Pow256(4));
    assert Pow256(8) == 256 * (256 * Pow256(6));
  }

  // ----- encoders; None stands for the exception "message is too big" -----

  function EncodeReq(number: nat, methodIdx: nat, payload: seq<byte>): seq<byte> {
    [REQ] + BigEndian(|payload|, 4) + payload + BigEndian(number, 8) + BigEndian(methodIdx, 4)
  }

  function EncodeRes(number: nat, code: byte, payload: seq<byte>): seq<byte> {
    [RES] + BigEndian(|payload|, 4) + payload + BigEndian(number, 8) + [code]
  }

  /** Writes bytes at pos and returns the position after them. */
  method Fill(buff: array<byte>, pos: nat, bytes: seq<byte>) returns (next: nat)
    requires pos + |bytes| <= buff.Length
    modifies buff
    ensures next == pos + |bytes|
    ensures buff[..next] == old(buff[..pos]) + bytes
  {
    next := pos;
    for i := 0 to |bytes|
      invariant next == pos + i
      invariant buff[..next] == old(buff[..pos]) + bytes[..i]
    {
      buff[next] := bytes[i];
      next := next + 1;
      assert buff[..next] == buff[..next - 1] + [bytes[i]];
      assert bytes[..i + 1] == bytes[..i] + [bytes[i]];
    }
    assert bytes[..|bytes|] == bytes;
  }

  method CreateReq(number: nat, methodIdx: nat, payload: seq<byte>) returns (r: Option<array<byte>>)
    ensures r.None? <==> |payload| > MAX_PROTO
    ensures r.Some? ==> fresh(r.value) && r.value[..] == EncodeReq(number, methodIdx, payload)
  {
    if |payload| > MAX_PROTO {
      return None;
    }
    var ans := new byte[HEADER + |payload| + REQ_TRAILER];
    var size := FromUint(|payload|, 4);
    var num := FromUint(number, 8);
    var idx := FromUint(methodIdx, 4);
    var pos := Fill(ans, 0, [REQ]);
    pos := Fill(ans, pos, size[..]);
    pos := Fill(ans, pos, payload);
    pos := Fill(ans, pos, num[..]);
    pos := Fill(ans, pos, idx[..]);
    assert ans[..pos] == ans[..];
    r := Some(ans);
  }

  method CreateRes(number: nat, code: byte, payload: seq<byte>) returns (r: Option<array<byte>>)
    ensures r.None? <==> |payload| > MAX_PROTO
    ensures r.Some? ==> fresh(r.value) && r.value[..] == EncodeRes(number, code, payload)
  {
    if |payload| > MAX_PROTO {
      return None;
    }
    var ans := new byte[HEADER + |payload| + RES_TRAILER];
    var size := FromUint(|payload|, 4);
    var num := FromUint(number, 8);
    var pos := Fill(ans, 0, [RES]);
    pos := Fill(ans, pos, size[..]);
    pos := Fill(ans, pos, payload);
    pos := Fill(ans, pos, num[..]);
    pos := Fill(ans, pos, [code]);
    assert ans[..pos] == ans[..];
    r := Some(ans);
  }

  // ----- round trips -----

  lemma Slices(kind: byte, size: seq<byte>, payload: seq<byte>, a: seq<byte>, b: seq<byte>)
    requires |size| == 4
    ensures var m := [kind] + size + payload + a + b;
            && |m| == HEADER + |payload| + |a| + |b| && m[0] == kind
            && m[1..5] == size
            && m[5..5 + |payload|] == payload
            && m[5 + |payload|..5 + |payload| + |a|] == a
            && m[5 + |payload| + |a|..5 + |payload| + |a| + |b|] == b
  {
  }

  /** A message made of these parts, whatever its kind. */
  lemma PartsOf(kind: byte, payload: seq<byte>, number: nat, b: seq<byte>, m: seq<byte>)
    requires number < TWO64 && |payload| <= MAX_PROTO
    requires m == [kind] + BigEndian(|payload|, 4) + payload + BigEndian(number, 8) + b
    ensures |m| == HEADER + |payload| + 8 + |b| && m[0] == kind
    ensures ExtractSize(m) == |payload|
    ensures ProtoMessage(m) == Some(payload)
    ensures Number(m[TrailerAt(m)..TrailerAt(m) + 8]) == number
    ensures m[TrailerAt(m) + 8..TrailerAt(m) + 8 + |b|] == b
  {
    Powers();
    NumberOfBigEndian(|payload|, 4);
    NumberOfBigEndian(number, 8);
    Slices(kind, BigEndian(|payload|, 4), payload, BigEndian(number, 8), b);
  }

  /** Decoding an encoded request gives back every field, and the TCP pipe accepts its size. */
  lemma RequestRoundTrip(number: nat, methodIdx: nat, payload: seq<byte>)
    requires number < TWO64 && methodIdx < TWO32 && |payload| <= MAX_PROTO
    ensures var m := EncodeReq(number, methodIdx, payload);
            && IsRequestValid(m) && MsgType(m) == Some(REQ)
            && MsgNumberReq(m) == Some(number)
            && MethodIdxReq(m) == Some(methodIdx)
            && ProtoMessage(m) == Some(payload)
            && 1 <= |m| <= MAX_TRANSFER
  {
    var m, idx := EncodeReq(number, methodIdx, payload), BigEndian(methodIdx, 4);
    PartsOf(REQ, payload, number, idx, m);
    Powers();
    NumberOfBigEndian(methodIdx, 4);
  }

  lemma ResponseRoundTrip(number: nat, code: byte, payload: seq<byte>)
    requires number < TWO64 && |payload| <= MAX_PROTO
    ensures var m := EncodeRes(number, code, payload);
            && IsResponseValid(m) && MsgType(m) == Some(RES)
            && MsgNumberRes(m) == Some(number)
            && ResponseCodeRes(m) == Some(code)
            && ProtoMessage(m) == Some(payload)
            && 1 <= |m| <= MAX_TRANSFER
  {
    var m := EncodeRes(number, code, payload);
    PartsOf(RES, payload, number, [code], m);
    assert m[TrailerAt(m) + 8] == m[TrailerAt(m) + 8..TrailerAt(m) + 9][0];
  }

  /** Different fields never give the same frame. */
  lemma EncodingIsInjective(n1: nat, i1: nat, p1: seq<byte>, n2: nat, i2: nat, p2: seq<byte>)
    requires n1 < TWO64 && i1 < TWO32 && |p1| <= MAX_PROTO
    requires n2 < TWO64 && i2 < TWO32 && |p2| <= MAX_PROTO
    requires EncodeReq(n1, i1, p1) == EncodeReq(n2, i2, p2)
    ensures n1 == n2 && i1 == i2 && p1 == p2
  {
    RequestRoundTrip(n1, i1, p1);
    RequestRoundTrip(n2, i2, p2);
  }
}

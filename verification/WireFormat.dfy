/** The wire format byte by byte, and exactly which buffers are taken for requests and responses. */
module WireFormat {
  import opened Prelude
  import opened Bytes
  import opened TransferMessage
  import opened TcpFraming

  /** A message of either kind with its parts in place and, perhaps, more bytes behind. */
  ghost function Laid(kind: byte, payload: seq<byte>, number: nat, last: seq<byte>, rest: seq<byte>): seq<byte> {
    [kind] + BigEndian(|payload|, 4) + payload + BigEndian(number, 8) + last + rest
  }

  lemma LaidParts(kind: byte, payload: seq<byte>, number: nat, last: seq<byte>, rest: seq<byte>)
    requires |payload| < TWO32 && number < TWO64
    ensures var m := Laid(kind, payload, number, last, rest);
            && |m| == 5 + |payload| + 8 + |last| + |rest| && m[0] == kind
            && ExtractSize(m) == |payload| && TrailerAt(m) == 5 + |payload|
            && ProtoMessage(m) == Some(payload)
            && Number(m[TrailerAt(m)..TrailerAt(m) + 8]) == number
            && m[TrailerAt(m) + 8..TrailerAt(m) + 8 + |last|] == last
  {
    var m := Laid(kind, payload, number, last, rest);
    Powers();
    NumberOfBigEndian(|payload|, 4);
    NumberOfBigEndian(number, 8);
    assert m[1..5] == BigEndian(|payload|, 4);
    assert m[5..5 + |payload|] == payload;
    assert m[5 + |payload|..5 + |payload| + 8] == BigEndian(number, 8);
    assert m[5 + |payload| + 8..5 + |payload| + 8 + |last|] == last;
  }

  /** Any buffer long enough for its size field is laid out like that, in exactly one way. */
  lemma IsLaid(m: seq<byte>, k: nat)
    requires |m| >= 5 && ExtractSize(m) + 5 + 8 + k <= |m|
    ensures var t := TrailerAt(m);
            && ExtractSize(m) < TWO32 && Number(m[t..t + 8]) < TWO64
            && m == Laid(m[0], m[5..t], Number(m[t..t + 8]), m[t + 8..t + 8 + k], m[t + 8 + k..])
  {
    var t := TrailerAt(m);
    Powers();
    BigEndianOfNumber(m[1..5]);
    BigEndianOfNumber(m[t..t + 8]);
    assert m == [m[0]] + m[1..5] + m[5..t] + m[t..t + 8] + m[t + 8..t + 8 + k] + m[t + 8 + k..];
  }

  ghost predicate StartsWithRequest(m: seq<byte>, number: nat, idx: nat, payload: seq<byte>) {
    && number < TWO64 && idx < TWO32 && |payload| < TWO32
    && EncodeReq(number, idx, payload) <= m
  }

  ghost predicate StartsWithResponse(m: seq<byte>, number: nat, code: byte, payload: seq<byte>) {
    number < TWO64 && |payload| < TWO32 && EncodeRes(number, code, payload) <= m
  }

  lemma RequestFields(m: seq<byte>, number: nat, idx: nat, payload: seq<byte>)
    requires StartsWithRequest(m, number, idx, payload)
    ensures IsRequestValid(m) && MsgNumberReq(m) == Some(number) && MethodIdxReq(m) == Some(idx)
    ensures ProtoMessage(m) == Some(payload) && MsgType(m) == Some(REQ)
  {
    var rest := m[|EncodeReq(number, idx, payload)|..];
    assert m == EncodeReq(number, idx, payload) + rest;
    assert m == Laid(REQ, payload, number, BigEndian(idx, 4), rest);
    LaidParts(REQ, payload, number, BigEndian(idx, 4), rest);
    Powers();
    NumberOfBigEndian(idx, 4);
  }

  lemma ResponseFields(m: seq<byte>, number: nat, code: byte, payload: seq<byte>)
    requires StartsWithResponse(m, number, code, payload)
    ensures IsResponseValid(m) && MsgNumberRes(m) == Some(number) && ResponseCodeRes(m) == Some(code)
    ensures ProtoMessage(m) == Some(payload) && MsgType(m) == Some(RES)
  {
    var rest := m[|EncodeRes(number, code, payload)|..];
    assert m == EncodeRes(number, code, payload) + rest;
    assert m == Laid(RES, payload, number, [code], rest);
    LaidParts(RES, payload, number, [code], rest);
    assert m[TrailerAt(m) + 8] == m[TrailerAt(m) + 8..TrailerAt(m) + 9][0];
  }

  lemma RequestIsThere(m: seq<byte>) returns (number: nat, idx: nat, payload: seq<byte>)
    requires IsRequestValid(m)
    ensures StartsWithRequest(m, number, idx, payload)
  {
    var t := TrailerAt(m);
    IsLaid(m, 4);
    Powers();
    BigEndianOfNumber(m[t + 8..t + 12]);
    number, idx, payload := Number(m[t..t + 8]), Number(m[t + 8..t + 12]), m[5..t];
    assert m == EncodeReq(number, idx, payload) + m[t + 12..];
  }

  lemma ResponseIsThere(m: seq<byte>) returns (number: nat, code: byte, payload: seq<byte>)
    requires IsResponseValid(m)
    ensures StartsWithResponse(m, number, code, payload)
  {
    var t := TrailerAt(m);
    IsLaid(m, 1);
    number, code, payload := Number(m[t..t + 8]), m[t + 8], m[5..t];
    assert m[t + 8..t + 9] == [code];
    assert m == EncodeRes(number, code, payload) + m[t + 9..];
  }

  /**
   A buffer passes the request check exactly when it begins with an encoded request, and the
   response check exactly when it begins with an encoded response, whatever follows.
   */
  lemma ChecksAreExact(m: seq<byte>)
    ensures IsRequestValid(m) <==>
              exists number: nat, idx: nat, payload: seq<byte> :: StartsWithRequest(m, number, idx, payload)
    ensures IsResponseValid(m) <==>
              exists number: nat, code: byte, payload: seq<byte> :: StartsWithResponse(m, number, code, payload)
  {
    if IsRequestValid(m) {
      var number, idx, payload := RequestIsThere(m);
    }
    if number: nat, idx: nat, payload: seq<byte> :| StartsWithRequest(m, number, idx, payload) {
      RequestFields(m, number, idx, payload);
    }
    if IsResponseValid(m) {
      var number, code, payload := ResponseIsThere(m);
    }
    if number: nat, code: byte, payload: seq<byte> :| StartsWithResponse(m, number, code, payload) {
      ResponseFields(m, number, code, payload);
    }
  }

  /** Byte i of an n-byte number written most significant byte first. */
  ghost predicate BytesOf(bs: seq<byte>, number: nat, n: nat) {
    |bs| == n && forall i :: 0 <= i < n ==> bs[i] == Digit(number, n, i)
  }

  lemma BigEndianBytes(number: nat, n: nat)
    ensures BytesOf(BigEndian(number, n), number, n)
  {
    forall i | 0 <= i < n
      ensures BigEndian(number, n)[i] == Digit(number, n, i)
    {
      BigEndianAt(number, n, i);
    }
  }

  /**
   Where the bytes of a frame are: the type byte (0 for a request, 1 for a response), four bytes of
   size, the payload, eight bytes of number, and four of method index or one of result code; every
   number with its most significant byte first.
   */
  lemma FrameLayout(number: nat, idx: nat, code: byte, payload: seq<byte>)
    ensures var m, t := EncodeReq(number, idx, payload), 5 + |payload|;
            && |m| == t + 12 && m[0] == 0 && m[5..t] == payload
            && BytesOf(m[1..5], |payload|, 4) && BytesOf(m[t..t + 8], number, 8) && BytesOf(m[t + 8..], idx, 4)
    ensures var m, t := EncodeRes(number, code, payload), 5 + |payload|;
            && |m| == t + 9 && m[0] == 1 && m[5..t] == payload
            && BytesOf(m[1..5], |payload|, 4) && BytesOf(m[t..t + 8], number, 8) && m[t + 8] == code
  {
    BigEndianBytes(|payload|, 4);
    BigEndianBytes(number, 8);
    BigEndianBytes(idx, 4);
    var q, s, t := EncodeReq(number, idx, payload), EncodeRes(number, code, payload), 5 + |payload|;
    assert q[1..5] == BigEndian(|payload|, 4) && q[t..t + 8] == BigEndian(number, 8) && q[t + 8..] == BigEndian(idx, 4);
    assert s[1..5] == BigEndian(|payload|, 4) && s[t..t + 8] == BigEndian(number, 8);
    assert q[5..t] == payload && s[5..t] == payload;
  }

  /** On a TCP pipe a message follows four bytes with its length, the most significant first. */
  lemma TcpFrameLayout(payload: seq<byte>)
    requires |payload| < TWO32
    ensures BytesOf(Frame(payload)[..4], |payload|, 4) && Frame(payload)[4..] == payload
  {
    BigEndianBytes(|payload|, 4);
    assert Frame(payload)[..4] == BigEndian(|payload|, 4);
  }
}

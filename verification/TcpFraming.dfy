/** Length-prefixed frames over a byte stream, and why a reader cannot mistake their boundaries. */
module TcpFraming {
  import opened Bytes
  import opened TransferMessage

  const PREFIX: nat := 4

  /** The prefix is a 32-bit number, so a payload's length is written modulo 2^32. */
  function Frame(payload: seq<byte>): (r: seq<byte>)
    ensures |r| == PREFIX + |payload|
  {
    BigEndian(|payload| % TWO32, PREFIX) + payload
  }

  /** A length prefix that the reading side accepts. */
  predicate Acceptable(size: nat) {
    1 <= size <= MAX_TRANSFER
  }

  function Frames(payloads: seq<seq<byte>>): seq<byte> {
    if payloads == [] then [] else Frame(payloads[0]) + Frames(payloads[1..])
  }

  lemma {:induction false} FramesGrow(ps: seq<seq<byte>>, p: seq<byte>)
    ensures Frames(ps + [p]) == Frames(ps) + Frame(p)
  {
    if ps == [] {
      assert [] + [p] == [p];
      assert Frames([p][1..]) == [];
    } else {
      FramesGrow(ps[1..], p);
      assert (ps + [p])[1..] == ps[1..] + [p];
      Assoc(Frame(ps[0]), Frames(ps[1..]), Frame(p));
    }
  }

  lemma Assoc(a: seq<byte>, b: seq<byte>, c: seq<byte>)
    ensures a + (b + c) == a + b + c
  {
  }

  lemma FramesFront(p: seq<byte>, ps: seq<seq<byte>>)
    ensures Frames([p] + ps) == Frame(p) + Frames(ps)
  {
    assert ([p] + ps)[1..] == ps;
  }

  ghost predicate Sizes(ps: seq<seq<byte>>) {
    forall i :: 0 <= i < |ps| ==> Acceptable(|ps[i]|)
  }

  lemma SizeFits(size: nat)
    requires Acceptable(size)
    ensures size % TWO32 == size && size < Pow256(PREFIX)
  {
    Powers();
  }

  lemma PrefixIsSize(p: seq<byte>)
    requires Acceptable(|p|)
    ensures Number(Frame(p)[..PREFIX]) == |p|
  {
    SizeFits(|p|);
    var w := PREFIX;
    assert Frame(p)[..w] == BigEndian(|p|, w);
    NumberOfBigEndian(|p|, w);
  }

  /** Two acceptable frames that agree as far as the shorter one reaches are the same frame. */
  lemma FramesDoNotOverlap(x: seq<byte>, z: seq<byte>)
    requires Acceptable(|x|) && Acceptable(|z|)
    requires |Frame(x)| <= |Frame(z)| ==> Frame(x) <= Frame(z)
    requires |Frame(z)| <= |Frame(x)| ==> Frame(z) <= Frame(x)
    ensures x == z
  {
    PrefixIsSize(x);
    PrefixIsSize(z);
    assert Frame(x)[..PREFIX] == Frame(z)[..PREFIX];
    assert x == Frame(x)[PREFIX..] && z == Frame(z)[PREFIX..];
  }

  /** Two streams that start with acceptable frames, one a beginning of the other, start alike. */
  lemma SameFirstFrame(x: seq<byte>, a: seq<byte>, y: seq<byte>, b: seq<byte>)
    requires Acceptable(|x|) && Acceptable(|y|)
    requires Frame(x) + a <= Frame(y) + b
    ensures x == y && a <= b
  {
    SameStart(Frame(x), a, Frame(y), b);
    FramesDoNotOverlap(x, y);
  }

  lemma PeelFirst(x: seq<byte>, xs: seq<seq<byte>>, y: seq<byte>, ys: seq<seq<byte>>, u: seq<byte>)
    requires Acceptable(|x|) && Acceptable(|y|) && Frames([x] + xs) <= Frames([y] + ys) + u
    ensures x == y && Frames(xs) <= Frames(ys) + u
  {
    FramesFront(x, xs);
    FramesFront(y, ys);
    PeelBytes(Frame(x), Frames(xs), Frame(y), Frames(ys), u);
    FramesDoNotOverlap(x, y);
  }

  lemma PeelBytes(f: seq<byte>, a: seq<byte>, g: seq<byte>, b: seq<byte>, u: seq<byte>)
    requires f + a <= g + b + u
    ensures |f| <= |g| ==> f <= g
    ensures |g| <= |f| ==> g <= f
    ensures f == g ==> a <= b + u
  {
    Assoc(g, b, u);
    SameStart(f, a, g, b + u);
  }

  /** What can be read off a beginning of the single frame z. */
  lemma AtMostOneFrame(xs: seq<seq<byte>>, z: seq<byte>, u: seq<byte>)
    requires Sizes(xs) && Acceptable(|z|) && u <= Frame(z) && Frames(xs) <= u
    ensures xs == [] || (u == Frame(z) && xs == [z])
  {
    if xs != [] {
      var x, xs' := xs[0], xs[1..];
      assert xs == [x] + xs';
      FramesFront(x, xs');
      assert Frame(z) == Frame(z) + [];
      SameFirstFrame(x, Frames(xs'), z, []);
      EmptyFrames(xs');
    }
  }

  /**
   A stream that starts with whole frames xs, read off a stream made of whole frames ys and a
   beginning of one more frame z, has read the payloads that were written, in order.
   */
  lemma {:induction false} WholeFramesAreThoseWritten(
      xs: seq<seq<byte>>, ys: seq<seq<byte>>, z: seq<byte>, u: seq<byte>)
    requires Sizes(xs) && Sizes(ys) && Acceptable(|z|) && u <= Frame(z)
    requires Frames(xs) <= Frames(ys) + u
    ensures xs <= ys + [z]
    ensures |xs| <= |ys| || (u == Frame(z) && xs == ys + [z])
  {
    if ys == [] {
      assert Frames(ys) + u == u;
      AtMostOneFrame(xs, z, u);
    } else if xs != [] {
      var x, xs', y, ys' := xs[0], xs[1..], ys[0], ys[1..];
      assert xs == [x] + xs' && ys == [y] + ys';
      PeelFirst(x, xs', y, ys', u);
      WholeFramesAreThoseWritten(xs', ys', z, u);
      assert ys + [z] == [x] + (ys' + [z]);
    }
  }

  lemma SameStart(a: seq<byte>, a': seq<byte>, b: seq<byte>, b': seq<byte>)
    requires a + a' <= b + b'
    ensures |a| <= |b| ==> a <= b
    ensures |b| <= |a| ==> b <= a
    ensures a == b ==> a' <= b'
  {
    if |a| <= |b| {
      assert a == (a + a')[..|a|] == (b + b')[..|a|] == b[..|a|];
    } else {
      assert b == (b + b')[..|b|] == (a + a')[..|b|] == a[..|b|];
    }
    if a == b {
      var n := |a'|;
      assert a' == (a + a')[|a|..] == (b + b')[|a|..|a| + n] == b'[..n];
    }
  }

  lemma EmptyFrames(ps: seq<seq<byte>>)
    requires |Frames(ps)| == 0
    ensures ps == []
  {
  }

  lemma FirstPrefix(t: seq<byte>, ys: seq<seq<byte>>, z: seq<byte>, u: seq<byte>)
    requires Sizes(ys) && Acceptable(|z|) && u <= Frame(z)
    requires t <= Frames(ys) + u && |t| == PREFIX
    ensures Acceptable(Number(t))
  {
    if ys == [] {
      assert Frames(ys) + u == u;
      PrefixIsSize(z);
      assert t == Frame(z)[..PREFIX];
    } else {
      assert ys == [ys[0]] + ys[1..];
      FramesFront(ys[0], ys[1..]);
      PrefixIsSize(ys[0]);
      assert t == Frame(ys[0])[..PREFIX];
    }
  }

  lemma Cancel(f: seq<byte>, a: seq<byte>, t: seq<byte>, b: seq<byte>, u: seq<byte>)
    requires f + a + t <= f + b + u
    ensures a + t <= b + u
  {
    assert f + a + t == f + (a + t);
    assert f + b + u == f + (b + u);
    SameStart(f, a + t, f, b + u);
  }

  lemma DropFirst(x: seq<byte>, xs: seq<seq<byte>>, t: seq<byte>, ys: seq<seq<byte>>, u: seq<byte>)
    requires Frames([x] + xs) + t <= Frames([x] + ys) + u
    ensures Frames(xs) + t <= Frames(ys) + u
  {
    FramesFront(x, xs);
    FramesFront(x, ys);
    Cancel(Frame(x), Frames(xs), t, Frames(ys), u);
  }

  /** Whatever follows the whole frames a reader has taken starts with an acceptable length. */
  lemma {:induction false} NextPrefixIsAcceptable(
      xs: seq<seq<byte>>, t: seq<byte>, ys: seq<seq<byte>>, z: seq<byte>, u: seq<byte>)
    requires Sizes(xs) && Sizes(ys) && Acceptable(|z|) && u <= Frame(z)
    requires Frames(xs) + t <= Frames(ys) + u
    requires |t| == PREFIX
    ensures Acceptable(Number(t))
  {
    if xs == [] {
      assert Frames(xs) + t == t;
      FirstPrefix(t, ys, z, u);
    } else {
      assert Frames(xs) == (Frames(xs) + t)[..|Frames(xs)|];
      WholeFramesAreThoseWritten(xs, ys, z, u);
      FramesGrow(ys, z);
      assert |xs| <= |ys|;
      assert xs == [xs[0]] + xs[1..] && ys == [xs[0]] + ys[1..];
      DropFirst(xs[0], xs[1..], t, ys[1..], u);
      NextPrefixIsAcceptable(xs[1..], t, ys[1..], z, u);
    }
  }

  /** Bytes that do not amount to the frame their own length prefix announces. */
  ghost predicate Short(t: seq<byte>) {
    |t| >= PREFIX ==> |t| < PREFIX + Number(t[..PREFIX])
  }

  lemma {:induction false} FramesSplit(xs: seq<seq<byte>>, ys: seq<seq<byte>>)
    ensures Frames(xs + ys) == Frames(xs) + Frames(ys)
  {
    if xs == [] {
      assert xs + ys == ys;
    } else {
      FramesSplit(xs[1..], ys);
      assert (xs + ys)[1..] == xs[1..] + ys;
      Assoc(Frame(xs[0]), Frames(xs[1..]), Frames(ys));
    }
  }

  /** Short bytes at the start of a frame do not reach its end. */
  lemma ShortOfOne(t: seq<byte>, y: seq<byte>, more: seq<byte>)
    requires Acceptable(|y|) && Short(t) && t <= Frame(y) + more
    ensures |t| < |Frame(y)|
  {
    PrefixIsSize(y);
    assert |t| >= PREFIX ==> t[..PREFIX] == Frame(y)[..PREFIX];
  }

  /**
   A reader that has taken whole frames xs off a stream of frames zs and holds only short bytes
   besides has not received the next frame whole: it has taken every frame received.
   */
  lemma NextFrameIsNotWhole(xs: seq<seq<byte>>, t: seq<byte>, zs: seq<seq<byte>>)
    requires Sizes(zs) && xs < zs && Short(t) && Frames(xs) + t <= Frames(zs)
    ensures |Frames(xs) + t| < |Frames(zs[..|xs| + 1])|
  {
    var n := |xs|;
    var rest := zs[n..];
    assert zs == xs + rest && rest == [zs[n]] + zs[n + 1..] && zs[..n + 1] == xs + [zs[n]];
    FramesSplit(xs, rest);
    SameStart(Frames(xs), t, Frames(xs), Frames(rest));
    FramesFront(zs[n], zs[n + 1..]);
    ShortOfOne(t, zs[n], Frames(zs[n + 1..]));
    FramesGrow(xs, zs[n]);
  }

  lemma MoreFramesAreLonger(xs: seq<seq<byte>>, zs: seq<seq<byte>>)
    requires xs <= zs
    ensures |Frames(xs)| <= |Frames(zs)|
  {
    assert zs == xs + zs[|xs|..];
    FramesSplit(xs, zs[|xs|..]);
  }

  /** A reader left with short bytes has taken every frame it has received whole. */
  lemma NoneReceivedIsLeft(xs: seq<seq<byte>>, t: seq<byte>, ys: seq<seq<byte>>, z: seq<byte>, u: seq<byte>)
    requires Sizes(ys) && Acceptable(|z|) && u <= Frame(z)
    requires Frames(xs) + t <= Frames(ys) + u && Short(t) && xs < ys + [z]
    ensures |Frames(xs) + t| < |Frames((ys + [z])[..|xs| + 1])|
  {
    FramesGrow(ys, z);
    assert Frames(ys) + u <= Frames(ys + [z]);
    NextFrameIsNotWhole(xs, t, ys + [z]);
  }

  /** With all the bytes sent, it has taken every frame sent whole. */
  lemma AllSentAreTaken(xs: seq<seq<byte>>, t: seq<byte>, ys: seq<seq<byte>>, z: seq<byte>, u: seq<byte>)
    requires Sizes(xs) && Sizes(ys) && Acceptable(|z|) && u <= Frame(z)
    requires Frames(xs) + t == Frames(ys) + u && Short(t)
    ensures xs == if u == Frame(z) then ys + [z] else ys
  {
    var n := |xs|;
    assert Frames(xs) == (Frames(xs) + t)[..|Frames(xs)|];
    WholeFramesAreThoseWritten(xs, ys, z, u);
    if n <= |ys| {
      NoneReceivedIsLeft(xs, t, ys, z, u);
      NotFewer(ys, z, u, n);
    }
  }

  /** A stream that ends before frame n of ys + [z] does, and has all of ys, has n == |ys|. */
  lemma NotFewer(ys: seq<seq<byte>>, z: seq<byte>, u: seq<byte>, n: nat)
    requires n <= |ys| && |Frames(ys) + u| < |Frames((ys + [z])[..n + 1])|
    ensures n == |ys| && |u| < |Frame(z)|
  {
    if n < |ys| {
      assert (ys + [z])[..n + 1] == ys[..n + 1];
      MoreFramesAreLonger(ys[..n + 1], ys);
    } else {
      assert (ys + [z])[..n + 1] == ys + [z];
      FramesGrow(ys, z);
    }
  }
}

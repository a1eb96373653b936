/** The packetizer that splits the frames of an inner codec and spreads them over the frame interval. */
module ShapedPacketizer {
  import opened Wire

  datatype Frame = Frame(data: Bytes, seconds: real)

  /** Of the inner frame: the bytes not yet sent, and the time left. */
  datatype State = State(bytes: Bytes, seconds: real)

  /** The number of packets that n bytes make. */
  function Packets(n: nat, payload: nat): nat
    requires payload > 0
  {
    (n + payload - 1) / payload
  }

  lemma PacketsPositive(n: nat, payload: nat)
    requires n > 0 && payload > 0
    ensures Packets(n, payload) > 0
    ensures Packets(n, payload) == 1 <==> n <= payload
  {
    if n <= payload {
      QuotientIs(n + payload - 1, payload, 1);
    } else {
      PacketsNext(n, payload);
    }
  }

  lemma TimesMonotone(a: int, b: int, c: nat)
    requires a <= b
    ensures a * c <= b * c
  {}

  lemma Cancel(a: int, b: int, c: nat)
    requires a * c < b * c
    ensures a < b
  {
    if a >= b {
      TimesMonotone(b, a, c);
    }
  }

  lemma OneMore(a: nat, c: nat)
    ensures (a + 1) * c == a * c + c
  {}

  lemma QuotientIs(a: nat, b: nat, q: nat)
    requires b > 0 && q * b <= a < q * b + b
    ensures a / b == q
  {
    var r := a / b;
    assert r * b <= a < r * b + b;
    OneMore(r, b);
    OneMore(q, b);
    Cancel(r, q + 1, b);
    Cancel(q, r + 1, b);
  }

  lemma PacketsNext(n: nat, payload: nat)
    requires n > payload > 0
    ensures Packets(n, payload) == Packets(n - payload, payload) + 1 > 1
  {
    var q := Packets(n - payload, payload);
    assert q * payload <= n - 1 < q * payload + payload;
    OneMore(q, payload);
    QuotientIs(n + payload - 1, payload, q + 1);
    Cancel(1, q + 1, payload);
  }

  function Min(a: nat, b: nat): nat { if a < b then a else b }

  /** The next packet of a frame under way, and what remains. */
  function Cut(s: State, payload: nat): (Frame, State)
    requires s.bytes != [] && payload > 0
  {
    PacketsPositive(|s.bytes|, payload);
    var n := Min(payload, |s.bytes|);
    var share := s.seconds / Packets(|s.bytes|, payload) as real;
    (Frame(s.bytes[..n], share), State(s.bytes[n..], s.seconds - share))
  }

  /** The overhead of a frame of n bytes, as a part of them. */
  function OverheadFactor(overhead: nat, n: nat, payload: nat): real
    requires n > 0 && payload > 0
  {
    overhead as real * Packets(n, payload) as real / n as real
  }

  function InnerRate(target: real, factor: real): real
    requires factor >= 0.0
  {
    target / (1.0 + factor)
  }

  /** As long as the inner frames keep their size, they and their overhead together keep the target rate. */
  lemma RateOnTarget(target: real, overhead: nat, n: nat, payload: nat)
    requires n > 0 && payload > 0
    ensures var factor := OverheadFactor(overhead, n, payload);
      && factor >= 0.0
      && (n as real + overhead as real * Packets(n, payload) as real) * InnerRate(target, factor) == n as real * target
  {
    var all, size := overhead as real * Packets(n, payload) as real, n as real;
    var factor := all / size;
    assert factor * size == all;
    NotNegative(factor, size);
    var rate := target / (1.0 + factor);
    assert rate * (1.0 + factor) == target;
    Exchange(size, rate, factor);
  }

  lemma Exchange(size: real, rate: real, factor: real)
    ensures (size + factor * size) * rate == size * (rate * (1.0 + factor))
  {
    assert size + factor * size == size * (1.0 + factor);
  }

  class Packetizer {
    const payloadSize: nat
    const overhead: nat
    var targetRate: real
    var bytesToSend: Bytes
    var secsToNextFrame: real
    var lastOverheadFactor: real
    var current: Frame

    /** In particular, no time is left over when the inner codec is asked for its next frame: the
        source asserts this. */
    ghost predicate Valid()
      reads this
    {
      payloadSize > 0 && secsToNextFrame >= 0.0 && lastOverheadFactor >= 0.0
      && (bytesToSend == [] ==> secsToNextFrame == 0.0)
    }

    ghost function View(): State
      reads this
    {
      State(bytesToSend, secsToNextFrame)
    }

    constructor (payload: nat, perPacketOverhead: nat, rate: real, inner: Frame)
      requires payload > 0 && inner.data != [] && inner.seconds >= 0.0
      ensures Valid() && payloadSize == payload && overhead == perPacketOverhead
      ensures (current, View()) == Cut(State(inner.data, inner.seconds), payload)
    {
      payloadSize, overhead, targetRate := payload, perPacketOverhead, rate;
      bytesToSend, secsToNextFrame := [], 0.0;
      lastOverheadFactor := perPacketOverhead as real / payload as real;
      current := inner;
      new;
      var _, _ := NextPacketOrFrame(inner);
    }

    /** `inner` is the frame the inner codec would deliver next; `asked` says whether it was taken, and
        `rate` what rate the inner codec was set to before. */
    method NextPacketOrFrame(inner: Frame) returns (asked: bool, rate: real)
      requires Valid() && inner.data != [] && inner.seconds >= 0.0
      modifies this
      ensures Valid() && targetRate == old(targetRate)
      ensures asked <==> old(bytesToSend) == []
      ensures asked ==> rate == old(InnerRate(targetRate, lastOverheadFactor))
      ensures asked ==> lastOverheadFactor == OverheadFactor(overhead, |inner.data|, payloadSize)
      ensures !asked ==> lastOverheadFactor == old(lastOverheadFactor)
      ensures (current, View()) ==
        Cut(if asked then State(inner.data, inner.seconds) else old(View()), payloadSize)
    {
      hide Packets;
      rate := 0.0;
      asked := bytesToSend == [];
      if asked {
        rate := targetRate / (1.0 + lastOverheadFactor);
        bytesToSend := inner.data;
        secsToNextFrame := secsToNextFrame + inner.seconds;
        lastOverheadFactor := overhead as real * Packets(|bytesToSend|, payloadSize) as real / |bytesToSend| as real;
      }
      ghost var was := View();
      CutShrinks(was, payloadSize);
      PacketsPositive(|bytesToSend|, payloadSize);
      var size := Min(payloadSize, |bytesToSend|);
      var secsToNextPacket := secsToNextFrame / Packets(|bytesToSend|, payloadSize) as real;
      current := Frame(bytesToSend[..size], secsToNextPacket);
      bytesToSend := bytesToSend[size..];
      secsToNextFrame := secsToNextFrame - secsToNextPacket;
    }
  }

  lemma NotNegative(q: real, n: real)
    requires n > 0.0 && q * n >= 0.0
    ensures q >= 0.0
  {}

  lemma Division(t: real, n: real)
    requires n >= 1.0 && t >= 0.0
    ensures 0.0 <= t / n <= t && (n == 1.0 ==> t / n == t)
  {
    var q := t / n;
    assert q * n == t;
    NotNegative(q, n);
    assert q * (n - 1.0) >= 0.0;
  }

  /** A cut sends something, leaves time that is not negative, and none after the last byte. */
  lemma CutShrinks(s: State, payload: nat)
    requires s.bytes != [] && s.seconds >= 0.0 && payload > 0
    ensures var (packet, rest) := Cut(s, payload);
      && packet.data + rest.bytes == s.bytes && 0 < |packet.data| <= payload
      && (rest.bytes != [] ==> |packet.data| == payload)
      && packet.seconds + rest.seconds == s.seconds && rest.seconds >= 0.0
      && (rest.bytes == [] <==> Packets(|s.bytes|, payload) == 1)
      && (rest.bytes == [] ==> rest.seconds == 0.0)
  {
    PacketsPositive(|s.bytes|, payload);
    Division(s.seconds, Packets(|s.bytes|, payload) as real);
    hide Packets;
  }

  // A whole frame.

  /** All packets still to come from a frame under way. */
  function Drain(s: State, payload: nat): seq<Frame>
    requires payload > 0
    decreases |s.bytes|
  {
    if s.bytes == [] then []
    else
      PacketsPositive(|s.bytes|, payload);
      var (packet, rest) := Cut(s, payload);
      [packet] + Drain(rest, payload)
  }

  function Joined(ps: seq<Frame>): Bytes
    decreases |ps|
  {
    if ps == [] then [] else ps[0].data + Joined(ps[1..])
  }

  function Duration(ps: seq<Frame>): real
    decreases |ps|
  {
    if ps == [] then 0.0 else ps[0].seconds + Duration(ps[1..])
  }

  lemma DrainStep(s: State, payload: nat)
    requires payload > 0 && s.bytes != []
    ensures Drain(s, payload) == [Cut(s, payload).0] + Drain(Cut(s, payload).1, payload)
    ensures Drain(s, payload)[0] == Cut(s, payload).0 && Drain(s, payload)[1..] == Drain(Cut(s, payload).1, payload)
  {}

  /** The packets of a frame join to the frame; each but the last is full; there are as many as the
      frame fills; and they last as long as the frame. */
  lemma {:induction false} FrameConserved(s: State, payload: nat)
    requires payload > 0 && s.seconds >= 0.0 && (s.bytes == [] ==> s.seconds == 0.0)
    ensures var ps := Drain(s, payload);
      && Joined(ps) == s.bytes && Duration(ps) == s.seconds && |ps| == Packets(|s.bytes|, payload)
      && (forall i :: 0 <= i < |ps| ==> 0 < |ps[i].data| <= payload)
      && (forall i :: 0 <= i < |ps| - 1 ==> |ps[i].data| == payload)
    decreases |s.bytes|
  {
    if s.bytes == [] {
      QuotientIs(payload - 1, payload, 0);
    } else {
      var rest := Cut(s, payload).1;
      CutShrinks(s, payload);
      DrainStep(s, payload);
      FrameConserved(rest, payload);
      LengthNext(s, payload);
      hide Drain, Cut, Packets;
    }
  }

  lemma LengthNext(s: State, payload: nat)
    requires payload > 0 && s.bytes != []
    ensures Packets(|s.bytes|, payload) == Packets(|Cut(s, payload).1.bytes|, payload) + 1
  {
    PacketsPositive(|s.bytes|, payload);
    QuotientIs(payload - 1, payload, 0);
    if |s.bytes| > payload {
      PacketsNext(|s.bytes|, payload);
    }
  }

  /** All packets of a frame have the same interval. */
  lemma {:induction false} EvenlySpread(s: State, payload: nat, i: nat)
    requires payload > 0 && s.bytes != [] && s.seconds >= 0.0 && i < |Drain(s, payload)|
    ensures Packets(|s.bytes|, payload) > 0
    ensures Drain(s, payload)[i].seconds == s.seconds / Packets(|s.bytes|, payload) as real
    decreases |s.bytes|
  {
    PacketsPositive(|s.bytes|, payload);
    DrainStep(s, payload);
    if i > 0 {
      CutShrinks(s, payload);
      var rest := Cut(s, payload).1;
      assert Drain(s, payload)[i] == Drain(rest, payload)[i - 1];
      EvenlySpread(rest, payload, i - 1);
      LengthNext(s, payload);
      ShareKept(s.seconds, Packets(|rest.bytes|, payload) as real);
    }
  }

  lemma ShareKept(t: real, n: real)
    requires n > 0.0
    ensures (t - t / (n + 1.0)) / n == t / (n + 1.0)
  {
    var q := t / (n + 1.0);
    assert q * (n + 1.0) == t;
    assert q * n == t - q;
  }

  // Runs.

  datatype Progress = Progress(state: State, taken: nat, sent: seq<Frame>)

  /** One call: the frame under way, or else the next one, gives up a packet. */
  function Next(frames: seq<Frame>, payload: nat, p: Progress): Progress
    requires payload > 0 && p.taken < |frames| && frames[p.taken].data != []
  {
    var asked := p.state.bytes == [];
    var s := if asked then State(frames[p.taken].data, p.state.seconds + frames[p.taken].seconds) else p.state;
    var (packet, rest) := Cut(s, payload);
    Progress(rest, if asked then p.taken + 1 else p.taken, p.sent + [packet])
  }

  /** n packets in a row, from a source of inner frames. */
  function Run(frames: seq<Frame>, payload: nat, n: nat): (p: Progress)
    requires payload > 0 && |frames| >= n && forall i :: 0 <= i < |frames| ==> frames[i].data != []
    ensures p.taken <= n
  {
    if n == 0 then Progress(State([], 0.0), 0, []) else Next(frames, payload, Run(frames, payload, n - 1))
  }

  /** The packets of the frames, one frame after the other. */
  function AllPackets(frames: seq<Frame>, payload: nat): seq<Frame>
    requires payload > 0
  {
    if frames == [] then []
    else
      var last := frames[|frames| - 1];
      AllPackets(frames[..|frames| - 1], payload) + Drain(State(last.data, last.seconds), payload)
  }

  ghost predicate Conserved(frames: seq<Frame>, payload: nat, p: Progress)
    requires payload > 0
  {
    && p.taken <= |frames|
    && p.sent + Drain(p.state, payload) == AllPackets(frames[..p.taken], payload)
    && p.state.seconds >= 0.0 && (p.state.bytes == [] ==> p.state.seconds == 0.0)
  }

  lemma TakenNext(frames: seq<Frame>, payload: nat, k: nat)
    requires payload > 0 && k < |frames|
    ensures AllPackets(frames[..k + 1], payload)
      == AllPackets(frames[..k], payload) + Drain(State(frames[k].data, frames[k].seconds), payload)
  {
    assert frames[..k + 1][..k] == frames[..k];
  }

  lemma CutConserves(frames: seq<Frame>, payload: nat, p: Progress)
    requires payload > 0 && Conserved(frames, payload, p) && p.state.bytes != []
    ensures var (packet, rest) := Cut(p.state, payload);
      Conserved(frames, payload, Progress(rest, p.taken, p.sent + [packet]))
  {
    CutShrinks(p.state, payload);
    DrainStep(p.state, payload);
    hide Cut, Drain, AllPackets;
    var (packet, rest) := Cut(p.state, payload);
    assert p.sent + [packet] + Drain(rest, payload) == p.sent + Drain(p.state, payload);
  }

  lemma TakeConserves(frames: seq<Frame>, payload: nat, p: Progress)
    requires payload > 0 && Conserved(frames, payload, p) && p.state.bytes == [] && p.taken < |frames|
    requires frames[p.taken].seconds >= 0.0 && frames[p.taken].data != []
    ensures var f := frames[p.taken];
      Conserved(frames, payload, Progress(State(f.data, p.state.seconds + f.seconds), p.taken + 1, p.sent))
  {
    DrainedIsEmpty(p.state, payload);
    TakenNext(frames, payload, p.taken);
    hide Drain, AllPackets;
    assert p.state.seconds + frames[p.taken].seconds == frames[p.taken].seconds;
    assert p.sent + [] == p.sent;
  }

  /** In every run, what was sent and what the frame under way still owes are the packets of the frames
      taken, in order; and no time is left over when a frame ends. */
  lemma {:induction false} RunConserves(frames: seq<Frame>, payload: nat, n: nat)
    requires payload > 0 && |frames| >= n
    requires forall i :: 0 <= i < |frames| ==> frames[i].data != [] && frames[i].seconds >= 0.0
    ensures var p := Run(frames, payload, n);
      && p.taken <= n && p.sent + Drain(p.state, payload) == AllPackets(frames[..p.taken], payload)
      && p.state.seconds >= 0.0 && (p.state.bytes == [] ==> p.state.seconds == 0.0)
  {
    RunConserved(frames, payload, n);
  }

  lemma NextConserves(frames: seq<Frame>, payload: nat, p: Progress)
    requires payload > 0 && Conserved(frames, payload, p) && p.taken < |frames|
    requires frames[p.taken].data != [] && frames[p.taken].seconds >= 0.0
    ensures Conserved(frames, payload, Next(frames, payload, p))
  {
    hide Conserved, Cut;
    if p.state.bytes == [] {
      var f := frames[p.taken];
      TakeConserves(frames, payload, p);
      CutConserves(frames, payload, Progress(State(f.data, p.state.seconds + f.seconds), p.taken + 1, p.sent));
    } else {
      CutConserves(frames, payload, p);
    }
  }

  lemma {:induction false} RunConserved(frames: seq<Frame>, payload: nat, n: nat)
    requires payload > 0 && |frames| >= n
    requires forall i :: 0 <= i < |frames| ==> frames[i].data != [] && frames[i].seconds >= 0.0
    ensures Conserved(frames, payload, Run(frames, payload, n))
  {
    if n > 0 {
      RunConserved(frames, payload, n - 1);
      NextConserves(frames, payload, Run(frames, payload, n - 1));
    } else {
      DrainedIsEmpty(State([], 0.0), payload);
    }
  }

  lemma DrainedIsEmpty(s: State, payload: nat)
    requires payload > 0 && s.bytes == []
    ensures Drain(s, payload) == []
  {}
}

/**
 Every socket receives its own copy of a packet, yet at most one receiver accepts it and
 it is forwarded at most once, however the goroutines and the selector interleave.
 */
module AtMostOnce {
  import opened Base
  import opened Setup
  import opened Library
  import opened Buffers
  import opened Routing

  /** The packet a multicast receiver is working on. */
  function InHand(g: Goroutine): Option<nat> {
    if g.proc.Multicast? && Working(g.pc).Some? && Working(g.pc).value.FromPacket?
    then Some(Working(g.pc).value.pid) else None
  }

  /** Has the receiver already accepted the packet in its hand? */
  predicate Past(g: Goroutine) {
    g.pc.Accepted? || g.pc.Routed?
  }

  /** Packets in the log were let through by the filters of the receiver that accepted them. */
  ghost predicate AcceptOk(c: System, gs: seq<Goroutine>, packets: seq<Packet>, a: Accept) {
    && a.who < |gs| && a.pid < |packets| && a.pid < gs[a.who].seen
    && gs[a.who].proc.Multicast? && ForReceiver(c, gs[a.who].proc, packets[a.pid])
  }

  ghost predicate IsForward(f: Frame, who: nat, pid: nat) {
    f.Forwarded? && f.proc.Multicast? && f.who == who && f.from == FromPacket(pid)
  }

  /** The packet in hand has been read, and accepted and forwarded only as far as the pc says. */
  ghost predicate HandOk(g: Goroutine, i: nat, accepts: seq<Accept>, frames: seq<Frame>) {
    InHand(g).Some? ==>
      && InHand(g).value < g.seen
      && (Past(g) <==> Accept(i, InHand(g).value) in accepts)
      && (forall k | 0 <= k < |frames| :: !IsForward(frames[k], i, InHand(g).value))
  }

  ghost predicate FrameAccepted(f: Frame, accepts: seq<Accept>) {
    f.Forwarded? && f.proc.Multicast? && f.from.FromPacket? ==> Accept(f.who, f.from.pid) in accepts
  }

  ghost predicate OnceInv(c: System, s: State) {
    && (forall k | 0 <= k < |s.accepts| :: AcceptOk(c, s.gs, s.packets, s.accepts[k]))
    && (forall j, k | 0 <= j < k < |s.accepts| :: s.accepts[j] != s.accepts[k])
    && (forall i | 0 <= i < |s.gs| :: HandOk(s.gs[i], i, s.accepts, s.frames))
    && (forall k | 0 <= k < |s.frames| :: FrameAccepted(s.frames[k], s.accepts))
    && (forall j, k | 0 <= j < k < |s.frames| && s.frames[k].Forwarded? && s.frames[k].from.FromPacket? ::
          !(IsForward(s.frames[k], s.frames[k].who, s.frames[k].from.pid)
            && IsForward(s.frames[j], s.frames[k].who, s.frames[k].from.pid)))
  }

  /** What a move does to the packet in hand. */
  lemma MoveOnce(c: System, g: Goroutine, i: nat, s: State, a: Act)
    requires Move(c, g, i, s, a).Does?
    ensures var e := Move(c, g, i, s, a).effect;
      && e.g.proc == g.proc && e.g.seen >= g.seen
      && (InHand(e.g).Some? ==>
            || (InHand(e.g) == InHand(g) && (Past(e.g) <==> Past(g) || e.accept.Some?))
            || (InHand(e.g).value == g.seen < e.g.seen && !Past(e.g) && e.accept.None?))
      && (e.accept.Some? ==>
            && InHand(g) == Some(e.accept.value) && !Past(g) && e.accept.value < |s.packets|
            && ForReceiver(c, g.proc, s.packets[e.accept.value]))
      && (e.frame.Some? && e.frame.value.Forwarded? ==>
            && e.frame.value.who == i && e.frame.value.proc == g.proc
            && InHand(e.g).None?
            && (g.proc.Multicast? && e.frame.value.from.FromPacket? ==>
                  InHand(g) == Some(e.frame.value.from.pid) && Past(g)))
      && !(e.accept.Some? && e.frame.Some?)
  {
  }

  // ----- Accepting -----

  lemma AcceptsAfter(c: System, s: State, i: nat, e: Effect)
    requires OnceInv(c, s) && i < |s.gs|
    requires e.g.proc == s.gs[i].proc && e.g.seen >= s.gs[i].seen
    requires e.accept.Some? ==>
      && InHand(s.gs[i]) == Some(e.accept.value) && !Past(s.gs[i]) && e.accept.value < |s.packets|
      && ForReceiver(c, s.gs[i].proc, s.packets[e.accept.value])
    ensures var t := Apply(s, i, e);
      && (forall k | 0 <= k < |t.accepts| :: AcceptOk(c, t.gs, t.packets, t.accepts[k]))
      && (forall j, k | 0 <= j < k < |t.accepts| :: t.accepts[j] != t.accepts[k])
  {
    var t := Apply(s, i, e);
    assert HandOk(s.gs[i], i, s.accepts, s.frames);
    forall k | 0 <= k < |t.accepts|
      ensures AcceptOk(c, t.gs, t.packets, t.accepts[k])
    {
      if k < |s.accepts| { assert AcceptOk(c, s.gs, s.packets, s.accepts[k]); }
    }
    forall j, k | 0 <= j < k < |t.accepts|
      ensures t.accepts[j] != t.accepts[k]
    {
      assert j < |s.accepts| && t.accepts[j] == s.accepts[j] && s.accepts[j] in s.accepts;
    }
  }

  // ----- What others have in hand is not affected -----

  lemma HandFrame(g: Goroutine, i: nat, accepts: seq<Accept>, frames: seq<Frame>, accepts': seq<Accept>,
                  frames': seq<Frame>)
    requires HandOk(g, i, accepts, frames) && InHand(g).Some?
    requires Accept(i, InHand(g).value) in accepts' <==> Accept(i, InHand(g).value) in accepts
    requires frames' == frames || exists f :: frames' == frames + [f] && !IsForward(f, i, InHand(g).value)
    ensures HandOk(g, i, accepts', frames')
  {
  }

  lemma HandsAfter(c: System, s: State, i: nat, e: Effect, j: nat)
    requires OnceInv(c, s) && i < |s.gs| && j < |s.gs| && j != i
    requires e.frame.Some? && e.frame.value.Forwarded? ==> e.frame.value.who == i
    ensures HandOk(s.gs[j], j, Apply(s, i, e).accepts, Apply(s, i, e).frames)
  {
    var t := Apply(s, i, e);
    assert HandOk(s.gs[j], j, s.accepts, s.frames);
    if InHand(s.gs[j]).Some? {
      if e.frame.Some? {
        assert t.frames == s.frames + [e.frame.value] && !IsForward(e.frame.value, j, InHand(s.gs[j]).value);
      }
      HandFrame(s.gs[j], j, s.accepts, s.frames, t.accepts, t.frames);
    }
  }

  /** A packet not yet read has neither been accepted nor forwarded. */
  lemma UnreadIsNew(c: System, s: State, i: nat)
    requires OnceInv(c, s) && i < |s.gs|
    ensures Accept(i, s.gs[i].seen) !in s.accepts
    ensures forall k | 0 <= k < |s.frames| :: !IsForward(s.frames[k], i, s.gs[i].seen)
  {
    forall k | 0 <= k < |s.accepts|
      ensures s.accepts[k] != Accept(i, s.gs[i].seen)
    {
      assert AcceptOk(c, s.gs, s.packets, s.accepts[k]);
    }
    forall k | 0 <= k < |s.frames|
      ensures !IsForward(s.frames[k], i, s.gs[i].seen)
    {
      assert FrameAccepted(s.frames[k], s.accepts);
    }
  }

  lemma OwnHand(g: Goroutine, i: nat, s: State, e: Effect)
    requires i < |s.gs| && HandOk(g, i, s.accepts, s.frames)
    requires Accept(i, g.seen) !in s.accepts
    requires forall k | 0 <= k < |s.frames| :: !IsForward(s.frames[k], i, g.seen)
    requires InHand(e.g).Some? ==>
      || (InHand(e.g) == InHand(g) && (Past(e.g) <==> Past(g) || e.accept.Some?) && e.g.seen >= g.seen)
      || (InHand(e.g).value == g.seen < e.g.seen && !Past(e.g) && e.accept.None?)
    requires e.accept.Some? ==> InHand(g) == Some(e.accept.value)
    requires e.frame.Some? && e.frame.value.Forwarded? ==> InHand(e.g).None?
    ensures HandOk(e.g, i, Apply(s, i, e).accepts, Apply(s, i, e).frames)
  {
  }

  lemma OwnHandAfter(c: System, s: State, i: nat, a: Act)
    requires OnceInv(c, s) && i < |s.gs| && Move(c, s.gs[i], i, s, a).Does?
    ensures var e := Move(c, s.gs[i], i, s, a).effect;
      HandOk(e.g, i, Apply(s, i, e).accepts, Apply(s, i, e).frames)
  {
    var e := Move(c, s.gs[i], i, s, a).effect;
    MoveOnce(c, s.gs[i], i, s, a);
    assert HandOk(s.gs[i], i, s.accepts, s.frames);
    UnreadIsNew(c, s, i);
    OwnHand(s.gs[i], i, s, e);
  }

  // ----- Forwarding -----

  lemma FramesAfter(c: System, s: State, i: nat, e: Effect)
    requires OnceInv(c, s) && i < |s.gs|
    requires e.frame.Some? && e.frame.value.Forwarded? ==>
      && e.frame.value.who == i && e.frame.value.proc == s.gs[i].proc
      && (s.gs[i].proc.Multicast? && e.frame.value.from.FromPacket? ==>
            InHand(s.gs[i]) == Some(e.frame.value.from.pid) && Past(s.gs[i]))
    ensures var t := Apply(s, i, e);
      && (forall k | 0 <= k < |t.frames| :: FrameAccepted(t.frames[k], t.accepts))
      && (forall j, k | 0 <= j < k < |t.frames| && t.frames[k].Forwarded? && t.frames[k].from.FromPacket? ::
            !(IsForward(t.frames[k], t.frames[k].who, t.frames[k].from.pid)
              && IsForward(t.frames[j], t.frames[k].who, t.frames[k].from.pid)))
  {
    var t := Apply(s, i, e);
    assert HandOk(s.gs[i], i, s.accepts, s.frames);
    forall k | 0 <= k < |t.frames|
      ensures FrameAccepted(t.frames[k], t.accepts)
    {
      if k < |s.frames| { assert FrameAccepted(s.frames[k], s.accepts); }
    }
  }

  lemma EnvOnce(c: System, s: State, t: State)
    requires OnceInv(c, s) && t.gs == s.gs && t.accepts == s.accepts && t.frames == s.frames && s.packets <= t.packets
    ensures OnceInv(c, t)
  {
    forall k | 0 <= k < |t.accepts|
      ensures AcceptOk(c, t.gs, t.packets, t.accepts[k])
    {
      assert AcceptOk(c, s.gs, s.packets, s.accepts[k]);
    }
  }

  lemma EffectOnce(c: System, s: State, a: Action, e: Effect)
    requires OnceInv(c, s) && EffectOf(c, s, a) == Some(e)
    ensures OnceInv(c, Apply(s, a.i, e))
  {
    MoveOnce(c, s.gs[a.i], a.i, s, a.act);
    AcceptsAfter(c, s, a.i, e);
    FramesAfter(c, s, a.i, e);
    OwnHandAfter(c, s, a.i, a.act);
    var t := Apply(s, a.i, e);
    forall j | 0 <= j < |t.gs|
      ensures HandOk(t.gs[j], j, t.accepts, t.frames)
    {
      if j != a.i { HandsAfter(c, s, a.i, e, j); }
    }
  }

  lemma {:induction false} OnceAlongRun(c: System, states: seq<State>, acts: seq<Action>, n: nat)
    requires IsRun(c, states, acts) && n <= |acts|
    ensures OnceInv(c, states[n])
  {
    if n > 0 {
      OnceAlongRun(c, states, acts, n - 1);
      var s, a, t := states[n - 1], acts[n - 1], states[n];
      assert Step(c, s, a) == Some(t);
      StepShape(c, s, a, t);
      if EffectOf(c, s, a).Some? { EffectOnce(c, s, a, EffectOf(c, s, a).value); } else { EnvOnce(c, s, t); }
    }
  }

  // ----- At most one receiver -----

  lemma GroupAddrInjective(d: Dest, d': Dest)
    requires d in MULTICAST_GROUPS && d' in MULTICAST_GROUPS && GroupAddr(d) == GroupAddr(d')
    ensures d == d'
  {
  }

  lemma SameIndex(procs: seq<Proc>, i: nat, j: nat)
    requires Distinct(procs) && i < |procs| && j < |procs| && procs[i] == procs[j]
    ensures i == j
  {
  }

  /** Receivers whose filters let the same packet through are the same goroutine. */
  lemma OneReceiver(c: System, gs: seq<Goroutine>, packet: Packet, i: nat, j: nat)
    requires ProcsInv(c, gs) && i < |gs| && j < |gs|
    requires gs[i].proc.Multicast? && ForReceiver(c, gs[i].proc, packet)
    requires gs[j].proc.Multicast? && ForReceiver(c, gs[j].proc, packet)
    ensures i == j
  {
    ProcStarted(c, gs, i);
    ProcStarted(c, gs, j);
    GroupAddrInjective(gs[i].proc.group, gs[j].proc.group);
    assert gs[i].proc == gs[j].proc;
    WorkersDistinct(c.conf);
    SameIndex(Workers(c.conf), i, j);
  }

  predicate ForwardsPacket(f: Frame, pid: nat) {
    f.Forwarded? && f.proc.Multicast? && f.from == FromPacket(pid)
  }

  lemma SameAccept(c: System, s: State, j: nat, k: nat, pid: nat)
    requires OnceInv(c, s) && ProcsInv(c, s.gs) && j < k < |s.accepts| && pid < |s.packets|
    ensures !(s.accepts[j].pid == pid && s.accepts[k].pid == pid)
  {
    var a, b := s.accepts[j], s.accepts[k];
    assert AcceptOk(c, s.gs, s.packets, a) && AcceptOk(c, s.gs, s.packets, b);
    if a.pid == b.pid { OneReceiver(c, s.gs, s.packets[a.pid], a.who, b.who); }
    assert a == Accept(a.who, a.pid) && b == Accept(b.who, b.pid);
  }

  lemma SameForward(c: System, s: State, j: nat, k: nat, pid: nat)
    requires OnceInv(c, s) && j < k < |s.frames|
    requires forall j, k | 0 <= j < k < |s.accepts| :: !(s.accepts[j].pid == pid && s.accepts[k].pid == pid)
    ensures !(ForwardsPacket(s.frames[j], pid) && ForwardsPacket(s.frames[k], pid))
  {
    var f, g := s.frames[j], s.frames[k];
    assert FrameAccepted(f, s.accepts) && FrameAccepted(g, s.accepts);
    assert ForwardsPacket(f, pid) && ForwardsPacket(g, pid) ==> f.who == g.who;
    assert ForwardsPacket(f, pid) && ForwardsPacket(g, pid) ==> IsForward(f, g.who, g.from.pid);
  }

  lemma NobodyAccepts(c: System, s: State, pid: nat)
    requires OnceInv(c, s) && ProcsInv(c, s.gs) && pid < |s.packets|
    requires forall p <- Workers(c.conf) :: p.Multicast? ==> !ForReceiver(c, p, s.packets[pid])
    ensures forall k | 0 <= k < |s.accepts| :: s.accepts[k].pid != pid
    ensures forall k | 0 <= k < |s.frames| :: !ForwardsPacket(s.frames[k], pid)
  {
    forall k | 0 <= k < |s.accepts|
      ensures s.accepts[k].pid != pid
    {
      assert AcceptOk(c, s.gs, s.packets, s.accepts[k]);
      assert s.gs[s.accepts[k].who].proc in Workers(c.conf);
    }
    forall k | 0 <= k < |s.frames|
      ensures !ForwardsPacket(s.frames[k], pid)
    {
      assert FrameAccepted(s.frames[k], s.accepts);
    }
  }

  /**
   At most one receiver ever accepts a packet, and multicast receivers forward it at most once;
   a packet that no started receiver is for is neither accepted nor forwarded.
   */
  lemma AtMostOnceProcessing(c: System, states: seq<State>, acts: seq<Action>, n: nat, pid: nat)
    requires IsRun(c, states, acts) && n <= |acts| && pid < |states[n].packets|
    ensures forall j, k | 0 <= j < k < |states[n].accepts| ::
      !(states[n].accepts[j].pid == pid && states[n].accepts[k].pid == pid)
    ensures forall j, k | 0 <= j < k < |states[n].frames| ::
      !(ForwardsPacket(states[n].frames[j], pid) && ForwardsPacket(states[n].frames[k], pid))
    ensures (forall p <- Workers(c.conf) :: p.Multicast? ==> !ForReceiver(c, p, states[n].packets[pid])) ==>
      && (forall k | 0 <= k < |states[n].accepts| :: states[n].accepts[k].pid != pid)
      && (forall k | 0 <= k < |states[n].frames| :: !ForwardsPacket(states[n].frames[k], pid))
  {
    OnceAlongRun(c, states, acts, n);
    ProcsAlongRun(c, states, acts, n);
    var s := states[n];
    forall j, k | 0 <= j < k < |s.accepts|
      ensures !(s.accepts[j].pid == pid && s.accepts[k].pid == pid)
    {
      SameAccept(c, s, j, k, pid);
    }
    forall j, k | 0 <= j < k < |s.frames|
      ensures !(ForwardsPacket(s.frames[j], pid) && ForwardsPacket(s.frames[k], pid))
    {
      SameForward(c, s, j, k, pid);
    }
    if forall p <- Workers(c.conf) :: p.Multicast? ==> !ForReceiver(c, p, s.packets[pid]) {
      NobodyAccepts(c, s, pid);
    }
  }

  /** A packet for no configured group, or on an unknown interface, is for no receiver. */
  lemma StrayPacketIsForNobody(c: System, packet: Packet)
    requires packet.dst !in {V4(224, 0, 0, 1), V4(224, 0, 0, 2), V4(224, 0, 0, 22)}
          || SideOfIndex(c.conf, c.indexOf, packet.ifIndex) == 0
    ensures forall p <- Workers(c.conf) :: p.Multicast? ==> !ForReceiver(c, p, packet)
  {
    forall p | p in Workers(c.conf) && p.Multicast?
      ensures !ForReceiver(c, p, packet)
    {
      WorkersAreStarted(c.conf, p);
    }
  }
}

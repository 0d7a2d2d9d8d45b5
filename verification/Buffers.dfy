/**
 The shared buffer pool over whole runs: who holds a buffer, what it contains, and
 which iterations never give theirs back.
 */
module Buffers {
  import opened Base
  import opened Setup
  import opened Library

  // ----- Steps, seen as effects -----

  /** The effect a goroutine's action carries out; None for the environment, a panic or a crash. */
  function EffectOf(c: System, s: State, a: Action): Option<Effect> {
    if s.status != Running || !a.Do? || a.i >= |s.gs| then None
    else
      match Move(c, s.gs[a.i], a.i, s, a.act)
      case Does(e) => if UsesUnopened(c, s.gs[a.i], a.act, e) then None else Some(e)
      case _ => None
  }

  /** A step either applies an effect, or leaves the goroutines and what they share, but for the environment, alone. */
  lemma StepShape(c: System, s: State, a: Action, t: State)
    requires Step(c, s, a) == Some(t)
    ensures EffectOf(c, s, a).Some? ==> a.Do? && a.i < |s.gs| && t == Apply(s, a.i, EffectOf(c, s, a).value)
    ensures EffectOf(c, s, a).None? ==>
      && t.gs == s.gs && t.wg == s.wg && t.route == s.route && t.stored == s.stored
      && t.accepts == s.accepts && t.frames == s.frames && (s.cancelled ==> t.cancelled)
    ensures EffectOf(c, s, a).None? && !a.PoolDrop? ==> t.pool == s.pool
    ensures s.packets <= t.packets
  {
  }

  // ----- Who holds a buffer -----

  function Held(pc: Pc): Option<Buf> {
    match pc
    case Reading(b) => Some(b)
    case Got(b, _) => Some(b)
    case Checked(b, _) => Some(b)
    case Accepted(b, _, _) => Some(b)
    case Routed(b, _, _, _) => Some(b)
    case Returning(b) => Some(b)
    case _ => None
  }

  /** What a move does to the buffer its goroutine holds. */
  ghost predicate BufferMove(before: Option<Buf>, after: Option<Buf>, op: PoolOp, pool: Pool) {
    match op
    case Keep => after == before
    case Get(b) => before == None && after == Some(b) && (b in pool.free || b !in pool.contents)
    case Fill(b, _) => before == Some(b) == after
    case Put(b) => before == Some(b) && after == None
    case Lose(b) => before == Some(b) && after == None
  }

  lemma MoveBuffer(c: System, g: Goroutine, i: nat, s: State, a: Act)
    requires Move(c, g, i, s, a).Does?
    ensures var e := Move(c, g, i, s, a).effect; BufferMove(Held(g.pc), Held(e.g.pc), e.pool, s.pool)
    ensures Move(c, g, i, s, a).effect.g.proc == g.proc
  {
  }

  /** No longer with a goroutine: pooled, dropped by the pool, or never to be returned. */
  function Away(pool: Pool): set<Buf> {
    pool.free + pool.dropped + pool.lost
  }

  ghost predicate HeldInv(gs: seq<Goroutine>, pool: Pool) {
    && pool.free !! pool.dropped !! pool.lost
    && Away(pool) <= pool.contents.Keys
    && (forall i | 0 <= i < |gs| && Held(gs[i].pc).Some? ::
          Held(gs[i].pc).value in pool.contents && Held(gs[i].pc).value !in Away(pool))
    && (forall i, j | 0 <= i < j < |gs| && Held(gs[i].pc).Some? :: Held(gs[j].pc) != Held(gs[i].pc))
  }

  lemma HeldAfter(gs: seq<Goroutine>, pool: Pool, i: nat, g: Goroutine, op: PoolOp)
    requires HeldInv(gs, pool) && i < |gs| && BufferMove(Held(gs[i].pc), Held(g.pc), op, pool)
    ensures HeldInv(gs[i := g], OnPool(pool, op))
  {
    var gs', pool' := gs[i := g], OnPool(pool, op);
    forall j | 0 <= j < |gs'| && Held(gs'[j].pc).Some?
      ensures Held(gs'[j].pc).value in pool'.contents && Held(gs'[j].pc).value !in Away(pool')
    {
      assert j != i ==> gs'[j] == gs[j] && Held(gs[j].pc) != Held(gs[i].pc);
    }
  }

  // ----- What a buffer contains -----

  /** Byte `k` of the most recent read that reached it; zero if none did. */
  ghost function MostRecent(history: seq<seq<Byte>>, k: nat): Byte {
    if history == [] then 0
    else if k < |history[|history| - 1]| then history[|history| - 1][k]
    else MostRecent(history[..|history| - 1], k)
  }

  ghost predicate Shows(contents: seq<Byte>, history: seq<seq<Byte>>) {
    && |contents| == BUFFER_SIZE
    && forall k | 0 <= k < BUFFER_SIZE :: contents[k] == MostRecent(history, k)
  }

  ghost predicate ContentsInv(pool: Pool) {
    && pool.history.Keys == pool.contents.Keys
    && forall b <- pool.contents :: Shows(pool.contents[b], pool.history[b])
  }

  lemma OverlayShows(contents: seq<Byte>, history: seq<seq<Byte>>, data: seq<Byte>)
    requires Shows(contents, history)
    ensures Shows(Overlay(contents, data), history + [Truncate(data)])
  {
    assert (history + [Truncate(data)])[..|history|] == history;
  }

  lemma ContentsAfter(pool: Pool, op: PoolOp)
    requires ContentsInv(pool) && (op.Fill? ==> op.buf in pool.contents)
    ensures ContentsInv(OnPool(pool, op))
  {
    if op.Fill? {
      assert Shows(pool.contents[op.buf], pool.history[op.buf]);
      OverlayShows(pool.contents[op.buf], pool.history[op.buf], op.data);
    }
  }

  // ----- The message a goroutine is working on is the last thing read into its buffer -----

  /** The message behind an origin. */
  function Message(from: Origin, packets: seq<Packet>): Option<seq<Byte>> {
    match from
    case FromPacket(pid) => if pid < |packets| then Some(packets[pid].payload) else None
    case FromDatagram(data) => Some(data)
    case FromError => None
  }

  ghost predicate HasRead(history: seq<seq<Byte>>, from: Origin, packets: seq<Packet>) {
    && (from.FromPacket? ==> from.pid < |packets|)
    && (Message(from, packets).Some? ==>
          history != [] && history[|history| - 1] == Truncate(Message(from, packets).value))
  }

  function Working(pc: Pc): Option<Origin> {
    match pc
    case Got(_, from) => Some(from)
    case Checked(_, from) => Some(from)
    case Accepted(_, from, _) => Some(from)
    case Routed(_, from, _, _) => Some(from)
    case _ => None
  }

  ghost predicate MessageOk(g: Goroutine, pool: Pool, packets: seq<Packet>) {
    Working(g.pc).Some? ==> HasRead(History(pool, Held(g.pc).value), Working(g.pc).value, packets)
  }

  ghost predicate MessageInv(gs: seq<Goroutine>, pool: Pool, packets: seq<Packet>) {
    forall i | 0 <= i < |gs| :: MessageOk(gs[i], pool, packets)
  }

  lemma MulticastMessage(c: System, g: Goroutine, i: nat, s: State, a: Act)
    requires g.proc.Multicast? && Move(c, g, i, s, a).Does? && MessageOk(g, s.pool, s.packets)
    ensures var e := Move(c, g, i, s, a).effect; MessageOk(e.g, OnPool(s.pool, e.pool), s.packets)
  {
  }

  lemma UnicastMessage(c: System, g: Goroutine, i: nat, s: State, a: Act)
    requires g.proc.Unicast? && Move(c, g, i, s, a).Does? && MessageOk(g, s.pool, s.packets)
    ensures var e := Move(c, g, i, s, a).effect; MessageOk(e.g, OnPool(s.pool, e.pool), s.packets)
  {
  }

  lemma MoveMessage(c: System, g: Goroutine, i: nat, s: State, a: Act)
    requires Move(c, g, i, s, a).Does? && MessageOk(g, s.pool, s.packets)
    ensures var e := Move(c, g, i, s, a).effect; MessageOk(e.g, OnPool(s.pool, e.pool), s.packets)
  {
    if g.proc.Multicast? { MulticastMessage(c, g, i, s, a); }
    if g.proc.Unicast? { UnicastMessage(c, g, i, s, a); }
  }

  lemma MessageFrame(g: Goroutine, pool: Pool, op: PoolOp, packets: seq<Packet>)
    requires MessageOk(g, pool, packets) && (!op.Keep? ==> Held(g.pc) != Some(op.buf))
    ensures MessageOk(g, OnPool(pool, op), packets)
  {
  }

  lemma MessageAfter(gs: seq<Goroutine>, pool: Pool, packets: seq<Packet>, i: nat, g: Goroutine, op: PoolOp)
    requires MessageInv(gs, pool, packets) && HeldInv(gs, pool)
    requires i < |gs| && BufferMove(Held(gs[i].pc), Held(g.pc), op, pool)
    requires MessageOk(g, OnPool(pool, op), packets)
    ensures MessageInv(gs[i := g], OnPool(pool, op), packets)
  {
    var gs' := gs[i := g];
    forall j | 0 <= j < |gs'|
      ensures MessageOk(gs'[j], OnPool(pool, op), packets)
    {
      if j != i {
        assert Held(gs[i].pc).Some? ==> Held(gs[j].pc) != Held(gs[i].pc);
        MessageFrame(gs[j], pool, op, packets);
      }
    }
  }

  lemma MorePackets(gs: seq<Goroutine>, pool: Pool, packets: seq<Packet>, packets': seq<Packet>)
    requires MessageInv(gs, pool, packets) && packets <= packets'
    ensures MessageInv(gs, pool, packets')
  {
    forall i | 0 <= i < |gs|
      ensures MessageOk(gs[i], pool, packets')
    {
      assert MessageOk(gs[i], pool, packets);
    }
  }

  // ----- The frames written from buffers -----

  /** A forwarded frame is the whole buffer, and its front is the message. */
  ghost predicate FrameOk(f: Frame, packets: seq<Packet>) {
    f.Forwarded? ==> Shows(f.payload, f.history) && HasRead(f.history, f.from, packets)
  }

  ghost predicate FramesInv(frames: seq<Frame>, packets: seq<Packet>) {
    forall k | 0 <= k < |frames| :: FrameOk(frames[k], packets)
  }

  /** A forwarded frame is the buffer in hand and the packet behind it. */
  lemma WritesOwnBuffer(c: System, g: Goroutine, i: nat, s: State, a: Act)
    requires Move(c, g, i, s, a).Does? && g.pc.Routed?
    ensures var f := Move(c, g, i, s, a).effect.frame;
      f.Some? && f.value.Forwarded? ==>
        && f.value.payload == Contents(s.pool, g.pc.buf) && f.value.history == History(s.pool, g.pc.buf)
        && f.value.from == g.pc.from
  {
  }

  /** Only a routed packet is forwarded. */
  lemma ForwardsRouted(c: System, g: Goroutine, i: nat, s: State, a: Act)
    requires Move(c, g, i, s, a).Does? && !g.pc.Routed?
    ensures var f := Move(c, g, i, s, a).effect.frame; f.Some? ==> !f.value.Forwarded?
  {
  }

  lemma MoveFrame(c: System, g: Goroutine, i: nat, s: State, a: Act)
    requires Move(c, g, i, s, a).Does? && MessageOk(g, s.pool, s.packets) && ContentsInv(s.pool)
    requires Held(g.pc).Some? ==> Held(g.pc).value in s.pool.contents
    ensures var e := Move(c, g, i, s, a).effect; e.frame.Some? ==> FrameOk(e.frame.value, s.packets)
  {
    if g.pc.Routed? {
      assert Shows(s.pool.contents[g.pc.buf], s.pool.history[g.pc.buf]);
      WritesOwnBuffer(c, g, i, s, a);
    } else {
      ForwardsRouted(c, g, i, s, a);
    }
  }

  // ----- All of it -----

  ghost predicate Inv(s: State) {
    && HeldInv(s.gs, s.pool) && ContentsInv(s.pool)
    && MessageInv(s.gs, s.pool, s.packets) && FramesInv(s.frames, s.packets)
  }

  lemma FramesKept(frames: seq<Frame>, packets: seq<Packet>, packets': seq<Packet>)
    requires FramesInv(frames, packets) && packets <= packets'
    ensures FramesInv(frames, packets')
  {
    forall k | 0 <= k < |frames|
      ensures FrameOk(frames[k], packets')
    {
      assert FrameOk(frames[k], packets);
    }
  }

  lemma EffectInv(c: System, s: State, a: Action, e: Effect)
    requires Inv(s) && EffectOf(c, s, a) == Some(e)
    ensures Inv(Apply(s, a.i, e))
  {
    var g := s.gs[a.i];
    assert MessageOk(g, s.pool, s.packets);
    MoveBuffer(c, g, a.i, s, a.act);
    MoveMessage(c, g, a.i, s, a.act);
    MoveFrame(c, g, a.i, s, a.act);
    HeldAfter(s.gs, s.pool, a.i, e.g, e.pool);
    ContentsAfter(s.pool, e.pool);
    MessageAfter(s.gs, s.pool, s.packets, a.i, e.g, e.pool);
  }

  lemma DropInv(s: State, b: Buf, pool: Pool)
    requires Inv(s) && b in s.pool.free
    requires pool == s.pool.(free := s.pool.free - {b}, dropped := s.pool.dropped + {b})
    ensures HeldInv(s.gs, pool) && ContentsInv(pool) && MessageInv(s.gs, pool, s.packets)
  {
    forall i | 0 <= i < |s.gs|
      ensures MessageOk(s.gs[i], pool, s.packets)
    {
      assert MessageOk(s.gs[i], s.pool, s.packets);
    }
  }

  lemma InvStep(c: System, s: State, a: Action, t: State)
    requires Inv(s) && Step(c, s, a) == Some(t)
    ensures Inv(t)
  {
    StepShape(c, s, a, t);
    if EffectOf(c, s, a).Some? {
      EffectInv(c, s, a, EffectOf(c, s, a).value);
    } else {
      if a.PoolDrop? { DropInv(s, a.buf, t.pool); }
      MorePackets(t.gs, t.pool, s.packets, t.packets);
      FramesKept(s.frames, s.packets, t.packets);
    }
  }

  lemma {:induction false} InvAlongRun(c: System, states: seq<State>, acts: seq<Action>, n: nat)
    requires IsRun(c, states, acts) && n <= |acts|
    ensures Inv(states[n])
  {
    if n > 0 {
      InvAlongRun(c, states, acts, n - 1);
      assert Step(c, states[n - 1], acts[n - 1]) == Some(states[n]);
      InvStep(c, states[n - 1], acts[n - 1], states[n]);
    }
  }
}

/**
 What the pool guarantees over every run, and what the iterations that never return
 their buffer cost.
 */
module BufferTheorems {
  import opened Base
  import opened Setup
  import opened Library
  import opened Buffers

  /**
   A forwarded payload is always the whole buffer: each byte is that of the most recent read
   that reached it, so its front is the message and it is the message only at full length.
   */
  lemma ForwardedPayload(c: System, states: seq<State>, acts: seq<Action>, n: nat, k: nat)
    requires IsRun(c, states, acts) && n <= |acts|
    requires k < |states[n].frames| && states[n].frames[k].Forwarded?
    ensures var f := states[n].frames[k];
      && |f.payload| == 200
      && (forall b | 0 <= b < 200 :: f.payload[b] == MostRecent(f.history, b))
      && (f.from != FromError ==>
            && Message(f.from, states[n].packets).Some?
            && var m := Message(f.from, states[n].packets).value;
               && (forall b | 0 <= b < |m| && b < 200 :: f.payload[b] == m[b])
               && (f.payload == m <==> |m| == 200))
  {
    InvAlongRun(c, states, acts, n);
    var f, packets := states[n].frames[k], states[n].packets;
    assert FrameOk(f, packets);
    if f.from != FromError {
      var d := Truncate(Message(f.from, packets).value);
      assert forall b | 0 <= b < |d| :: f.payload[b] == MostRecent(f.history, b) == d[b];
    }
  }

  /** A buffer is only filled, read, returned or lost by the one goroutine that holds it. */
  lemma UsedWhileHeld(c: System, states: seq<State>, acts: seq<Action>, n: nat, b: Buf)
    requires IsRun(c, states, acts) && n < |acts| && EffectOf(c, states[n], acts[n]).Some?
    requires var e := EffectOf(c, states[n], acts[n]).value;
      || (!e.pool.Keep? && !e.pool.Get? && e.pool.buf == b)
      || (e.frame.Some? && e.frame.value.Forwarded? && Held(states[n].gs[acts[n].i].pc) == Some(b))
    ensures var s := states[n];
      && Held(s.gs[acts[n].i].pc) == Some(b) && b !in Away(s.pool)
      && (forall j | 0 <= j < |s.gs| && Held(s.gs[j].pc) == Some(b) :: j == acts[n].i)
    ensures var gs, op := states[n].gs, EffectOf(c, states[n], acts[n]).value.pool;
      op.Get? ==> forall j | 0 <= j < |gs| :: Held(gs[j].pc) != Some(op.buf)
  {
    InvAlongRun(c, states, acts, n);
    MoveBuffer(c, states[n].gs[acts[n].i], acts[n].i, states[n], acts[n].act);
  }

  // ----- Counting -----

  datatype OpKind = Gets | Puts | Losses

  function OpOf(c: System, s: State, a: Action): PoolOp {
    if EffectOf(c, s, a).Some? then EffectOf(c, s, a).value.pool else Keep
  }

  function Is(op: PoolOp, kind: OpKind): nat {
    if (kind == Gets && op.Get?) || (kind == Puts && op.Put?) || (kind == Losses && op.Lose?) then 1 else 0
  }

  /** How many of the first `n` steps were of this kind. */
  function Count(c: System, states: seq<State>, acts: seq<Action>, n: nat, kind: OpKind): nat
    requires n <= |acts| && |states| == |acts| + 1
  {
    if n == 0 then 0
    else Count(c, states, acts, n - 1, kind) + Is(OpOf(c, states[n - 1], acts[n - 1]), kind)
  }

  function Holds(g: Goroutine): nat {
    if Held(g.pc).Some? then 1 else 0
  }

  function Marks(gs: seq<Goroutine>, f: Goroutine -> nat): (r: seq<nat>)
    ensures |r| == |gs|
  {
    seq(|gs|, i requires 0 <= i < |gs| => f(gs[i]))
  }

  /** The number of buffers in the hands of goroutines. */
  function HeldCount(gs: seq<Goroutine>): nat {
    Sum(Marks(gs, Holds))
  }

  lemma MarksUpdate(gs: seq<Goroutine>, f: Goroutine -> nat, i: nat, g: Goroutine)
    requires i < |gs|
    ensures Sum(Marks(gs[i := g], f)) + f(gs[i]) == Sum(Marks(gs, f)) + f(g)
  {
    assert Marks(gs[i := g], f) == Marks(gs, f)[i := f(g)];
    SumUpdate(Marks(gs, f), i, f(g));
  }

  /** A buffer comes into a goroutine's hands by a Get and leaves them by a Put or a loss. */
  lemma HoldsAfter(before: Goroutine, after: Goroutine, op: PoolOp, pool: Pool)
    requires BufferMove(Held(before.pc), Held(after.pc), op, pool)
    ensures Holds(after) + Is(op, Puts) + Is(op, Losses) == Holds(before) + Is(op, Gets)
  {
  }

  lemma LostAfter(gs: seq<Goroutine>, pool: Pool, i: nat, after: Option<Buf>, op: PoolOp)
    requires HeldInv(gs, pool) && i < |gs| && BufferMove(Held(gs[i].pc), after, op, pool)
    ensures |OnPool(pool, op).lost| == |pool.lost| + Is(op, Losses)
  {
    if op.Lose? { assert op.buf !in pool.lost; }
  }

  lemma CountStep(c: System, s: State, a: Action, t: State)
    requires Step(c, s, a) == Some(t) && Inv(s)
    ensures var op := OpOf(c, s, a);
      && HeldCount(t.gs) + Is(op, Puts) + Is(op, Losses) == HeldCount(s.gs) + Is(op, Gets)
      && |t.pool.lost| == |s.pool.lost| + Is(op, Losses)
  {
    StepShape(c, s, a, t);
    if EffectOf(c, s, a).Some? {
      var e := EffectOf(c, s, a).value;
      MoveBuffer(c, s.gs[a.i], a.i, s, a.act);
      MarksUpdate(s.gs, Holds, a.i, e.g);
      HoldsAfter(s.gs[a.i], e.g, e.pool, s.pool);
      LostAfter(s.gs, s.pool, a.i, Held(e.g.pc), e.pool);
    }
  }

  lemma NoMarks(gs: seq<Goroutine>, f: Goroutine -> nat)
    requires forall i | 0 <= i < |gs| :: f(gs[i]) == 0
    ensures Sum(Marks(gs, f)) == 0
  {
    var marks := Marks(gs, f);
    assert forall i | 0 <= i < |marks| :: marks[i] == f(gs[i]);
    SumZero(marks);
  }

  lemma NothingTaken(c: System)
    ensures HeldCount(Init(c).gs) == 0 && Init(c).pool.lost == {}
  {
    NoMarks(Init(c).gs, Holds);
  }

  lemma CountNext(c: System, states: seq<State>, acts: seq<Action>, n: nat)
    requires IsRun(c, states, acts) && 0 < n <= |acts|
    ensures var s, t, op := states[n - 1], states[n], OpOf(c, states[n - 1], acts[n - 1]);
      && HeldCount(t.gs) + Is(op, Puts) + Is(op, Losses) == HeldCount(s.gs) + Is(op, Gets)
      && |t.pool.lost| == |s.pool.lost| + Is(op, Losses)
  {
    InvAlongRun(c, states, acts, n - 1);
    assert Step(c, states[n - 1], acts[n - 1]) == Some(states[n]);
    CountStep(c, states[n - 1], acts[n - 1], states[n]);
  }

  /** The buffers taken are those returned, those lost and those still held. */
  ghost predicate Accounted(c: System, states: seq<State>, acts: seq<Action>, n: nat)
    requires n <= |acts| && |states| == |acts| + 1
  {
    && Count(c, states, acts, n, Gets)
       == Count(c, states, acts, n, Puts) + Count(c, states, acts, n, Losses) + HeldCount(states[n].gs)
    && |states[n].pool.lost| == Count(c, states, acts, n, Losses)
  }

  /** One step, given what it does to the counts. */
  lemma AccountedAfter(c: System, states: seq<State>, acts: seq<Action>, n: nat)
    requires 0 < n <= |acts| && |states| == |acts| + 1 && Accounted(c, states, acts, n - 1)
    requires var s, t, op := states[n - 1], states[n], OpOf(c, states[n - 1], acts[n - 1]);
      && HeldCount(t.gs) + Is(op, Puts) + Is(op, Losses) == HeldCount(s.gs) + Is(op, Gets)
      && |t.pool.lost| == |s.pool.lost| + Is(op, Losses)
    ensures Accounted(c, states, acts, n)
  {
  }

  lemma AccountedNext(c: System, states: seq<State>, acts: seq<Action>, n: nat)
    requires IsRun(c, states, acts) && 0 < n <= |acts| && Accounted(c, states, acts, n - 1)
    ensures Accounted(c, states, acts, n)
  {
    CountNext(c, states, acts, n);
    AccountedAfter(c, states, acts, n);
  }

  lemma {:induction false} AccountedAlongRun(c: System, states: seq<State>, acts: seq<Action>, n: nat)
    requires IsRun(c, states, acts) && n <= |acts|
    ensures Accounted(c, states, acts, n)
  {
    if n == 0 {
      NothingTaken(c);
    } else {
      AccountedAlongRun(c, states, acts, n - 1);
      AccountedNext(c, states, acts, n);
    }
  }

  /** Every Get is matched by a Put, by a loss, or by a goroutine that still holds the buffer. */
  lemma BufferAccounting(c: System, states: seq<State>, acts: seq<Action>, n: nat)
    requires IsRun(c, states, acts) && n <= |acts|
    ensures Count(c, states, acts, n, Gets)
         == Count(c, states, acts, n, Puts) + Count(c, states, acts, n, Losses) + HeldCount(states[n].gs)
    ensures |states[n].pool.lost| == Count(c, states, acts, n, Losses)
  {
    AccountedAlongRun(c, states, acts, n);
  }

  /**
   The paths of the code without a Put: a multicast receiver that accepted a packet of a side it
   does not proxy, and the unicast receiver's branches other than the version 3 report.
   */
  predicate NeverReturned(c: System, s: State, a: Action) {
    && s.status == Running && a.Do? && a.i < |s.gs|
    && var g := s.gs[a.i];
       if g.proc.Multicast? then
         && g.pc.Accepted? && a.act.LoadRoute?
         && !(g.proc.side == OUT && c.conf.proxyOutToIn) && !(g.proc.side == IN && c.conf.proxyInToOut)
       else
         && g.proc.Unicast? && g.pc.Routed? && a.act.Forward?
         && match FirstByte(s, g.pc.buf) {
              case 0x12 => g.pc.layer.V1or2? && IsOpen(c.conf, Raw(g.pc.out))
              case 0x16 => g.pc.layer.V1or2? && IsOpen(c.conf, Raw(g.pc.out))
              case 0x17 => IsOpen(c.conf, Raw(g.pc.out))
              case 0x22 => false
              case _ => true
            }
  }

  /** A buffer is lost exactly on those paths. */
  lemma LostExactlyWithoutPut(c: System, s: State, a: Action)
    ensures OpOf(c, s, a).Lose? <==> NeverReturned(c, s, a)
  {
  }

  /** The steps of a run that took a path without a Put. */
  function WithoutPut(c: System, states: seq<State>, acts: seq<Action>, n: nat): nat
    requires n <= |acts| && |states| == |acts| + 1
  {
    if n == 0 then 0
    else WithoutPut(c, states, acts, n - 1) + if NeverReturned(c, states[n - 1], acts[n - 1]) then 1 else 0
  }

  lemma {:induction false} LossesAreWithoutPut(c: System, states: seq<State>, acts: seq<Action>, n: nat)
    requires n <= |acts| && |states| == |acts| + 1
    ensures Count(c, states, acts, n, Losses) == WithoutPut(c, states, acts, n)
  {
    if n > 0 {
      LossesAreWithoutPut(c, states, acts, n - 1);
      LostExactlyWithoutPut(c, states[n - 1], acts[n - 1]);
    }
  }

  /**
   Over every run the buffers taken and neither returned nor still held are exactly as many as the
   iterations that took a path without a Put.
   */
  lemma UnreturnedAreWithoutPut(c: System, states: seq<State>, acts: seq<Action>, n: nat)
    requires IsRun(c, states, acts) && n <= |acts|
    ensures Count(c, states, acts, n, Losses) == WithoutPut(c, states, acts, n)
    ensures Count(c, states, acts, n, Gets)
         == Count(c, states, acts, n, Puts) + HeldCount(states[n].gs) + WithoutPut(c, states, acts, n)
  {
    BufferAccounting(c, states, acts, n);
    LossesAreWithoutPut(c, states, acts, n);
  }

  // ----- A reporter that proxies nothing loses the buffer of every packet it accepts -----

  function AtAccepted(g: Goroutine): nat {
    if g.proc.Multicast? && g.pc.Accepted? then 1 else 0
  }

  lemma MoveAccepts(c: System, g: Goroutine, i: nat, s: State, a: Act)
    requires Move(c, g, i, s, a).Does? && !g.proc.Unicast?
    requires g.proc.Multicast? ==> !ProxyIt(c.conf, g.proc.side)
    ensures var e := Move(c, g, i, s, a).effect;
      (if e.pool.Lose? then 1 else 0) + AtAccepted(e.g) == AtAccepted(g) + (if e.accept.Some? then 1 else 0)
  {
  }

  ghost predicate ProxiesNothing(c: System, gs: seq<Goroutine>) {
    forall i | 0 <= i < |gs| ::
      && !gs[i].proc.Unicast?
      && (gs[i].proc.Multicast? ==> !ProxyIt(c.conf, gs[i].proc.side))
  }

  lemma AcceptStep(c: System, s: State, a: Action, t: State)
    requires Step(c, s, a) == Some(t) && Inv(s) && ProxiesNothing(c, s.gs)
    ensures ProxiesNothing(c, t.gs)
    ensures |t.pool.lost| + Sum(Marks(t.gs, AtAccepted)) + |s.accepts|
         == |s.pool.lost| + Sum(Marks(s.gs, AtAccepted)) + |t.accepts|
  {
    CountStep(c, s, a, t);
    StepShape(c, s, a, t);
    if EffectOf(c, s, a).Some? {
      var e := EffectOf(c, s, a).value;
      MoveBuffer(c, s.gs[a.i], a.i, s, a.act);
      MoveAccepts(c, s.gs[a.i], a.i, s, a.act);
      MarksUpdate(s.gs, AtAccepted, a.i, e.g);
    }
  }

  lemma InitProxiesNothing(c: System)
    requires !c.conf.proxyOutToIn && !c.conf.proxyInToOut && !c.conf.unicastProxyInToOut
    ensures ProxiesNothing(c, Init(c).gs) && Sum(Marks(Init(c).gs, AtAccepted)) == 0
  {
    var gs := Init(c).gs;
    NoMarks(gs, AtAccepted);
    forall i | 0 <= i < |gs| ensures !gs[i].proc.Unicast? {
      assert gs[i].proc in Workers(c.conf);
      WorkersAreStarted(c.conf, gs[i].proc);
    }
  }

  /** Buffers lost, and packets accepted at this moment, are the packets ever accepted. */
  ghost predicate AcceptsBalance(s: State) {
    |s.pool.lost| + Sum(Marks(s.gs, AtAccepted)) == |s.accepts|
  }

  lemma AcceptNext(c: System, states: seq<State>, acts: seq<Action>, n: nat)
    requires IsRun(c, states, acts) && 0 < n <= |acts|
    requires ProxiesNothing(c, states[n - 1].gs) && AcceptsBalance(states[n - 1])
    ensures ProxiesNothing(c, states[n].gs) && AcceptsBalance(states[n])
  {
    InvAlongRun(c, states, acts, n - 1);
    assert Step(c, states[n - 1], acts[n - 1]) == Some(states[n]);
    AcceptStep(c, states[n - 1], acts[n - 1], states[n]);
  }

  /** Without proxying, lost buffers and packets just accepted add up to all packets ever accepted. */
  lemma {:induction false} EveryAcceptedPacketCostsABuffer(c: System, states: seq<State>, acts: seq<Action>, n: nat)
    requires IsRun(c, states, acts) && n <= |acts|
    requires !c.conf.proxyOutToIn && !c.conf.proxyInToOut && !c.conf.unicastProxyInToOut
    ensures ProxiesNothing(c, states[n].gs) && AcceptsBalance(states[n])
  {
    if n == 0 {
      InitProxiesNothing(c);
    } else {
      EveryAcceptedPacketCostsABuffer(c, states, acts, n - 1);
      AcceptNext(c, states, acts, n);
    }
  }
}

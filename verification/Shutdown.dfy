/**
 What happens after cancellation: which goroutines stop, within how many steps, and
 whether Run returns.
 */
module Shutdown {
  import opened Base
  import opened Setup
  import opened Library
  import opened Buffers
  import opened BufferTheorems
  import opened Routing
  import opened Handles

  // ----- The wait group -----

  function IsLive(g: Goroutine): nat {
    if g.pc.Exited? then 0 else 1
  }

  lemma MoveExits(c: System, g: Goroutine, i: nat, s: State, a: Act)
    requires Move(c, g, i, s, a).Does?
    ensures !g.pc.Exited?
    ensures Move(c, g, i, s, a).effect.g.pc.Exited? ==> !g.proc.Selector?
  {
  }

  lemma {:induction false} AllLive(gs: seq<Goroutine>)
    requires forall i | 0 <= i < |gs| :: !gs[i].pc.Exited?
    ensures Sum(Marks(gs, IsLive)) == |gs|
  {
    if gs != [] {
      AllLive(gs[1..]);
      assert Marks(gs, IsLive)[1..] == Marks(gs[1..], IsLive);
    }
  }

  lemma WaitGroupStep(c: System, s: State, a: Action, t: State)
    requires Step(c, s, a) == Some(t) && s.wg == Sum(Marks(s.gs, IsLive))
    ensures t.wg == Sum(Marks(t.gs, IsLive))
  {
    StepShape(c, s, a, t);
    if EffectOf(c, s, a).Some? {
      var e := EffectOf(c, s, a).value;
      MoveExits(c, s.gs[a.i], a.i, s, a.act);
      MarksUpdate(s.gs, IsLive, a.i, e.g);
    }
  }

  /** The wait-group counter is the number of goroutines that have not exited. */
  lemma {:induction false} WaitGroupCountsLive(c: System, states: seq<State>, acts: seq<Action>, n: nat)
    requires IsRun(c, states, acts) && n <= |acts|
    ensures states[n].wg == Sum(Marks(states[n].gs, IsLive))
  {
    if n == 0 {
      AllLive(states[0].gs);
    } else {
      WaitGroupCountsLive(c, states, acts, n - 1);
      assert Step(c, states[n - 1], acts[n - 1]) == Some(states[n]);
      WaitGroupStep(c, states[n - 1], acts[n - 1], states[n]);
    }
  }

  // ----- A measure of the work left after cancellation -----

  function Rank(g: Goroutine): nat {
    if g.proc.Selector? then 0
    else
      match g.pc
      case Head => 1
      case Entered => 13
      case Reading(_) => 12
      case Got(_, _) => 11
      case Checked(_, _) => 10
      case Accepted(_, _, _) => 5
      case Routed(_, _, _, _) => 4
      case Returning(_) => 2
      case Sending(items) => 2 + |items|
      case Storing(_) => 0
      case Exited => 0
  }

  function Weights(lists: seq<seq<Item>>): nat {
    if lists == [] then 0 else |lists[0]| + 3 + Weights(lists[1..])
  }

  function ChannelWork(ch: Chans): nat {
    3 * ch.query + 3 * |ch.fromNet| + Weights(ch.report) + Weights(ch.leave)
  }

  /** Receivers' steps to go, items in hand, and items in the channels. */
  function Work(s: State): nat {
    Sum(Marks(s.gs, Rank)) + ChannelWork(s.chans)
  }

  /** A step of a goroutine that shutdown waits for; a socket dropping a packet is not one. */
  predicate IsWorkerStep(s: State, a: Action) {
    a.Do? && a.i < |s.gs| && !s.gs[a.i].proc.Selector? && !a.act.SocketDrops?
  }

  /** A move that brings the goroutine, and what it leaves in the channels, closer to the end by this much. */
  predicate Works(g: Goroutine, chans: Chans, e: Effect, less: nat) {
    e.g.proc == g.proc && Rank(e.g) + ChannelWork(OnChans(chans, e.chan)) + less <= Rank(g) + ChannelWork(chans)
  }

  /** The receivers' work includes what they still send to the channels that the library itself empties. */
  lemma MulticastWorks(c: System, g: Goroutine, i: nat, s: State, a: Act)
    requires g.proc.Multicast? && Move(c, g, i, s, a).Does? && s.cancelled
    ensures Works(g, s.chans, Move(c, g, i, s, a).effect, if a.SocketDrops? then 0 else 1)
  {
  }

  lemma UnicastWorks(c: System, g: Goroutine, i: nat, s: State, a: Act)
    requires g.proc.Unicast? && Move(c, g, i, s, a).Does? && s.cancelled
    ensures Works(g, s.chans, Move(c, g, i, s, a).effect, if a.SocketDrops? then 0 else 1)
  {
  }

  lemma OtherWorks(c: System, g: Goroutine, i: nat, s: State, a: Act)
    requires !IsReceiver(g.proc) && Move(c, g, i, s, a).Does? && s.cancelled
    ensures Works(g, s.chans, Move(c, g, i, s, a).effect, if g.proc.Selector? then 0 else 1)
  {
  }

  lemma MoveWorks(c: System, g: Goroutine, i: nat, s: State, a: Act)
    requires Move(c, g, i, s, a).Does? && s.cancelled
    ensures var e := Move(c, g, i, s, a).effect;
      && e.g.proc == g.proc
      && Rank(e.g) + ChannelWork(OnChans(s.chans, e.chan)) <= Rank(g) + ChannelWork(s.chans)
      && (!g.proc.Selector? && !a.SocketDrops? ==>
            Rank(e.g) + ChannelWork(OnChans(s.chans, e.chan)) < Rank(g) + ChannelWork(s.chans))
  {
    if g.proc.Multicast? {
      MulticastWorks(c, g, i, s, a);
    } else if g.proc.Unicast? {
      UnicastWorks(c, g, i, s, a);
    } else {
      OtherWorks(c, g, i, s, a);
    }
  }

  lemma WorkStep(c: System, s: State, a: Action, t: State)
    requires Step(c, s, a) == Some(t) && s.cancelled && !a.EnqueueReport? && !a.EnqueueLeave? && t.status == Running
    ensures t.cancelled && Work(t) + (if IsWorkerStep(s, a) then 1 else 0) <= Work(s)
  {
    StepShape(c, s, a, t);
    if EffectOf(c, s, a).Some? {
      MoveWorks(c, s.gs[a.i], a.i, s, a.act);
      MarksUpdate(s.gs, Rank, a.i, EffectOf(c, s, a).value.g);
    }
  }

  /** The worker steps among the actions from `n` to `m`. */
  function WorkerSteps(states: seq<State>, acts: seq<Action>, n: nat, m: nat): nat
    requires n <= m <= |acts| && |states| == |acts| + 1
  {
    if n == m then 0
    else WorkerSteps(states, acts, n, m - 1) + if IsWorkerStep(states[m - 1], acts[m - 1]) then 1 else 0
  }

  /** After cancellation, with no more items from outside, the workers take at most as many steps as work is left. */
  lemma {:induction false} ShutdownIsBounded(c: System, states: seq<State>, acts: seq<Action>, n: nat, m: nat)
    requires IsRun(c, states, acts) && n <= m <= |acts| && states[n].cancelled && states[m].status == Running
    requires forall k | n <= k < m :: !acts[k].EnqueueReport? && !acts[k].EnqueueLeave?
    ensures states[m].cancelled
    ensures WorkerSteps(states, acts, n, m) + Work(states[m]) <= Work(states[n])
  {
    if n < m {
      var s, a, t := states[m - 1], acts[m - 1], states[m];
      assert Step(c, s, a) == Some(t);
      ShutdownIsBounded(c, states, acts, n, m - 1);
      WorkStep(c, s, a, t);
    }
  }

  // ----- Nobody is stuck on the way -----

  /** The pcs that each kind of goroutine visits. */
  ghost predicate PcOk(g: Goroutine, packets: nat) {
    match g.proc
    case Multicast(_, _) =>
      !g.pc.Sending? && !g.pc.Storing?
      && (Working(g.pc).Some? ==> Working(g.pc).value.FromPacket? && Working(g.pc).value.pid < packets)
    case Unicast => !g.pc.Sending? && !g.pc.Storing? && !g.pc.Checked?
    case Selector => g.pc.Head? || g.pc.Storing?
    case _ => g.pc.Head? || g.pc.Sending? || g.pc.Exited?
  }

  lemma MovePc(c: System, g: Goroutine, i: nat, s: State, a: Act)
    requires Move(c, g, i, s, a).Does? && PcOk(g, |s.packets|)
    ensures PcOk(Move(c, g, i, s, a).effect.g, |s.packets|)
  {
  }

  lemma {:induction false} PcsAlongRun(c: System, states: seq<State>, acts: seq<Action>, n: nat)
    requires IsRun(c, states, acts) && n <= |acts|
    ensures forall i | 0 <= i < |states[n].gs| :: PcOk(states[n].gs[i], |states[n].packets|)
  {
    if n > 0 {
      PcsAlongRun(c, states, acts, n - 1);
      var s, a, t := states[n - 1], acts[n - 1], states[n];
      assert Step(c, s, a) == Some(t);
      StepShape(c, s, a, t);
      if EffectOf(c, s, a).Some? { MovePc(c, s.gs[a.i], a.i, s, a.act); }
    }
  }

  /** The step a goroutine can take in each pc once the context is cancelled. */
  function NextAct(g: Goroutine, unused: Buf): Act {
    match g.pc
    case Head => Exit
    case Entered => Begin(unused)
    case Reading(_) => ReadFails
    case Got(_, _) => if g.proc.Multicast? then AltFilter else Decode(NoLayer)
    case Checked(_, _) => Filter(NoLayer, false)
    case Accepted(_, _, _) => LoadRoute
    case Routed(_, _, _, _) => Forward
    case Returning(_) => PutBack
    case Sending(items) => if items == [] then NextList else SendItem
    case Storing(_) => StoreSide
    case Exited => Exit
  }

  lemma NextActEnabled(c: System, g: Goroutine, i: nat, s: State, unused: Buf)
    requires PcOk(g, |s.packets|) && s.cancelled && !g.proc.Selector? && !g.pc.Exited? && unused !in s.pool.contents
    ensures !Move(c, g, i, s, NextAct(g, unused)).Blocked? && !NextAct(g, unused).SocketDrops?
  {
  }

  /** There is always a buffer that has not been made yet. */
  lemma {:induction false} UnusedBuffer(made: set<Buf>) returns (b: Buf)
    ensures forall x <- made :: x < b
  {
    if made == {} {
      b := 0;
    } else {
      var x :| x in made;
      b := UnusedBuffer(made - {x});
      if b <= x { b := x + 1; }
      assert forall y <- made :: y == x || y in made - {x};
    }
  }

  /** Can some worker take a step? */
  ghost predicate WorkerEnabled(c: System, s: State) {
    exists i: nat, act :: IsWorkerStep(s, Do(i, act)) && Step(c, s, Do(i, act)).Some?
  }

  /** After cancellation a worker that has not exited can always take a step. */
  lemma NoWorkerIsStuck(c: System, states: seq<State>, acts: seq<Action>, n: nat, i: nat)
    requires IsRun(c, states, acts) && n <= |acts| && states[n].cancelled && states[n].status == Running
    requires i < |states[n].gs| && !states[n].gs[i].proc.Selector? && !states[n].gs[i].pc.Exited?
    ensures WorkerEnabled(c, states[n])
  {
    PcsAlongRun(c, states, acts, n);
    var s := states[n];
    var unused := UnusedBuffer(s.pool.contents.Keys);
    NextActEnabled(c, s.gs[i], i, s, unused);
    var a := Do(i, NextAct(s.gs[i], unused));
    assert IsWorkerStep(s, a) && Step(c, s, a).Some?;
  }

  // ----- Before cancellation nobody stops -----

  lemma ExitMove(c: System, g: Goroutine, i: nat, s: State, a: Act)
    requires Move(c, g, i, s, a).Does? && Move(c, g, i, s, a).effect.g.pc.Exited?
    ensures s.cancelled
  {
  }

  /** A goroutine returns only once the context is cancelled. */
  lemma {:induction false} ExitsOnlyWhenCancelled(c: System, states: seq<State>, acts: seq<Action>, n: nat, i: nat)
    requires IsRun(c, states, acts) && n <= |acts| && i < |states[n].gs| && states[n].gs[i].pc.Exited?
    ensures states[n].cancelled
  {
    if n > 0 {
      var s, a, t := states[n - 1], acts[n - 1], states[n];
      assert Step(c, s, a) == Some(t);
      StepShape(c, s, a, t);
      if EffectOf(c, s, a).Some? && a.i == i {
        ExitMove(c, s.gs[i], i, s, a.act);
      } else {
        ExitsOnlyWhenCancelled(c, states, acts, n - 1, i);
      }
    }
  }

  // ----- When Run returns -----

  /** The selector never exits, so its started goroutine stays live. */
  lemma SelectorIsLive(c: System, states: seq<State>, acts: seq<Action>, n: nat)
    requires IsRun(c, states, acts) && n <= |acts| && SelectorRuns(c.conf)
    ensures exists i :: 0 <= i < |states[n].gs| && states[n].gs[i].proc.Selector? && !states[n].gs[i].pc.Exited?
  {
    PcsAlongRun(c, states, acts, n);
    ProcsAlongRun(c, states, acts, n);
    WorkersAreStarted(c.conf, Selector);
    var i :| 0 <= i < |Workers(c.conf)| && Workers(c.conf)[i] == Selector;
    assert states[n].gs[i].proc.Selector?;
  }

  lemma WaitGroupZero(s: State)
    requires s.wg == Sum(Marks(s.gs, IsLive))
    ensures s.wg == 0 <==> forall i | 0 <= i < |s.gs| :: s.gs[i].pc.Exited?
  {
    var marks := Marks(s.gs, IsLive);
    SumZero(marks);
    assert forall i | 0 <= i < |s.gs| :: marks[i] == IsLive(s.gs[i]);
  }

  /** Run, which waits for the counter to reach zero, never returns while a selector was started. */
  lemma RunNeverReturnsWithSelector(c: System, states: seq<State>, acts: seq<Action>, n: nat)
    requires IsRun(c, states, acts) && n <= |acts| && SelectorRuns(c.conf)
    ensures states[n].wg > 0
  {
    WaitGroupCountsLive(c, states, acts, n);
    WaitGroupZero(states[n]);
    SelectorIsLive(c, states, acts, n);
  }

  /**
   After cancellation the workers' steps run out, and when no worker can take one the counter is
   zero, so that Run returns, exactly if the selector was not started.
   */
  lemma RunReturnsExactlyWithoutSelector(c: System, states: seq<State>, acts: seq<Action>, n: nat)
    requires IsRun(c, states, acts) && n <= |acts| && states[n].cancelled && states[n].status == Running
    requires !WorkerEnabled(c, states[n])
    ensures forall i | 0 <= i < |states[n].gs| :: states[n].gs[i].pc.Exited? || states[n].gs[i].proc.Selector?
    ensures states[n].wg == 0 <==> !SelectorRuns(c.conf)
  {
    var s := states[n];
    forall i | 0 <= i < |s.gs|
      ensures s.gs[i].pc.Exited? || s.gs[i].proc.Selector?
    {
      if !s.gs[i].proc.Selector? && !s.gs[i].pc.Exited? { NoWorkerIsStuck(c, states, acts, n, i); }
    }
    if SelectorRuns(c.conf) {
      RunNeverReturnsWithSelector(c, states, acts, n);
    } else {
      WaitGroupCountsLive(c, states, acts, n);
      WaitGroupZero(s);
      ProcsAlongRun(c, states, acts, n);
      forall i | 0 <= i < |s.gs| ensures !s.gs[i].proc.Selector? { ProcStarted(c, s.gs, i); }
    }
  }
}

/**
 Where forwarded packets go: the shared route under a concurrent selector, at most one
 receiver per packet, and the destinations of every frame.
 */
module Routing {
  import opened Base
  import opened Setup
  import opened Library
  import opened Buffers

  // ----- The goroutines of a run -----

  /** Goroutine `i` always runs the `i`-th worker. */
  ghost predicate ProcsInv(c: System, gs: seq<Goroutine>) {
    && |gs| == |Workers(c.conf)|
    && forall i | 0 <= i < |gs| :: gs[i].proc == Workers(c.conf)[i]
  }

  lemma ProcsStep(c: System, s: State, a: Action, t: State)
    requires Step(c, s, a) == Some(t) && ProcsInv(c, s.gs)
    ensures ProcsInv(c, t.gs)
  {
    StepShape(c, s, a, t);
    if EffectOf(c, s, a).Some? { MoveBuffer(c, s.gs[a.i], a.i, s, a.act); }
  }

  lemma {:induction false} ProcsAlongRun(c: System, states: seq<State>, acts: seq<Action>, n: nat)
    requires IsRun(c, states, acts) && n <= |acts|
    ensures ProcsInv(c, states[n].gs)
  {
    if n > 0 {
      ProcsAlongRun(c, states, acts, n - 1);
      assert Step(c, states[n - 1], acts[n - 1]) == Some(states[n]);
      ProcsStep(c, states[n - 1], acts[n - 1], states[n]);
    }
  }

  lemma ProcStarted(c: System, gs: seq<Goroutine>, i: nat)
    requires ProcsInv(c, gs) && i < |gs|
    ensures Started(c.conf, gs[i].proc)
  {
    assert gs[i].proc in Workers(c.conf);
    WorkersAreStarted(c.conf, gs[i].proc);
  }

  ghost predicate Distinct(procs: seq<Proc>) {
    forall i, j | 0 <= i < j < |procs| :: procs[i] != procs[j]
  }

  lemma DistinctConcat(a: seq<Proc>, b: seq<Proc>)
    requires Distinct(a) && Distinct(b) && forall p | p in a :: p !in b
    ensures Distinct(a + b)
  {
    forall i, j | 0 <= i < j < |a + b|
      ensures (a + b)[i] != (a + b)[j]
    {
      if i < |a| <= j { assert a[i] in a && b[j - |a|] in b; }
    }
  }

  lemma InsideDistinct(conf: Config)
    ensures Distinct(InsideWorkers(conf))
    ensures forall p <- InsideWorkers(conf) :: p.Unicast? || (p.Multicast? && p.side == IN)
  {
    DistinctConcat(if conf.proxyInToOut then Receivers(IN) else [], When(conf.unicastProxyInToOut, Unicast));
  }

  lemma OutsideDistinct(conf: Config)
    ensures Distinct(OutsideWorkers(conf))
    ensures forall p <- OutsideWorkers(conf) :: p.Selector? || (p.Multicast? && p.side != IN)
  {
    DistinctConcat(Receivers(ALTOUT), [Selector]);
    DistinctConcat(Receivers(OUT), Receivers(ALTOUT) + [Selector]);
  }

  lemma ThreePartsDistinct(outside: seq<Proc>, inside: seq<Proc>, channel: seq<Proc>)
    requires Distinct(outside) && Distinct(inside) && Distinct(channel)
    requires forall p <- outside :: p.Selector? || (p.Multicast? && p.side != IN)
    requires forall p <- inside :: p.Unicast? || (p.Multicast? && p.side == IN)
    requires forall p <- channel :: !p.Selector? && !p.Unicast? && !p.Multicast?
    ensures Distinct(outside + inside + channel)
  {
    DistinctConcat(outside, inside);
    DistinctConcat(outside + inside, channel);
  }

  lemma ChannelDistinct(conf: Config)
    ensures Distinct(ChannelWorkers(conf))
    ensures forall p <- ChannelWorkers(conf) :: !p.Selector? && !p.Unicast? && !p.Multicast?
  {
  }

  /** No goroutine is started twice. */
  lemma WorkersDistinct(conf: Config)
    ensures Distinct(Workers(conf))
  {
    InsideDistinct(conf);
    OutsideDistinct(conf);
    ChannelDistinct(conf);
    ThreePartsDistinct(OutsideWorkers(conf), InsideWorkers(conf), ChannelWorkers(conf));
  }

  // ----- The shared route -----

  /** The last value stored, or the initial side. */
  ghost function LastStored(stored: seq<Side>): Side {
    if stored == [] then OUT else stored[|stored| - 1]
  }

  ghost predicate RouteInv(route: map<Side, Side>, stored: seq<Side>) {
    route == map[OUT := IN, IN := LastStored(stored)]
  }

  /** The side a receiver may send to: inside for the outside, and for the inside OUT or a value once stored. */
  ghost predicate GoesTo(p: Proc, out: Side, stored: seq<Side>) {
    match p
    case Multicast(side, _) => (side == OUT && out == IN) || (side == IN && (out == OUT || out in stored))
    case Unicast => out == OUT || out in stored
    case _ => false
  }

  ghost predicate RoutedOk(c: System, g: Goroutine, stored: seq<Side>) {
    g.pc.Routed? ==>
      && GoesTo(g.proc, g.pc.out, stored)
      && (g.proc.Multicast? ==> ProxyIt(c.conf, g.proc.side))
  }

  ghost predicate FrameRouted(f: Frame, stored: seq<Side>) {
    f.Forwarded? ==> GoesTo(f.proc, f.out, stored)
  }

  ghost predicate RoutingInv(c: System, s: State) {
    && RouteInv(s.route, s.stored)
    && (forall i | 0 <= i < |s.gs| :: RoutedOk(c, s.gs[i], s.stored))
    && (forall k | 0 <= k < |s.frames| :: FrameRouted(s.frames[k], s.stored))
  }

  lemma MoveRouted(c: System, g: Goroutine, i: nat, s: State, a: Act)
    requires Move(c, g, i, s, a).Does? && RoutedOk(c, g, s.stored) && RouteInv(s.route, s.stored)
    ensures var e := Move(c, g, i, s, a).effect;
      && RoutedOk(c, e.g, s.stored)
      && (e.frame.Some? ==> FrameRouted(e.frame.value, s.stored))
      && (e.store.Some? ==> e.g.proc.Selector?)
  {
  }

  lemma RouteAfterStore(route: map<Side, Side>, stored: seq<Side>, v: Side)
    requires RouteInv(route, stored)
    ensures RouteInv(route[IN := v], stored + [v])
  {
  }

  lemma StoredGrows(c: System, s: State, stored: seq<Side>)
    requires RoutingInv(c, s) && s.stored <= stored
    ensures forall i | 0 <= i < |s.gs| :: RoutedOk(c, s.gs[i], stored)
    ensures forall k | 0 <= k < |s.frames| :: FrameRouted(s.frames[k], stored)
  {
    assert forall v :: v in s.stored ==> v in stored;
    forall i | 0 <= i < |s.gs| ensures RoutedOk(c, s.gs[i], stored) {
      assert RoutedOk(c, s.gs[i], s.stored);
    }
    forall k | 0 <= k < |s.frames| ensures FrameRouted(s.frames[k], stored) {
      assert FrameRouted(s.frames[k], s.stored);
    }
  }

  lemma RoutingStep(c: System, s: State, a: Action, t: State)
    requires RoutingInv(c, s) && Step(c, s, a) == Some(t)
    ensures RoutingInv(c, t)
  {
    StepShape(c, s, a, t);
    if EffectOf(c, s, a).Some? {
      var e := EffectOf(c, s, a).value;
      assert RoutedOk(c, s.gs[a.i], s.stored);
      MoveRouted(c, s.gs[a.i], a.i, s, a.act);
      StoredGrows(c, s, t.stored);
      if e.store.Some? { RouteAfterStore(s.route, s.stored, e.store.value); }
      assert RoutedOk(c, e.g, t.stored);
    }
  }

  lemma {:induction false} RoutingAlongRun(c: System, states: seq<State>, acts: seq<Action>, n: nat)
    requires IsRun(c, states, acts) && n <= |acts|
    ensures RoutingInv(c, states[n])
  {
    if n > 0 {
      RoutingAlongRun(c, states, acts, n - 1);
      assert Step(c, states[n - 1], acts[n - 1]) == Some(states[n]);
      RoutingStep(c, states[n - 1], acts[n - 1], states[n]);
    }
  }

  // ----- The selector stores what it receives -----

  /** Every side the run's selector received satisfies `p`. */
  ghost predicate InputsSatisfy(acts: seq<Action>, n: nat, p: Side -> bool)
    requires n <= |acts|
  {
    forall k | 0 <= k < n && acts[k].Do? && acts[k].act.ReceiveSide? :: p(acts[k].act.side)
  }

  lemma MoveStores(c: System, g: Goroutine, i: nat, s: State, a: Act)
    requires Move(c, g, i, s, a).Does?
    ensures var e := Move(c, g, i, s, a).effect;
      && (e.g.pc.Storing? ==> (a.ReceiveSide? && a.side == e.g.pc.value) || e.g.pc == g.pc)
      && (e.store.Some? ==> g.pc == Storing(e.store.value))
  {
  }

  lemma {:induction false} StoredSatisfy(c: System, states: seq<State>, acts: seq<Action>, n: nat, p: Side -> bool)
    requires IsRun(c, states, acts) && n <= |acts| && InputsSatisfy(acts, n, p)
    ensures forall v <- states[n].stored :: p(v)
    ensures forall i | 0 <= i < |states[n].gs| && states[n].gs[i].pc.Storing? :: p(states[n].gs[i].pc.value)
  {
    if n > 0 {
      StoredSatisfy(c, states, acts, n - 1, p);
      var s, a, t := states[n - 1], acts[n - 1], states[n];
      assert Step(c, s, a) == Some(t);
      StepShape(c, s, a, t);
      if EffectOf(c, s, a).Some? { MoveStores(c, s.gs[a.i], a.i, s, a.act); }
    }
  }

  predicate Outside(side: Side) {
    side == OUT || side == ALTOUT
  }

  /** The side a receiver listens on. */
  function ArrivesOn(p: Proc): Side
    requires IsReceiver(p)
  {
    if p.Multicast? then p.side else IN
  }

  /**
   The route holds the last value stored, or OUT; and when the selector is only ever given
   outside sides, every forward crosses between inside and outside, and none comes from ALTOUT.
   */
  lemma RouteWithoutReflection(c: System, states: seq<State>, acts: seq<Action>, n: nat)
    requires IsRun(c, states, acts) && n <= |acts|
    ensures states[n].route == map[OUT := IN, IN := LastStored(states[n].stored)]
    ensures forall k | 0 <= k < |states[n].frames| && states[n].frames[k].Forwarded? ::
      IsReceiver(states[n].frames[k].proc) && ArrivesOn(states[n].frames[k].proc) in {OUT, IN}
    ensures InputsSatisfy(acts, n, Outside) ==>
      forall k | 0 <= k < |states[n].frames| && states[n].frames[k].Forwarded? ::
        if ArrivesOn(states[n].frames[k].proc) == IN then Outside(states[n].frames[k].out)
        else states[n].frames[k].out == IN
  {
    RoutingAlongRun(c, states, acts, n);
    forall k | 0 <= k < |states[n].frames| && states[n].frames[k].Forwarded?
      ensures IsReceiver(states[n].frames[k].proc) && ArrivesOn(states[n].frames[k].proc) in {OUT, IN}
      ensures InputsSatisfy(acts, n, Outside) ==>
        if ArrivesOn(states[n].frames[k].proc) == IN then Outside(states[n].frames[k].out)
        else states[n].frames[k].out == IN
    {
      assert FrameRouted(states[n].frames[k], states[n].stored);
      if InputsSatisfy(acts, n, Outside) { StoredSatisfy(c, states, acts, n, Outside); }
    }
  }
}

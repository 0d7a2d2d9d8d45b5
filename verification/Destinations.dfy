/**
 The destination of every packet the library sends: goroutines keep private copies of the
 querier address, so no report or leave ever follows a learned querier.
 */
module Destinations {
  import opened Base
  import opened Setup
  import opened Library
  import opened Buffers
  import opened Routing

  /** Only multicast receivers learn a querier, and only two workers ever have items to send. */
  ghost predicate GoroutineOk(g: Goroutine) {
    && (g.querier != NoAddr ==> g.proc.Multicast?)
    && (g.pc.Sending? && g.pc.items != [] ==> g.proc.ReportWorker? || g.proc.LeaveWorker?)
  }

  /** Reports and leaves to the querier go to the configured unicast address. */
  function QuerierOr(conf: Config, group: Addr): Addr {
    if conf.unicastMembershipReports then conf.unicastDst else group
  }

  /** Every destination, and the type of what goes there. */
  ghost predicate DestinationOk(c: System, f: Frame) {
    match f
    case Originated(proc, _, dst, kind, _) =>
      || (proc.ReportWorker? && kind == 0x16 && dst == QuerierOr(c.conf, V4(224, 0, 0, 22)))
      || (proc.LeaveWorker? && kind == 0x17 && dst == QuerierOr(c.conf, V4(224, 0, 0, 2)))
    case Forwarded(_, proc, _, layer, _, dst, payload, _) =>
      && |payload| == BUFFER_SIZE
      && match proc {
           case Multicast(_, g) =>
             || (g == ALL_HOSTS && dst == V4(224, 0, 0, 1))
             || (g == ALL_ROUTERS && dst == V4(224, 0, 0, 2))
             || (g == IGMP_HOSTS && dst == V4(224, 0, 0, 22))
           case Unicast =>
             && payload[0] in {0x12, 0x16, 0x22, 0x17}
             && (payload[0] in {0x12, 0x16} ==> layer.V1or2? && dst == layer.group)
             && (payload[0] == 0x22 ==> dst == QuerierOr(c.conf, V4(224, 0, 0, 22)))
             && (payload[0] == 0x17 ==> dst == V4(224, 0, 0, 2))
           case _ => false
         }
  }

  lemma MoveDestination(c: System, g: Goroutine, i: nat, s: State, a: Act)
    requires Move(c, g, i, s, a).Does? && GoroutineOk(g) && Started(c.conf, g.proc)
    ensures var e := Move(c, g, i, s, a).effect;
      && GoroutineOk(e.g)
      && (e.frame.Some? ==> DestinationOk(c, e.frame.value))
  {
  }

  ghost predicate DestinationsInv(c: System, s: State) {
    && (forall i | 0 <= i < |s.gs| :: GoroutineOk(s.gs[i]))
    && (forall k | 0 <= k < |s.frames| :: DestinationOk(c, s.frames[k]))
  }

  /** A packet meant for the querier goes to the configured unicast address. */
  ghost predicate QuerierFrame(c: System, f: Frame) {
    f.Originated? && f.dest == QUERY_HOST ==> f.dst == c.conf.unicastDst
  }

  lemma MoveQuerier(c: System, g: Goroutine, i: nat, s: State, a: Act)
    requires Move(c, g, i, s, a).Does? && GoroutineOk(g)
    ensures var e := Move(c, g, i, s, a).effect; e.frame.Some? ==> QuerierFrame(c, e.frame.value)
  {
  }

  lemma DestinationStep(c: System, s: State, a: Action, t: State)
    requires DestinationsInv(c, s) && ProcsInv(c, s.gs) && Step(c, s, a) == Some(t)
    requires forall k | 0 <= k < |s.frames| :: QuerierFrame(c, s.frames[k])
    ensures DestinationsInv(c, t)
    ensures forall k | 0 <= k < |t.frames| :: QuerierFrame(c, t.frames[k])
  {
    StepShape(c, s, a, t);
    if EffectOf(c, s, a).Some? {
      ProcStarted(c, s.gs, a.i);
      MoveDestination(c, s.gs[a.i], a.i, s, a.act);
      MoveQuerier(c, s.gs[a.i], a.i, s, a.act);
    }
  }

  /**
   In every run each packet meant for the querier goes to the configured unicast address: what
   a multicast receiver learns from a query stays in its own copy, and it never sends there.
   */
  lemma {:induction false} PrivateQuerierCopies(c: System, states: seq<State>, acts: seq<Action>, n: nat)
    requires IsRun(c, states, acts) && n <= |acts|
    ensures DestinationsInv(c, states[n])
    ensures forall k | 0 <= k < |states[n].frames| :: QuerierFrame(c, states[n].frames[k])
  {
    if n > 0 {
      PrivateQuerierCopies(c, states, acts, n - 1);
      ProcsAlongRun(c, states, acts, n - 1);
      assert Step(c, states[n - 1], acts[n - 1]) == Some(states[n]);
      DestinationStep(c, states[n - 1], acts[n - 1], states[n]);
    }
  }
}

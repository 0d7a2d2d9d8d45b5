/**
 What an iteration of a multicast receiver accepts, forwards and tells the application, in terms
 of the packet, the configuration and the sides stored for the route.
 */
module MulticastLaws {
  import opened Base
  import opened Setup
  import opened Library
  import opened Buffers
  import opened Routing
  import opened MulticastLoop
  import opened OwnSteps
  import opened MulticastIterations

  // ----- What happened in an iteration -----

  predicate AcceptsAt(c: System, s: State, a: Action, i: nat) {
    IsOwn(a, i) && EffectOf(c, s, a).Some? && EffectOf(c, s, a).value.accept.Some?
  }

  /** Goroutine `i` has accepted a packet in the steps from `n` to `m`. */
  predicate Accepted(c: System, states: seq<State>, acts: seq<Action>, n: nat, m: nat, i: nat)
    requires n <= m <= |acts| && |states| == |acts| + 1
  {
    n < m && (Accepted(c, states, acts, n, m - 1, i) || AcceptsAt(c, states[m - 1], acts[m - 1], i))
  }

  /** The latest of goroutine `i`'s steps after `n` that is `act`; `n` if there is none. */
  function Latest(acts: seq<Action>, n: nat, m: nat, i: nat, act: Act): (k: nat)
    requires n <= m <= |acts|
    ensures n <= k <= m && (k == n || k < m)
  {
    if n == m then n else if n < m - 1 && acts[m - 1] == Do(i, act) then m - 1 else Latest(acts, n, m - 1, i, act)
  }

  /** The route that step saw. */
  function Saw(states: seq<State>, acts: seq<Action>, n: nat, m: nat, i: nat, act: Act): Option<map<Side, Side>>
    requires n <= m <= |acts| && |states| == |acts| + 1
  {
    var k := Latest(acts, n, m, i, act);
    if k == n then None else Some(states[k].route)
  }

  /** A packet was accepted exactly if it passes, and the turn's routes are those seen. */
  ghost predicate Concluded(c: System, p: Proc, turn: Turn, after: seq<Byte>, accepted: bool,
                            active: Option<map<Side, Side>>, route: Option<map<Side, Side>>)
    requires p.Multicast? && |after| == BUFFER_SIZE
  {
    && (accepted <==> Accepts(c, p, turn, after))
    && (turn.read.Delivered? ==> active == Some(turn.active))
    && (accepted ==> route == Some(turn.route))
  }

  /** What a receiver in the middle of a turn has accepted, and which routes its turn goes by. */
  ghost predicate Knows(c: System, p: Proc, pc: Pc, turn: Turn, after: seq<Byte>, accepted: bool,
                        active: Option<map<Side, Side>>, route: Option<map<Side, Side>>)
    requires p.Multicast? && |after| == BUFFER_SIZE
  {
    match pc
    case Reading(_) => !accepted
    case Got(_, _) => !accepted
    case Checked(_, _) => !accepted && active == Some(turn.active)
    case Accepted(_, _, _) => accepted && Accepts(c, p, turn, after) && active == Some(turn.active)
    case Routed(_, _, _, _) =>
      accepted && Accepts(c, p, turn, after) && active == Some(turn.active) && route == Some(turn.route)
    case Returning(_) => Concluded(c, p, turn, after, accepted, active, route)
    case _ => false
  }

  /** The same after a step. */
  ghost predicate KnowsThen(c: System, g: Goroutine, i: nat, s: State, act: Act, before: seq<Byte>, turn: Turn,
                            accepted: bool, active: Option<map<Side, Side>>, route: Option<map<Side, Side>>)
    requires g.proc.Multicast? && |before| == BUFFER_SIZE && Move(c, g, i, s, act).Does?
  {
    var e, turn' := Move(c, g, i, s, act).effect, Learn(turn, s, act, g);
    Knows(c, g.proc, e.g.pc, turn', After(before, turn'), accepted || e.accept.Some?,
          if act == AltFilter then Some(s.route) else active, if act == LoadRoute then Some(s.route) else route)
  }

  lemma ReadKnows(c: System, g: Goroutine, i: nat, s: State, act: Act, before: seq<Byte>, turn: Turn,
                  accepted: bool, active: Option<map<Side, Side>>, route: Option<map<Side, Side>>)
    requires g.proc.Multicast? && |before| == BUFFER_SIZE && Move(c, g, i, s, act).Does?
    requires g.pc.Reading? || (g.pc.Got? && MulticastIterations.HasRead(g.pc, s.packets, turn))
    requires Knows(c, g.proc, g.pc, turn, After(before, turn), accepted, active, route)
    ensures KnowsThen(c, g, i, s, act, before, turn, accepted, active, route)
  {
  }

  lemma FilterKnows(c: System, g: Goroutine, i: nat, s: State, act: Act, before: seq<Byte>, turn: Turn,
                    accepted: bool, active: Option<map<Side, Side>>, route: Option<map<Side, Side>>)
    requires g.proc.Multicast? && |before| == BUFFER_SIZE && Move(c, g, i, s, act).Does?
    requires g.pc.Checked? && MulticastIterations.HasRead(g.pc, s.packets, turn)
    requires !Ignored(c, g.proc.side, turn.active)
    requires Contents(s.pool, g.pc.buf) == After(before, turn)
    requires Knows(c, g.proc, g.pc, turn, After(before, turn), accepted, active, route)
    ensures KnowsThen(c, g, i, s, act, before, turn, accepted, active, route)
  {
  }

  lemma ForwardKnows(c: System, g: Goroutine, i: nat, s: State, act: Act, before: seq<Byte>, turn: Turn,
                     accepted: bool, active: Option<map<Side, Side>>, route: Option<map<Side, Side>>)
    requires g.proc.Multicast? && |before| == BUFFER_SIZE && Move(c, g, i, s, act).Does?
    requires (g.pc.Accepted? || g.pc.Routed? || g.pc.Returning?) && Move(c, g, i, s, act).effect.g.pc != Head
    requires Knows(c, g.proc, g.pc, turn, After(before, turn), accepted, active, route)
    ensures KnowsThen(c, g, i, s, act, before, turn, accepted, active, route)
  {
  }

  /** A step that does not end the turn. */
  lemma StepKnows(c: System, g: Goroutine, i: nat, s: State, act: Act, querier: Addr, before: seq<Byte>, turn: Turn,
                  frames: seq<Frame>, sends: seq<ChanOp>, accepted: bool, active: Option<map<Side, Side>>,
                  route: Option<map<Side, Side>>)
    requires g.proc.Multicast? && |before| == BUFFER_SIZE && Held(g.pc).Some?
    requires Midway(c, g, s.packets, querier, before, turn, Contents(s.pool, Held(g.pc).value), frames, sends)
    requires Knows(c, g.proc, g.pc, turn, After(before, turn), accepted, active, route)
    requires Move(c, g, i, s, act).Does? && Move(c, g, i, s, act).effect.g.pc != Head
    ensures KnowsThen(c, g, i, s, act, before, turn, accepted, active, route)
  {
    if g.pc.Reading? || g.pc.Got? {
      ReadKnows(c, g, i, s, act, before, turn, accepted, active, route);
    } else if g.pc.Checked? {
      FilterKnows(c, g, i, s, act, before, turn, accepted, active, route);
    } else {
      ForwardKnows(c, g, i, s, act, before, turn, accepted, active, route);
    }
  }

  // ----- Along a run -----

  ghost predicate KnownAt(c: System, states: seq<State>, acts: seq<Action>, n: nat, m: nat, i: nat, b: Buf) {
    && MulticastUnderWay(c, states, acts, n, m, i, b)
    && states[m].gs[i].proc == states[n].gs[i].proc
    && Knows(c, states[n].gs[i].proc, states[m].gs[i].pc, Met(states, acts, n, m, i),
             After(Contents(states[n].pool, b), Met(states, acts, n, m, i)), Accepted(c, states, acts, n, m, i),
             Saw(states, acts, n, m, i, AltFilter), Saw(states, acts, n, m, i, LoadRoute))
  }

  lemma KnownFirst(c: System, states: seq<State>, acts: seq<Action>, n: nat, i: nat, b: Buf)
    requires MulticastUnderWay(c, states, acts, n, n + 1, i, b)
    ensures KnownAt(c, states, acts, n, n + 1, i, b)
  {
    assert Step(c, states[n], acts[n]) == Some(states[n + 1]);
    StepShape(c, states[n], acts[n], states[n + 1]);
    assert !Accepted(c, states, acts, n, n, i);
    assert Latest(acts, n, n + 1, i, AltFilter) == n == Latest(acts, n, n + 1, i, LoadRoute);
  }

  /** The goroutine's own step, before it is carried over to the run. */
  ghost predicate KnownThen(c: System, states: seq<State>, acts: seq<Action>, n: nat, m: nat, i: nat, b: Buf)
    requires n + 1 < m <= |acts| && MulticastUnderWay(c, states, acts, n, m - 1, i, b) && IsOwn(acts[m - 1], i)
    requires states[m - 1].gs[i].proc.Multicast?
    requires Move(c, states[m - 1].gs[i], i, states[m - 1], acts[m - 1].act).Does?
  {
    KnowsThen(c, states[m - 1].gs[i], i, states[m - 1], acts[m - 1].act, Contents(states[n].pool, b),
              Met(states, acts, n, m - 1, i), Accepted(c, states, acts, n, m - 1, i),
              Saw(states, acts, n, m - 1, i, AltFilter), Saw(states, acts, n, m - 1, i, LoadRoute))
  }

  lemma OwnKnows(c: System, states: seq<State>, acts: seq<Action>, n: nat, m: nat, i: nat, b: Buf)
    requires n + 1 < m <= |acts| && IsOwn(acts[m - 1], i)
    requires OnTheWay(c, states, acts, n, m - 1, i, b) && KnownAt(c, states, acts, n, m - 1, i, b)
    requires var mv := Move(c, states[m - 1].gs[i], i, states[m - 1], acts[m - 1].act);
      mv.Does? && mv.effect.g.pc != Head
    ensures KnownThen(c, states, acts, n, m, i, b)
  {
    var s, a := states[m - 1], acts[m - 1];
    StepKnows(c, s.gs[i], i, s, a.act, states[n].gs[i].querier, Contents(states[n].pool, b),
              Met(states, acts, n, m - 1, i), OwnFrames(c, states, acts, n, m - 1, i),
              OwnSends(c, states, acts, n, m - 1, i), Accepted(c, states, acts, n, m - 1, i),
              Saw(states, acts, n, m - 1, i, AltFilter), Saw(states, acts, n, m - 1, i, LoadRoute));
  }

  lemma SawNext(states: seq<State>, acts: seq<Action>, n: nat, m: nat, i: nat, act: Act)
    requires n + 1 < m <= |acts| && |states| == |acts| + 1
    ensures Saw(states, acts, n, m, i, act)
         == if acts[m - 1] == Do(i, act) then Some(states[m - 1].route) else Saw(states, acts, n, m - 1, i, act)
  {
  }

  lemma KnownNext(c: System, states: seq<State>, acts: seq<Action>, n: nat, m: nat, i: nat, b: Buf)
    requires n + 1 < m && MulticastUnderWay(c, states, acts, n, m, i, b)
    requires MulticastUnderWay(c, states, acts, n, m - 1, i, b) && IsOwn(acts[m - 1], i)
    requires states[m - 1].gs[i].proc == states[n].gs[i].proc && EffectOf(c, states[m - 1], acts[m - 1]).Some?
    requires states[m] == Apply(states[m - 1], i, EffectOf(c, states[m - 1], acts[m - 1]).value)
    requires EffectOf(c, states[m - 1], acts[m - 1]).value.g.proc == states[n].gs[i].proc
    requires KnownThen(c, states, acts, n, m, i, b)
    ensures KnownAt(c, states, acts, n, m, i, b)
  {
    SawNext(states, acts, n, m, i, AltFilter);
    SawNext(states, acts, n, m, i, LoadRoute);
  }

  lemma KnownOwn(c: System, states: seq<State>, acts: seq<Action>, n: nat, m: nat, i: nat, b: Buf)
    requires n + 1 < m && MulticastUnderWay(c, states, acts, n, m, i, b)
    requires OnTheWay(c, states, acts, n, m - 1, i, b) && KnownAt(c, states, acts, n, m - 1, i, b)
    requires IsOwn(acts[m - 1], i)
    ensures KnownAt(c, states, acts, n, m, i, b)
  {
    var s, a, t := states[m - 1], acts[m - 1], states[m];
    assert Step(c, s, a) == Some(t);
    StepShape(c, s, a, t);
    MoveBuffer(c, s.gs[i], i, s, a.act);
    OwnKnows(c, states, acts, n, m, i, b);
    KnownNext(c, states, acts, n, m, i, b);
  }

  lemma KnownOthers(c: System, states: seq<State>, acts: seq<Action>, n: nat, m: nat, i: nat, b: Buf)
    requires n + 1 < m && MulticastUnderWay(c, states, acts, n, m, i, b)
    requires KnownAt(c, states, acts, n, m - 1, i, b) && !IsOwn(acts[m - 1], i)
    requires Held(states[m - 1].gs[i].pc) == Some(b)
    ensures KnownAt(c, states, acts, n, m, i, b)
  {
    var s, a, t := states[m - 1], acts[m - 1], states[m];
    assert Step(c, s, a) == Some(t);
    InvAlongRun(c, states, acts, m - 1);
    OthersKeep(c, s, a, t, i, b);
  }

  lemma {:induction false} KnownUnderWay(c: System, states: seq<State>, acts: seq<Action>, n: nat, m: nat, i: nat,
                                         b: Buf)
    requires MulticastUnderWay(c, states, acts, n, m, i, b)
    ensures KnownAt(c, states, acts, n, m, i, b)
  {
    if m == n + 1 {
      KnownFirst(c, states, acts, n, i, b);
    } else {
      UnderWayBefore(c, states, acts, n, m, i, b);
      KnownUnderWay(c, states, acts, n, m - 1, i, b);
      FollowTurn(c, states, acts, n, m - 1, i, b);
      if IsOwn(acts[m - 1], i) {
        KnownOwn(c, states, acts, n, m, i, b);
      } else {
        KnownOthers(c, states, acts, n, m, i, b);
      }
    }
  }

  // ----- At the end of an iteration -----

  lemma LastActsAccept(c: System, g: Goroutine, i: nat, s: State, act: Act)
    requires g.proc.Multicast? && Held(g.pc).Some?
    requires Move(c, g, i, s, act).Does? && Move(c, g, i, s, act).effect.g.pc == Head
    ensures Move(c, g, i, s, act).effect.accept.None?
  {
  }

  /** The step that ends the turn. */
  lemma EndKnows(c: System, s: State, i: nat, act: Act, t: State, b: Buf, querier: Addr, before: seq<Byte>, turn: Turn,
                 frames: seq<Frame>, sends: seq<ChanOp>, accepted: bool, active: Option<map<Side, Side>>,
                 route: Option<map<Side, Side>>)
    requires i < |s.gs| && s.gs[i].proc.Multicast? && |before| == BUFFER_SIZE && Held(s.gs[i].pc) == Some(b)
    requires Midway(c, s.gs[i], s.packets, querier, before, turn, Contents(s.pool, b), frames, sends)
    requires Knows(c, s.gs[i].proc, s.gs[i].pc, turn, After(before, turn), accepted, active, route)
    requires Step(c, s, Do(i, act)) == Some(t) && i < |t.gs| && (t.gs[i].pc == Head || t.status != Running)
    ensures !AcceptsAt(c, s, Do(i, act), i) && act != AltFilter
    ensures var turn' := Learn(turn, s, act, s.gs[i]);
      Concluded(c, s.gs[i].proc, turn', After(before, turn'), accepted, active,
                if act == LoadRoute then Some(s.route) else route)
  {
    StepShape(c, s, Do(i, act), t);
    if EffectOf(c, s, Do(i, act)).Some? {
      LastActs(c, s.gs[i], i, s, act);
      LastActsAccept(c, s.gs[i], i, s, act);
    } else if Move(c, s.gs[i], i, s, act).Panics? {
      PanicMeans(c, s.gs[i], i, s, act);
    } else {
      CrashMeans(c, s.gs[i], i, s, act);
    }
  }

  /** At the end of an iteration. */
  ghost predicate ConcludedAt(c: System, states: seq<State>, acts: seq<Action>, n: nat, m: nat, i: nat, b: Buf)
    requires n < m <= |acts| && |states| == |acts| + 1 && i < |states[n].gs| && states[n].gs[i].proc.Multicast?
  {
    var met := Met(states, acts, n, m, i);
    Concluded(c, states[n].gs[i].proc, met, After(Contents(states[n].pool, b), met), Accepted(c, states, acts, n, m, i),
              Saw(states, acts, n, m, i, AltFilter), Saw(states, acts, n, m, i, LoadRoute))
  }

  lemma ConcludedLast(c: System, states: seq<State>, acts: seq<Action>, n: nat, m: nat, i: nat, b: Buf)
    requires n + 1 < m <= |acts|
    requires OnTheWay(c, states, acts, n, m - 1, i, b) && KnownAt(c, states, acts, n, m - 1, i, b)
    requires IsOwn(acts[m - 1], i)
    requires i < |states[m].gs| && (states[m].gs[i].pc == Head || states[m].status != Running)
    ensures ConcludedAt(c, states, acts, n, m, i, b)
  {
    var s, a, t := states[m - 1], acts[m - 1], states[m];
    assert Step(c, s, a) == Some(t);
    EndKnows(c, s, i, a.act, t, b, states[n].gs[i].querier, Contents(states[n].pool, b),
             Met(states, acts, n, m - 1, i), OwnFrames(c, states, acts, n, m - 1, i),
             OwnSends(c, states, acts, n, m - 1, i), Accepted(c, states, acts, n, m - 1, i),
             Saw(states, acts, n, m - 1, i, AltFilter), Saw(states, acts, n, m - 1, i, LoadRoute));
    SawNext(states, acts, n, m, i, AltFilter);
    SawNext(states, acts, n, m, i, LoadRoute);
  }

  lemma ConcludedEnd(c: System, states: seq<State>, acts: seq<Action>, n: nat, m: nat, i: nat, b: Buf)
    requires n + 1 < m <= |acts| && MulticastUnderWay(c, states, acts, n, m - 1, i, b) && IsOwn(acts[m - 1], i)
    requires i < |states[m].gs| && (states[m].gs[i].pc == Head || states[m].status != Running)
    ensures ConcludedAt(c, states, acts, n, m, i, b)
  {
    KnownUnderWay(c, states, acts, n, m - 1, i, b);
    FollowTurn(c, states, acts, n, m - 1, i, b);
    ConcludedLast(c, states, acts, n, m, i, b);
  }

  lemma IterationConcluded(c: System, states: seq<State>, acts: seq<Action>, n: nat, m: nat, i: nat, b: Buf)
    requires IsIteration(c, states, acts, n, m, i, b) && states[n].gs[i].proc.Multicast?
    ensures ConcludedAt(c, states, acts, n, m, i, b)
  {
    IterationUnderWay(c, states, acts, n, m, i, b);
    ConcludedEnd(c, states, acts, n, m, i, b);
  }

  // ----- What is accepted -----

  /** The address of each multicast group that is listened to. */
  function Listened(g: Dest): Addr {
    if g == ALL_HOSTS then V4(224, 0, 0, 1) else if g == ALL_ROUTERS then V4(224, 0, 0, 2) else V4(224, 0, 0, 22)
  }

  /** The packet came in on the side's own interface index, is for the group and decodes to a layer of its type. */
  predicate Qualifies(c: System, side: Side, g: Dest, packet: Packet, kind: Byte, layer: Layer) {
    && SideOfIndex(c.conf, c.indexOf, packet.ifIndex) == side && packet.dst == Listened(g)
    && !layer.NoLayer? && (kind == 0x16 ==> layer.V1or2?) && (kind == 0x22 ==> layer.V3?)
  }

  /** When goroutine `i` looked, the side was the last one stored; only two outsides have to be told apart. */
  ghost predicate WasActive(c: System, states: seq<State>, acts: seq<Action>, n: nat, m: nat, i: nat, side: Side)
    requires n <= m <= |acts| && |states| == |acts| + 1
  {
    |c.conf.altOutIntName| > 0 && side in {OUT, ALTOUT} ==>
      LastStored(states[Latest(acts, n, m, i, AltFilter)].stored) == side
  }

  lemma SawRoute(c: System, states: seq<State>, acts: seq<Action>, n: nat, m: nat, i: nat, act: Act)
    requires IsRun(c, states, acts) && n <= m <= |acts| && Saw(states, acts, n, m, i, act).Some?
    ensures var k := Latest(acts, n, m, i, act);
      n < k < m && Saw(states, acts, n, m, i, act).value == map[OUT := IN, IN := LastStored(states[k].stored)]
  {
    RoutingAlongRun(c, states, acts, Latest(acts, n, m, i, act));
  }

  /** The route of the active check, in terms of the sides stored. */
  lemma IgnoredMeans(c: System, side: Side, last: Side)
    ensures Ignored(c, side, map[OUT := IN, IN := last])
       <==> |c.conf.altOutIntName| > 0 && side in {OUT, ALTOUT} && last != side
  {
  }

  lemma AcceptsMeans(c: System, side: Side, g: Dest, turn: Turn, after: seq<Byte>, last: Side)
    requires |after| == BUFFER_SIZE && g in MULTICAST_GROUPS
    requires turn.read.Delivered? ==> turn.active == map[OUT := IN, IN := last]
    ensures Accepts(c, Multicast(side, g), turn, after)
       <==> turn.read.Delivered? && Qualifies(c, side, g, turn.read.packet, after[0], turn.layer)
            && (|c.conf.altOutIntName| > 0 && side in {OUT, ALTOUT} ==> last == side)
  {
    IgnoredMeans(c, side, last);
  }

  /**
   An iteration of a multicast receiver accepts a packet if and only if it read one that qualifies, while its side
   was the last one stored if there are two outsides.
   */
  lemma AcceptsExactlyQualifying(c: System, states: seq<State>, acts: seq<Action>, n: nat, m: nat, i: nat, b: Buf,
                                 side: Side, g: Dest)
    requires IsIteration(c, states, acts, n, m, i, b) && states[n].gs[i].proc == Multicast(side, g)
    ensures var met := Met(states, acts, n, m, i);
      Accepted(c, states, acts, n, m, i) <==>
        && met.read.Delivered? && WasActive(c, states, acts, n, m, i, side)
        && Qualifies(c, side, g, met.read.packet, After(Contents(states[n].pool, b), met)[0], met.layer)
  {
    IterationConcluded(c, states, acts, n, m, i, b);
    GroupOfReceiver(c, states, acts, n, i);
    var met := Met(states, acts, n, m, i);
    var k := Latest(acts, n, m, i, AltFilter);
    if met.read.Delivered? { SawRoute(c, states, acts, n, m, i, AltFilter); }
    AcceptsMeans(c, side, g, met, After(Contents(states[n].pool, b), met), LastStored(states[k].stored));
  }

  /** An iteration that accepted a packet on one of two outsides looked while its side was the last one stored. */
  lemma AcceptedWhileActive(c: System, states: seq<State>, acts: seq<Action>, n: nat, m: nat, i: nat, b: Buf,
                            side: Side)
    requires IsIteration(c, states, acts, n, m, i, b) && states[n].gs[i].proc.Multicast?
    requires states[n].gs[i].proc.side == side && side in {OUT, ALTOUT} && |c.conf.altOutIntName| > 0
    requires Accepted(c, states, acts, n, m, i)
    ensures var k := Latest(acts, n, m, i, AltFilter); n < k < m && LastStored(states[k].stored) == side
  {
    AcceptsExactlyQualifying(c, states, acts, n, m, i, b, side, states[n].gs[i].proc.group);
    IterationConcluded(c, states, acts, n, m, i, b);
    SawRoute(c, states, acts, n, m, i, AltFilter);
  }

  /** What a turn sends on, or tells the application, comes from a packet it accepts. */
  lemma SentIsAccepted(c: System, p: Proc, querier: Addr, turn: Turn, after: seq<Byte>)
    requires p.Multicast? && |after| == BUFFER_SIZE
    ensures var r := Judge(c, p, querier, turn, after);
      r.sent.Some? || r.pushed != NoOp ==> Accepts(c, p, turn, after)
  {
  }

  /**
   With two outsides, while a side is not the last one stored its receivers accept nothing, forward nothing and tell
   the application nothing.
   */
  lemma InactiveSideIsSilent(c: System, states: seq<State>, acts: seq<Action>, n: nat, m: nat, i: nat, b: Buf,
                             side: Side)
    requires IsIteration(c, states, acts, n, m, i, b) && states[n].gs[i].proc.Multicast?
    requires states[n].gs[i].proc.side == side && side in {OUT, ALTOUT} && |c.conf.altOutIntName| > 0
    requires forall k | n < k < m :: LastStored(states[k].stored) != side
    ensures !Accepted(c, states, acts, n, m, i)
    ensures OwnFrames(c, states, acts, n, m, i) == [] && OwnSends(c, states, acts, n, m, i) == []
  {
    if Accepted(c, states, acts, n, m, i) { AcceptedWhileActive(c, states, acts, n, m, i, b, side); }
    IterationConcluded(c, states, acts, n, m, i, b);
    EveryIterationIsATurn(c, states, acts, n, m, i, b);
    var met := Met(states, acts, n, m, i);
    SentIsAccepted(c, states[n].gs[i].proc, states[n].gs[i].querier, met, After(Contents(states[n].pool, b), met));
  }

  // ----- What is forwarded -----

  /** In the configuration's own terms. */
  predicate Proxied(conf: Config, side: Side) {
    (side == OUT && conf.proxyOutToIn) || (side == IN && conf.proxyInToOut)
  }

  /** A turn forwards the packet it accepted if its side is proxied, and nothing fails. */
  lemma SentMeans(c: System, side: Side, g: Dest, querier: Addr, turn: Turn, after: seq<Byte>, last: Side)
    requires |after| == BUFFER_SIZE && g in MULTICAST_GROUPS
    requires Accepts(c, Multicast(side, g), turn, after) ==> turn.route == map[OUT := IN, IN := last]
    ensures var r := Judge(c, Multicast(side, g), querier, turn, after);
      && (r.sent.Some? <==>
            Accepts(c, Multicast(side, g), turn, after) && Proxied(c.conf, side) && r.status == Running)
      && (r.sent.Some? ==> r.sent.value == Sent(if side == OUT then IN else last, Listened(g), after))
  {
  }

  /**
   An iteration of a multicast receiver forwards if and only if it accepted a packet, its side is proxied and nothing
   fails: one frame, from the outside to the inside, or from the inside to the last side stored when it looked, to
   the group of the receiver, with the buffer that holds the packet.
   */
  lemma ForwardsExactlyAccepted(c: System, states: seq<State>, acts: seq<Action>, n: nat, m: nat, i: nat, b: Buf,
                                side: Side, g: Dest)
    requires IsIteration(c, states, acts, n, m, i, b) && states[n].gs[i].proc == Multicast(side, g)
    ensures var frames, looked := OwnFrames(c, states, acts, n, m, i), Latest(acts, n, m, i, LoadRoute);
      && (frames != [] <==>
            Accepted(c, states, acts, n, m, i) && Proxied(c.conf, side) && states[m].status == Running)
      && (frames != [] ==>
            && |frames| == 1 && frames[0].Forwarded? && frames[0].dst == Listened(g)
            && frames[0].out == (if side == OUT then IN else LastStored(states[looked].stored))
            && frames[0].payload == Contents(states[m].pool, b))
  {
    IterationConcluded(c, states, acts, n, m, i, b);
    GroupOfReceiver(c, states, acts, n, i);
    EveryIterationIsATurn(c, states, acts, n, m, i, b);
    var met := Met(states, acts, n, m, i);
    if Accepted(c, states, acts, n, m, i) { SawRoute(c, states, acts, n, m, i, LoadRoute); }
    SentMeans(c, side, g, states[n].gs[i].querier, met, After(Contents(states[n].pool, b), met),
              LastStored(states[Latest(acts, n, m, i, LoadRoute)].stored));
  }

  // ----- What the application is told -----

  /** What an accepted packet of this kind and layer has for the application. */
  function News(conf: Config, kind: Byte, layer: Layer): seq<ChanOp> {
    if kind == 0x11 && conf.queryNotify then [PushQuery]
    else if kind == 0x16 && conf.membershipReportsFromNetwork && layer.V1or2? then
      [PushFromNet([Item([], layer.group)])]
    else if kind == 0x22 && conf.membershipReportsFromNetwork && layer.V3? then [PushFromNet(layer.items)]
    else []
  }

  lemma PushedMeans(c: System, p: Proc, querier: Addr, turn: Turn, after: seq<Byte>)
    requires p.Multicast? && |after| == BUFFER_SIZE
    ensures var r := Judge(c, p, querier, turn, after);
      && Ops(r.pushed) == (if Accepts(c, p, turn, after) && turn.room then News(c.conf, after[0], turn.layer) else [])
      && r.querier == if Accepts(c, p, turn, after) && after[0] == 0x11 then turn.read.packet.src else querier
  {
  }

  /**
   An iteration tells the application exactly what the packet it accepted has for it, if there was room; and it knows
   a new querier exactly if it accepted a query.
   */
  lemma TellsExactlyNews(c: System, states: seq<State>, acts: seq<Action>, n: nat, m: nat, i: nat, b: Buf)
    requires IsIteration(c, states, acts, n, m, i, b) && states[n].gs[i].proc.Multicast?
    ensures var met, kind, told := Met(states, acts, n, m, i), Contents(states[m].pool, b)[0],
                                   OwnSends(c, states, acts, n, m, i);
      && told == (if Accepted(c, states, acts, n, m, i) && met.room then News(c.conf, kind, met.layer) else [])
      && (states[m].status == Running ==>
            states[m].gs[i].querier
            == if Accepted(c, states, acts, n, m, i) && met.read.Delivered? && kind == 0x11 then met.read.packet.src
               else states[n].gs[i].querier)
  {
    IterationConcluded(c, states, acts, n, m, i, b);
    EveryIterationIsATurn(c, states, acts, n, m, i, b);
    var met := Met(states, acts, n, m, i);
    PushedMeans(c, states[n].gs[i].proc, states[n].gs[i].querier, met, After(Contents(states[n].pool, b), met));
  }
}

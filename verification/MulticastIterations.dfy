/**
 Every iteration of a multicast receiver, in every run of the library and whatever other
 goroutines do meanwhile, is a turn of its loop.
 */
module MulticastIterations {
  import opened Base
  import opened Setup
  import opened Library
  import opened Buffers
  import opened Routing
  import opened MulticastLoop
  import opened OwnSteps

  /** The frames are what the turn sends. */
  predicate Carries(frames: seq<Frame>, sent: Option<Sent>) {
    match sent
    case None => frames == []
    case Some(p) =>
      && |frames| == 1 && frames[0].Forwarded?
      && frames[0].out == p.out && frames[0].dst == p.dst && frames[0].payload == p.payload
  }

  /** What a turn has read is what the receiver holds. */
  predicate HasRead(pc: Pc, packets: seq<Packet>, turn: Turn)
    requires Working(pc).Some?
  {
    && Working(pc).value.FromPacket? && Working(pc).value.pid < |packets|
    && turn.read == Delivered(packets[Working(pc).value.pid])
  }

  /** What goroutine `g` has done so far in its turn, begun with this querier and this buffer. */
  ghost predicate Midway(c: System, g: Goroutine, packets: seq<Packet>, querier: Addr, before: seq<Byte>, turn: Turn,
                         contents: seq<Byte>, frames: seq<Frame>, sends: seq<ChanOp>)
    requires g.proc.Multicast? && |before| == BUFFER_SIZE
  {
    var after := After(before, turn);
    var r := Judge(c, g.proc, querier, turn, after);
    match g.pc
    case Reading(_) => contents == before && g.querier == querier && frames == [] && sends == []
    case Got(_, _) =>
      && HasRead(g.pc, packets, turn) && contents == after && g.querier == querier && frames == [] && sends == []
    case Checked(_, _) =>
      && HasRead(g.pc, packets, turn) && contents == after && g.querier == querier && frames == [] && sends == []
      && !Ignored(c, g.proc.side, turn.active)
    case Accepted(_, _, _) =>
      && contents == after && g.querier == r.querier && frames == [] && sends == Ops(r.pushed)
      && Accepts(c, g.proc, turn, after)
    case Routed(_, _, _, out) =>
      && contents == after && g.querier == r.querier && frames == [] && sends == Ops(r.pushed)
      && Accepts(c, g.proc, turn, after)
      && ProxyIt(c.conf, g.proc.side) && g.proc.side in turn.route && out == turn.route[g.proc.side]
    case Returning(_) =>
      && contents == after && g.querier == r.querier && Carries(frames, r.sent) && sends == Ops(r.pushed)
      && r.status == Running && r.returned
    case _ => false
  }

  /** The turn is over, and all of it is as the loop has it. */
  ghost predicate Finished(c: System, t: State, i: nat, b: Buf, querier: Addr, before: seq<Byte>, turn: Turn,
                           frames: seq<Frame>, sends: seq<ChanOp>)
    requires i < |t.gs| && t.gs[i].proc.Multicast? && |before| == BUFFER_SIZE
  {
    var after := After(before, turn);
    var r := Judge(c, t.gs[i].proc, querier, turn, after);
    && Contents(t.pool, b) == after && Carries(frames, r.sent) && sends == Ops(r.pushed) && t.status == r.status
    && (r.status == Running ==>
          && t.gs[i].pc == Head && t.gs[i].querier == r.querier
          && (b in t.pool.free <==> r.returned) && (b in t.pool.lost <==> !r.returned))
  }

  // ----- The receiver's own steps -----

  /** What the turn learns from a step. */
  function Learn(turn: Turn, s: State, act: Act, g: Goroutine): Turn {
    match act
    case ReadPacket => if g.seen < |s.packets| then turn.(read := Delivered(s.packets[g.seen])) else turn
    case ReadFails => turn.(read := Failed)
    case AltFilter => turn.(active := s.route)
    case Filter(layer, room) => turn.(layer := layer, room := room)
    case LoadRoute => turn.(route := s.route)
    case _ => turn
  }

  /** What an own step makes of the turn so far. */
  ghost predicate Goes(c: System, g: Goroutine, i: nat, s: State, act: Act, b: Buf, querier: Addr, before: seq<Byte>,
                       turn: Turn, frames: seq<Frame>, sends: seq<ChanOp>)
    requires g.proc.Multicast? && |before| == BUFFER_SIZE && Move(c, g, i, s, act).Does?
  {
    var e, turn' := Move(c, g, i, s, act).effect, Learn(turn, s, act, g);
    && e.g.proc == g.proc && Held(e.g.pc) == Some(b)
    && Midway(c, e.g, s.packets, querier, before, turn', Contents(OnPool(s.pool, e.pool), b),
              frames + (if e.frame.Some? then [e.frame.value] else []), sends + Ops(e.chan))
  }

  lemma ReadStep(c: System, g: Goroutine, i: nat, s: State, act: Act, b: Buf, querier: Addr, before: seq<Byte>,
                 turn: Turn, frames: seq<Frame>, sends: seq<ChanOp>)
    requires g.proc.Multicast? && |before| == BUFFER_SIZE && Held(g.pc) == Some(b) && (g.pc.Reading? || g.pc.Got?)
    requires Midway(c, g, s.packets, querier, before, turn, Contents(s.pool, b), frames, sends)
    requires Move(c, g, i, s, act).Does?
    ensures Goes(c, g, i, s, act, b, querier, before, turn, frames, sends)
  {
  }

  lemma RejectStep(c: System, g: Goroutine, i: nat, s: State, act: Act, b: Buf, querier: Addr, before: seq<Byte>,
                   turn: Turn, frames: seq<Frame>, sends: seq<ChanOp>)
    requires g.proc.Multicast? && |before| == BUFFER_SIZE && Held(g.pc) == Some(b) && g.pc.Checked?
    requires Midway(c, g, s.packets, querier, before, turn, Contents(s.pool, b), frames, sends)
    requires Move(c, g, i, s, act).Does?
    requires Move(c, g, i, s, act).effect.g.pc.Returning?
    ensures Goes(c, g, i, s, act, b, querier, before, turn, frames, sends)
  {
  }

  lemma AcceptStep(c: System, g: Goroutine, i: nat, s: State, act: Act, b: Buf, querier: Addr, before: seq<Byte>,
                   turn: Turn, frames: seq<Frame>, sends: seq<ChanOp>)
    requires g.proc.Multicast? && |before| == BUFFER_SIZE && Held(g.pc) == Some(b) && g.pc.Checked?
    requires Midway(c, g, s.packets, querier, before, turn, Contents(s.pool, b), frames, sends)
    requires Move(c, g, i, s, act).Does?
    requires Move(c, g, i, s, act).effect.g.pc.Accepted?
    ensures Goes(c, g, i, s, act, b, querier, before, turn, frames, sends)
  {
  }

  lemma FilterOutcomes(c: System, g: Goroutine, i: nat, s: State, act: Act)
    requires g.proc.Multicast? && g.pc.Checked? && Move(c, g, i, s, act).Does?
    ensures var e := Move(c, g, i, s, act).effect; e.g.pc.Returning? || e.g.pc.Accepted? || act.SocketDrops?
  {
  }

  lemma FilterStep(c: System, g: Goroutine, i: nat, s: State, act: Act, b: Buf, querier: Addr, before: seq<Byte>,
                   turn: Turn, frames: seq<Frame>, sends: seq<ChanOp>)
    requires g.proc.Multicast? && |before| == BUFFER_SIZE && Held(g.pc) == Some(b) && g.pc.Checked?
    requires Midway(c, g, s.packets, querier, before, turn, Contents(s.pool, b), frames, sends)
    requires Move(c, g, i, s, act).Does?
    ensures Goes(c, g, i, s, act, b, querier, before, turn, frames, sends)
  {
    FilterOutcomes(c, g, i, s, act);
    if Move(c, g, i, s, act).effect.g.pc.Returning? {
      RejectStep(c, g, i, s, act, b, querier, before, turn, frames, sends);
    } else if Move(c, g, i, s, act).effect.g.pc.Accepted? {
      AcceptStep(c, g, i, s, act, b, querier, before, turn, frames, sends);
    }
  }

  lemma RouteStep(c: System, g: Goroutine, i: nat, s: State, act: Act, b: Buf, querier: Addr, before: seq<Byte>,
                  turn: Turn, frames: seq<Frame>, sends: seq<ChanOp>)
    requires g.proc.Multicast? && |before| == BUFFER_SIZE && Held(g.pc) == Some(b) && g.pc.Accepted?
    requires Midway(c, g, s.packets, querier, before, turn, Contents(s.pool, b), frames, sends)
    requires Move(c, g, i, s, act).Does? && Move(c, g, i, s, act).effect.g.pc != Head
    ensures Goes(c, g, i, s, act, b, querier, before, turn, frames, sends)
  {
  }

  lemma ForwardStep(c: System, g: Goroutine, i: nat, s: State, act: Act, b: Buf, querier: Addr, before: seq<Byte>,
                    turn: Turn, frames: seq<Frame>, sends: seq<ChanOp>)
    requires g.proc.Multicast? && g.proc.group != QUERY_HOST && |before| == BUFFER_SIZE && Held(g.pc) == Some(b)
    requires g.pc.Routed? || g.pc.Returning?
    requires Midway(c, g, s.packets, querier, before, turn, Contents(s.pool, b), frames, sends)
    requires Move(c, g, i, s, act).Does? && !UsesUnopened(c, g, act, Move(c, g, i, s, act).effect)
    requires Move(c, g, i, s, act).effect.g.pc != Head
    ensures Goes(c, g, i, s, act, b, querier, before, turn, frames, sends)
  {
  }

  /** A step that does not end the turn. */
  lemma OwnStep(c: System, g: Goroutine, i: nat, s: State, act: Act, b: Buf, querier: Addr, before: seq<Byte>,
                turn: Turn, frames: seq<Frame>, sends: seq<ChanOp>)
    requires g.proc.Multicast? && g.proc.group != QUERY_HOST && |before| == BUFFER_SIZE && Held(g.pc) == Some(b)
    requires Midway(c, g, s.packets, querier, before, turn, Contents(s.pool, b), frames, sends)
    requires Move(c, g, i, s, act).Does? && !UsesUnopened(c, g, act, Move(c, g, i, s, act).effect)
    requires Move(c, g, i, s, act).effect.g.pc != Head
    ensures Goes(c, g, i, s, act, b, querier, before, turn, frames, sends)
  {
    if g.pc.Reading? || g.pc.Got? {
      ReadStep(c, g, i, s, act, b, querier, before, turn, frames, sends);
    } else if g.pc.Checked? {
      FilterStep(c, g, i, s, act, b, querier, before, turn, frames, sends);
    } else if g.pc.Accepted? {
      RouteStep(c, g, i, s, act, b, querier, before, turn, frames, sends);
    } else {
      ForwardStep(c, g, i, s, act, b, querier, before, turn, frames, sends);
    }
  }

  /** The step that gives the buffer back. */
  lemma PutBackStep(c: System, s: State, i: nat, b: Buf, querier: Addr, before: seq<Byte>, turn: Turn,
                    frames: seq<Frame>, sends: seq<ChanOp>)
    requires i < |s.gs| && s.status == Running && s.gs[i].proc.Multicast? && |before| == BUFFER_SIZE
    requires HeldInv(s.gs, s.pool) && s.gs[i].pc == Returning(b)
    requires Midway(c, s.gs[i], s.packets, querier, before, turn, Contents(s.pool, b), frames, sends)
    ensures Move(c, s.gs[i], i, s, PutBack).Does?
    ensures var e := Move(c, s.gs[i], i, s, PutBack).effect;
      Finished(c, Apply(s, i, e), i, b, querier, before, turn, frames, sends)
  {
  }

  /** The step that keeps the buffer of an accepted packet for good. */
  lemma LoseStep(c: System, s: State, i: nat, b: Buf, querier: Addr, before: seq<Byte>, turn: Turn,
                 frames: seq<Frame>, sends: seq<ChanOp>)
    requires i < |s.gs| && s.status == Running && s.gs[i].proc.Multicast? && |before| == BUFFER_SIZE
    requires HeldInv(s.gs, s.pool) && s.gs[i].pc.Accepted? && s.gs[i].pc.buf == b
    requires Midway(c, s.gs[i], s.packets, querier, before, turn, Contents(s.pool, b), frames, sends)
    requires !ProxyIt(c.conf, s.gs[i].proc.side)
    ensures Move(c, s.gs[i], i, s, LoadRoute).Does?
    ensures var e := Move(c, s.gs[i], i, s, LoadRoute).effect;
      Finished(c, Apply(s, i, e), i, b, querier, before, Learn(turn, s, LoadRoute, s.gs[i]), frames, sends)
  {
  }

  /** Only these two end a turn. */
  lemma LastActs(c: System, g: Goroutine, i: nat, s: State, act: Act)
    requires g.proc.Multicast? && Held(g.pc).Some?
    requires Move(c, g, i, s, act).Does? && Move(c, g, i, s, act).effect.g.pc == Head
    ensures (act.PutBack? && g.pc.Returning?) || (act.LoadRoute? && g.pc.Accepted? && !ProxyIt(c.conf, g.proc.side))
    ensures Move(c, g, i, s, act).effect.frame.None? && Move(c, g, i, s, act).effect.chan == NoOp
  {
  }

  /** A receiver panics only on a version 2 report with another layer. */
  lemma PanicMeans(c: System, g: Goroutine, i: nat, s: State, act: Act)
    requires g.proc.Multicast? && Held(g.pc).Some? && Move(c, g, i, s, act).Panics?
    ensures g.pc.Checked? && act.Filter? && g.pc.from.FromPacket? && g.pc.from.pid < |s.packets|
    ensures ForReceiver(c, g.proc, s.packets[g.pc.from.pid]) && !act.layer.NoLayer?
    ensures FirstByte(s, g.pc.buf) == REPORT_V2 && !act.layer.V1or2?
  {
  }

  lemma PanicStep(c: System, s: State, i: nat, act: Act, t: State, b: Buf, querier: Addr, before: seq<Byte>,
                  turn: Turn, frames: seq<Frame>, sends: seq<ChanOp>)
    requires i < |s.gs| && s.gs[i].proc.Multicast? && |before| == BUFFER_SIZE && Held(s.gs[i].pc) == Some(b)
    requires Midway(c, s.gs[i], s.packets, querier, before, turn, Contents(s.pool, b), frames, sends)
    requires s.gs[i].pc.Checked? && act.Filter? && !act.layer.NoLayer? && !act.layer.V1or2?
    requires ForReceiver(c, s.gs[i].proc, s.packets[s.gs[i].pc.from.pid]) && FirstByte(s, b) == REPORT_V2
    requires t == s.(status := Panicked)
    ensures Finished(c, t, i, b, querier, before, Learn(turn, s, act, s.gs[i]), frames, sends)
  {
  }

  /** A receiver in its turn uses an unopened handle only by forwarding. */
  lemma CrashMeans(c: System, g: Goroutine, i: nat, s: State, act: Act)
    requires g.proc.Multicast? && Held(g.pc).Some? && Move(c, g, i, s, act).Does?
    requires UsesUnopened(c, g, act, Move(c, g, i, s, act).effect)
    ensures act.Forward? && g.pc.Routed? && !IsOpen(c.conf, Raw(g.pc.out))
  {
  }

  lemma CrashStep(c: System, s: State, i: nat, act: Act, t: State, b: Buf, querier: Addr, before: seq<Byte>,
                  turn: Turn, frames: seq<Frame>, sends: seq<ChanOp>)
    requires i < |s.gs| && s.gs[i].proc.Multicast? && |before| == BUFFER_SIZE && Held(s.gs[i].pc) == Some(b)
    requires Midway(c, s.gs[i], s.packets, querier, before, turn, Contents(s.pool, b), frames, sends)
    requires act.Forward? && s.gs[i].pc.Routed? && !IsOpen(c.conf, Raw(s.gs[i].pc.out)) && t == s.(status := Crashed)
    ensures Finished(c, t, i, b, querier, before, Learn(turn, s, act, s.gs[i]), frames, sends)
  {
  }

  /** The step at which the process ends. */
  lemma FatalStep(c: System, s: State, i: nat, act: Act, t: State, b: Buf, querier: Addr, before: seq<Byte>,
                  turn: Turn, frames: seq<Frame>, sends: seq<ChanOp>)
    requires i < |s.gs| && s.gs[i].proc.Multicast? && |before| == BUFFER_SIZE && Held(s.gs[i].pc) == Some(b)
    requires Midway(c, s.gs[i], s.packets, querier, before, turn, Contents(s.pool, b), frames, sends)
    requires Step(c, s, Do(i, act)) == Some(t) && t.status != Running
    ensures Finished(c, t, i, b, querier, before, Learn(turn, s, act, s.gs[i]), frames, sends)
  {
    if Move(c, s.gs[i], i, s, act).Panics? {
      PanicMeans(c, s.gs[i], i, s, act);
      PanicStep(c, s, i, act, t, b, querier, before, turn, frames, sends);
    } else {
      CrashMeans(c, s.gs[i], i, s, act);
      CrashStep(c, s, i, act, t, b, querier, before, turn, frames, sends);
    }
  }

  lemma EndStep(c: System, s: State, i: nat, act: Act, t: State, b: Buf, querier: Addr, before: seq<Byte>, turn: Turn,
                frames: seq<Frame>, sends: seq<ChanOp>)
    requires i < |s.gs| && s.status == Running && s.gs[i].proc.Multicast? && |before| == BUFFER_SIZE
    requires HeldInv(s.gs, s.pool) && Held(s.gs[i].pc) == Some(b)
    requires Midway(c, s.gs[i], s.packets, querier, before, turn, Contents(s.pool, b), frames, sends)
    requires Step(c, s, Do(i, act)) == Some(t) && i < |t.gs| && (t.gs[i].pc == Head || t.status != Running)
    ensures t.gs[i].proc == s.gs[i].proc && FrameOf(c, s, Do(i, act), i) == [] && SendOf(c, s, Do(i, act), i) == []
    ensures Finished(c, t, i, b, querier, before, Learn(turn, s, act, s.gs[i]), frames, sends)
  {
    StepShape(c, s, Do(i, act), t);
    if EffectOf(c, s, Do(i, act)).None? {
      FatalStep(c, s, i, act, t, b, querier, before, turn, frames, sends);
    } else {
      LastActs(c, s.gs[i], i, s, act);
      if act.PutBack? {
        PutBackStep(c, s, i, b, querier, before, turn, frames, sends);
      } else {
        LoseStep(c, s, i, b, querier, before, turn, frames, sends);
      }
    }
  }

  // ----- Along a run -----

  lemma MorePacketsMidway(c: System, g: Goroutine, packets: seq<Packet>, packets': seq<Packet>, querier: Addr,
                          before: seq<Byte>, turn: Turn, contents: seq<Byte>, frames: seq<Frame>, sends: seq<ChanOp>)
    requires g.proc.Multicast? && |before| == BUFFER_SIZE && packets <= packets'
    requires Midway(c, g, packets, querier, before, turn, contents, frames, sends)
    ensures Midway(c, g, packets', querier, before, turn, contents, frames, sends)
  {
  }

  /** What an iteration met in the steps from `n` to `m`: what its own steps read, decoded and found. */
  function Met(states: seq<State>, acts: seq<Action>, n: nat, m: nat, i: nat): Turn
    requires n <= m <= |acts| && |states| == |acts| + 1
  {
    if n == m then Turn(Timeout, map[], NoLayer, false, map[])
    else
      var before, s, a := Met(states, acts, n, m - 1, i), states[m - 1], acts[m - 1];
      if IsOwn(a, i) && i < |s.gs| then Learn(before, s, a.act, s.gs[i]) else before
  }

  ghost predicate MulticastUnderWay(c: System, states: seq<State>, acts: seq<Action>, n: nat, m: nat, i: nat, b: Buf) {
    UnderWay(c, states, acts, n, m, i, b) && states[n].gs[i].proc.Multicast?
  }

  /** It has done what its turn so far calls for. */
  ghost predicate OnTheWay(c: System, states: seq<State>, acts: seq<Action>, n: nat, m: nat, i: nat, b: Buf) {
    && MulticastUnderWay(c, states, acts, n, m, i, b)
    && states[m].gs[i].proc == states[n].gs[i].proc && Held(states[m].gs[i].pc) == Some(b)
    && Midway(c, states[m].gs[i], states[m].packets, states[n].gs[i].querier, Contents(states[n].pool, b),
              Met(states, acts, n, m, i), Contents(states[m].pool, b), OwnFrames(c, states, acts, n, m, i),
              OwnSends(c, states, acts, n, m, i))
  }

  lemma Begun(c: System, states: seq<State>, acts: seq<Action>, n: nat, i: nat, b: Buf)
    requires MulticastUnderWay(c, states, acts, n, n + 1, i, b)
    ensures OnTheWay(c, states, acts, n, n + 1, i, b)
  {
    assert Step(c, states[n], acts[n]) == Some(states[n + 1]);
    StepShape(c, states[n], acts[n], states[n + 1]);
    assert OwnFrames(c, states, acts, n, n, i) == [] && OwnSends(c, states, acts, n, n, i) == [];
    assert Met(states, acts, n, n, i) == Turn(Timeout, map[], NoLayer, false, map[]);
  }

  lemma GroupOfReceiver(c: System, states: seq<State>, acts: seq<Action>, n: nat, i: nat)
    requires IsRun(c, states, acts) && n <= |acts| && i < |states[n].gs| && states[n].gs[i].proc.Multicast?
    ensures states[n].gs[i].proc.group in MULTICAST_GROUPS
  {
    ProcsAlongRun(c, states, acts, n);
    ProcStarted(c, states[n].gs, i);
  }

  lemma OwnNext(c: System, states: seq<State>, acts: seq<Action>, n: nat, m: nat, i: nat, b: Buf)
    requires n + 1 < m && MulticastUnderWay(c, states, acts, n, m, i, b)
    requires OnTheWay(c, states, acts, n, m - 1, i, b) && IsOwn(acts[m - 1], i)
    ensures OnTheWay(c, states, acts, n, m, i, b)
  {
    var s, a, t := states[m - 1], acts[m - 1], states[m];
    assert Step(c, s, a) == Some(t);
    StepShape(c, s, a, t);
    GroupOfReceiver(c, states, acts, m - 1, i);
    OwnStep(c, s.gs[i], i, s, a.act, b, states[n].gs[i].querier, Contents(states[n].pool, b),
            Met(states, acts, n, m - 1, i), OwnFrames(c, states, acts, n, m - 1, i),
            OwnSends(c, states, acts, n, m - 1, i));
  }

  lemma OthersNext(c: System, states: seq<State>, acts: seq<Action>, n: nat, m: nat, i: nat, b: Buf)
    requires n + 1 < m && MulticastUnderWay(c, states, acts, n, m, i, b)
    requires OnTheWay(c, states, acts, n, m - 1, i, b) && !IsOwn(acts[m - 1], i)
    ensures OnTheWay(c, states, acts, n, m, i, b)
  {
    var s, a, t := states[m - 1], acts[m - 1], states[m];
    assert Step(c, s, a) == Some(t);
    InvAlongRun(c, states, acts, m - 1);
    OthersKeep(c, s, a, t, i, b);
    MorePacketsMidway(c, s.gs[i], s.packets, t.packets, states[n].gs[i].querier, Contents(states[n].pool, b),
                      Met(states, acts, n, m - 1, i), Contents(s.pool, b), OwnFrames(c, states, acts, n, m - 1, i),
                      OwnSends(c, states, acts, n, m - 1, i));
  }

  lemma {:induction false} FollowTurn(c: System, states: seq<State>, acts: seq<Action>, n: nat, m: nat, i: nat, b: Buf)
    requires MulticastUnderWay(c, states, acts, n, m, i, b)
    ensures OnTheWay(c, states, acts, n, m, i, b)
  {
    if m == n + 1 {
      Begun(c, states, acts, n, i, b);
    } else {
      UnderWayBefore(c, states, acts, n, m, i, b);
      FollowTurn(c, states, acts, n, m - 1, i, b);
      if IsOwn(acts[m - 1], i) {
        OwnNext(c, states, acts, n, m, i, b);
      } else {
        OthersNext(c, states, acts, n, m, i, b);
      }
    }
  }

  /** A last step sends nothing. */
  lemma NothingMore(c: System, states: seq<State>, acts: seq<Action>, n: nat, m: nat, i: nat)
    requires IsRun(c, states, acts) && n < m <= |acts|
    requires FrameOf(c, states[m - 1], acts[m - 1], i) == [] && SendOf(c, states[m - 1], acts[m - 1], i) == []
    ensures OwnFrames(c, states, acts, n, m, i) == OwnFrames(c, states, acts, n, m - 1, i)
    ensures OwnSends(c, states, acts, n, m, i) == OwnSends(c, states, acts, n, m - 1, i)
  {
  }

  lemma Ending(c: System, states: seq<State>, acts: seq<Action>, n: nat, m: nat, i: nat, b: Buf)
    requires n + 1 < m <= |acts| && OnTheWay(c, states, acts, n, m - 1, i, b) && IsOwn(acts[m - 1], i)
    requires i < |states[m].gs| && (states[m].gs[i].pc == Head || states[m].status != Running)
    ensures states[m].gs[i].proc == states[n].gs[i].proc
    ensures Finished(c, states[m], i, b, states[n].gs[i].querier, Contents(states[n].pool, b),
                     Met(states, acts, n, m, i), OwnFrames(c, states, acts, n, m, i),
                     OwnSends(c, states, acts, n, m, i))
  {
    var s, a, t := states[m - 1], acts[m - 1], states[m];
    assert Step(c, s, a) == Some(t);
    InvAlongRun(c, states, acts, m - 1);
    EndStep(c, s, i, a.act, t, b, states[n].gs[i].querier, Contents(states[n].pool, b), Met(states, acts, n, m - 1, i),
            OwnFrames(c, states, acts, n, m - 1, i), OwnSends(c, states, acts, n, m - 1, i));
    NothingMore(c, states, acts, n, m, i);
  }

  lemma TurnEnds(c: System, states: seq<State>, acts: seq<Action>, n: nat, m: nat, i: nat, b: Buf)
    requires n + 1 < m <= |acts| && MulticastUnderWay(c, states, acts, n, m - 1, i, b) && IsOwn(acts[m - 1], i)
    requires i < |states[m].gs| && (states[m].gs[i].pc == Head || states[m].status != Running)
    ensures states[m].gs[i].proc == states[n].gs[i].proc
    ensures Finished(c, states[m], i, b, states[n].gs[i].querier, Contents(states[n].pool, b),
                     Met(states, acts, n, m, i), OwnFrames(c, states, acts, n, m, i),
                     OwnSends(c, states, acts, n, m, i))
  {
    FollowTurn(c, states, acts, n, m - 1, i, b);
    Ending(c, states, acts, n, m, i, b);
  }

  /**
   In every run, whatever the others do in between, each iteration of a multicast receiver is a turn of its loop:
   for what its own steps met, the packet it sent on, its send to a channel, the querier it knows, the fate of its
   buffer and of the process are those of the turn.
   */
  lemma EveryIterationIsATurn(c: System, states: seq<State>, acts: seq<Action>, n: nat, m: nat, i: nat, b: Buf)
    requires IsIteration(c, states, acts, n, m, i, b) && states[n].gs[i].proc.Multicast?
    ensures states[m].gs[i].proc == states[n].gs[i].proc
    ensures Finished(c, states[m], i, b, states[n].gs[i].querier, Contents(states[n].pool, b),
                     Met(states, acts, n, m, i), OwnFrames(c, states, acts, n, m, i),
                     OwnSends(c, states, acts, n, m, i))
  {
    IterationUnderWay(c, states, acts, n, m, i, b);
    TurnEnds(c, states, acts, n, m, i, b);
  }

  // ----- Nothing the loop may meet is missing from the machine -----

  /** Whether a send succeeds is as the channels at that moment allow. */
  predicate Honest(conf: Config, chans: Chans, kind: Byte, room: bool) {
    && (kind == MEMBERSHIP_QUERY && conf.queryNotify ==> MaySend(conf, chans.query, room))
    && (kind in {REPORT_V2, REPORT_V3} && conf.membershipReportsFromNetwork ==> MaySend(conf, |chans.fromNet|, room))
  }

  /** The step the loop takes next, for a turn that meets this layer and this room. */
  function LoopStep(pc: Pc, layer: Layer, room: bool): Act
    requires Held(pc).Some?
  {
    match pc
    case Reading(_) => ReadFails
    case Got(_, _) => AltFilter
    case Checked(_, _) => Filter(layer, room)
    case Accepted(_, _, _) => LoadRoute
    case Routed(_, _, _, _) => Forward
    case _ => PutBack
  }

  /** At every point of a turn the loop's next step can be taken, whatever the decoder answers and the room there is. */
  lemma TurnGoesOn(c: System, g: Goroutine, i: nat, s: State, layer: Layer, room: bool)
    requires g.proc.Multicast? && Held(g.pc).Some? && Honest(c.conf, s.chans, FirstByte(s, Held(g.pc).value), room)
    requires g.pc.Checked? ==> g.pc.from.FromPacket? && g.pc.from.pid < |s.packets|
    ensures !Move(c, g, i, s, LoopStep(g.pc, layer, room)).Blocked?
    ensures g.pc.Reading? && g.seen < |s.packets| ==> Move(c, g, i, s, ReadPacket).Does?
  {
  }
}

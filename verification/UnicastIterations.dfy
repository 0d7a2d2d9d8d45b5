/**
 Every iteration of the unicast receiver, in every run of the library and whatever other
 goroutines do meanwhile, is a turn of its loop.
 */
module UnicastIterations {
  import opened Base
  import opened Setup
  import opened Library
  import opened Buffers
  import opened Destinations
  import opened UnicastLoop
  import opened OwnSteps
  import MulticastIterations

  /** What a turn has read is what the receiver holds; a failed read delivers nothing. */
  predicate HasRead(from: Origin, turn: Turn) {
    match from
    case FromPacket(_) => false
    case FromDatagram(data) => turn.read == Delivered(data)
    case FromError => turn.read == Failed
  }

  /** What goroutine `g` has done so far in its turn, begun with this buffer. */
  ghost predicate Midway(c: System, g: Goroutine, before: seq<Byte>, turn: Turn, contents: seq<Byte>,
                         frames: seq<Frame>)
    requires |before| == BUFFER_SIZE
  {
    var after := After(before, turn);
    var r := Judge(c, turn, after);
    && g.querier == NoAddr
    && match g.pc {
         case Reading(_) => contents == before && frames == []
         case Got(_, from) => HasRead(from, turn) && contents == after && frames == []
         case Accepted(_, from, layer) =>
           HasRead(from, turn) && contents == after && frames == [] && layer == turn.layer && !layer.NoLayer?
         case Routed(_, from, layer, out) =>
           && HasRead(from, turn) && contents == after && frames == [] && layer == turn.layer
           && Proceeds(turn) && out == turn.route[IN]
         case Returning(_) =>
           contents == after && MulticastIterations.Carries(frames, r.sent) && r.status == Running && r.returned
         case _ => false
       }
  }

  /** The turn is over, and all of it is as the loop has it. */
  ghost predicate Finished(c: System, t: State, i: nat, b: Buf, before: seq<Byte>, turn: Turn, frames: seq<Frame>)
    requires i < |t.gs| && |before| == BUFFER_SIZE
  {
    var after := After(before, turn);
    var r := Judge(c, turn, after);
    && Contents(t.pool, b) == after && MulticastIterations.Carries(frames, r.sent) && t.status == r.status
    && (r.status == Running ==>
          t.gs[i].pc == Head && (b in t.pool.free <==> r.returned) && (b in t.pool.lost <==> !r.returned))
  }

  // ----- The receiver's own steps -----

  /** What the turn learns from a step. */
  function Learn(turn: Turn, s: State, act: Act): Turn {
    match act
    case ReadDatagram(data) => turn.(read := Delivered(data))
    case ReadError => turn.(read := Failed)
    case ReadFails => turn.(read := Timeout)
    case Decode(layer) => turn.(layer := layer)
    case LoadRoute => turn.(route := s.route)
    case _ => turn
  }

  /** What an own step makes of the turn so far. */
  ghost predicate Goes(c: System, g: Goroutine, i: nat, s: State, act: Act, b: Buf, before: seq<Byte>, turn: Turn,
                       frames: seq<Frame>)
    requires |before| == BUFFER_SIZE && Move(c, g, i, s, act).Does?
  {
    var e := Move(c, g, i, s, act).effect;
    && e.g.proc == g.proc && Held(e.g.pc) == Some(b)
    && Midway(c, e.g, before, Learn(turn, s, act), Contents(OnPool(s.pool, e.pool), b),
              frames + if e.frame.Some? then [e.frame.value] else [])
  }

  lemma EarlyStep(c: System, g: Goroutine, i: nat, s: State, act: Act, b: Buf, before: seq<Byte>, turn: Turn,
                  frames: seq<Frame>)
    requires g.proc.Unicast? && |before| == BUFFER_SIZE && Held(g.pc) == Some(b) && !g.pc.Routed?
    requires Midway(c, g, before, turn, Contents(s.pool, b), frames)
    requires Move(c, g, i, s, act).Does? && Move(c, g, i, s, act).effect.g.pc != Head
    ensures Goes(c, g, i, s, act, b, before, turn, frames)
  {
  }

  lemma ForwardStep(c: System, g: Goroutine, i: nat, s: State, act: Act, b: Buf, before: seq<Byte>, turn: Turn,
                    frames: seq<Frame>)
    requires g.proc.Unicast? && |before| == BUFFER_SIZE && Held(g.pc) == Some(b) && g.pc.Routed?
    requires Midway(c, g, before, turn, Contents(s.pool, b), frames)
    requires Move(c, g, i, s, act).Does? && !UsesUnopened(c, g, act, Move(c, g, i, s, act).effect)
    requires Move(c, g, i, s, act).effect.g.pc != Head
    ensures Goes(c, g, i, s, act, b, before, turn, frames)
  {
  }

  /** The step that gives the buffer back. */
  lemma PutBackStep(c: System, s: State, i: nat, b: Buf, before: seq<Byte>, turn: Turn, frames: seq<Frame>)
    requires i < |s.gs| && s.status == Running && s.gs[i].proc.Unicast? && |before| == BUFFER_SIZE
    requires HeldInv(s.gs, s.pool) && s.gs[i].pc == Returning(b)
    requires Midway(c, s.gs[i], before, turn, Contents(s.pool, b), frames)
    ensures Move(c, s.gs[i], i, s, PutBack).Does?
    ensures Finished(c, Apply(s, i, Move(c, s.gs[i], i, s, PutBack).effect), i, b, before, turn, frames)
  {
  }

  /** The step that sends a buffer on, or drops it, and keeps it for good. */
  lemma LoseStep(c: System, s: State, i: nat, b: Buf, before: seq<Byte>, turn: Turn, frames: seq<Frame>)
    requires i < |s.gs| && s.status == Running && s.gs[i].proc.Unicast? && |before| == BUFFER_SIZE
    requires HeldInv(s.gs, s.pool) && s.gs[i].pc.Routed? && s.gs[i].pc.buf == b
    requires Midway(c, s.gs[i], before, turn, Contents(s.pool, b), frames)
    requires Move(c, s.gs[i], i, s, Forward).Does? && Move(c, s.gs[i], i, s, Forward).effect.g.pc == Head
    requires !UsesUnopened(c, s.gs[i], Forward, Move(c, s.gs[i], i, s, Forward).effect)
    ensures var e := Move(c, s.gs[i], i, s, Forward).effect;
      Finished(c, Apply(s, i, e), i, b, before, turn, frames + if e.frame.Some? then [e.frame.value] else [])
  {
  }

  /** Only these two end a turn. */
  lemma LastActs(c: System, g: Goroutine, i: nat, s: State, act: Act)
    requires g.proc.Unicast? && Held(g.pc).Some?
    requires Move(c, g, i, s, act).Does? && Move(c, g, i, s, act).effect.g.pc == Head
    ensures (act.PutBack? && g.pc.Returning?) || (act.Forward? && g.pc.Routed?)
    ensures act.PutBack? ==> Move(c, g, i, s, act).effect.frame.None?
  {
  }

  /** The step at which the process ends. */
  lemma FatalStep(c: System, s: State, i: nat, act: Act, t: State, b: Buf, before: seq<Byte>, turn: Turn,
                  frames: seq<Frame>)
    requires i < |s.gs| && s.gs[i].proc.Unicast? && |before| == BUFFER_SIZE && Held(s.gs[i].pc) == Some(b)
    requires Midway(c, s.gs[i], before, turn, Contents(s.pool, b), frames)
    requires Step(c, s, Do(i, act)) == Some(t) && t.status != Running
    ensures Finished(c, t, i, b, before, Learn(turn, s, act), frames)
  {
  }

  lemma EndStep(c: System, s: State, i: nat, act: Act, t: State, b: Buf, before: seq<Byte>, turn: Turn,
                frames: seq<Frame>)
    requires i < |s.gs| && s.status == Running && s.gs[i].proc.Unicast? && |before| == BUFFER_SIZE
    requires HeldInv(s.gs, s.pool) && Held(s.gs[i].pc) == Some(b)
    requires Midway(c, s.gs[i], before, turn, Contents(s.pool, b), frames)
    requires Step(c, s, Do(i, act)) == Some(t) && i < |t.gs| && (t.gs[i].pc == Head || t.status != Running)
    ensures Finished(c, t, i, b, before, Learn(turn, s, act), frames + FrameOf(c, s, Do(i, act), i))
  {
    StepShape(c, s, Do(i, act), t);
    assert frames + [] == frames;
    if EffectOf(c, s, Do(i, act)).None? {
      FatalStep(c, s, i, act, t, b, before, turn, frames);
    } else {
      LastActs(c, s.gs[i], i, s, act);
      if act.PutBack? {
        PutBackStep(c, s, i, b, before, turn, frames);
      } else {
        LoseStep(c, s, i, b, before, turn, frames);
      }
    }
  }

  // ----- Along a run -----

  /** What an iteration met in the steps from `n` to `m`: what its own steps read, decoded and found. */
  function Met(states: seq<State>, acts: seq<Action>, n: nat, m: nat, i: nat): Turn
    requires n <= m <= |acts| && |states| == |acts| + 1
  {
    if n == m then Turn(Timeout, NoLayer, map[])
    else
      var before := Met(states, acts, n, m - 1, i);
      if IsOwn(acts[m - 1], i) then Learn(before, states[m - 1], acts[m - 1].act) else before
  }

  ghost predicate UnicastUnderWay(c: System, states: seq<State>, acts: seq<Action>, n: nat, m: nat, i: nat, b: Buf) {
    UnderWay(c, states, acts, n, m, i, b) && states[n].gs[i].proc.Unicast?
  }

  /** It has done what its turn so far calls for. */
  ghost predicate OnTheWay(c: System, states: seq<State>, acts: seq<Action>, n: nat, m: nat, i: nat, b: Buf) {
    && UnicastUnderWay(c, states, acts, n, m, i, b)
    && states[m].gs[i].proc.Unicast? && Held(states[m].gs[i].pc) == Some(b)
    && Midway(c, states[m].gs[i], Contents(states[n].pool, b), Met(states, acts, n, m, i), Contents(states[m].pool, b),
              OwnFrames(c, states, acts, n, m, i))
  }

  lemma Begun(c: System, states: seq<State>, acts: seq<Action>, n: nat, i: nat, b: Buf)
    requires UnicastUnderWay(c, states, acts, n, n + 1, i, b)
    ensures OnTheWay(c, states, acts, n, n + 1, i, b)
  {
    assert Step(c, states[n], acts[n]) == Some(states[n + 1]);
    StepShape(c, states[n], acts[n], states[n + 1]);
    PrivateQuerierCopies(c, states, acts, n);
    assert GoroutineOk(states[n].gs[i]);
    assert OwnFrames(c, states, acts, n, n, i) == [] && Met(states, acts, n, n, i) == Turn(Timeout, NoLayer, map[]);
  }

  lemma OwnNext(c: System, states: seq<State>, acts: seq<Action>, n: nat, m: nat, i: nat, b: Buf)
    requires n + 1 < m && UnicastUnderWay(c, states, acts, n, m, i, b)
    requires OnTheWay(c, states, acts, n, m - 1, i, b) && IsOwn(acts[m - 1], i)
    ensures OnTheWay(c, states, acts, n, m, i, b)
  {
    var s, a, t := states[m - 1], acts[m - 1], states[m];
    assert Step(c, s, a) == Some(t);
    StepShape(c, s, a, t);
    var before, turn := Contents(states[n].pool, b), Met(states, acts, n, m - 1, i);
    var frames := OwnFrames(c, states, acts, n, m - 1, i);
    if s.gs[i].pc.Routed? {
      ForwardStep(c, s.gs[i], i, s, a.act, b, before, turn, frames);
    } else {
      EarlyStep(c, s.gs[i], i, s, a.act, b, before, turn, frames);
    }
  }

  lemma OthersNext(c: System, states: seq<State>, acts: seq<Action>, n: nat, m: nat, i: nat, b: Buf)
    requires n + 1 < m && UnicastUnderWay(c, states, acts, n, m, i, b)
    requires OnTheWay(c, states, acts, n, m - 1, i, b) && !IsOwn(acts[m - 1], i)
    ensures OnTheWay(c, states, acts, n, m, i, b)
  {
    assert Step(c, states[m - 1], acts[m - 1]) == Some(states[m]);
    InvAlongRun(c, states, acts, m - 1);
    OthersKeep(c, states[m - 1], acts[m - 1], states[m], i, b);
    var frames := OwnFrames(c, states, acts, n, m - 1, i);
    assert frames + [] == frames;
  }

  lemma {:induction false} FollowTurn(c: System, states: seq<State>, acts: seq<Action>, n: nat, m: nat, i: nat, b: Buf)
    requires UnicastUnderWay(c, states, acts, n, m, i, b)
    ensures OnTheWay(c, states, acts, n, m, i, b)
  {
    if m == n + 1 {
      Begun(c, states, acts, n, i, b);
    } else {
      UnderWayBefore(c, states, acts, n, m, i, b);
      FollowTurn(c, states, acts, n, m - 1, i, b);
      if IsOwn(acts[m - 1], i) {
        OwnNext(c, states, acts, n, m, i, b);
      } else {
        OthersNext(c, states, acts, n, m, i, b);
      }
    }
  }

  lemma TurnEnds(c: System, states: seq<State>, acts: seq<Action>, n: nat, m: nat, i: nat, b: Buf)
    requires n + 1 < m <= |acts| && UnicastUnderWay(c, states, acts, n, m - 1, i, b) && IsOwn(acts[m - 1], i)
    requires i < |states[m].gs| && (states[m].gs[i].pc == Head || states[m].status != Running)
    ensures Finished(c, states[m], i, b, Contents(states[n].pool, b), Met(states, acts, n, m, i),
                     OwnFrames(c, states, acts, n, m, i))
  {
    assert Step(c, states[m - 1], acts[m - 1]) == Some(states[m]);
    FollowTurn(c, states, acts, n, m - 1, i, b);
    InvAlongRun(c, states, acts, m - 1);
    EndStep(c, states[m - 1], i, acts[m - 1].act, states[m], b, Contents(states[n].pool, b),
            Met(states, acts, n, m - 1, i), OwnFrames(c, states, acts, n, m - 1, i));
  }

  /**
   In every run, whatever the others do in between, each iteration of the unicast receiver is a turn of its loop:
   for what its own steps met, the packet it sent on and the fate of its buffer and of the process are those of the
   turn.
   */
  lemma EveryIterationIsATurn(c: System, states: seq<State>, acts: seq<Action>, n: nat, m: nat, i: nat, b: Buf)
    requires IsIteration(c, states, acts, n, m, i, b) && states[n].gs[i].proc.Unicast?
    ensures Finished(c, states[m], i, b, Contents(states[n].pool, b), Met(states, acts, n, m, i),
                     OwnFrames(c, states, acts, n, m, i))
  {
    IterationUnderWay(c, states, acts, n, m, i, b);
    TurnEnds(c, states, acts, n, m, i, b);
  }

  /** A message of a type that is forwarded, decoded to a layer that fits it. */
  predicate Sendable(kind: Byte, layer: Layer) {
    kind in {0x12, 0x16, 0x22, 0x17} && !layer.NoLayer? && (kind in {0x12, 0x16} ==> layer.V1or2?)
  }

  /** Where it goes: reports of versions 1 and 2 to their group. */
  function Addressee(conf: Config, kind: Byte, layer: Layer): Addr {
    if kind == 0x17 then V4(224, 0, 0, 2)
    else if kind == 0x22 then if conf.unicastMembershipReports then conf.unicastDst else V4(224, 0, 0, 22)
    else if layer.V1or2? then layer.group
    else NoAddr
  }

  /** What a turn sends, and whether it gives its buffer back, in these terms. */
  lemma SentMeans(c: System, turn: Turn, buffer: seq<Byte>)
    requires |buffer| == BUFFER_SIZE
    ensures var r, kind := Judge(c, turn, buffer), buffer[0];
      && (r.sent.Some? <==>
            && turn.read != Timeout && IN in turn.route
            && Sendable(kind, turn.layer) && IsOpen(c.conf, Raw(turn.route[IN])))
      && (r.sent.Some? ==>
            r.sent.value == MulticastLoop.Sent(turn.route[IN], Addressee(c.conf, kind, turn.layer), buffer))
      && (r.status == Running ==>
            (r.returned <==> turn.read == Timeout || turn.layer.NoLayer? || IN !in turn.route || kind == 0x22))
  {
  }

  /**
   Exactly when an iteration sends a packet: when its read did not time out, the buffer decodes to a message that is
   forwarded, there is a route, and the side it names can be written to. It sends one packet, the whole buffer; and
   it gives the buffer back exactly if it came to no route or was a version 3 report.
   */
  lemma SendsExactly(c: System, states: seq<State>, acts: seq<Action>, n: nat, m: nat, i: nat, b: Buf)
    requires IsIteration(c, states, acts, n, m, i, b) && states[n].gs[i].proc.Unicast?
    ensures var met, buffer := Met(states, acts, n, m, i), Contents(states[m].pool, b);
      var kind, frames := buffer[0], OwnFrames(c, states, acts, n, m, i);
      && buffer == After(Contents(states[n].pool, b), met)
      && (frames != [] <==>
            met.read != Timeout && IN in met.route && Sendable(kind, met.layer) && IsOpen(c.conf, Raw(met.route[IN])))
      && (frames != [] ==>
            && |frames| == 1 && frames[0].Forwarded? && frames[0].payload == buffer
            && frames[0].out == met.route[IN] && frames[0].dst == Addressee(c.conf, kind, met.layer))
      && (states[m].status == Running ==>
            (b in states[m].pool.free <==>
               met.read == Timeout || met.layer.NoLayer? || IN !in met.route || kind == 0x22))
  {
    EveryIterationIsATurn(c, states, acts, n, m, i, b);
    SentMeans(c, Met(states, acts, n, m, i), Contents(states[m].pool, b));
  }

  /** So a failed read sends the stale buffer, exactly if that would be sent had it just been read. */
  lemma StaleExactly(c: System, states: seq<State>, acts: seq<Action>, n: nat, m: nat, i: nat, b: Buf)
    requires IsIteration(c, states, acts, n, m, i, b) && states[n].gs[i].proc.Unicast?
    requires Met(states, acts, n, m, i).read == Failed
    ensures var met, stale := Met(states, acts, n, m, i), Contents(states[n].pool, b);
      var kind, frames := stale[0], OwnFrames(c, states, acts, n, m, i);
      && (frames != [] <==> IN in met.route && Sendable(kind, met.layer) && IsOpen(c.conf, Raw(met.route[IN])))
      && (frames != [] ==> |frames| == 1 && frames[0].Forwarded? && frames[0].payload == stale)
  {
    SendsExactly(c, states, acts, n, m, i, b);
  }

  // ----- Nothing the loop may meet is missing from the machine -----

  /** The step the loop takes next, for a turn that meets this layer. */
  function LoopStep(pc: Pc, layer: Layer): Act
    requires Held(pc).Some?
  {
    match pc
    case Reading(_) => ReadFails
    case Got(_, _) => Decode(layer)
    case Accepted(_, _, _) => LoadRoute
    case Routed(_, _, _, _) => Forward
    case _ => PutBack
  }

  /** At every point of a turn the loop's next step can be taken, whatever is read and whatever the decoder answers. */
  lemma TurnGoesOn(c: System, g: Goroutine, i: nat, s: State, layer: Layer, data: seq<Byte>)
    requires g.proc.Unicast? && Held(g.pc).Some? && !g.pc.Checked?
    ensures !Move(c, g, i, s, LoopStep(g.pc, layer)).Blocked?
    ensures g.pc.Reading? ==> Move(c, g, i, s, ReadDatagram(data)).Does? && Move(c, g, i, s, ReadError).Does?
  {
  }
}

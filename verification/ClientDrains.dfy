/**
 Exactly when the two channels commute: every way of draining them agrees with the enqueue
 order if and only if nothing pending on one names a group pending on the other.
 */
module ClientDrains {
  import opened Base
  import opened ClientProtocol
  import opened Ledger
  import opened ClientInvariants
  import opened ClientCommutation

  // ----- Draining -----

  ghost predicate LaneCanDrain(lane: Lane) {
    NoAddr !in Pending(lane) && (lane.worker.Exited? ==> lane.queue == [])
  }

  /** The workers are there to send everything pending, and all of it can be sent. */
  ghost predicate CanDrain(s: State) {
    !s.halted && LaneCanDrain(s.reports) && LaneCanDrain(s.leaves)
  }

  predicate WorkersOnly(acts: seq<Action>) {
    forall a <- acts :: IsWorker(a)
  }

  /** These worker actions lead from `s` to a state with nothing left to send. */
  predicate IsDrain(s: State, acts: seq<Action>) {
    WorkersOnly(acts) && Follow(s, acts).Some? && Drained(Follow(s, acts).value)
  }

  /** However the workers interleave, the network ends with the ledger of the enqueue order. */
  ghost predicate EveryDrainAgrees(s: State) {
    forall acts | IsDrain(s, acts) :: WireJoined(Follow(s, acts).value.wire) == Joined(s.events)
  }

  // ----- Balanced states agree -----

  lemma BalancedFollow(s: State, acts: seq<Action>)
    requires StateBalanced(s) && WorkersOnly(acts) && Follow(s, acts).Some?
    ensures StateBalanced(Follow(s, acts).value) && Follow(s, acts).value.events == s.events
  {
    var allowed := (a: Action) => IsWorker(a);
    var kept := (x: State) => StateBalanced(x) && x.events == s.events;
    forall x, a, y | kept(x) && allowed(a) && Step(x, a) == Some(y)
      ensures kept(y)
    {
      WorkerBalanced(x, a, y);
      WorkerFrame(x, a, y, Reports);
    }
    FollowKeeps(s, acts, allowed, kept);
  }

  lemma BalancedAgrees(s: State)
    requires StateBalanced(s)
    ensures EveryDrainAgrees(s)
  {
    forall acts | IsDrain(s, acts)
      ensures WireJoined(Follow(s, acts).value.wire) == Joined(s.events)
    {
      BalancedFollow(s, acts);
      DrainedPending(Follow(s, acts).value);
    }
  }

  // ----- Draining one lane -----

  function QueueWork(queue: seq<seq<Item>>): nat {
    if queue == [] then 0 else |queue[0]| + 2 + QueueWork(queue[1..])
  }

  /** The worker steps left to empty a lane. */
  function LaneWork(lane: Lane): nat {
    QueueWork(lane.queue) + if lane.worker.Sending? then |lane.worker.rest| + 1 else 0
  }

  function NextAct(lane: Lane, l: LaneId): Action {
    match lane.worker
    case Sending(rest) => if rest == [] then Next(l) else Send(l)
    case _ => Receive(l)
  }

  lemma NextActWorks(lane: Lane, cancelled: bool, l: LaneId)
    requires LaneCanDrain(lane) && LaneWork(lane) > 0
    ensures var m := MoveWorker(lane, cancelled, NextAct(lane, l));
      && m.Some? && m.value.WorkerMove?
      && LaneWork(m.value.lane) < LaneWork(lane) && LaneCanDrain(m.value.lane)
      && Unsent(lane) == (if m.value.sent.Some? then [m.value.sent.value] else []) + Unsent(m.value.lane)
  {
    if lane.worker.Sending? && lane.worker.rest != [] { assert Unsent(lane)[0] == lane.worker.rest[0].group; }
    MoveUnsent(lane, cancelled, NextAct(lane, l));
  }

  /** The ledger after everything pending on lane `l` has been sent. */
  ghost function WireAfter(joined: set<Addr>, pending: set<Addr>, l: LaneId): set<Addr> {
    if l == Reports then joined + pending else joined - pending
  }

  /** `t` is `s` with lane `l` drained by its worker. */
  ghost predicate LaneDrained(s: State, t: State, l: LaneId) {
    && t == SetLane(s, l, LaneOf(t, l)).(wire := t.wire)
    && LaneOf(t, l).queue == [] && !LaneOf(t, l).worker.Sending?
    && WireJoined(t.wire) == WireAfter(WireJoined(s.wire), Pending(LaneOf(s, l)), l)
  }

  lemma NothingLeft(lane: Lane)
    requires LaneWork(lane) == 0
    ensures lane.queue == [] && !lane.worker.Sending? && Pending(lane) == {}
  {
  }

  lemma SentPending(lane: Lane, m: WorkerMove)
    requires m.WorkerMove?
    requires Unsent(lane) == (if m.sent.Some? then [m.sent.value] else []) + Unsent(m.lane)
    ensures Pending(lane) == (if m.sent.Some? then {m.sent.value} else {}) + Pending(m.lane)
  {
    if m.sent.None? { assert Unsent(lane) == Unsent(m.lane); }
  }

  /** Sending one item changes nothing about the ledger once the lane is drained. */
  lemma SentLedger(wire: seq<Msg>, lane: Lane, m: WorkerMove, l: LaneId)
    requires m.WorkerMove? && Pending(lane) == (if m.sent.Some? then {m.sent.value} else {}) + Pending(m.lane)
    ensures var wire' := if m.sent.Some? then wire + [Msg(l, m.sent.value)] else wire;
      WireAfter(WireJoined(wire'), Pending(m.lane), l) == WireAfter(WireJoined(wire), Pending(lane), l)
  {
    if m.sent.Some? { WireAppend(wire, Msg(l, m.sent.value)); }
  }

  lemma OneSent(s: State, l: LaneId, t: State)
    requires LaneCanDrain(LaneOf(s, l)) && LaneWork(LaneOf(s, l)) > 0
    requires Step(s, NextAct(LaneOf(s, l), l)) == Some(t)
    ensures t == SetLane(s, l, LaneOf(t, l)).(wire := t.wire)
    ensures LaneWork(LaneOf(t, l)) < LaneWork(LaneOf(s, l)) && LaneCanDrain(LaneOf(t, l))
    ensures WireAfter(WireJoined(t.wire), Pending(LaneOf(t, l)), l)
         == WireAfter(WireJoined(s.wire), Pending(LaneOf(s, l)), l)
  {
    var lane := LaneOf(s, l);
    var a := NextAct(lane, l);
    NextActWorks(lane, s.cancelled, l);
    WorkerFrame(s, a, t, l);
    WorkerShape(s, a, t);
    var m := MoveWorker(lane, s.cancelled, a).value;
    SentPending(lane, m);
    SentLedger(s.wire, lane, m, l);
  }

  /** A lane that can be drained can be drained by its worker alone. */
  lemma {:induction false} DrainLane(s: State, l: LaneId) returns (acts: seq<Action>, t: State)
    requires !s.halted && LaneCanDrain(LaneOf(s, l))
    ensures WorkersOnly(acts) && Follow(s, acts) == Some(t) && LaneDrained(s, t, l)
    decreases LaneWork(LaneOf(s, l))
  {
    if LaneWork(LaneOf(s, l)) == 0 {
      NothingLeft(LaneOf(s, l));
      acts, t := [], s;
    } else {
      var a := NextAct(LaneOf(s, l), l);
      NextActWorks(LaneOf(s, l), s.cancelled, l);
      var u := Step(s, a).value;
      OneSent(s, l, u);
      var rest;
      rest, t := DrainLane(u, l);
      acts := [a] + rest;
      assert acts[1..] == rest;
    }
  }

  /** Lane `first` drained, then the other. */
  lemma DrainBoth(s: State, first: LaneId) returns (acts: seq<Action>)
    requires CanDrain(s)
    ensures IsDrain(s, acts)
    ensures WireJoined(Follow(s, acts).value.wire)
         == WireAfter(WireAfter(WireJoined(s.wire), Pending(LaneOf(s, first)), first),
                      Pending(LaneOf(s, Other(first))), Other(first))
  {
    var a, t := DrainLane(s, first);
    var b, u := DrainLane(t, Other(first));
    FollowConcat(s, a, b);
    acts := a + b;
  }

  lemma StepCanDrain(s: State, a: Action, t: State)
    requires IsWorker(a) && Step(s, a) == Some(t) && CanDrain(t)
    ensures CanDrain(s)
  {
    var lane := LaneOf(s, a.lane);
    var m := MoveWorker(lane, s.cancelled, a).value;
    WorkerFrame(s, a, t, a.lane);
    WorkerFrame(s, a, t, Other(a.lane));
    if m.WorkerMove? {
      MoveUnsent(lane, s.cancelled, a);
      SentPending(lane, m);
    }
  }

  /** A fatal item is never drained. */
  lemma FatalStays(s: State, a: Action, t: State, rest: seq<Action>)
    requires IsWorker(a) && Step(s, a) == Some(t) && IsDrain(t, rest)
    ensures !t.halted
  {
    WorkerFrame(s, a, t, a.lane);
    WorkerFrame(s, a, t, Other(a.lane));
    assert t.halted ==> LaneOf(t, a.lane).worker.Sending?;
  }

  lemma {:induction false} DrainedCould(s: State, acts: seq<Action>)
    requires IsDrain(s, acts) && !s.halted
    ensures CanDrain(s)
    decreases |acts|
  {
    if acts == [] {
      DrainedPending(s);
    } else {
      var t := Step(s, acts[0]).value;
      FatalStays(s, acts[0], t, acts[1..]);
      DrainedCould(t, acts[1..]);
      StepCanDrain(s, acts[0], t);
    }
  }

  /** Some way of draining a running client exists exactly if its workers are there and every item can be sent. */
  lemma DrainsExist(s: State)
    requires !s.halted
    ensures (exists acts :: IsDrain(s, acts)) <==> CanDrain(s)
  {
    if acts :| IsDrain(s, acts) { DrainedCould(s, acts); }
    if CanDrain(s) { var acts := DrainBoth(s, Reports); }
  }

  // ----- The exact condition -----

  lemma BothOrdersDisjoint(wire: set<Addr>, reports: set<Addr>, leaves: set<Addr>)
    requires (wire + reports) - leaves == (wire - leaves) + reports
    ensures reports !! leaves
  {
    forall g
      ensures g in reports ==> g !in leaves
    {
      assert g in (wire + reports) - leaves <==> g in (wire - leaves) + reports;
    }
  }

  lemma AgreesBalanced(s: State)
    requires CanDrain(s) && EveryDrainAgrees(s)
    ensures StateBalanced(s)
  {
    var a := DrainBoth(s, Reports);
    var b := DrainBoth(s, Departures);
    BothOrdersDisjoint(WireJoined(s.wire), Pending(s.reports), Pending(s.leaves));
  }

  /** Every way of draining gives the ledger of the enqueue order exactly in balanced states. */
  lemma DrainsAgreeWhenBalanced(s: State)
    requires CanDrain(s)
    ensures EveryDrainAgrees(s) <==> StateBalanced(s)
  {
    if StateBalanced(s) { BalancedAgrees(s); }
    if EveryDrainAgrees(s) { AgreesBalanced(s); }
  }

  lemma PostedApart(s: State, e: Event, reports: Lane, leaves: Lane)
    requires reports == Post(s, e).reports && leaves == Post(s, e).leaves && Pending(reports) !! Pending(leaves)
    ensures Groups(e.items) !! Pending(LaneOf(s, Other(LaneFor(e))))
  {
    PendingPost(LaneOf(s, LaneFor(e)), e.items);
  }

  lemma EventBalanced(s: State, e: Event, t: State)
    requires StateBalanced(s)
    requires var p := Post(s, e);
      t.wire == p.wire && t.reports == p.reports && t.leaves == p.leaves && t.events == p.events
    ensures StateBalanced(t) <==> Groups(e.items) !! Pending(LaneOf(s, Other(LaneFor(e))))
  {
    if Groups(e.items) !! Pending(LaneOf(s, Other(LaneFor(e)))) { PostBalanced(s, e); }
    if StateBalanced(t) { PostedApart(s, e, t.reports, t.leaves); }
  }

  lemma PostedBalanced(s: State, a: Action, t: State)
    requires StateBalanced(s) && Step(s, a) == Some(t) && Posted(s, a).Some?
    ensures StateBalanced(t) <==> NoOverlap(s, a)
  {
    PostedFrame(s, a, t);
    EventBalanced(s, Posted(s, a).value, t);
  }

  /**
   From a balanced state an enqueue leaves the channels commuting if and only if it names no group that
   the other channel has pending.
   */
  lemma EnqueueCommutes(s: State, a: Action, t: State)
    requires StateBalanced(s) && Step(s, a) == Some(t) && Posted(s, a).Some? && CanDrain(t)
    ensures EveryDrainAgrees(t) <==> NoOverlap(s, a)
  {
    DrainsAgreeWhenBalanced(t);
    PostedBalanced(s, a, t);
  }

  /**
   The channels commute at every point of a run if and only if no enqueue of the run names a group that
   the other channel has pending at that moment.
   */
  lemma ChannelsCommuteExactly(states: seq<State>, acts: seq<Action>, n: nat)
    requires IsRun(states, acts) && n <= |acts| && forall i | 0 <= i <= n :: CanDrain(states[i])
    ensures (forall i | 0 <= i <= n :: EveryDrainAgrees(states[i]))
       <==> (forall i | 0 <= i < n :: NoOverlap(states[i], acts[i]))
  {
    if forall i | 0 <= i < n :: NoOverlap(states[i], acts[i]) {
      forall i | 0 <= i <= n
        ensures EveryDrainAgrees(states[i])
      {
        BalancedAlongRun(states, acts, i);
        BalancedAgrees(states[i]);
      }
    }
    if forall i | 0 <= i <= n :: EveryDrainAgrees(states[i]) {
      forall i | 0 <= i < n
        ensures NoOverlap(states[i], acts[i])
      {
        AgreesBalanced(states[i]);
        AgreesBalanced(states[i + 1]);
        assert Step(states[i], acts[i]) == Some(states[i + 1]);
        if Posted(states[i], acts[i]).Some? { PostedBalanced(states[i], acts[i], states[i + 1]); }
      }
    }
  }
}

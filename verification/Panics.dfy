/**
 Exactly when no run panics on a failed cast or on an item without an address.
 */
module Panics {
  import opened Base
  import opened Setup
  import opened Library
  import opened Routing
  import opened Destinations
  import opened Handles
  import opened HandleWitnesses
  import opened Acceptance
  import Losses

  /** Nothing casts a decoded layer or an address: no packets are accepted, and none are sent for lists of items. */
  predicate PanicFree(c: System, inputs: set<Side>) {
    && !c.conf.unicastProxyInToOut && !c.conf.membershipReportsToNetwork && !c.conf.leaveToNetwork
    && !CanAccept(c, inputs, IN) && !CanAccept(c, inputs, OUT) && !CanAccept(c, inputs, ALTOUT)
  }

  // ----- Without the condition nothing panics -----

  /** What a goroutine other than a multicast receiver is doing when it panics. */
  lemma OtherPanics(c: System, g: Goroutine, i: nat, s: State, a: Act)
    requires Move(c, g, i, s, a).Panics? && !g.proc.Multicast? && GoroutineOk(g) && Started(c.conf, g.proc)
    ensures c.conf.unicastProxyInToOut || c.conf.membershipReportsToNetwork || c.conf.leaveToNetwork
  {
  }

  lemma FilterPanics(c: System, g: Goroutine, i: nat, s: State, a: Act)
    requires g.proc.Multicast? && Move(c, g, i, s, a).Panics?
    ensures g.pc.Checked? && g.pc.from.FromPacket? && g.pc.from.pid < |s.packets|
    ensures ForReceiver(c, g.proc, s.packets[g.pc.from.pid])
  {
  }

  lemma NoPanicHere(c: System, inputs: set<Side>, states: seq<State>, acts: seq<Action>, n: nat, i: nat, a: Act)
    requires IsRun(c, states, acts) && n <= |acts| && InputsSatisfy(acts, n, v => v in inputs) && PanicFree(c, inputs)
    requires i < |states[n].gs|
    ensures !Move(c, states[n].gs[i], i, states[n], a).Panics?
  {
    var s := states[n];
    if Move(c, s.gs[i], i, s, a).Panics? {
      ProcsAlongRun(c, states, acts, n);
      ProcStarted(c, s.gs, i);
      if s.gs[i].proc.Multicast? {
        FilterPanics(c, s.gs[i], i, s, a);
        CheckedMeansCan(c, inputs, states, acts, n, i);
      } else {
        PrivateQuerierCopies(c, states, acts, n);
        OtherPanics(c, s.gs[i], i, s, a);
      }
    }
  }

  lemma PanickedByMove(c: System, s: State, a: Action, t: State)
    requires Step(c, s, a) == Some(t) && s.status != Panicked
    requires a.Do? && a.i < |s.gs| ==> !Move(c, s.gs[a.i], a.i, s, a.act).Panics?
    ensures t.status != Panicked
  {
  }

  lemma {:induction false} NeverPanics(c: System, inputs: set<Side>, states: seq<State>, acts: seq<Action>, n: nat)
    requires IsRun(c, states, acts) && n <= |acts| && InputsSatisfy(acts, n, v => v in inputs) && PanicFree(c, inputs)
    ensures states[n].status != Panicked
  {
    if n > 0 {
      NeverPanics(c, inputs, states, acts, n - 1);
      var s, a := states[n - 1], acts[n - 1];
      assert Step(c, s, a) == Some(states[n]);
      if a.Do? && a.i < |s.gs| { NoPanicHere(c, inputs, states, acts, n - 1, a.i, a.act); }
      PanickedByMove(c, s, a, states[n]);
    }
  }

  // ----- Otherwise something does -----

  lemma FilterCasts(c: System, s: State, i: nat, side: Side)
    requires i < |s.gs| && s.packets == [PacketTo(c, side, REPORT_V2)] && FirstByte(s, 0) == REPORT_V2
    requires s.gs[i] == Goroutine(Multicast(side, ALL_HOSTS), Checked(0, FromPacket(0)), NoAddr, 1) && Visible(c, side)
    ensures Move(c, s.gs[i], i, s, Filter(V3([]), true)).Panics?
  {
  }

  /** A version 2 report that decodes as a version 3 report. */
  lemma ReceiverPanics(c: System, inputs: set<Side>, side: Side) returns (s: State)
    requires CanAccept(c, inputs, side)
    ensures ReachableGiven(c, inputs, s) && s.status == Panicked
  {
    var i: nat;
    s, i := SomeChecked(c, inputs, side, REPORT_V2);
    FilterCasts(c, s, i, side);
    s := GoPanic(c, inputs, s, i, Filter(V3([]), true));
  }

  lemma UnicastPanics(c: System, inputs: set<Side>) returns (s: State)
    requires c.conf.unicastProxyInToOut
    ensures ReachableGiven(c, inputs, s) && s.status == Panicked
  {
    var i: nat;
    s, i := Losses.DatagramRouted(c, inputs, REPORT_V2);
    s := GoPanic(c, inputs, s, i, Forward);
  }

  /** An item without an address. */
  lemma LeavePanics(c: System, inputs: set<Side>) returns (s: State)
    requires c.conf.leaveToNetwork
    ensures ReachableGiven(c, inputs, s) && s.status == Panicked
  {
    var i: nat;
    s, i := LeaveEnqueued(c, inputs, Item([], NoAddr));
    s := LeaveReceived(c, inputs, s, i, Item([], NoAddr));
    s := GoPanic(c, inputs, s, i, SendItem);
  }

  lemma ReportReceived(c: System, inputs: set<Side>, item: Item) returns (s: State, i: nat)
    requires c.conf.membershipReportsToNetwork
    ensures ReachableGiven(c, inputs, s) && s.status == Running && i < |s.gs|
    ensures s.gs[i] == Goroutine(ReportWorker, Sending([item]), NoAddr, 0)
  {
    StartGiven(c, inputs);
    i := Find(c, ReportWorker);
    s := GoGiven(c, inputs, Init(c), EnqueueReport([item]));
    assert s.chans.report == [[item]];
    s := GoMove(c, inputs, s, i, ReceiveList);
  }

  lemma ReportPanics(c: System, inputs: set<Side>) returns (s: State)
    requires c.conf.membershipReportsToNetwork
    ensures ReachableGiven(c, inputs, s) && s.status == Panicked
  {
    var i: nat;
    s, i := ReportReceived(c, inputs, Item([], NoAddr));
    s := GoPanic(c, inputs, s, i, SendItem);
  }

  lemma SomePanic(c: System, inputs: set<Side>) returns (s: State)
    requires !PanicFree(c, inputs)
    ensures ReachableGiven(c, inputs, s) && s.status == Panicked
  {
    if c.conf.unicastProxyInToOut {
      s := UnicastPanics(c, inputs);
    } else if c.conf.membershipReportsToNetwork {
      s := ReportPanics(c, inputs);
    } else if c.conf.leaveToNetwork {
      s := LeavePanics(c, inputs);
    } else {
      var side :| CanAccept(c, inputs, side);
      s := ReceiverPanics(c, inputs, side);
    }
  }

  /**
   With the application selecting sides in `inputs`: no run panics, whatever the decoder answers and whatever items
   are enqueued, if and only if there are no unicast receiver, no report worker and no leave worker, and no side on
   which packets can be accepted.
   */
  lemma PanicsExactly(c: System, inputs: set<Side>)
    ensures (forall s | ReachableGiven(c, inputs, s) :: s.status != Panicked) <==> PanicFree(c, inputs)
  {
    if PanicFree(c, inputs) {
      forall s | ReachableGiven(c, inputs, s)
        ensures s.status != Panicked
      {
        var states, acts :|
          IsRun(c, states, acts) && InputsSatisfy(acts, |acts|, v => v in inputs) && states[|acts|] == s;
        NeverPanics(c, inputs, states, acts, |acts|);
      }
    } else {
      var s := SomePanic(c, inputs);
    }
  }
}

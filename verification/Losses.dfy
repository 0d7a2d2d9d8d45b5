/**
 Exactly when no buffer is ever lost.
 */
module Losses {
  import opened Base
  import opened Setup
  import opened Library
  import opened Routing
  import opened AtMostOnce
  import opened Handles
  import opened HandleWitnesses
  import opened BufferTheorems
  import opened Acceptance
  import LibraryCounterexamples

  /** There is no unicast receiver, and what can be accepted on an outside is proxied from there. */
  predicate LossFree(c: System, inputs: set<Side>) {
    && !c.conf.unicastProxyInToOut && !CanAccept(c, inputs, ALTOUT)
    && (CanAccept(c, inputs, OUT) ==> c.conf.proxyOutToIn)
  }

  // ----- Without a loss-making side nothing is lost -----

  /** A packet past the filters is in the log. */
  lemma HeldIsLogged(s: State, i: nat)
    requires i < |s.gs| && HandOk(s.gs[i], i, s.accepts, s.frames)
    requires s.gs[i].proc.Multicast? && s.gs[i].pc.Accepted? && s.gs[i].pc.from.FromPacket?
    ensures exists k: nat :: AcceptedOn(s, k, s.gs[i].proc.side)
  {
    var k :| 0 <= k < |s.accepts| && s.accepts[k] == Accept(i, s.gs[i].pc.from.pid);
    assert AcceptedOn(s, k, s.gs[i].proc.side);
  }

  lemma NoLossHere(c: System, inputs: set<Side>, states: seq<State>, acts: seq<Action>, n: nat)
    requires IsRun(c, states, acts) && n < |acts| && InputsSatisfy(acts, n, v => v in inputs) && LossFree(c, inputs)
    ensures !NeverReturned(c, states[n], acts[n])
  {
    var s, a := states[n], acts[n];
    if NeverReturned(c, s, a) {
      ProcsAlongRun(c, states, acts, n);
      ProcStarted(c, s.gs, a.i);
      OnceAlongRun(c, states, acts, n);
      MulticastHasPackets(c, states, acts, n);
      HeldIsLogged(s, a.i);
      var side := s.gs[a.i].proc.side;
      var k: nat :| AcceptedOn(s, k, side);
      AcceptedMeansCan(c, inputs, states, acts, n, k, side);
    }
  }

  lemma {:induction false} NoLosses(c: System, inputs: set<Side>, states: seq<State>, acts: seq<Action>, n: nat)
    requires IsRun(c, states, acts) && n <= |acts| && InputsSatisfy(acts, n, v => v in inputs) && LossFree(c, inputs)
    ensures WithoutPut(c, states, acts, n) == 0
  {
    if n > 0 {
      NoLosses(c, inputs, states, acts, n - 1);
      NoLossHere(c, inputs, states, acts, n - 1);
    }
  }

  lemma LosesNothing(c: System, inputs: set<Side>, s: State)
    requires ReachableGiven(c, inputs, s) && LossFree(c, inputs)
    ensures s.pool.lost == {}
  {
    var states, acts :|
      IsRun(c, states, acts) && InputsSatisfy(acts, |acts|, v => v in inputs) && states[|acts|] == s;
    NoLosses(c, inputs, states, acts, |acts|);
    UnreturnedAreWithoutPut(c, states, acts, |acts|);
    BufferAccounting(c, states, acts, |acts|);
  }

  // ----- Otherwise some run loses a buffer -----

  /** The unicast receiver decodes a datagram as a version 3 report, whatever its type ... */
  lemma DatagramDecoded(c: System, inputs: set<Side>, kind: Byte) returns (s: State, i: nat)
    requires c.conf.unicastProxyInToOut
    ensures ReachableGiven(c, inputs, s) && s.status == Running && i < |s.gs| && IN in s.route
    ensures s.gs[i].proc == Unicast && s.gs[i].pc.Accepted? && s.gs[i].pc.layer.V3?
    ensures FirstByte(s, s.gs[i].pc.buf) == kind
  {
    StartGiven(c, inputs);
    i := Find(c, Unicast);
    s := LibraryCounterexamples.ReadFirst(c, inputs, Init(c), i, [kind]);
    s := GoMove(c, inputs, s, i, Decode(V3([])));
  }

  /** ... looks up the route ... */
  lemma DatagramRouted(c: System, inputs: set<Side>, kind: Byte) returns (s: State, i: nat)
    requires c.conf.unicastProxyInToOut
    ensures ReachableGiven(c, inputs, s) && s.status == Running && i < |s.gs|
    ensures s.gs[i].proc == Unicast && s.gs[i].pc.Routed? && s.gs[i].pc.layer.V3?
    ensures FirstByte(s, s.gs[i].pc.buf) == kind
  {
    s, i := DatagramDecoded(c, inputs, kind);
    s := GoMove(c, inputs, s, i, LoadRoute);
  }

  /** ... and keeps its buffer, when it does not forward that type. */
  lemma UnicastLoses(c: System, inputs: set<Side>) returns (s: State)
    requires c.conf.unicastProxyInToOut
    ensures ReachableGiven(c, inputs, s) && s.pool.lost != {}
  {
    var i: nat;
    s, i := DatagramRouted(c, inputs, MEMBERSHIP_QUERY);
    var b := s.gs[i].pc.buf;
    s := GoMove(c, inputs, s, i, Forward);
    assert b in s.pool.lost;
  }

  lemma MulticastLoses(c: System, inputs: set<Side>, side: Side) returns (s: State)
    requires CanAccept(c, inputs, side) && !ProxyIt(c.conf, side)
    ensures ReachableGiven(c, inputs, s) && s.pool.lost != {}
  {
    var i: nat;
    s, i := SomeAcceptance(c, inputs, side);
    var b := s.gs[i].pc.buf;
    s := GoMove(c, inputs, s, i, LoadRoute);
    assert b in s.pool.lost;
  }

  /**
   With the application selecting sides in `inputs`: no run loses a buffer if and only if nothing is received by
   unicast and every side on which a packet can be accepted is proxied.
   */
  lemma LosesExactly(c: System, inputs: set<Side>)
    ensures (forall s | ReachableGiven(c, inputs, s) :: s.pool.lost == {}) <==> LossFree(c, inputs)
  {
    if LossFree(c, inputs) {
      forall s | ReachableGiven(c, inputs, s)
        ensures s.pool.lost == {}
      {
        LosesNothing(c, inputs, s);
      }
    } else if c.conf.unicastProxyInToOut {
      var s := UnicastLoses(c, inputs);
    } else {
      var s := MulticastLoses(c, inputs, if CanAccept(c, inputs, ALTOUT) then ALTOUT else OUT);
    }
  }
}

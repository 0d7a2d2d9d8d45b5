/**
 The documented ways of configuring the library, and what the exact conditions say of each.
 */
module Modes {
  import opened Base
  import opened Setup
  import opened Library
  import opened Handles
  import opened HandleWitnesses
  import opened Reflection
  import opened Acceptance
  import opened Losses

  /** Proxy from the outside to the inside, with unicast reports from the inside; one outside or two. */
  predicate ProxyMode(conf: Config) {
    && conf.proxyOutToIn && !conf.proxyInToOut && conf.unicastProxyInToOut
    && !conf.queryNotify && !conf.membershipReportsFromNetwork && !conf.membershipReportsToNetwork
    && !conf.unicastMembershipReports && conf.leaveToNetwork
  }

  /** Full proxying, which is documented with two outsides. */
  predicate FullProxyMode(conf: Config) {
    && conf.proxyOutToIn && conf.proxyInToOut && conf.unicastProxyInToOut && conf.AltOutExists()
    && !conf.queryNotify && !conf.membershipReportsFromNetwork && !conf.membershipReportsToNetwork
    && !conf.unicastMembershipReports && conf.leaveToNetwork
  }

  predicate ClientMode(conf: Config) {
    && !conf.proxyOutToIn && !conf.proxyInToOut && !conf.unicastProxyInToOut && !conf.AltOutExists()
    && conf.queryNotify && conf.membershipReportsFromNetwork && conf.membershipReportsToNetwork
    && conf.unicastMembershipReports && conf.leaveToNetwork
  }

  /** No run in which the application selects sides from `inputs` touches an unopened handle. */
  ghost predicate Safe(c: System, inputs: set<Side>) {
    forall s | ReachableGiven(c, inputs, s) :: s.status != Crashed
  }

  /** A client, and a proxy with one outside, never touch an unopened handle, and every forward crosses. */
  lemma OneOutsideIsSafe(c: System, inputs: set<Side>)
    requires ClientMode(c.conf) || (ProxyMode(c.conf) && !c.conf.AltOutExists())
    ensures Safe(c, inputs) && !SelectorRuns(c.conf)
    ensures forall s, k | ReachableGiven(c, inputs, s) && 0 <= k < |s.frames| :: Crosses(s.frames[k])
  {
    HandleReadiness(c, inputs);
    NoReflection(c, inputs);
  }

  /**
   With two outsides the documented modes are only safe while the alternative outside is never selected:
   its raw connection is not opened by any configuration. Selecting the inside is safe, but reflects.
   */
  lemma TwoOutsides(c: System, inputs: set<Side>)
    requires (ProxyMode(c.conf) && c.conf.AltOutExists()) || FullProxyMode(c.conf)
    ensures Safe(c, inputs) <==> inputs <= {OUT, IN}
    ensures (forall s, k | ReachableGiven(c, inputs, s) && 0 <= k < |s.frames| :: Crosses(s.frames[k]))
       <==> IN !in inputs
    ensures SelectorRuns(c.conf)
  {
    HandleReadiness(c, inputs);
    NoReflection(c, inputs);
    assert forall v :: IsOpen(c.conf, Raw(v)) <==> v == OUT || v == IN;
    if forall v <- inputs :: IsOpen(c.conf, Raw(v)) {
      assert forall v <- inputs :: v == OUT || v == IN;
      assert inputs <= {OUT, IN};
    } else {
      var v :| v in inputs && !IsOpen(c.conf, Raw(v));
      assert v !in {OUT, IN};
    }
  }

  /** Every documented way of configuring the library has a run that loses a buffer. */
  lemma EveryModeLoses(c: System, inputs: set<Side>)
    requires ClientMode(c.conf) || ProxyMode(c.conf) || FullProxyMode(c.conf)
    ensures exists s :: ReachableGiven(c, inputs, s) && s.pool.lost != {}
  {
    assert ClientMode(c.conf) ==> CanAccept(c, inputs, OUT);
    LosesExactly(c, inputs);
  }
}

/**
 Runs of the library that show where its behaviour departs from what one might expect.
 */
module LibraryCounterexamples {
  import opened Base
  import opened Setup
  import opened Library
  import opened Routing
  import opened Handles
  import opened HandleWitnesses

  /** What one iteration of the unicast receiver over a version 3 report leaves behind. */
  ghost predicate AfterForward(r: State, s: State, i: nat, b: Buf, f: Frame) {
    && s.status == Running && i < |s.gs| && s.gs[i] == Goroutine(Unicast, Head, NoAddr, 0)
    && s.frames == r.frames + [f] && b in s.pool.free && b in s.pool.contents
    && s.pool.contents == r.pool.contents && s.route == r.route && !s.cancelled
  }

  lemma WriteAndPut(c: System, inputs: set<Side>, r: State, i: nat) returns (s: State, f: Frame)
    requires ReachableGiven(c, inputs, r) && r.status == Running && i < |r.gs| && !r.cancelled
    requires r.gs[i].proc == Unicast && r.gs[i].pc.Routed? && r.gs[i].pc.buf == 0
    requires r.gs[i].querier == NoAddr && r.gs[i].seen == 0 && IsOpen(c.conf, Raw(r.gs[i].pc.out))
    requires FirstByte(r, 0) == REPORT_V3 && 0 in r.pool.contents
    ensures ReachableGiven(c, inputs, s) && AfterForward(r, s, i, 0, f)
    ensures f.Forwarded? && f.proc == Unicast && f.from == r.gs[i].pc.from && f.out == r.gs[i].pc.out
    ensures f.payload == Contents(r.pool, 0)
  {
    s := GoMove(c, inputs, r, i, Forward);
    f := s.frames[|r.frames|];
    s := GoMove(c, inputs, s, i, PutBack);
  }

  lemma ForwardV3(c: System, inputs: set<Side>, r: State, i: nat, from: Origin, out: Side) returns (s: State, f: Frame)
    requires ReachableGiven(c, inputs, r) && r.status == Running && i < |r.gs| && !r.cancelled
    requires r.gs[i] == Goroutine(Unicast, Got(0, from), NoAddr, 0)
    requires IN in r.route && r.route[IN] == out && IsOpen(c.conf, Raw(out))
    requires FirstByte(r, 0) == REPORT_V3 && 0 in r.pool.contents
    ensures ReachableGiven(c, inputs, s) && AfterForward(r, s, i, 0, f)
    ensures f.Forwarded? && f.proc == Unicast && f.from == from && f.out == out && f.payload == Contents(r.pool, 0)
  {
    s := GoMove(c, inputs, r, i, Decode(V3([])));
    s := GoMove(c, inputs, s, i, LoadRoute);
    assert s.gs[i].pc == Routed(0, from, V3([]), out);
    s, f := WriteAndPut(c, inputs, s, i);
  }

  /** A unicast receiver that has read `data` into buffer 0. */
  lemma ReadFirst(c: System, inputs: set<Side>, r: State, i: nat, data: seq<Byte>) returns (s: State)
    requires ReachableGiven(c, inputs, r) && r.status == Running && i < |r.gs| && !r.cancelled
    requires r.gs[i] == Goroutine(Unicast, Head, NoAddr, 0) && IsOpen(c.conf, UCon(IN))
    requires r.pool == Init(c).pool && data != []
    ensures ReachableGiven(c, inputs, s) && s.status == Running && i < |s.gs| && !s.cancelled
    ensures s.gs[i] == Goroutine(Unicast, Got(0, FromDatagram(data)), NoAddr, 0)
    ensures s.route == r.route && s.frames == r.frames && 0 in s.pool.contents && FirstByte(s, 0) == data[0]
    ensures Truncate(data) <= Contents(s.pool, 0)
  {
    s := GoBegin(c, inputs, r, i, 0);
    s := GoMove(c, inputs, s, i, ReadDatagram(data));
    assert Contents(s.pool, 0) == Overlay(Zeros(), data);
  }

  /** The next iteration takes the same buffer, and its read fails without a timeout. */
  lemma ErrorAfter(c: System, r: State, i: nat) returns (s: State)
    requires ReachableGiven(c, {}, r) && r.status == Running && i < |r.gs| && !r.cancelled
    requires r.gs[i] == Goroutine(Unicast, Head, NoAddr, 0) && IsOpen(c.conf, UCon(IN))
    requires 0 in r.pool.free && 0 in r.pool.contents
    ensures ReachableGiven(c, {}, s) && s.status == Running && i < |s.gs| && !s.cancelled
    ensures s.gs[i] == Goroutine(Unicast, Got(0, FromError), NoAddr, 0)
    ensures s.route == r.route && s.frames == r.frames && s.pool.contents == r.pool.contents
  {
    s := GoBegin(c, {}, r, i, 0);
    s := GoMove(c, {}, s, i, ReadError);
  }

  /**
   A failed read is not skipped: after a version 3 report, an error other than a timeout makes the
   receiver process the stale buffer and send the same report to the outside once more.
   */
  lemma StaleReportResent(c: System, data: seq<Byte>) returns (s: State)
    requires c.conf.unicastProxyInToOut && data != [] && data[0] == REPORT_V3
    ensures ReachableGiven(c, {}, s) && |s.frames| == 2
    ensures s.frames[0].Forwarded? && s.frames[0].from == FromDatagram(data) && Truncate(data) <= s.frames[0].payload
    ensures s.frames[1].Forwarded? && s.frames[1].from == FromError && s.frames[1].payload == s.frames[0].payload
  {
    StartGiven(c, {});
    var i := Find(c, Unicast);
    s := ReadFirst(c, {}, Init(c), i, data);
    var f: Frame;
    s, f := ForwardV3(c, {}, s, i, FromDatagram(data), OUT);
    s := ErrorAfter(c, s, i);
    s, f := ForwardV3(c, {}, s, i, FromError, OUT);
  }

  /** If the application selects the inside, what arrives on the inside is sent back to the inside. */
  lemma Reflected(c: System, data: seq<Byte>) returns (s: State)
    requires SelectorRuns(c.conf) && c.conf.unicastProxyInToOut && c.conf.proxyOutToIn
    requires data != [] && data[0] == REPORT_V3
    ensures ReachableGiven(c, {IN}, s) && |s.frames| == 1
    ensures s.frames[0].Forwarded? && s.frames[0].proc == Unicast && ArrivesOn(Unicast) == IN == s.frames[0].out
  {
    s := SelectSide(c, {IN}, IN);
    var i := Find(c, Unicast);
    s := ReadFirst(c, {IN}, s, i, data);
    var f: Frame;
    s, f := ForwardV3(c, {IN}, s, i, FromDatagram(data), IN);
  }

  /** The outside receiver for all hosts has read a query. */
  lemma QueryArrived(c: System, query: Packet) returns (s: State, i: nat)
    requires c.conf.ListensOutside()
    ensures ReachableGiven(c, {}, s) && s.status == Running && i < |s.gs| == |Init(c).gs|
    ensures s.packets == [query] && s.chans == Init(c).chans && s.frames == [] && Contents(s.pool, 0) == Zeros()
    ensures s.gs[i] == Goroutine(Multicast(OUT, ALL_HOSTS), Reading(0), NoAddr, 0)
    ensures forall j | 0 <= j < |s.gs| && j != i :: s.gs[j] == Init(c).gs[j]
    ensures Init(c).gs[i].proc.Multicast?
  {
    StartGiven(c, {});
    i := Find(c, Multicast(OUT, ALL_HOSTS));
    s := GoGiven(c, {}, Init(c), Arrive(query));
    s := GoBegin(c, {}, s, i, 0);
  }

  lemma QueryRead(c: System, query: Packet) returns (s: State, i: nat)
    requires c.conf.ListensOutside() && !c.conf.AltOutExists()
    requires query.payload == [MEMBERSHIP_QUERY]
    ensures ReachableGiven(c, {}, s) && s.status == Running && i < |s.gs| == |Init(c).gs|
    ensures s.packets == [query] && s.chans == Init(c).chans && s.frames == []
    ensures s.gs[i] == Goroutine(Multicast(OUT, ALL_HOSTS), Got(0, FromPacket(0)), NoAddr, 1)
    ensures forall j | 0 <= j < |s.gs| && j != i :: s.gs[j] == Init(c).gs[j]
    ensures Init(c).gs[i].proc.Multicast? && FirstByte(s, 0) == MEMBERSHIP_QUERY
  {
    s, i := QueryArrived(c, query);
    assert Overlay(Zeros(), query.payload)[0] == MEMBERSHIP_QUERY;
    s := GoMove(c, {}, s, i, ReadPacket);
  }

  lemma LearnQuerier(c: System, r: State, i: nat, query: Packet) returns (s: State)
    requires ReachableGiven(c, {}, r) && r.status == Running && i < |r.gs|
    requires r.gs[i] == Goroutine(Multicast(OUT, ALL_HOSTS), Checked(0, FromPacket(0)), NoAddr, 1)
    requires r.packets == [query] && ForReceiver(c, Multicast(OUT, ALL_HOSTS), query)
    requires FirstByte(r, 0) == MEMBERSHIP_QUERY && r.chans.query == 0
    ensures ReachableGiven(c, {}, s) && s.status == Running && |s.gs| == |r.gs|
    ensures s.gs[i].querier == query.src && s.chans.report == r.chans.report && s.frames == r.frames
    ensures forall j | 0 <= j < |s.gs| && j != i :: s.gs[j] == r.gs[j]
  {
    s := GoMove(c, {}, r, i, Filter(V3([]), true));
  }

  lemma QueryLearned(c: System, query: Packet) returns (s: State, i: nat)
    requires c.conf.ListensOutside() && !c.conf.AltOutExists()
    requires query.payload == [MEMBERSHIP_QUERY] && ForReceiver(c, Multicast(OUT, ALL_HOSTS), query)
    ensures ReachableGiven(c, {}, s) && s.status == Running && i < |s.gs| == |Init(c).gs|
    ensures s.gs[i].querier == query.src && s.chans.report == [] && s.frames == []
    ensures Init(c).gs[i].proc.Multicast?
    ensures forall j | 0 <= j < |s.gs| && j != i :: s.gs[j] == Init(c).gs[j]
  {
    s, i := QueryRead(c, query);
    s := GoMove(c, {}, s, i, AltFilter);
    s := LearnQuerier(c, s, i, query);
  }

  /** The report worker receives one list of one item and sends it. */
  lemma SendReport(c: System, r: State, j: nat, item: Item) returns (s: State)
    requires ReachableGiven(c, {}, r) && r.status == Running && j < |r.gs| && item.group != NoAddr
    requires r.gs[j] == Goroutine(ReportWorker, Head, NoAddr, 0) && r.chans.report == [[item]] && r.frames == []
    requires c.conf.unicastMembershipReports && IsOpen(c.conf, Raw(OUT))
    ensures ReachableGiven(c, {}, s) && |s.gs| == |r.gs|
    ensures forall k | 0 <= k < |s.gs| && k != j :: s.gs[k] == r.gs[k]
    ensures s.frames == [Originated(ReportWorker, QUERY_HOST, c.conf.unicastDst, REPORT_V2, item.group)]
  {
    s := GoMove(c, {}, r, j, ReceiveList);
    assert s.gs[j] == Goroutine(ReportWorker, Sending([item]), NoAddr, 0);
    s := GoMove(c, {}, s, j, SendItem);
  }

  /**
   A learned querier is not used: after a receiver has taken a querier's address from its query,
   the report that answers it still goes to the configured unicast address.
   */
  lemma ReportIgnoresQuerier(c: System, query: Packet, item: Item) returns (s: State, i: nat)
    requires c.conf.ListensOutside() && !c.conf.AltOutExists()
    requires c.conf.membershipReportsToNetwork && c.conf.unicastMembershipReports
    requires query.payload == [MEMBERSHIP_QUERY] && ForReceiver(c, Multicast(OUT, ALL_HOSTS), query)
    requires item.group != NoAddr
    ensures ReachableGiven(c, {}, s) && i < |s.gs| && s.gs[i].querier == query.src
    ensures s.frames == [Originated(ReportWorker, QUERY_HOST, c.conf.unicastDst, REPORT_V2, item.group)]
  {
    s, i := QueryLearned(c, query);
    var j := Find(c, ReportWorker);
    s := GoGiven(c, {}, s, EnqueueReport([item]));
    assert s.chans.report == [[item]];
    s := SendReport(c, s, j, item);
  }
}

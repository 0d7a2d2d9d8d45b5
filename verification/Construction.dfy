/**
 Building a reporter and starting its goroutines, step by step as the code does it.
 */
module Construction {
  import opened Base
  import opened Setup

  /** Codes to addresses and back: the two maps are inverse to each other. */
  method MakeIPMaps() returns (toAddr: map<Dest, Addr>, toCode: map<Addr, Dest>)
    ensures toAddr == map[0 := V4(0, 0, 0, 0), 1 := V4(224, 0, 0, 1), 2 := V4(224, 0, 0, 2), 22 := V4(224, 0, 0, 22)]
    ensures forall d <- toAddr :: toAddr[d] == GroupAddr(d)
    ensures toCode.Keys == toAddr.Values
    ensures forall d <- toAddr :: toCode[toAddr[d]] == d
    ensures forall a <- toCode :: toCode[a] in toAddr && toAddr[toCode[a]] == a
  {
    var az, ah, ar, ih := V4(0, 0, 0, 0), V4(224, 0, 0, 1), V4(224, 0, 0, 2), V4(224, 0, 0, 22);
    toAddr := map[];
    toAddr := toAddr[ALL_ZEROS_HOSTS := az];
    toAddr := toAddr[ALL_HOSTS := ah];
    toAddr := toAddr[ALL_ROUTERS := ar];
    toAddr := toAddr[IGMP_HOSTS := ih];
    toCode := map[];
    toCode := toCode[az := ALL_ZEROS_HOSTS];
    toCode := toCode[ah := ALL_HOSTS];
    toCode := toCode[ar := ALL_ROUTERS];
    toCode := toCode[ih := IGMP_HOSTS];
    assert toAddr.Values == {az, ah, ar, ih} by {
      forall a <- {az, ah, ar, ih} ensures a in toAddr.Values {
        var d := toCode[a];
        assert toAddr[d] == a;
      }
    }
  }

  /** Every address of a set of groups. */
  function Addresses(groups: seq<Dest>): set<Addr> {
    set g <- groups :: GroupAddr(g)
  }

  /** The addresses that a side listens on. */
  lemma ListenedAddresses()
    ensures Addresses(MULTICAST_GROUPS) == {V4(224, 0, 0, 1), V4(224, 0, 0, 2), V4(224, 0, 0, 22)}
  {
    assert MULTICAST_GROUPS[0] in MULTICAST_GROUPS && MULTICAST_GROUPS[1] in MULTICAST_GROUPS;
    assert MULTICAST_GROUPS[2] in MULTICAST_GROUPS;
  }

  class IGMPReporter {
    const conf: Config
    const indexOf: string -> int

    var interfaces: seq<Side>
    var altOutExists: bool
    var intOutName: map<Side, Side>
    var outsideInterfaces: map<Side, bool>
    var netIFIndex: map<int, Side>

    // open connections; a multicast connection is found by side, then by group address
    var uCon: set<Side>
    var mConIGMP: map<Side, set<Addr>>
    var conRaw: set<Side>
    /** The connections opened, in order. */
    var openings: seq<Handle>

    var started: seq<Proc>
    var wg: nat

    /** Is the connection there? */
    ghost predicate Has(h: Handle)
      reads this
    {
      match h
      case UCon(side) => side in uCon
      case MCon(side, g) => side in mConIGMP && GroupAddr(g) in mConIGMP[side]
      case Raw(side) => side in conRaw
    }

    /** The multicast connections of a side, none before its map is made. */
    ghost function Joined(side: Side): set<Addr>
      reads this`mConIGMP
    {
      if side in mConIGMP then mConIGMP[side] else {}
    }

    /** Each opening is recorded once, and everything recorded is open. */
    ghost predicate OpenedOnce()
      reads this
    {
      && (forall j, k | 0 <= j < k < |openings| :: openings[j] != openings[k])
      && (forall k | 0 <= k < |openings| ::
            Has(openings[k]) && (openings[k].MCon? ==> openings[k].group in MULTICAST_GROUPS))
    }

    /** Opens the groups of a side that are not open yet; doing so again changes nothing. */
    method CreatePacketConns(side: Side)
      requires OpenedOnce()
      modifies this`mConIGMP, this`openings
      ensures OpenedOnce()
      ensures Joined(side) == old(Joined(side)) + Addresses(MULTICAST_GROUPS)
      ensures Joined(side) == old(Joined(side)) + {V4(224, 0, 0, 1), V4(224, 0, 0, 2), V4(224, 0, 0, 22)}
      ensures forall other | other != side :: Joined(other) == old(Joined(other))
      ensures old(openings) <= openings
      ensures Addresses(MULTICAST_GROUPS) <= old(Joined(side)) ==> openings == old(openings)
    {
      if side !in mConIGMP {
        mConIGMP := mConIGMP[side := {}];
      }
      for k := 0 to |MULTICAST_GROUPS|
        invariant side in mConIGMP && OpenedOnce()
        invariant mConIGMP[side] == old(Joined(side)) + Addresses(MULTICAST_GROUPS[..k])
        invariant forall other | other != side :: Joined(other) == old(Joined(other))
        invariant old(openings) <= openings
        invariant Addresses(MULTICAST_GROUPS) <= old(Joined(side)) ==> openings == old(openings)
      {
        var g := MULTICAST_GROUPS[k];
        assert GroupAddr(g) in Addresses(MULTICAST_GROUPS);
        assert Addresses(MULTICAST_GROUPS[..k + 1]) == Addresses(MULTICAST_GROUPS[..k]) + {GroupAddr(g)};
        OpenGroup(side, g);
      }
      ListenedAddresses();
    }

    /** Opens one group of a side unless it is open already. */
    method OpenGroup(side: Side, g: Dest)
      requires OpenedOnce() && side in mConIGMP && g in MULTICAST_GROUPS
      modifies this`mConIGMP, this`openings
      ensures OpenedOnce()
      ensures side in mConIGMP && mConIGMP[side] == old(mConIGMP[side]) + {GroupAddr(g)}
      ensures forall other | other != side :: Joined(other) == old(Joined(other))
      ensures old(openings) <= openings
      ensures GroupAddr(g) in old(mConIGMP[side]) ==> openings == old(openings)
    {
      if GroupAddr(g) !in mConIGMP[side] {
        mConIGMP := mConIGMP[side := mConIGMP[side] + {GroupAddr(g)}];
        openings := openings + [MCon(side, g)];
      }
    }

    method OpenRaw(side: Side)
      requires OpenedOnce()
      modifies this`conRaw, this`openings
      ensures OpenedOnce() && conRaw == old(conRaw) + {side}
    {
      if side !in conRaw {
        conRaw := conRaw + {side};
        openings := openings + [Raw(side)];
      }
    }

    method OpenUnicast(side: Side)
      requires OpenedOnce() && side !in uCon
      modifies this`uCon, this`openings
      ensures OpenedOnce() && uCon == old(uCon) + {side}
    {
      uCon := uCon + {side};
      openings := openings + [UCon(side)];
    }

    /** The route and the sides. */
    method NameInterfaces()
      modifies this`interfaces, this`altOutExists, this`intOutName, this`outsideInterfaces
      ensures interfaces == Interfaces(conf) && altOutExists == conf.AltOutExists()
      ensures intOutName == map[OUT := IN, IN := OUT]
      ensures forall side :: (side in outsideInterfaces && outsideInterfaces[side])
                        <==> conf.AltOutExists() && (side == OUT || side == ALTOUT)
    {
      interfaces, intOutName := [IN, OUT], map[];
      intOutName := intOutName[OUT := IN];
      intOutName := intOutName[IN := OUT];
      altOutExists, outsideInterfaces := false, map[];
      if |conf.altOutIntName| > 0 {
        altOutExists := true;
        interfaces := interfaces + [ALTOUT];
        outsideInterfaces := outsideInterfaces[OUT := true];
        outsideInterfaces := outsideInterfaces[ALTOUT := true];
      }
    }

    /** The interface indices of the sides: an index shared by two sides belongs to the later one. */
    method IndexInterfaces()
      requires interfaces == Interfaces(conf)
      modifies this`netIFIndex
      ensures forall index ::
        (if index in netIFIndex then netIFIndex[index] else 0) == SideOfIndex(conf, indexOf, index)
    {
      netIFIndex := map[];
      for k := 0 to |interfaces|
        invariant netIFIndex == IndexMap(interfaces[..k])
      {
        assert interfaces[..k + 1][..k] == interfaces[..k];
        netIFIndex := netIFIndex[indexOf(IntName(conf, interfaces[k])) := interfaces[k]];
      }
      assert interfaces[..|interfaces|] == interfaces;
      IndexMapIsSideOfIndex();
    }

    /** The index of each side, later sides overwriting earlier ones. */
    ghost function IndexMap(sides: seq<Side>): map<int, Side> {
      if sides == [] then map[]
      else
        var n := |sides| - 1;
        IndexMap(sides[..n])[indexOf(IntName(conf, sides[n])) := sides[n]]
    }

    lemma IndexMapIsSideOfIndex()
      ensures var m := IndexMap(Interfaces(conf));
        forall index :: (if index in m then m[index] else 0) == SideOfIndex(conf, indexOf, index)
    {
      assert [IN][..0] == [] && [IN, OUT][..1] == [IN] && [IN, OUT, ALTOUT][..2] == [IN, OUT];
      assert IndexMap([]) == map[];
      assert IndexMap([IN]) == map[indexOf(conf.inIntName) := IN];
      assert IndexMap([IN, OUT]) == IndexMap([IN])[indexOf(conf.outIntName) := OUT];
      assert IndexMap([IN, OUT, ALTOUT]) == IndexMap([IN, OUT])[indexOf(conf.altOutIntName) := ALTOUT];
    }

    /** Opens exactly the connections that the configuration asks for, each once. */
    constructor (conf: Config, indexOf: string -> int)
      ensures this.conf == conf && this.indexOf == indexOf
      ensures forall h :: Has(h) <==> IsOpen(conf, h)
      ensures forall j, k | 0 <= j < k < |openings| :: openings[j] != openings[k]
      ensures intOutName == map[OUT := IN, IN := OUT] && interfaces == Interfaces(conf)
      ensures forall index ::
        (if index in netIFIndex then netIFIndex[index] else 0) == SideOfIndex(conf, indexOf, index)
      ensures started == [] && wg == 0
    {
      this.conf := conf;
      this.indexOf := indexOf;
      uCon, mConIGMP, conRaw, openings := {}, map[], {}, [];
      started, wg := [], 0;
      new;
      NameInterfaces();
      IndexInterfaces();
      OpenConnections();
    }

    method OpenConnections()
      requires uCon == {} && mConIGMP == map[] && conRaw == {} && openings == []
      requires altOutExists == conf.AltOutExists()
      modifies this`uCon, this`mConIGMP, this`conRaw, this`openings
      ensures OpenedOnce() && forall h :: Has(h) <==> IsOpen(conf, h)
    {
      OpenForUnicastProxy();
      ghost var sides := OpenForOutside();
      sides := OpenForInside(sides);
      OpenAsConfigured(sides);
    }

    /** Exactly the sides in `sides` have connections, each for all groups. */
    ghost predicate Listening(sides: set<Side>)
      reads this`mConIGMP
    {
      forall side :: Joined(side) == if side in sides then Addresses(MULTICAST_GROUPS) else {}
    }

    method Listen(side: Side, ghost sides: set<Side>) returns (ghost sides': set<Side>)
      requires OpenedOnce() && Listening(sides)
      modifies this`mConIGMP, this`openings
      ensures OpenedOnce() && Listening(sides') && sides' == sides + {side}
    {
      CreatePacketConns(side);
      sides' := sides + {side};
    }

    method OpenForUnicastProxy()
      requires OpenedOnce() && uCon == {}
      modifies this`uCon, this`conRaw, this`openings
      ensures OpenedOnce()
      ensures uCon == if conf.unicastProxyInToOut then {IN} else {}
      ensures conRaw == old(conRaw) + if conf.unicastProxyInToOut then {OUT} else {}
    {
      if conf.unicastProxyInToOut {
        OpenUnicast(IN);
        OpenRaw(OUT);
      }
    }

    method OpenForOutside() returns (ghost sides: set<Side>)
      requires OpenedOnce() && Listening({}) && altOutExists == conf.AltOutExists()
      modifies this`mConIGMP, this`conRaw, this`openings
      ensures OpenedOnce() && Listening(sides)
      ensures sides == (if conf.ListensOutside() then {OUT} else {})
                     + (if conf.proxyOutToIn && conf.AltOutExists() then {ALTOUT} else {})
      ensures conRaw == old(conRaw) + if conf.proxyOutToIn then {IN} else {}
    {
      sides := {};
      if conf.queryNotify || conf.membershipReportsFromNetwork {
        sides := Listen(OUT, sides);
      }
      if conf.proxyOutToIn {
        sides := Listen(OUT, sides);
        OpenRaw(IN);
        if altOutExists { sides := Listen(ALTOUT, sides); }
      }
    }

    method OpenForInside(ghost sides: set<Side>) returns (ghost sides': set<Side>)
      requires OpenedOnce() && Listening(sides) && altOutExists == conf.AltOutExists()
      modifies this`mConIGMP, this`conRaw, this`openings
      ensures OpenedOnce() && Listening(sides')
      ensures var sends := conf.proxyInToOut || conf.membershipReportsToNetwork;
        && sides' == sides + (if sends then {IN} else {}) + (if sends && conf.AltOutExists() then {ALTOUT} else {})
        && conRaw == old(conRaw) + if sends then {OUT} else {}
    {
      sides' := sides;
      if conf.proxyInToOut || conf.membershipReportsToNetwork {
        sides' := Listen(IN, sides');
        OpenRaw(OUT);
        if altOutExists { sides' := Listen(ALTOUT, sides'); }
      }
    }

    lemma OpenAsConfigured(sides: set<Side>)
      requires Listening(sides)
      requires forall side :: side in sides <==>
        || (side == OUT && conf.ListensOutside())
        || (side == IN && (conf.proxyInToOut || conf.membershipReportsToNetwork))
        || (side == ALTOUT && conf.AltOutExists()
            && (conf.proxyOutToIn || conf.proxyInToOut || conf.membershipReportsToNetwork))
      requires uCon == (if conf.unicastProxyInToOut then {IN} else {})
      requires forall side :: side in conRaw <==> IsOpen(conf, Raw(side))
      ensures forall h :: Has(h) <==> IsOpen(conf, h)
    {
      forall g: Dest
        ensures GroupAddr(g) in Addresses(MULTICAST_GROUPS) <==> g in MULTICAST_GROUPS
      {
        if GroupAddr(g) in Addresses(MULTICAST_GROUPS) {
          var g' :| g' in MULTICAST_GROUPS && GroupAddr(g') == GroupAddr(g);
        }
      }
      forall h
        ensures Has(h) <==> IsOpen(conf, h)
      {
        assert h.MCon? ==> (Has(h) <==> GroupAddr(h.group) in Joined(h.side));
      }
    }

    method Spawn(p: Proc, added: nat) returns (added': nat)
      modifies this`started, this`wg
      ensures started == old(started) + [p] && wg == old(wg) + 1 && added' == added + 1
    {
      wg := wg + 1;
      started := started + [p];
      added' := added + 1;
    }

    /** One receiver for each multicast group of a side. */
    method SpawnReceivers(side: Side, added: nat) returns (added': nat)
      modifies this`started, this`wg
      ensures started == old(started) + Receivers(side) && wg == old(wg) + 3 && added' == added + 3
    {
      added' := added;
      for k := 0 to |MULTICAST_GROUPS|
        invariant started == old(started) + Receivers(side)[..k]
        invariant wg == old(wg) + k && added' == added + k
      {
        added' := Spawn(Multicast(side, MULTICAST_GROUPS[k]), added');
        assert Receivers(side)[..k + 1] == Receivers(side)[..k] + [Multicast(side, MULTICAST_GROUPS[k])];
      }
      assert Receivers(side)[..3] == Receivers(side);
    }

    /** Starts exactly the configured goroutines, each counted once in the wait group. */
    method Run() returns (added: nat)
      requires started == [] && wg == 0 && altOutExists == conf.AltOutExists()
      modifies this`started, this`wg
      ensures started == Workers(conf) && wg == added == |Workers(conf)|
    {
      added := 0;
      if conf.proxyOutToIn || conf.queryNotify || conf.membershipReportsFromNetwork {
        added := SpawnReceivers(OUT, added);
        if altOutExists {
          added := SpawnReceivers(ALTOUT, added);
          added := Spawn(Selector, added);
        }
      }
      assert started == OutsideWorkers(conf) && wg == added == |started|;
      if conf.proxyInToOut {
        added := SpawnReceivers(IN, added);
      }
      if conf.unicastProxyInToOut {
        added := Spawn(Unicast, added);
      }
      assert started == OutsideWorkers(conf) + InsideWorkers(conf) && wg == added == |started|;
      added := SpawnChannelWorkers(added);
    }

    method SpawnChannelWorkers(added: nat) returns (added': nat)
      modifies this`started, this`wg
      ensures started == old(started) + ChannelWorkers(conf)
      ensures wg == old(wg) + |ChannelWorkers(conf)| && added' == added + |ChannelWorkers(conf)|
    {
      added' := added;
      if conf.membershipReportsToNetwork {
        added' := Spawn(ReportWorker, added');
      }
      if conf.leaveToNetwork {
        added' := Spawn(LeaveWorker, added');
      }
      if conf.connectQueryToReport {
        added' := Spawn(ConnectQuery, added');
      }
      if conf.membershipReportsReader {
        added' := Spawn(ReportsReader, added');
      }
    }
  }
}

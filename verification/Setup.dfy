/**
 What a configuration means: which goroutines Run starts, which handles the constructor
 opens, and how addresses and interface indices map to destinations and sides.
 */
module Setup {
  import opened Base

  datatype Config = Config(
    inIntName: string, outIntName: string, altOutIntName: string,
    unicastDst: Addr,
    proxyOutToIn: bool, proxyInToOut: bool, unicastProxyInToOut: bool,
    queryNotify: bool, membershipReportsFromNetwork: bool, membershipReportsToNetwork: bool,
    unicastMembershipReports: bool, leaveToNetwork: bool,
    connectQueryToReport: bool, membershipReportsReader: bool,
    channelSize: nat)
  {
    predicate AltOutExists() {
      |altOutIntName| > 0
    }

    /** How many lists a channel can hold: its size, or the one being handed over if it has no buffer. */
    function Slots(): nat {
      if channelSize == 0 then 1 else channelSize
    }

    /** Are there receivers on the outside? */
    predicate ListensOutside() {
      proxyOutToIn || queryNotify || membershipReportsFromNetwork
    }
  }

  const MULTICAST_GROUPS: seq<Dest> := [ALL_HOSTS, ALL_ROUTERS, IGMP_HOSTS]

  /** The address of a destination code; the zero address for a code that is not in the maps. */
  function GroupAddr(d: Dest): (a: Addr) {
    if d == ALL_ZEROS_HOSTS then V4(0, 0, 0, 0)
    else if d == ALL_HOSTS then V4(224, 0, 0, 1)
    else if d == ALL_ROUTERS then V4(224, 0, 0, 2)
    else if d == IGMP_HOSTS then V4(224, 0, 0, 22)
    else NoAddr
  }

  /** The sides that have an interface, in the order in which their indices are recorded. */
  function Interfaces(conf: Config): seq<Side> {
    if conf.AltOutExists() then [IN, OUT, ALTOUT] else [IN, OUT]
  }

  function IntName(conf: Config, side: Side): string {
    if side == IN then conf.inIntName
    else if side == OUT then conf.outIntName
    else if side == ALTOUT then conf.altOutIntName
    else ""
  }

  /** The side of an interface index: later sides win, and an unknown index gives the zero side. */
  function SideOfIndex(conf: Config, indexOf: string -> int, index: int): Side {
    if conf.AltOutExists() && indexOf(conf.altOutIntName) == index then ALTOUT
    else if indexOf(conf.outIntName) == index then OUT
    else if indexOf(conf.inIntName) == index then IN
    else 0
  }

  // ----- Goroutines -----

  datatype Proc =
    | Multicast(side: Side, group: Dest)
    | Unicast
    | Selector
    | ReportWorker
    | LeaveWorker
    | ConnectQuery
    | ReportsReader

  function Receivers(side: Side): seq<Proc> {
    [Multicast(side, ALL_HOSTS), Multicast(side, ALL_ROUTERS), Multicast(side, IGMP_HOSTS)]
  }

  function When(condition: bool, p: Proc): seq<Proc> {
    if condition then [p] else []
  }

  function OutsideWorkers(conf: Config): seq<Proc> {
    if !conf.ListensOutside() then []
    else Receivers(OUT) + if conf.AltOutExists() then Receivers(ALTOUT) + [Selector] else []
  }

  function InsideWorkers(conf: Config): seq<Proc> {
    (if conf.proxyInToOut then Receivers(IN) else []) + When(conf.unicastProxyInToOut, Unicast)
  }

  function ChannelWorkers(conf: Config): seq<Proc> {
    When(conf.membershipReportsToNetwork, ReportWorker) + When(conf.leaveToNetwork, LeaveWorker)
    + When(conf.connectQueryToReport, ConnectQuery) + When(conf.membershipReportsReader, ReportsReader)
  }

  /** The goroutines that Run starts, in order. */
  function Workers(conf: Config): seq<Proc> {
    OutsideWorkers(conf) + InsideWorkers(conf) + ChannelWorkers(conf)
  }

  /** Which goroutines are started, said one by one. */
  predicate Started(conf: Config, p: Proc) {
    match p
    case Multicast(side, g) =>
      && g in MULTICAST_GROUPS
      && ((side == OUT && conf.ListensOutside())
          || (side == ALTOUT && conf.ListensOutside() && conf.AltOutExists())
          || (side == IN && conf.proxyInToOut))
    case Unicast => conf.unicastProxyInToOut
    case Selector => conf.ListensOutside() && conf.AltOutExists()
    case ReportWorker => conf.membershipReportsToNetwork
    case LeaveWorker => conf.leaveToNetwork
    case ConnectQuery => conf.connectQueryToReport
    case ReportsReader => conf.membershipReportsReader
  }

  lemma ChannelWorkersAreStarted(conf: Config, p: Proc)
    ensures p in ChannelWorkers(conf)
       <==> Started(conf, p) && !p.Selector? && !p.Multicast? && !p.Unicast?
  {
  }

  lemma WorkersAreStarted(conf: Config, p: Proc)
    ensures p in Workers(conf) <==> Started(conf, p)
  {
    assert p in OutsideWorkers(conf) <==> Started(conf, p) && (p.Selector? || (p.Multicast? && p.side != IN));
    assert p in InsideWorkers(conf) <==> Started(conf, p) && (p.Unicast? || (p.Multicast? && p.side == IN));
    ChannelWorkersAreStarted(conf, p);
  }

  // ----- Handles -----

  datatype Handle = UCon(side: Side) | MCon(side: Side, group: Dest) | Raw(side: Side)

  /** Is this handle open once the constructor is done? */
  predicate IsOpen(conf: Config, h: Handle) {
    match h
    case UCon(side) => side == IN && conf.unicastProxyInToOut
    case MCon(side, g) =>
      && g in MULTICAST_GROUPS
      && ((side == OUT && conf.ListensOutside())
          || (side == IN && (conf.proxyInToOut || conf.membershipReportsToNetwork))
          || (side == ALTOUT && conf.AltOutExists()
              && (conf.proxyOutToIn || conf.proxyInToOut || conf.membershipReportsToNetwork)))
    case Raw(side) =>
      || (side == OUT && (conf.unicastProxyInToOut || conf.proxyInToOut || conf.membershipReportsToNetwork))
      || (side == IN && conf.proxyOutToIn)
  }

  /** The side is proxied by the multicast receivers that listen on it. */
  predicate ProxyIt(conf: Config, side: Side) {
    (side == OUT && conf.proxyOutToIn) || (side == IN && conf.proxyInToOut)
  }
}

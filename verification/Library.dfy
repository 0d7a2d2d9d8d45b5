/**
 The library's goroutines as one transition system: multicast receivers, the unicast
 receiver, the route selector and the channel workers, over shared buffers, one shared
 route map and shared channels.

 An action belongs to one goroutine (or to the environment) and is one atomic access to
 shared state. `Move` says what the goroutine does; `Apply` carries that out on the state.
 */
module Library {
  import opened Base
  import opened Setup

  // ----- Constants and values -----

  const BUFFER_SIZE: nat := 200
  const MEMBERSHIP_QUERY: Byte := 0x11
  const REPORT_V1: Byte := 0x12
  const REPORT_V2: Byte := 0x16
  const LEAVE_GROUP: Byte := 0x17
  const REPORT_V3: Byte := 0x22

  type Buf = nat

  /** A multicast packet as the control message and the payload describe it. */
  datatype Packet = Packet(ifIndex: int, dst: Addr, src: Addr, payload: seq<Byte>)

  /** What the decoder makes of a buffer; its choice is the environment's. */
  datatype Layer = NoLayer | V1or2(group: Addr) | V3(items: seq<Item>)

  /** What the last read of an iteration delivered: a numbered packet, a datagram, or nothing on an error. */
  datatype Origin = FromPacket(pid: nat) | FromDatagram(data: seq<Byte>) | FromError

  datatype Pc =
    | Head
    | Entered
    | Reading(buf: Buf)
    | Got(buf: Buf, from: Origin)
    | Checked(buf: Buf, from: Origin)
    | Accepted(buf: Buf, from: Origin, layer: Layer)
    | Routed(buf: Buf, from: Origin, layer: Layer, out: Side)
    | Returning(buf: Buf)
    | Sending(items: seq<Item>)
    | Storing(value: Side)
    | Exited

  /** `querier` is the goroutine's own copy of querierSourceIP; `seen` counts the packets its socket delivered. */
  datatype Goroutine = Goroutine(proc: Proc, pc: Pc, querier: Addr, seen: nat)

  /** A datagram written to a raw connection. */
  datatype Frame =
    | Forwarded(who: nat, proc: Proc, from: Origin, layer: Layer, out: Side, dst: Addr,
                payload: seq<Byte>, history: seq<seq<Byte>>)
    | Originated(proc: Proc, dest: Dest, dst: Addr, kind: Byte, group: Addr)

  datatype Accept = Accept(who: nat, pid: nat)

  // ----- Buffers -----

  datatype Pool = Pool(
    contents: map<Buf, seq<Byte>>,
    history: map<Buf, seq<seq<Byte>>>,
    free: set<Buf>, dropped: set<Buf>, lost: set<Buf>)

  datatype PoolOp = Keep | Get(buf: Buf) | Fill(buf: Buf, data: seq<Byte>) | Put(buf: Buf) | Lose(buf: Buf)

  function Truncate(data: seq<Byte>): seq<Byte> {
    if |data| <= BUFFER_SIZE then data else data[..BUFFER_SIZE]
  }

  /** Reading `data` into a buffer overwrites its front and leaves the rest. */
  function Overlay(old_: seq<Byte>, data: seq<Byte>): (r: seq<Byte>)
    requires |old_| == BUFFER_SIZE
    ensures |r| == BUFFER_SIZE
  {
    var d := Truncate(data);
    d + old_[|d|..]
  }

  function Zeros(): (r: seq<Byte>)
    ensures |r| == BUFFER_SIZE
  {
    seq(BUFFER_SIZE, i => 0)
  }

  function Contents(p: Pool, b: Buf): seq<Byte> {
    if b in p.contents && |p.contents[b]| == BUFFER_SIZE then p.contents[b] else Zeros()
  }

  /** Everything read into a buffer since it was made. */
  function History(p: Pool, b: Buf): seq<seq<Byte>> {
    if b in p.history then p.history[b] else []
  }

  function OnPool(p: Pool, op: PoolOp): Pool {
    match op
    case Keep => p
    case Get(b) =>
      if b in p.contents then p.(free := p.free - {b})
      else p.(contents := p.contents[b := Zeros()], history := p.history[b := []])
    case Fill(b, data) =>
      p.(contents := p.contents[b := Overlay(Contents(p, b), data)],
         history := p.history[b := History(p, b) + [Truncate(data)]])
    case Put(b) => p.(free := p.free + {b})
    case Lose(b) => p.(lost := p.lost + {b})
  }

  // ----- Channels -----

  datatype Chans = Chans(query: nat, fromNet: seq<seq<Item>>, report: seq<seq<Item>>, leave: seq<seq<Item>>)
  datatype ChanOp = NoOp | PushQuery | PushFromNet(items: seq<Item>) | PopQuery | PopFromNet | PopReport | PopLeave

  function OnChans(ch: Chans, op: ChanOp): Chans {
    match op
    case NoOp => ch
    case PushQuery => ch.(query := ch.query + 1)
    case PushFromNet(items) => ch.(fromNet := ch.fromNet + [items])
    case PopQuery => if ch.query > 0 then ch.(query := ch.query - 1) else ch
    case PopFromNet => if ch.fromNet != [] then ch.(fromNet := ch.fromNet[1..]) else ch
    case PopReport => if ch.report != [] then ch.(report := ch.report[1..]) else ch
    case PopLeave => if ch.leave != [] then ch.(leave := ch.leave[1..]) else ch
  }

  /**
   A non-blocking send to a channel of `length` items: it succeeds exactly if there is room. Without a buffer
   it succeeds if a receiver is waiting; with one, a waiting receiver means an empty buffer.
   */
  predicate MaySend(conf: Config, length: nat, sent: bool) {
    if sent then length < conf.Slots() else length >= conf.channelSize
  }

  // ----- State -----

  datatype Status = Running | Panicked | Crashed

  datatype State = State(
    gs: seq<Goroutine>,
    wg: nat,
    pool: Pool,
    route: map<Side, Side>,
    stored: seq<Side>,
    packets: seq<Packet>,
    accepts: seq<Accept>,
    frames: seq<Frame>,
    chans: Chans,
    cancelled: bool,
    status: Status)

  datatype System = System(conf: Config, indexOf: string -> int)

  function Init(c: System): State {
    var procs := Workers(c.conf);
    State(seq(|procs|, i requires 0 <= i < |procs| => Goroutine(procs[i], Head, NoAddr, 0)),
          |procs|,
          Pool(map[], map[], {}, {}, {}),
          map[OUT := IN, IN := OUT], [], [], [], [],
          Chans(0, [], [], []), false, Running)
  }

  datatype Act =
    // receivers
    | CheckContext
    | Begin(buf: Buf)
    | ReadFails
    | SocketDrops
    | ReadPacket
    | ReadDatagram(data: seq<Byte>)
    | ReadError
    | AltFilter
    | Filter(layer: Layer, sent: bool)
    | Decode(layer: Layer)
    | LoadRoute
    | Forward
    | PutBack
    // selector
    | ReceiveSide(side: Side)
    | StoreSide
    // channel workers
    | ReceiveList
    | SendItem
    | NextList
    // all but the selector
    | Exit

  datatype Action =
    // environment
    | Arrive(packet: Packet)
    | Cancel
    | PoolDrop(buf: Buf)
    | EnqueueReport(items: seq<Item>)
    | EnqueueLeave(items: seq<Item>)
    | TakeQuery
    | TakeFromNet
    // goroutines
    | Do(i: nat, act: Act)

  /** What a goroutine's action does. */
  datatype Effect = Effect(
    g: Goroutine, pool: PoolOp, frame: Option<Frame>, accept: Option<nat>, store: Option<Side>, chan: ChanOp)

  function Local(g: Goroutine): Effect {
    Effect(g, Keep, None, None, None, NoOp)
  }

  datatype Outcome = Blocked | Panics | Does(effect: Effect)

  // ----- Decisions -----

  /** Is the packet one that this receiver's filters let through? */
  predicate ForReceiver(c: System, p: Proc, packet: Packet)
    requires p.Multicast?
  {
    SideOfIndex(c.conf, c.indexOf, packet.ifIndex) == p.side && packet.dst == GroupAddr(p.group)
  }

  /** Traffic of an outside side that the route does not currently select is ignored. */
  predicate Ignored(c: System, side: Side, route: map<Side, Side>) {
    c.conf.AltOutExists() && (side == OUT || side == ALTOUT) && (IN !in route || route[IN] != side)
  }

  /** A destination code resolved with the goroutine's own copy of the querier address. */
  function Resolve(c: System, g: Goroutine, dest: Dest): Addr {
    if dest != QUERY_HOST then GroupAddr(dest)
    else if g.querier == NoAddr then c.conf.unicastDst
    else g.querier
  }

  function FirstByte(s: State, b: Buf): Byte {
    Contents(s.pool, b)[0]
  }

  // ----- Moves of a multicast receiver -----

  function FilterMove(c: System, g: Goroutine, s: State, layer: Layer, sent: bool): Outcome
    requires g.proc.Multicast? && g.pc.Checked? && g.pc.from.FromPacket? && g.pc.from.pid < |s.packets|
  {
    var b, packet := g.pc.buf, s.packets[g.pc.from.pid];
    var accepted := Local(g.(pc := Accepted(b, g.pc.from, layer))).(accept := Some(g.pc.from.pid));
    var kind := FirstByte(s, b);
    if !ForReceiver(c, g.proc, packet) || layer.NoLayer? then Does(Local(g.(pc := Returning(b))))
    else if kind == MEMBERSHIP_QUERY then
      var learned := accepted.(g := accepted.g.(querier := packet.src));
      if !c.conf.queryNotify then Does(learned)
      else if !MaySend(c.conf, s.chans.query, sent) then Blocked
      else Does(learned.(chan := if sent then PushQuery else NoOp))
    else if kind == REPORT_V2 then
      if !layer.V1or2? then Panics
      else if !c.conf.membershipReportsFromNetwork then Does(accepted)
      else if !MaySend(c.conf, |s.chans.fromNet|, sent) then Blocked
      else Does(accepted.(chan := if sent then PushFromNet([Item([], layer.group)]) else NoOp))
    else if kind == REPORT_V3 then
      if !layer.V3? then Does(Local(g.(pc := Returning(b))))
      else if !c.conf.membershipReportsFromNetwork then Does(accepted)
      else if !MaySend(c.conf, |s.chans.fromNet|, sent) then Blocked
      else Does(accepted.(chan := if sent then PushFromNet(layer.items) else NoOp))
    else Does(accepted)
  }

  function MulticastMove(c: System, g: Goroutine, i: nat, s: State, a: Act): Outcome
    requires g.proc.Multicast?
  {
    var side := g.proc.side;
    match a
    case ReadPacket =>
      if g.pc.Reading? && g.seen < |s.packets| then
        Does(Local(g.(pc := Got(g.pc.buf, FromPacket(g.seen)), seen := g.seen + 1))
             .(pool := Fill(g.pc.buf, s.packets[g.seen].payload)))
      else Blocked
    case SocketDrops =>
      if g.seen < |s.packets| && g.pc != Exited then Does(Local(g.(seen := g.seen + 1))) else Blocked
    case AltFilter =>
      if !g.pc.Got? then Blocked
      else if Ignored(c, side, s.route) then Does(Local(g.(pc := Returning(g.pc.buf))))
      else Does(Local(g.(pc := Checked(g.pc.buf, g.pc.from))))
    case Filter(layer, sent) =>
      if g.pc.Checked? && g.pc.from.FromPacket? && g.pc.from.pid < |s.packets|
      then FilterMove(c, g, s, layer, sent) else Blocked
    case LoadRoute =>
      if !g.pc.Accepted? then Blocked
      else if !ProxyIt(c.conf, side) then Does(Local(g.(pc := Head)).(pool := Lose(g.pc.buf)))
      else if side !in s.route then Does(Local(g.(pc := Returning(g.pc.buf))))
      else Does(Local(g.(pc := Routed(g.pc.buf, g.pc.from, g.pc.layer, s.route[side]))))
    case Forward =>
      if g.pc.Routed? then
        Does(Local(g.(pc := Returning(g.pc.buf)))
             .(frame := Some(Forwarded(i, g.proc, g.pc.from, g.pc.layer, g.pc.out, Resolve(c, g, g.proc.group),
                                       Contents(s.pool, g.pc.buf), History(s.pool, g.pc.buf)))))
      else Blocked
    case _ => Blocked
  }

  // ----- Moves of the unicast receiver -----

  /** The frame for an address, after which the code does not put the buffer back. */
  function UnicastFrame(g: Goroutine, i: nat, s: State, dst: Addr): Frame
    requires g.pc.Routed?
  {
    Forwarded(i, g.proc, g.pc.from, g.pc.layer, g.pc.out, dst, Contents(s.pool, g.pc.buf), History(s.pool, g.pc.buf))
  }

  function UnicastForward(c: System, g: Goroutine, i: nat, s: State): Outcome
    requires g.pc.Routed?
  {
    var kind := FirstByte(s, g.pc.buf);
    var dropped := Local(g.(pc := Head)).(pool := Lose(g.pc.buf));
    if kind == REPORT_V1 || kind == REPORT_V2 then
      if !g.pc.layer.V1or2? then Panics
      else Does(dropped.(frame := Some(UnicastFrame(g, i, s, g.pc.layer.group))))
    else if kind == REPORT_V3 then
      var dest := if c.conf.unicastMembershipReports then QUERY_HOST else IGMP_HOSTS;
      Does(Local(g.(pc := Returning(g.pc.buf))).(frame := Some(UnicastFrame(g, i, s, Resolve(c, g, dest)))))
    else if kind == LEAVE_GROUP then
      Does(dropped.(frame := Some(UnicastFrame(g, i, s, GroupAddr(ALL_ROUTERS)))))
    else Does(dropped)
  }

  function UnicastMove(c: System, g: Goroutine, i: nat, s: State, a: Act): Outcome
    requires g.proc.Unicast?
  {
    match a
    case ReadDatagram(data) =>
      if g.pc.Reading?
      then Does(Local(g.(pc := Got(g.pc.buf, FromDatagram(data)))).(pool := Fill(g.pc.buf, data))) else Blocked
    case ReadError => if g.pc.Reading? then Does(Local(g.(pc := Got(g.pc.buf, FromError)))) else Blocked
    case Decode(layer) =>
      if !g.pc.Got? then Blocked
      else if layer.NoLayer? then Does(Local(g.(pc := Returning(g.pc.buf))))
      else Does(Local(g.(pc := Accepted(g.pc.buf, g.pc.from, layer))))
    case LoadRoute =>
      if !g.pc.Accepted? then Blocked
      else if IN !in s.route then Does(Local(g.(pc := Returning(g.pc.buf))))
      else Does(Local(g.(pc := Routed(g.pc.buf, g.pc.from, g.pc.layer, s.route[IN]))))
    case Forward => if g.pc.Routed? then UnicastForward(c, g, i, s) else Blocked
    case _ => Blocked
  }

  // ----- Moves of the selector and of the channel workers -----

  function SelectorMove(g: Goroutine, a: Act): Outcome {
    match a
    case ReceiveSide(v) => if g.pc.Head? then Does(Local(g.(pc := Storing(v)))) else Blocked
    case StoreSide =>
      if g.pc.Storing? then Does(Local(g.(pc := Head)).(store := Some(g.pc.value))) else Blocked
    case _ => Blocked
  }

  /** The packet that a worker sends for an item. */
  function WorkerFrame(c: System, g: Goroutine, item: Item): Frame {
    var dest :=
      if c.conf.unicastMembershipReports then QUERY_HOST
      else if g.proc.LeaveWorker? then ALL_ROUTERS else IGMP_HOSTS;
    Originated(g.proc, dest, Resolve(c, g, dest), if g.proc.LeaveWorker? then LEAVE_GROUP else REPORT_V2, item.group)
  }

  function WorkerMove(c: System, g: Goroutine, s: State, a: Act): Outcome {
    match a
    case ReceiveList =>
      if !g.pc.Head? then Blocked
      else if g.proc.ReportWorker? && s.chans.report != [] then
        Does(Local(g.(pc := Sending(s.chans.report[0]))).(chan := PopReport))
      else if g.proc.LeaveWorker? && s.chans.leave != [] then
        Does(Local(g.(pc := Sending(s.chans.leave[0]))).(chan := PopLeave))
      else if g.proc.ConnectQuery? && s.chans.query > 0 then
        Does(Local(g.(pc := Sending([]))).(chan := PopQuery))
      else if g.proc.ReportsReader? && s.chans.fromNet != [] then
        Does(Local(g.(pc := Sending([]))).(chan := PopFromNet))
      else Blocked
    case SendItem =>
      if !(g.pc.Sending? && g.pc.items != []) then Blocked
      else if g.pc.items[0].group == NoAddr then Panics
      else Does(Local(g.(pc := Sending(g.pc.items[1..]))).(frame := Some(WorkerFrame(c, g, g.pc.items[0]))))
    case NextList => if g.pc == Sending([]) then Does(Local(g.(pc := Head))) else Blocked
    case _ => Blocked
  }

  // ----- The move of any goroutine -----

  predicate IsReceiver(p: Proc) {
    p.Multicast? || p.Unicast?
  }

  function Move(c: System, g: Goroutine, i: nat, s: State, a: Act): Outcome {
    if a.Exit? then
      if g.pc.Head? && s.cancelled && !g.proc.Selector? then Does(Local(g.(pc := Exited))) else Blocked
    else if a.CheckContext? then
      // a receiver that has passed the check runs one more iteration even if the context ends now
      if IsReceiver(g.proc) && g.pc.Head? && !s.cancelled then Does(Local(g.(pc := Entered))) else Blocked
    else if a.Begin? then
      if IsReceiver(g.proc) && g.pc.Entered? && (a.buf in s.pool.free || a.buf !in s.pool.contents)
      then Does(Local(g.(pc := Reading(a.buf))).(pool := Get(a.buf))) else Blocked
    else if a.ReadFails? then
      if IsReceiver(g.proc) && g.pc.Reading? then Does(Local(g.(pc := Returning(g.pc.buf)))) else Blocked
    else if a.PutBack? then
      if g.pc.Returning? then Does(Local(g.(pc := Head)).(pool := Put(g.pc.buf))) else Blocked
    else if g.proc.Multicast? then MulticastMove(c, g, i, s, a)
    else if g.proc.Unicast? then UnicastMove(c, g, i, s, a)
    else if g.proc.Selector? then SelectorMove(g, a)
    else WorkerMove(c, g, s, a)
  }

  /** The handle an action goes through, if any: the receiver's own connection, or that of the frame it writes. */
  function Uses(g: Goroutine, a: Act, e: Effect): Option<Handle> {
    if a.Begin? then
      if g.proc.Multicast? then Some(MCon(g.proc.side, g.proc.group)) else Some(UCon(IN))
    else
      match e.frame
      case None => None
      case Some(f) => Some(Raw(if f.Forwarded? then f.out else OUT))
  }

  predicate UsesUnopened(c: System, g: Goroutine, a: Act, e: Effect) {
    Uses(g, a, e).Some? && !IsOpen(c.conf, Uses(g, a, e).value)
  }

  function Apply(s: State, i: nat, e: Effect): State
    requires i < |s.gs|
  {
    s.(gs := s.gs[i := e.g],
       wg := if e.g.pc.Exited? && s.wg > 0 then s.wg - 1 else s.wg,
       pool := OnPool(s.pool, e.pool),
       route := if e.store.Some? then s.route[IN := e.store.value] else s.route,
       stored := if e.store.Some? then s.stored + [e.store.value] else s.stored,
       accepts := if e.accept.Some? then s.accepts + [Accept(i, e.accept.value)] else s.accepts,
       frames := if e.frame.Some? then s.frames + [e.frame.value] else s.frames,
       chans := OnChans(s.chans, e.chan))
  }

  function EnvStep(c: System, s: State, a: Action): Option<State>
    requires !a.Do?
  {
    match a
    case Arrive(p) => Some(s.(packets := s.packets + [p]))
    case Cancel => Some(s.(cancelled := true))
    case PoolDrop(b) =>
      if b in s.pool.free
      then Some(s.(pool := s.pool.(free := s.pool.free - {b}, dropped := s.pool.dropped + {b}))) else None
    case EnqueueReport(items) =>
      if |s.chans.report| < c.conf.Slots()
      then Some(s.(chans := s.chans.(report := s.chans.report + [items]))) else None
    case EnqueueLeave(items) =>
      // the leave channel is only made when leaves are configured
      if c.conf.leaveToNetwork && |s.chans.leave| < c.conf.Slots()
      then Some(s.(chans := s.chans.(leave := s.chans.leave + [items]))) else None
    case TakeQuery => if s.chans.query > 0 then Some(s.(chans := OnChans(s.chans, PopQuery))) else None
    case TakeFromNet => if s.chans.fromNet != [] then Some(s.(chans := OnChans(s.chans, PopFromNet))) else None
  }

  /** The next state, or None when the action is not enabled. Using an unopened handle crashes the process. */
  function Step(c: System, s: State, a: Action): Option<State> {
    if s.status != Running then None
    else if !a.Do? then EnvStep(c, s, a)
    else if a.i >= |s.gs| then None
    else
      var g := s.gs[a.i];
      match Move(c, g, a.i, s, a.act)
      case Blocked => None
      case Panics => Some(s.(status := Panicked))
      case Does(e) => if UsesUnopened(c, g, a.act, e) then Some(s.(status := Crashed)) else Some(Apply(s, a.i, e))
  }

  // ----- Runs -----

  ghost predicate IsRun(c: System, states: seq<State>, acts: seq<Action>) {
    && |states| == |acts| + 1
    && states[0] == Init(c)
    && forall k | 0 <= k < |acts| :: Step(c, states[k], acts[k]) == Some(states[k + 1])
  }

  ghost predicate Reachable(c: System, s: State) {
    exists states, acts :: IsRun(c, states, acts) && states[|acts|] == s
  }

  lemma RunReachable(c: System, states: seq<State>, acts: seq<Action>, k: nat)
    requires IsRun(c, states, acts) && k <= |acts|
    ensures Reachable(c, states[k])
  {
    var states', acts' := states[..k + 1], acts[..k];
    forall j | 0 <= j < |acts'|
      ensures Step(c, states'[j], acts'[j]) == Some(states'[j + 1])
    {
      assert Step(c, states[j], acts[j]) == Some(states[j + 1]);
    }
    assert IsRun(c, states', acts');
  }

  lemma InitReachable(c: System)
    ensures Reachable(c, Init(c))
  {
    assert IsRun(c, [Init(c)], []);
  }

  lemma RunExtends(c: System, states: seq<State>, acts: seq<Action>, a: Action, t: State)
    requires IsRun(c, states, acts) && Step(c, states[|acts|], a) == Some(t)
    ensures IsRun(c, states + [t], acts + [a])
  {
    var states', acts' := states + [t], acts + [a];
    forall k | 0 <= k < |acts'|
      ensures Step(c, states'[k], acts'[k]) == Some(states'[k + 1])
    {
      if k < |acts| { assert Step(c, states[k], acts[k]) == Some(states[k + 1]); }
    }
  }

  lemma ReachableStep(c: System, s: State, a: Action, t: State)
    requires Reachable(c, s) && Step(c, s, a) == Some(t)
    ensures Reachable(c, t)
  {
    var states, acts :| IsRun(c, states, acts) && states[|acts|] == s;
    RunExtends(c, states, acts, a, t);
    assert (states + [t])[|acts + [a]|] == t;
  }
}

/**
 The supervisor of the client, step by step as the code does it: it starts reporters
 through the one-place token channel and answers queries itself.
 */
module SupervisorLoop {
  import opened Base
  import opened ClientProtocol

  datatype Source = Notification | QueryArrived(groups: seq<Item>, room: bool) | FromTheNetwork | Done

  /**
   What the supervisor's select wakes up to. Before it looks, the running reporter may have released its
   token; the list built for a query and the room for the first attempt to send it are given.
   */
  datatype Wake = Wake(released: bool, event: Source)

  /** The replies to the queries that arrive before the context ends: none when nothing is listed. */
  function Replies(wakes: seq<Wake>): seq<Event> {
    if wakes == [] || wakes[0].event.Done? then []
    else
      (if wakes[0].event.QueryArrived? && wakes[0].event.groups != [] then [QueryReply(wakes[0].event.groups)] else [])
      + Replies(wakes[1..])
  }

  /** Does the context end within these wake-ups? */
  predicate Ends(wakes: seq<Wake>) {
    wakes != [] && (wakes[0].event.Done? || Ends(wakes[1..]))
  }

  /** The replies still to come after the `k`-th wake-up. */
  function After(wakes: seq<Wake>, k: nat): seq<Event>
    requires k < |wakes|
  {
    if wakes[k].event.Done? then [] else Replies(wakes[k + 1..])
  }

  lemma RepliesFirst(wakes: seq<Wake>)
    requires wakes != []
    ensures Replies(wakes) == Replies([wakes[0]]) + if wakes[0].event.Done? then [] else Replies(wakes[1..])
  {
    assert Replies([wakes[0]][1..]) == [];
  }

  lemma RepliesNext(before: seq<Event>, wakes: seq<Wake>, k: nat)
    requires k < |wakes|
    ensures before + Replies(wakes[k..]) == before + Replies([wakes[k]]) + After(wakes, k)
    ensures Ends(wakes[k..]) == (wakes[k].event.Done? || Ends(wakes[k + 1..]))
  {
    assert wakes[k..][1..] == wakes[k + 1..];
    RepliesFirst(wakes[k..]);
    Associative(before, Replies([wakes[k]]), After(wakes, k));
  }

  // ----- Who starts a reporter -----

  /** What a wake-up means for the token channel. */
  datatype Signal = Released | Noticed

  /** Reporters started, and reporters that have released their token. */
  datatype Tally = Tally(starts: nat, releases: nat)

  /** A release is that of the running reporter; a notification starts one if none is running. */
  function Counted(t: Tally, e: Signal): Tally {
    match e
    case Released => if t.starts > t.releases then t.(releases := t.releases + 1) else t
    case Noticed => if t.starts == t.releases then t.(starts := t.starts + 1) else t
  }

  function Tallied(t: Tally, signals: seq<Signal>): Tally
    decreases |signals|
  {
    if signals == [] then t else Tallied(Counted(t, signals[0]), signals[1..])
  }

  function SignalsOf(wake: Wake): seq<Signal> {
    (if wake.released then [Released] else []) + if wake.event.Notification? then [Noticed] else []
  }

  /** The signals of the wake-ups until the context ends. */
  function Signals(wakes: seq<Wake>): seq<Signal> {
    if wakes == [] then []
    else SignalsOf(wakes[0]) + if wakes[0].event.Done? then [] else Signals(wakes[1..])
  }

  lemma {:induction false} TalliedConcat(t: Tally, a: seq<Signal>, b: seq<Signal>)
    ensures Tallied(t, a + b) == Tallied(Tallied(t, a), b)
    decreases |a|
  {
    if a == [] {
      assert a + b == b;
    } else {
      assert (a + b)[1..] == a[1..] + b;
      TalliedConcat(Counted(t, a[0]), a[1..], b);
    }
  }

  /** The signals still to come after the `k`-th wake-up. */
  function SignalsAfter(wakes: seq<Wake>, k: nat): seq<Signal>
    requires k < |wakes|
  {
    if wakes[k].event.Done? then [] else Signals(wakes[k + 1..])
  }

  lemma SignalsNext(t: Tally, wakes: seq<Wake>, k: nat)
    requires k < |wakes|
    ensures Tallied(t, Signals(wakes[k..])) == Tallied(Tallied(t, SignalsOf(wakes[k])), SignalsAfter(wakes, k))
  {
    assert wakes[k..][1..] == wakes[k + 1..];
    TalliedConcat(t, SignalsOf(wakes[k]), SignalsAfter(wakes, k));
  }

  /** A release, if there was one, and then the notification. */
  lemma TalliedWake(t: Tally, wake: Wake)
    ensures var released := if wake.released then Counted(t, Released) else t;
      Tallied(t, SignalsOf(wake)) == if wake.event.Notification? then Counted(released, Noticed) else released
  {
    TalliedConcat(t, if wake.released then [Released] else [], if wake.event.Notification? then [Noticed] else []);
    assert [Released][1..] == [] && [Noticed][1..] == [];
  }

  class Supervisor {
    /** The number of tokens in the channel, which has room for one. */
    var tokens: nat
    /** Reporters started, and reporters that have released their token. */
    var starts: nat
    var releases: nat
    var sent: seq<Event>
    var keepLooping: bool

    /** Exactly the reporters started and not released hold tokens, and there is at most one. */
    ghost predicate Valid()
      reads this
    {
      tokens == starts - releases && tokens <= 1
    }

    function Counts(): Tally
      reads this
    {
      Tally(starts, releases)
    }

    constructor ()
      ensures Valid() && Counts() == Tally(0, 0) && sent == [] && keepLooping
    {
      tokens, starts, releases, sent, keepLooping := 0, 0, 0, [], true;
    }

    /** The release of a running reporter: its receive finds its token. */
    method Release()
      requires Valid() && starts > releases
      modifies this`tokens, this`releases
      ensures Valid() && tokens == 0 && releases == old(releases) + 1
    {
      tokens := tokens - 1;
      releases := releases + 1;
    }

    /** Tries to put a token in the channel; a reporter is started only if it fits. */
    method Notified()
      requires Valid()
      modifies this`tokens, this`starts
      ensures Valid() && tokens == 1
      ensures starts == old(starts) + if old(starts) == releases then 1 else 0
      ensures forall s: State, id | s.token == old(tokens) && id !in s.reporters ::
        MoveSupervisor(ClientProtocol.Notified, s, TryStart(id))
        == Some(SupervisorMove(Idle, None, starts > old(starts)))
    {
      if tokens < 1 {
        tokens := tokens + 1;
        starts := starts + 1;
      }
    }

    /** Answers a query with what is listed, if anything is, sending the list once whether or not there is room. */
    method Answer(groups: seq<Item>, room: bool)
      modifies this`sent
      ensures sent == old(sent) + if groups != [] then [QueryReply(groups)] else []
      ensures forall s: State, scan: Scan | scan.found == groups && ScanComplete(scan, s.streams) ::
        MoveSupervisor(Answering(scan), s, AnswerEnd)
        == Some(SupervisorMove(if sent == old(sent) then Idle else Replying(groups), None, false))
      ensures forall s: State | HasRoom(s.reports) && sent != old(sent) ::
        var reply := Some(SupervisorMove(Idle, Some(sent[|sent| - 1]), false));
        && MoveSupervisor(Replying(groups), s, TryReply) == reply
        && MoveSupervisor(ReplyBlocked(groups), s, ReplyUnblocked) == reply
    {
      if |groups| > 0 {
        if room {
          sent := sent + [QueryReply(groups)];
          return;
        }
        sent := sent + [QueryReply(groups)];
      }
    }

    method WakeUp(wake: Wake)
      requires Valid() && keepLooping
      modifies this
      ensures Valid() && keepLooping == !wake.event.Done?
      ensures sent == old(sent) + Replies([wake]) && Counts() == Tallied(old(Counts()), SignalsOf(wake))
      ensures releases == old(releases) + if wake.released && old(starts) > old(releases) then 1 else 0
      ensures starts == old(starts) + if wake.event.Notification? && old(starts) == releases then 1 else 0
    {
      TalliedWake(Counts(), wake);
      if wake.released && starts > releases { Release(); }
      match wake.event {
        case Notification => Notified();
        case QueryArrived(groups, room) => Answer(groups, room);
        case FromTheNetwork =>
        case Done => keepLooping := false;
      }
    }

    /**
     The whole loop: after any wake-ups at most one reporter runs, started by a notification that found none,
     and every query has had its reply.
     */
    method Loop(wakes: seq<Wake>)
      requires Valid() && keepLooping
      modifies this
      ensures Valid() && sent == old(sent) + Replies(wakes)
      ensures Counts() == Tallied(old(Counts()), Signals(wakes)) && tokens == starts - releases <= 1
      ensures keepLooping == !Ends(wakes)
    {
      ghost var rest, ends, all := Replies(wakes), Ends(wakes), sent + Replies(wakes);
      ghost var signals := Signals(wakes);
      var k := 0;
      assert wakes[0..] == wakes;
      while k < |wakes| && keepLooping
        invariant k <= |wakes| && Valid() && sent + rest == all
        invariant if keepLooping then rest == Replies(wakes[k..]) && ends == Ends(wakes[k..])
                  else rest == [] && Ends(wakes)
        invariant keepLooping ==> ends == Ends(wakes)
        invariant Tallied(Counts(), signals) == Tallied(old(Counts()), Signals(wakes))
        invariant signals == if keepLooping then Signals(wakes[k..]) else []
      {
        RepliesNext(sent, wakes, k);
        SignalsNext(Counts(), wakes, k);
        rest, ends, signals := After(wakes, k), Ends(wakes[k + 1..]), SignalsAfter(wakes, k);
        WakeUp(wakes[k]);
        k := k + 1;
      }
    }
  }
}

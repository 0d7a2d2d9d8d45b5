/**
 What one goroutine itself does between two points of a run, and what the others' steps
 in between leave alone.
 */
module OwnSteps {
  import opened Base
  import opened Library
  import opened Buffers

  predicate IsOwn(a: Action, i: nat) {
    a.Do? && a.i == i
  }

  /** The frame and the channel send of one step, if it is goroutine `i`'s. */
  function FrameOf(c: System, s: State, a: Action, i: nat): seq<Frame> {
    if IsOwn(a, i) && EffectOf(c, s, a).Some? && EffectOf(c, s, a).value.frame.Some?
    then [EffectOf(c, s, a).value.frame.value] else []
  }

  function Ops(op: ChanOp): seq<ChanOp> {
    if op == NoOp then [] else [op]
  }

  function SendOf(c: System, s: State, a: Action, i: nat): seq<ChanOp> {
    if IsOwn(a, i) && EffectOf(c, s, a).Some? then Ops(EffectOf(c, s, a).value.chan) else []
  }

  /** The frames goroutine `i` wrote in the steps from `n` to `m`. */
  function OwnFrames(c: System, states: seq<State>, acts: seq<Action>, n: nat, m: nat, i: nat): seq<Frame>
    requires n <= m <= |acts| && |states| == |acts| + 1
  {
    if n == m then [] else OwnFrames(c, states, acts, n, m - 1, i) + FrameOf(c, states[m - 1], acts[m - 1], i)
  }

  /** The channel sends goroutine `i` made in those steps. */
  function OwnSends(c: System, states: seq<State>, acts: seq<Action>, n: nat, m: nat, i: nat): seq<ChanOp>
    requires n <= m <= |acts| && |states| == |acts| + 1
  {
    if n == m then [] else OwnSends(c, states, acts, n, m - 1, i) + SendOf(c, states[m - 1], acts[m - 1], i)
  }

  /** Receiver `i` has begun an iteration with buffer `b` at `n` and is still at it at `m`. */
  ghost predicate UnderWay(c: System, states: seq<State>, acts: seq<Action>, n: nat, m: nat, i: nat, b: Buf) {
    && IsRun(c, states, acts) && n < m <= |acts|
    && acts[n] == Do(i, Begin(b)) && EffectOf(c, states[n], acts[n]).Some?
    && (forall k | n < k <= m :: i < |states[k].gs| && states[k].gs[i].pc != Head)
    && states[m].status == Running
  }

  /** The steps from `n` to `m` are one iteration of receiver `i`, begun with buffer `b` and ended by the last. */
  ghost predicate IsIteration(c: System, states: seq<State>, acts: seq<Action>, n: nat, m: nat, i: nat, b: Buf) {
    && IsRun(c, states, acts) && n < m <= |acts|
    && acts[n] == Do(i, Begin(b)) && EffectOf(c, states[n], acts[n]).Some?
    && (forall k | n < k < m :: i < |states[k].gs| && states[k].gs[i].pc != Head)
    && IsOwn(acts[m - 1], i) && i < |states[m].gs|
    && (states[m].gs[i].pc == Head || states[m].status != Running)
  }

  /** What was under way at `m` was so just before. */
  lemma UnderWayBefore(c: System, states: seq<State>, acts: seq<Action>, n: nat, m: nat, i: nat, b: Buf)
    requires UnderWay(c, states, acts, n, m, i, b) && n + 1 < m
    ensures UnderWay(c, states, acts, n, m - 1, i, b)
  {
    assert Step(c, states[m - 1], acts[m - 1]) == Some(states[m]);
  }

  /** An iteration is under way until its last step. */
  lemma IterationUnderWay(c: System, states: seq<State>, acts: seq<Action>, n: nat, m: nat, i: nat, b: Buf)
    requires IsIteration(c, states, acts, n, m, i, b)
    ensures n + 1 < m && UnderWay(c, states, acts, n, m - 1, i, b)
  {
    assert Step(c, states[n], acts[n]) == Some(states[n + 1]);
    StepShape(c, states[n], acts[n], states[n + 1]);
    assert Step(c, states[m - 1], acts[m - 1]) == Some(states[m]);
  }

  /** Others' steps leave a goroutine and the buffer in its hands as they are. */
  lemma OthersKeep(c: System, s: State, a: Action, t: State, i: nat, b: Buf)
    requires Inv(s) && Step(c, s, a) == Some(t) && !IsOwn(a, i)
    requires i < |s.gs| && Held(s.gs[i].pc) == Some(b)
    ensures |t.gs| == |s.gs| && t.gs[i] == s.gs[i] && Contents(t.pool, b) == Contents(s.pool, b)
    ensures s.packets <= t.packets
  {
    StepShape(c, s, a, t);
    if EffectOf(c, s, a).Some? { MoveBuffer(c, s.gs[a.i], a.i, s, a.act); }
  }
}

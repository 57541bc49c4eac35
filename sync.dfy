/**
 * The reconciliation loop of sync.c `main`: seed two "previous frequency"
 * trackers, then on every tick sample SDR++ and the rig, and push whichever
 * side changed to the other one, the rig winning when both changed.
 *
 * The readings are parameters: what GetCurrentFreq returned for SDR++, and
 * what GetFreq_rig returned for the rig (or that hamlib reported an error, on
 * which the source calls exit(2)). The ticks are the loop iterations that
 * began while keepRunning held.
 */
module Sync {
  import opened Wrappers
  import opened CInt
  import Rigctl

  /** freq_sdrpp_old and freq_rig_old. */
  datatype Trackers = Trackers(sdrOld: Long, rigOld: Long) {
    predicate Agree() { sdrOld == rigOld }
  }

  /** The calls main makes on the two sides, as they are issued. */
  datatype Call =
    | GetSdrFreq            // GetCurrentFreq(sockfd)
    | GetRigFreq            // GetFreq_rig(my_rig)
    | SetSdrFreq(hz: Long)  // SetFreq(sockfd, hz)
    | SetRigFreq(hz: Long)  // SetFreq_rig(my_rig, hz)
    | RigClose              // rig_close(my_rig)
    | RigCleanup            // rig_cleanup(my_rig)

  predicate IsSet(c: Call) { c.SetSdrFreq? || c.SetRigFreq? }

  /** What GetFreq_rig delivers: a frequency, or a hamlib error (exit(2)). */
  datatype RigRead = RigFreq(hz: Long) | RigFailed

  /** The inputs of one loop iteration; rigSetOk is the outcome of a SetFreq_rig, if one is made. */
  datatype Tick = Tick(sdr: Long, rig: RigRead, rigSetOk: bool)

  /** The inputs of the start-up: whether connect_rig succeeded, and the first readings. */
  datatype Startup = Startup(rigOpened: bool, sdr: Long, rig: RigRead)

  /** Still looping, left the loop and tore down, or exited on a hamlib error. */
  datatype Outcome = Running | Stopped | Fatal

  /** The calls so far, the trackers, and where the program stands. */
  datatype Run = Run(log: seq<Call>, trackers: Trackers, outcome: Outcome)

  /** The trackers after a tick and the one set-call it makes, if any. */
  datatype Decision = Decision(next: Trackers, call: Option<Call>)

  /** The conflict resolution of sync.c:100-111 for one pair of readings. */
  function Step(t: Trackers, sdr: Long, rig: Long): (d: Decision)
    ensures d.call.None? ==> d.next == t
    ensures d.call.Some? ==> IsSet(d.call.value) && d.next.Agree()
  {
    if rig != t.rigOld then Decision(Trackers(rig, rig), Some(SetSdrFreq(rig)))
    else if sdr != t.sdrOld then Decision(Trackers(sdr, sdr), Some(SetRigFreq(sdr)))
    else Decision(t, None)
  }

  /**
   * The start-up of sync.c:77-93: connect to the rig (fatal on failure), read
   * SDR++ and seed its tracker, read the rig and seed its tracker, and set
   * SDR++ to the rig's frequency. Trackers of a Fatal run carry no meaning.
   */
  function Init(s: Startup): (r: Run)
    ensures r.outcome != Stopped
    ensures r.outcome == Running ==> |r.log| == 3 && r.log[2] == SetSdrFreq(r.trackers.rigOld)
  {
    if !s.rigOpened then Run([], Trackers(0, 0), Fatal)
    else match s.rig
      case RigFailed => Run([GetSdrFreq, GetRigFreq], Trackers(0, 0), Fatal)
      case RigFreq(hz) => Run([GetSdrFreq, GetRigFreq, SetSdrFreq(hz)], Trackers(s.sdr, hz), Running)
  }

  /** One iteration of the loop body, sync.c:97-111. */
  function TickRun(t: Trackers, tick: Tick): (r: Run)
    ensures r.outcome != Stopped
    ensures 2 <= |r.log| <= 3 && r.log[0] == GetSdrFreq && r.log[1] == GetRigFreq
    ensures |r.log| == 3 ==> IsSet(r.log[2])
    ensures r.outcome == Running ==> (if |r.log| == 2 then r.trackers == t else r.trackers.Agree())
  {
    var sampled := [GetSdrFreq, GetRigFreq];
    match tick.rig
    case RigFailed => Run(sampled, t, Fatal)
    case RigFreq(rig) =>
      var d := Step(t, tick.sdr, rig);
      match d.call
      case None => Run(sampled, t, Running)
      case Some(c) =>
        if c.SetRigFreq? && !tick.rigSetOk then Run(sampled + [c], t, Fatal)
        else Run(sampled + [c], d.next, Running)
  }

  /** The run after the given ticks, starting from `init`; a run that left Running stays as it is. */
  function Ticks(init: Run, ticks: seq<Tick>): (r: Run)
    ensures init.outcome != Stopped ==> r.outcome != Stopped
    ensures init.log <= r.log
    decreases |ticks|
  {
    if ticks == [] then init
    else
      var prev := Ticks(init, ticks[..|ticks| - 1]);
      if prev.outcome != Running then prev
      else
        var now := TickRun(prev.trackers, ticks[|ticks| - 1]);
        Run(prev.log + now.log, now.trackers, now.outcome)
  }

  /** The whole of main: start-up, the ticks, and teardown (sync.c:117-118) once the loop ends. */
  function Session(s: Startup, ticks: seq<Tick>): (r: Run)
    ensures r.outcome != Running
  {
    var r := Ticks(Init(s), ticks);
    if r.outcome == Running then Run(r.log + [RigClose, RigCleanup], r.trackers, Stopped) else r
  }

  /** The number of set-calls in a log. */
  function SetCalls(log: seq<Call>): nat
  {
    if log == [] then 0 else SetCalls(log[..|log| - 1]) + (if IsSet(log[|log| - 1]) then 1 else 0)
  }

  // ------------------------------------------------------------------ lemmas

  /** Rig priority: a changed rig is pushed to SDR++, the rig gets no set-call, both trackers take its frequency. */
  lemma RigWins(t: Trackers, tick: Tick)
    requires tick.rig.RigFreq? && tick.rig.hz != t.rigOld
    ensures TickRun(t, tick) ==
      Run([GetSdrFreq, GetRigFreq, SetSdrFreq(tick.rig.hz)], Trackers(tick.rig.hz, tick.rig.hz), Running)
  {
  }

  /** With the rig unchanged, a changed SDR++ is pushed to the rig and both trackers take its frequency. */
  lemma SdrFollowed(t: Trackers, tick: Tick)
    requires tick.rig == RigFreq(t.rigOld) && tick.sdr != t.sdrOld
    ensures TickRun(t, tick).log == [GetSdrFreq, GetRigFreq, SetRigFreq(tick.sdr)]
    ensures TickRun(t, tick) ==
      if tick.rigSetOk then Run(TickRun(t, tick).log, Trackers(tick.sdr, tick.sdr), Running)
      else Run(TickRun(t, tick).log, t, Fatal)
  {
  }

  /** Idempotence: a tick makes no set-call exactly when neither reading moved, and then nothing changes. */
  lemma QuietTick(t: Trackers, tick: Tick)
    requires tick.rig.RigFreq?
    ensures |TickRun(t, tick).log| == 2 <==> tick.rig.hz == t.rigOld && tick.sdr == t.sdrOld
    ensures |TickRun(t, tick).log| == 2 ==> TickRun(t, tick) == Run([GetSdrFreq, GetRigFreq], t, Running)
  {
  }

  /** A run still looping grows by exactly the next tick's calls. */
  lemma NextTick(init: Run, ticks: seq<Tick>, i: nat)
    requires i < |ticks| && Ticks(init, ticks[..i]).outcome == Running
    ensures var prev := Ticks(init, ticks[..i]);
      var now := TickRun(prev.trackers, ticks[i]);
      Ticks(init, ticks[..i + 1]) == Run(prev.log + now.log, now.trackers, now.outcome)
  {
    assert ticks[..i + 1][..i] == ticks[..i];
  }

  /** Once the loop has stopped or failed, later ticks change nothing. */
  lemma {:induction false} Halted(init: Run, ticks: seq<Tick>, i: nat)
    requires i <= |ticks|
    requires Ticks(init, ticks[..i]).outcome != Running
    ensures Ticks(init, ticks) == Ticks(init, ticks[..i])
    decreases |ticks| - i
  {
    if i < |ticks| {
      var pre := ticks[..|ticks| - 1];
      assert pre[..i] == ticks[..i];
      Halted(init, pre, i);
      assert ticks[..|ticks|] == ticks;
    } else {
      assert ticks[..i] == ticks;
    }
  }

  /** Invariant: once the two trackers are equal they stay equal after every later tick. */
  lemma {:induction false} AgreementPersists(init: Run, ticks: seq<Tick>, i: nat, j: nat)
    requires i <= j <= |ticks|
    requires Ticks(init, ticks[..i]).trackers.Agree()
    ensures Ticks(init, ticks[..j]).trackers.Agree()
    decreases j
  {
    if j > i {
      AgreementPersists(init, ticks, i, j - 1);
      var pre := ticks[..j];
      assert pre[..j - 1] == ticks[..j - 1];
    }
  }

  lemma {:induction false} SetCallsAppend(a: seq<Call>, b: seq<Call>)
    ensures SetCalls(a + b) == SetCalls(a) + SetCalls(b)
    decreases |b|
  {
    if b == [] {
      assert a + b == a;
    } else {
      assert (a + b)[..|a + b| - 1] == a + b[..|b| - 1];
      SetCallsAppend(a, b[..|b| - 1]);
    }
  }

  /** One tick's log: SDR++ sampled once, the rig sampled once, at most one set-call. */
  lemma TickRunCounts(t: Trackers, tick: Tick)
    ensures var log := TickRun(t, tick).log;
      multiset(log)[GetSdrFreq] == 1 && multiset(log)[GetRigFreq] == 1 && SetCalls(log) <= 1
  {
    var log := TickRun(t, tick).log;
    var head := [GetSdrFreq, GetRigFreq];
    assert head[..1] == [GetSdrFreq] && [GetSdrFreq][..0] == [];
    assert SetCalls(head) == 0;
    if |log| == 2 {
      assert log == head;
    } else {
      assert log == head + [log[2]];
      assert log[..2] == head;
    }
  }

  /** Every tick of a run still looping sampled SDR++ once and then the rig once. */
  lemma {:induction false} SampleCounts(init: Run, ticks: seq<Tick>)
    requires init.outcome == Running
    ensures var r := Ticks(init, ticks);
      r.outcome == Running ==>
        multiset(r.log)[GetSdrFreq] == multiset(init.log)[GetSdrFreq] + |ticks| &&
        multiset(r.log)[GetRigFreq] == multiset(init.log)[GetRigFreq] + |ticks|
    decreases |ticks|
  {
    if ticks != [] {
      var pre := ticks[..|ticks| - 1];
      SampleCounts(init, pre);
      var prev := Ticks(init, pre);
      if prev.outcome == Running {
        TickRunCounts(prev.trackers, ticks[|ticks| - 1]);
      }
    }
  }

  /** At most one set-call per tick. */
  lemma {:induction false} SetCallBound(init: Run, ticks: seq<Tick>)
    ensures SetCalls(Ticks(init, ticks).log) <= SetCalls(init.log) + |ticks|
    decreases |ticks|
  {
    if ticks != [] {
      var pre := ticks[..|ticks| - 1];
      SetCallBound(init, pre);
      var prev := Ticks(init, pre);
      if prev.outcome == Running {
        var now := TickRun(prev.trackers, ticks[|ticks| - 1]);
        TickRunCounts(prev.trackers, ticks[|ticks| - 1]);
        SetCallsAppend(prev.log, now.log);
      }
    }
  }

  /** Before teardown the loop never touches the rig's connection. */
  lemma {:induction false} NoTeardownInLoop(init: Run, ticks: seq<Tick>)
    requires RigClose !in init.log && RigCleanup !in init.log
    ensures RigClose !in Ticks(init, ticks).log && RigCleanup !in Ticks(init, ticks).log
    decreases |ticks|
  {
    if ticks != [] {
      NoTeardownInLoop(init, ticks[..|ticks| - 1]);
    }
  }

  /**
   * Teardown happens once, after the loop: a stopped session ends with
   * rig_close then rig_cleanup and has no other teardown call; a session that
   * exited on a hamlib error never closes the rig.
   */
  lemma Teardown(s: Startup, ticks: seq<Tick>)
    ensures var r := Session(s, ticks);
      (r.outcome == Stopped ==>
        |r.log| >= 2 && r.log[|r.log| - 2..] == [RigClose, RigCleanup] &&
        RigClose !in r.log[..|r.log| - 2] && RigCleanup !in r.log[..|r.log| - 2]) &&
      (r.outcome == Fatal ==> RigClose !in r.log && RigCleanup !in r.log)
  {
    NoTeardownInLoop(Init(s), ticks);
    var loop := Ticks(Init(s), ticks);
    if loop.outcome == Running {
      var log := loop.log + [RigClose, RigCleanup];
      assert log[..|log| - 2] == loop.log;
      assert log[|log| - 2..] == [RigClose, RigCleanup];
      assert Session(s, ticks).log == log;
    }
  }

  /**
   * The start-up seeds each tracker from its own side's first reading and
   * issues one set-call, to SDR++, with the rig's frequency.
   */
  lemma InitAlignment(s: Startup)
    requires s.rigOpened && s.rig.RigFreq?
    ensures Init(s) == Run([GetSdrFreq, GetRigFreq, SetSdrFreq(s.rig.hz)], Trackers(s.sdr, s.rig.hz), Running)
    ensures SetCalls(Init(s).log) == 1
  {
    var log := Init(s).log;
    assert log[..2] == [GetSdrFreq, GetRigFreq];
    assert log[..2][..1] == [GetSdrFreq] && [GetSdrFreq][..0] == [];
    assert SetCalls([GetSdrFreq]) == 0;
    assert SetCalls(log[..2]) == 0;
  }

  /**
   * Because the SDR++ tracker keeps SDR++'s own first reading, an SDR++ that
   * took the initial push looks changed on the first tick, and the rig is
   * then set to the frequency it already has.
   */
  lemma EchoAfterInit(s: Startup)
    requires s.rigOpened && s.rig.RigFreq? && s.sdr != s.rig.hz
    ensures var hz := s.rig.hz;
      Ticks(Init(s), [Tick(hz, RigFreq(hz), true)]) ==
        Run(Init(s).log + [GetSdrFreq, GetRigFreq, SetRigFreq(hz)], Trackers(hz, hz), Running)
  {
    var hz := s.rig.hz;
    var ticks := [Tick(hz, RigFreq(hz), true)];
    assert ticks[..0] == [];
  }

  /**
   * A failure reply to SDR++'s frequency query reads as 0 Hz, which differs
   * from a non-zero tracker: with the rig unchanged, the rig is set to 0.
   */
  lemma FailureReplyTunesRigToZero(t: Trackers)
    requires t.sdrOld != 0
    ensures var sdr := Rigctl.CurrentFreqOf(Rigctl.FAILURE);
      sdr == Some(0) && Step(t, sdr.value, t.rigOld) == Decision(Trackers(0, 0), Some(SetRigFreq(0)))
  {
  }

  // ---------------------------------------------------------------- main

  /** The loop body, sync.c:97-111, on the two tracker variables. */
  method LoopBody(sdrOld: Long, rigOld: Long, tick: Tick)
    returns (calls: seq<Call>, sdrNew: Long, rigNew: Long, fatal: bool)
    ensures TickRun(Trackers(sdrOld, rigOld), tick) ==
      Run(calls, Trackers(sdrNew, rigNew), if fatal then Fatal else Running)
  {
    sdrNew, rigNew, fatal := sdrOld, rigOld, false;
    var sdr := tick.sdr;
    calls := [GetSdrFreq];
    calls := calls + [GetRigFreq];
    if tick.rig.RigFailed? {
      return calls, sdrNew, rigNew, true;
    }
    var rig := tick.rig.hz;
    if rig != rigOld {
      calls := calls + [SetSdrFreq(rig)];
      rigNew := rig;
      sdrNew := rig;
    } else if sdr != sdrOld {
      calls := calls + [SetRigFreq(sdr)];
      if !tick.rigSetOk {
        return calls, sdrNew, rigNew, true;
      }
      rigNew := sdr;
      sdrNew := sdr;
    }
  }

  /** main's start-up and `while (keepRunning)` loop over the ticks, then teardown. */
  method Synchronise(start: Startup, ticks: seq<Tick>) returns (log: seq<Call>, trackers: Trackers, outcome: Outcome)
    ensures Run(log, trackers, outcome) == Session(start, ticks)
  {
    if !start.rigOpened {
      Halted(Init(start), ticks, 0);
      return [], Trackers(0, 0), Fatal;
    }
    log := [GetSdrFreq];
    var sdrOld := start.sdr;
    log := log + [GetRigFreq];
    if start.rig.RigFailed? {
      Halted(Init(start), ticks, 0);
      return log, Trackers(0, 0), Fatal;
    }
    var rigOld := start.rig.hz;
    log := log + [SetSdrFreq(rigOld)];
    var i := 0;
    while i < |ticks|
      invariant i <= |ticks|
      invariant Ticks(Init(start), ticks[..i]) == Run(log, Trackers(sdrOld, rigOld), Running)
    {
      NextTick(Init(start), ticks, i);
      var calls, fatal;
      calls, sdrOld, rigOld, fatal := LoopBody(sdrOld, rigOld, ticks[i]);
      log := log + calls;
      if fatal {
        Halted(Init(start), ticks, i + 1);
        return log, Trackers(sdrOld, rigOld), Fatal;
      }
      i := i + 1;
    }
    assert ticks[..i] == ticks;
    log := log + [RigClose, RigCleanup];
    trackers := Trackers(sdrOld, rigOld);
    outcome := Stopped;
  }
}

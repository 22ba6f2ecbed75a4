/** Runs of the click sequencer: everything that can happen to the service,
    one input at a time, and the properties of whole traces.

    The main looper is sequential, so a run is a sequence of inputs: calls
    made on the service, gesture results delivered by the platform, and
    posted ticks coming due. Real time only shows up as the `elapsed` value
    that comes with each click result. */
module ClickerRuns {
  import opened Basics
  import opened Clicker

  datatype Input =
    | StartRequest(req: Request, dispatch: Dispatch)   // executeRapidClicks
    | SimulateRequest(probe: Probe, dispatch: Dispatch) // simulateClick
    | ClickDone(index: nat, success: bool, elapsed: int) // result of inFlight[index]
    | ProbeDone(index: nat, success: bool)              // result of probes[index]
    | TickDue(index: nat, dispatch: Dispatch)           // pending[index] runs
    | StopRequest                                       // stopExecution
    | EmergencyRequest                                  // emergencyStop
    | Interrupted                                       // onInterrupt

  /** A run so far: the engine reached, the notifications in order, and
      whether an exception escaped a handler tick (which ends the process). */
  datatype Trace = Trace(engine: Engine, notices: seq<Notice>, halted: bool)

  function Quiet(e: Engine): Outcome {
    Outcome(e, [], false)
  }

  /** One input. An index naming nothing is a no-op: the platform delivers
      only results and ticks that exist. */
  function Step(e: Engine, i: Input): (o: Outcome)
    ensures i.StopRequest? || i.EmergencyRequest? || i.Interrupted? ==>
              o == Quiet(StopExecution(e))
    ensures i.SimulateRequest? || i.ProbeDone? ==>
              o.engine.isExecuting == e.isExecuting && o.engine.executionCount == e.executionCount
              && o.engine.pending == e.pending && o.engine.inFlight == e.inFlight
    ensures i.TickDue? && i.index >= |e.pending| ==> o == Quiet(e)
    ensures i.ClickDone? && i.index >= |e.inFlight| ==> o == Quiet(e)
  {
    match i
    case StartRequest(r, d) => ExecuteRapidClicks(e, r, d)
    case SimulateRequest(p, d) => SimulateClick(e, p, d)
    case ClickDone(k, success, elapsed) =>
      if k < |e.inFlight| then
        OnClickResult(e.(inFlight := RemoveAt(e.inFlight, k)), e.inFlight[k], success, elapsed)
      else Quiet(e)
    case ProbeDone(k, success) =>
      if k < |e.probes| then OnProbeResult(e.(probes := RemoveAt(e.probes, k)), e.probes[k], success)
      else Quiet(e)
    case TickDue(k, d) =>
      if k < |e.pending| then
        ExecuteClickSequence(e.(pending := RemoveAt(e.pending, k)), e.pending[k].req, d)
      else Quiet(e)
    case StopRequest => Quiet(StopExecution(e))
    case EmergencyRequest => Quiet(EmergencyStop(e))
    case Interrupted => Quiet(OnInterrupt(e))
  }

  /** An exception out of a posted tick is uncaught and ends the run; one
      out of a call is caught by the caller (the host replies with an error). */
  predicate Halts(i: Input, o: Outcome) {
    o.raised && i.TickDue?
  }

  function Run(e: Engine, ins: seq<Input>): (t: Trace)
    decreases |ins|
  {
    if ins == [] then Trace(e, [], false)
    else
      var o := Step(e, ins[0]);
      if Halts(ins[0], o) then Trace(o.engine, o.notices, true)
      else
        var rest := Run(o.engine, ins[1..]);
        Trace(rest.engine, o.notices + rest.notices, rest.halted)
  }

  /** Continues trace `t` with the inputs `b`, unless it has halted. */
  function Continue(t: Trace, b: seq<Input>): Trace {
    if t.halted then t
    else var tb := Run(t.engine, b); Trace(tb.engine, t.notices + tb.notices, tb.halted)
  }

  /** Running `a` and then `b` is running `a + b`. */
  lemma {:induction false} RunAppend(e: Engine, a: seq<Input>, b: seq<Input>)
    ensures Run(e, a + b) == Continue(Run(e, a), b)
    decreases |a|
  {
    if a == [] {
      assert a + b == b;
    } else {
      assert (a + b)[0] == a[0];
      assert (a + b)[1..] == a[1..] + b;
      var o := Step(e, a[0]);
      if !Halts(a[0], o) {
        RunAppend(o.engine, a[1..], b);
        var ta := Run(o.engine, a[1..]);
        if !ta.halted {
          var tb := Run(ta.engine, b);
          assert o.notices + (ta.notices + tb.notices) == (o.notices + ta.notices) + tb.notices;
        }
      }
    }
  }

  /** A run of one input is that input's step. */
  lemma RunSingle(e: Engine, i: Input)
    ensures var o := Step(e, i); Run(e, [i]) == Trace(o.engine, o.notices, Halts(i, o))
  {
    var o := Step(e, i);
    assert [i][1..] == [];
    assert o.notices + [] == o.notices;
  }

  // ---------------------------------------------------------------------
  // A sequence running without interference

  /** The click notifications of sequence `r` for the counts `lo..hi`. */
  function Clicks(r: Request, lo: int, hi: int): seq<Notice>
    decreases hi - lo + 1
  {
    if lo > hi then [] else [Notice(r.listener, ClickExecuted(lo, r.point))] + Clicks(r, lo + 1, hi)
  }

  lemma {:induction false} ClicksShape(r: Request, lo: int, hi: int)
    requires lo <= hi + 1
    ensures |Clicks(r, lo, hi)| == hi - lo + 1
    ensures forall k :: 0 <= k < |Clicks(r, lo, hi)| ==>
                          Clicks(r, lo, hi)[k] == Notice(r.listener, ClickExecuted(lo + k, r.point))
    decreases hi - lo + 1
  {
    if lo <= hi {
      ClicksShape(r, lo + 1, hi);
    }
  }

  /** One undisturbed round: the outstanding click succeeds after `elapsed`
      ms, then its posted tick comes due and the next click is accepted. */
  function Round(elapsed: int): seq<Input> {
    [ClickDone(0, true, elapsed), TickDue(0, Accepted)]
  }

  function Rounds(elapsed: seq<int>): seq<Input>
    decreases |elapsed|
  {
    if elapsed == [] then [] else Round(elapsed[0]) + Rounds(elapsed[1..])
  }

  /** Sequence `r` has made `n` clicks and is waiting for the result of the next. */
  function Clicking(r: Request, n: int): Engine {
    Engine(true, n, [], [r], [])
  }

  /** Sequence `r` has made `n` clicks and waits for the tick it posted. */
  function Waiting(r: Request, n: int, delay: int): Engine {
    Engine(true, n, [Tick(r, delay)], [], [])
  }

  lemma RoundStep(r: Request, n: int, elapsed: int)
    requires 0 <= n < r.total
    ensures Run(Clicking(r, n), Round(elapsed)) ==
              if n + 1 < r.total
              then Trace(Clicking(r, n + 1), [Notice(r.listener, ClickExecuted(n + 1, r.point))], false)
              else Trace(Engine(false, n + 1, [], [], []),
                         [Notice(r.listener, ClickExecuted(n + 1, r.point)),
                          Notice(r.listener, SequenceCompleted(n + 1))], false)
  {
    var done, due := ClickDone(0, true, elapsed), TickDue(0, Accepted);
    assert Round(elapsed) == [done] + [due];
    RunAppend(Clicking(r, n), [done], [due]);
    var w := Waiting(r, n + 1, DriftDelay(r.intervalMs, elapsed));
    assert Step(Clicking(r, n), done) == Outcome(w, [Notice(r.listener, ClickExecuted(n + 1, r.point))], false);
    RunSingle(Clicking(r, n), done);
    RunSingle(w, due);
  }

  /** From `n` clicks, undisturbed rounds bring sequence `r` to `n + |elapsed|`
      clicks, each reported once and in order; the round that reaches the
      total ends with the completion notice and a stopped engine. */
  lemma {:induction false} RoundsRun(r: Request, n: int, elapsed: seq<int>)
    requires 0 <= n < r.total && n + |elapsed| <= r.total
    ensures var t := Run(Clicking(r, n), Rounds(elapsed));
            && !t.halted
            && (n + |elapsed| < r.total ==>
                  t == Trace(Clicking(r, n + |elapsed|), Clicks(r, n + 1, n + |elapsed|), false))
            && (n + |elapsed| == r.total ==>
                  t == Trace(Engine(false, r.total, [], [], []),
                             Clicks(r, n + 1, r.total) + [Notice(r.listener, SequenceCompleted(r.total))],
                             false))
    decreases |elapsed|
  {
    if elapsed == [] {
    } else {
      var rest := elapsed[1..];
      RunAppend(Clicking(r, n), Round(elapsed[0]), Rounds(rest));
      RoundStep(r, n, elapsed[0]);
      if n + 1 < r.total {
        RoundsRun(r, n + 1, rest);
        assert Clicks(r, n + 1, n + |elapsed|) ==
               [Notice(r.listener, ClickExecuted(n + 1, r.point))] + Clicks(r, n + 2, n + |elapsed|);
      } else {
        assert rest == [];
        assert Clicks(r, n + 1, r.total) == [Notice(r.listener, ClickExecuted(n + 1, r.point))];
      }
    }
  }

  /** Starting an idle engine with nothing outstanding, and letting every
      click succeed with no stop, reports the counts 1..total in order and
      then exactly one completion with the total; the engine ends idle with
      the count at the total. */
  lemma CompleteRun(e: Engine, r: Request, elapsed: seq<int>)
    requires !e.isExecuting && Settled(e) && e.probes == []
    requires r.total >= 1 && |elapsed| == r.total
    ensures var t := Run(e, [StartRequest(r, Accepted)] + Rounds(elapsed));
            && t.engine == Engine(false, r.total, [], [], [])
            && t.notices == Clicks(r, 1, r.total) + [Notice(r.listener, SequenceCompleted(r.total))]
            && !t.halted
  {
    RunAppend(e, [StartRequest(r, Accepted)], Rounds(elapsed));
    assert Run(e, [StartRequest(r, Accepted)]) == Trace(Clicking(r, 0), [], false);
    RoundsRun(r, 0, elapsed);
  }

  /** The same run read notice by notice: the k-th notice reports click
      k + 1 at the requested point, and the last one is the completion. */
  lemma CompleteRunNotices(e: Engine, r: Request, elapsed: seq<int>)
    requires !e.isExecuting && Settled(e) && e.probes == []
    requires r.total >= 1 && |elapsed| == r.total
    ensures var t := Run(e, [StartRequest(r, Accepted)] + Rounds(elapsed));
            && |t.notices| == r.total + 1
            && (forall k :: 0 <= k < r.total ==>
                  t.notices[k] == Notice(r.listener, ClickExecuted(k + 1, r.point)))
            && t.notices[r.total] == Notice(r.listener, SequenceCompleted(r.total))
  {
    CompleteRun(e, r, elapsed);
    ClicksShape(r, 1, r.total);
  }

  /** A click that fails on the k-th tick after k - 1 successes ends the
      sequence: k - 1 click notices, one error, no completion, flag clear. */
  lemma FailedRun(e: Engine, r: Request, elapsed: seq<int>, failAfter: int)
    requires !e.isExecuting && Settled(e) && e.probes == []
    requires |elapsed| < r.total
    ensures var t := Run(e, [StartRequest(r, Accepted)] + Rounds(elapsed) + [ClickDone(0, false, failAfter)]);
            && t.engine == Engine(false, |elapsed|, [], [], [])
            && t.notices == Clicks(r, 1, |elapsed|) + [Notice(r.listener, ClickError(ClickFailedMessage))]
            && !t.halted
  {
    var start, fail := [StartRequest(r, Accepted)], ClickDone(0, false, failAfter);
    RunAppend(e, start + Rounds(elapsed), [fail]);
    RunAppend(e, start, Rounds(elapsed));
    assert Step(e, start[0]) == Outcome(Clicking(r, 0), [], false);
    RunSingle(e, start[0]);
    RoundsRun(r, 0, elapsed);
    var clicks := Clicks(r, 1, |elapsed|);
    assert Run(e, start + Rounds(elapsed)) == Trace(Clicking(r, |elapsed|), clicks, false) by {
      assert [] + clicks == clicks;
    }
    var err := Notice(r.listener, ClickError(ClickFailedMessage));
    assert Step(Clicking(r, |elapsed|), fail) == Outcome(Engine(false, |elapsed|, [], [], []), [err], false);
    RunSingle(Clicking(r, |elapsed|), fail);
  }

  // ---------------------------------------------------------------------
  // Stopping

  /** A stop while the click is out still yields that click's notice when it
      succeeds, and the tick it posts after the stop then reports completion
      with the count reached, whatever the total. */
  lemma StopWhileClicking(r: Request, n: int, elapsed: int, d: Dispatch)
    requires 0 <= n < r.total
    ensures Run(Clicking(r, n), [StopRequest, ClickDone(0, true, elapsed), TickDue(0, d)]) ==
              Trace(Engine(false, n + 1, [], [], []),
                    [Notice(r.listener, ClickExecuted(n + 1, r.point)),
                     Notice(r.listener, SequenceCompleted(n + 1))], false)
  {
    var stop, done, due := StopRequest, ClickDone(0, true, elapsed), TickDue(0, d);
    assert [stop, done, due] == [stop] + ([done] + [due]);
    var e1 := StopExecution(Clicking(r, n));
    var e2 := Waiting(r, n + 1, DriftDelay(r.intervalMs, elapsed)).(isExecuting := false);
    RunAppend(Clicking(r, n), [stop], [done] + [due]);
    RunSingle(Clicking(r, n), stop);
    RunAppend(e1, [done], [due]);
    assert Step(e1, done) == Outcome(e2, [Notice(r.listener, ClickExecuted(n + 1, r.point))], false);
    RunSingle(e1, done);
    RunSingle(e2, due);
  }

  /** Inputs that neither start a sequence nor simulate a click. */
  predicate Passive(ins: seq<Input>) {
    forall k :: 0 <= k < |ins| ==> !ins[k].StartRequest? && !ins[k].SimulateRequest?
  }

  /** A stop while no gesture is outstanding (in the wait between ticks, or
      idle) cancels the posted tick: until the next start or simulated click
      nothing is ever reported and the engine does not change. */
  lemma {:induction false} StopWhileWaiting(e: Engine, ins: seq<Input>)
    requires e.inFlight == [] && e.probes == []
    requires Passive(ins)
    ensures Run(StopExecution(e), ins) == Trace(StopExecution(e), [], false)
    decreases |ins|
  {
    if ins != [] {
      assert !ins[0].StartRequest? && !ins[0].SimulateRequest?;
      assert Step(StopExecution(e), ins[0]) == Quiet(StopExecution(e));
      assert Passive(ins[1..]) by {
        forall k | 0 <= k < |ins[1..]| ensures !ins[1..][k].StartRequest? && !ins[1..][k].SimulateRequest? {
          assert ins[1..][k] == ins[k + 1];
        }
      }
      StopWhileWaiting(e, ins[1..]);
    }
  }

  // ---------------------------------------------------------------------
  // The count stays within the total

  /** At most one unit of work of the current sequence is outstanding, and
      the count stays within the total of the request that work belongs to:
      a click out means fewer clicks than the total were made, a posted tick
      means no more than the total were. */
  predicate Disciplined(e: Engine) {
    && |e.pending| + |e.inFlight| <= 1
    && 0 <= e.executionCount
    && (forall k :: 0 <= k < |e.pending| ==> e.executionCount <= e.pending[k].req.total)
    && (forall k :: 0 <= k < |e.inFlight| ==> e.executionCount < e.inFlight[k].total)
  }

  /** A start is admissible when it will be ignored or when nothing of an
      earlier sequence is still outstanding. */
  predicate Admissible(e: Engine, i: Input) {
    !i.StartRequest? || e.isExecuting || Settled(e)
  }

  predicate AdmissibleRun(e: Engine, ins: seq<Input>)
    decreases |ins|
  {
    ins == [] || (Admissible(e, ins[0]) && AdmissibleRun(Step(e, ins[0]).engine, ins[1..]))
  }

  lemma StepKeepsDiscipline(e: Engine, i: Input)
    requires Disciplined(e) && Admissible(e, i)
    ensures Disciplined(Step(e, i).engine)
  {
    match i
    case ClickDone(k, success, elapsed) =>
      if k < |e.inFlight| {
        assert e.pending == [];
        assert RemoveAt(e.inFlight, k) == [];
      }
    case TickDue(k, d) =>
      if k < |e.pending| {
        assert e.inFlight == [];
        assert RemoveAt(e.pending, k) == [];
      }
    case _ =>
  }

  /** Along every admissible run the discipline holds, so no click of the
      running sequence is ever counted beyond its total. */
  lemma {:induction false} RunKeepsDiscipline(e: Engine, ins: seq<Input>)
    requires Disciplined(e) && AdmissibleRun(e, ins)
    ensures Disciplined(Run(e, ins).engine)
    decreases |ins|
  {
    if ins != [] {
      StepKeepsDiscipline(e, ins[0]);
      var o := Step(e, ins[0]);
      if !Halts(ins[0], o) {
        RunKeepsDiscipline(o.engine, ins[1..]);
      }
    }
  }

  /** A successful click of a disciplined engine raises the count to at most
      the total of its sequence. */
  lemma CountWithinTotal(e: Engine, k: nat, elapsed: int)
    requires Disciplined(e) && k < |e.inFlight|
    ensures Step(e, ClickDone(k, true, elapsed)).engine.executionCount <= e.inFlight[k].total
  {
  }

  /** Without the admissibility condition the bound fails: stop while a
      click of a one-click sequence is out, start another one-click
      sequence, and let both clicks succeed. The second sequence then
      reports click number 2 of 1. */
  lemma RestartDuringClickExceedsTotal(p: Point)
    ensures var first := Request(p, 1, 10, 1);
            var second := Request(p, 1, 10, 2);
            var t := Run(Clicking(first, 0),
                         [StopRequest, StartRequest(second, Accepted), ClickDone(0, true, 0), ClickDone(0, true, 0)]);
            && t.engine.executionCount == 2
            && t.notices == [Notice(1, ClickExecuted(1, p)), Notice(2, ClickExecuted(2, p))]
  {
    var first := Request(p, 1, 10, 1);
    var second := Request(p, 1, 10, 2);
    var stop, start, done := StopRequest, StartRequest(second, Accepted), ClickDone(0, true, 0);
    assert [stop, start, done, done] == [stop] + ([start] + ([done] + [done]));
    var e1 := Engine(false, 0, [], [first], []);
    var e2 := Engine(true, 0, [], [first, second], []);
    var e3 := Engine(true, 1, [Tick(first, 10)], [second], []);
    RunAppend(Clicking(first, 0), [stop], [start] + ([done] + [done]));
    RunSingle(Clicking(first, 0), stop);
    RunAppend(e1, [start], [done] + [done]);
    RunSingle(e1, start);
    RunAppend(e2, [done], [done]);
    assert RemoveAt(e2.inFlight, 0) == [second];
    assert DriftDelay(10, 0) == 10;
    assert Step(e2, done) == Outcome(e3, [Notice(1, ClickExecuted(1, p))], false);
    RunSingle(e2, done);
    assert RemoveAt(e3.inFlight, 0) == [];
    var e4 := Engine(true, 2, [Tick(first, 10), Tick(second, 10)], [], []);
    assert Step(e3, done) == Outcome(e4, [Notice(2, ClickExecuted(2, p))], false);
    RunSingle(e3, done);
    assert Run(e2, [done] + [done]) == Trace(e4, [Notice(1, ClickExecuted(1, p)), Notice(2, ClickExecuted(2, p))], false);
  }

  /** After a stop the service reports itself ready while the stopped
      sequence's click is still out: ready does not mean settled. */
  lemma ReadyWithClickOutstanding(r: Request, n: int)
    ensures var e := StopExecution(Clicking(r, n));
            IsReady(e, true) && !Settled(e) && e.inFlight == [r]
  {
  }

  /** The same restart when the platform cancels the old, still running
      gesture: the old click's failure reaches the old listener and clears
      the flag of the new sequence, whose click is still out. */
  lemma RestartDuringClickOldFailureStopsNew(p: Point, elapsed: int)
    ensures var first := Request(p, 1, 10, 1);
            var second := Request(p, 1, 10, 2);
            var t := Run(Clicking(first, 0),
                         [StopRequest, StartRequest(second, Accepted), ClickDone(0, false, elapsed)]);
            && t == Trace(Engine(false, 0, [], [second], []),
                          [Notice(1, ClickError(ClickFailedMessage))], false)
  {
    var first := Request(p, 1, 10, 1);
    var second := Request(p, 1, 10, 2);
    var stop, start, fail := StopRequest, StartRequest(second, Accepted), ClickDone(0, false, elapsed);
    assert [stop, start, fail] == [stop] + ([start] + [fail]);
    var e1 := Engine(false, 0, [], [first], []);
    var e2 := Engine(true, 0, [], [first, second], []);
    var e3 := Engine(false, 0, [], [second], []);
    RunAppend(Clicking(first, 0), [stop], [start] + [fail]);
    RunSingle(Clicking(first, 0), stop);
    RunAppend(e1, [start], [fail]);
    RunSingle(e1, start);
    assert RemoveAt(e2.inFlight, 0) == [second];
    assert Step(e2, fail) == Outcome(e3, [Notice(1, ClickError(ClickFailedMessage))], false);
    RunSingle(e2, fail);
  }
}

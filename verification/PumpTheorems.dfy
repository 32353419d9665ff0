/** What holds over every schedule of the child, the drain threads and the main thread. */
module PumpTheorems {
  import opened Wrappers
  import opened Interleavings
  import opened PumpMachine

  ghost predicate Reachable(s: State, acts: seq<Action>) {
    exists s0 :: Init(s0) && Runs(STEPS, s0, acts) && s == RunTo(STEPS, s0, acts)
  }

  lemma ReachableInv(s: State, acts: seq<Action>)
    requires Reachable(s, acts)
    ensures Inv(s)
  {
    hide Inv, Step, Enabled;
    var s0 :| Init(s0) && Runs(STEPS, s0, acts) && s == RunTo(STEPS, s0, acts);
    InitInv(s0);
    forall t, a | Inv(t) && Enabled(t, a)
      ensures Inv(Step(t, a))
    {
      StepInv(t, a);
    }
    Invariant(STEPS, t => Inv(t), s0, acts);
  }

  /** What `run_cli_with_heartbeat` returns is a prefix of what was written to each pipe, with the child's exit code,
    * and the whole of it when that drain thread had ended before its join timed out and none of its reads raised. */
  lemma OutputIsNeverInvented(s: State, acts: seq<Action>)
    requires Reachable(s, acts) && s.main.Returned?
    ensures s.exit == Some(s.main.rc)
    ensures s.main.stdout <= s.out.written && s.main.stderr <= s.err.written
    ensures s.main.outDone && !s.out.broke ==> s.out.closed && s.main.stdout == s.out.written
    ensures s.main.errDone && !s.err.broke ==> s.err.closed && s.main.stderr == s.err.written
  {
    hide DrainOk;
    ReachableInv(s, acts);
  }

  lemma SeenIsPrefix(x: Stream)
    requires DrainOk(x)
    ensures x.seen <= Lines(x.written)
    ensures x.drain.Ended? && !x.broke ==> x.seen == Lines(x.written)
  {
    hide Lines;
    var read := x.written[..x.taken];
    if AtLineStart(read) {
      LinesConcat(read, x.written[x.taken..]);
      assert x.written == read + x.written[x.taken..];
    } else {
      assert read == x.written;
    }
    assert x.drain.Ended? && !x.broke ==> read == x.written;
  }

  /** `on_chunk` is called with whole lines of the pipe only, each once and in order, and with all of them once the
    * drain thread has ended without a raise. */
  lemma ChunksAreTheLines(s: State, acts: seq<Action>, fd: Fd)
    requires Reachable(s, acts)
    ensures Of(s, fd).seen <= Lines(Of(s, fd).written)
    ensures Of(s, fd).drain.Ended? && !Of(s, fd).broke ==> Of(s, fd).seen == Lines(Of(s, fd).written)
  {
    hide DrainOk;
    ReachableInv(s, acts);
    SeenIsPrefix(Of(s, fd));
  }

  lemma DrainsDoneMeansBoth(s: State, acts: seq<Action>)
    requires Reachable(s, acts)
    ensures s.drainsDone <==> s.out.drain.Ended? && s.err.drain.Ended?
  {
    hide DrainOk;
    ReachableInv(s, acts);
  }

  /** An exception that leaves the `try` leaves a child that has exited or was killed, unless the handler's own last
    * `kill` raised. */
  lemma RaiseKillsTheChild(s: State, acts: seq<Action>)
    requires Reachable(s, acts) && s.main.Raised?
    ensures s.exit.Some? || s.killed || s.killFailed
    ensures (forall a | a in acts :: a != Kill(true)) ==> s.exit.Some? || s.killed
  {
    hide DrainOk;
    ReachableInv(s, acts);
    if forall a | a in acts :: a != Kill(true) {
      var s0 :| Init(s0) && Runs(STEPS, s0, acts) && s == RunTo(STEPS, s0, acts);
      KillsGoThrough(s0, acts);
    }
  }

  lemma FailsOnlyByKill(s: State, a: Action)
    requires Enabled(s, a) && a != Kill(true)
    ensures Step(s, a).killFailed == s.killFailed
  {
  }

  lemma {:induction false} KillsGoThrough(s: State, acts: seq<Action>)
    requires Runs(STEPS, s, acts) && forall a | a in acts :: a != Kill(true)
    ensures RunTo(STEPS, s, acts).killFailed == s.killFailed
    decreases |acts|
  {
    if acts != [] {
      hide Step, Enabled;
      assert acts[0] in acts && forall a | a in acts[1..] :: a in acts;
      FailsOnlyByKill(s, acts[0]);
      KillsGoThrough(Step(s, acts[0]), acts[1..]);
    }
  }

  /** The first heartbeat comes after the child was started and before the `try`: when it raises, the exception escapes
    * and the child lives on. */
  lemma StartupExceptionLeaksTheChild(s: State)
    requires Init(s)
    ensures Runs(STEPS, s, [Interrupt])
    ensures var t := RunTo(STEPS, s, [Interrupt]); t.main.Escaped? && t.exit.None? && !t.killed
  {
    assert Runs(STEPS, Step(s, Interrupt), []);
    assert RunTo(STEPS, Step(s, Interrupt), []) == Step(s, Interrupt);
  }

  /** Nothing was killed on the way out that skips the handler. */
  ghost predicate EscapesUnkilled(s: State) {
    s.main.Starting? || s.main.Escaped? ==> !s.killed
  }

  lemma StaysUnkilled(s: State, a: Action)
    requires Enabled(s, a) && EscapesUnkilled(s)
    ensures EscapesUnkilled(Step(s, a))
  {
    hide Lines, Break, PipeStep, PipeEnabled;
  }

  /** Exactly when the promise to kill the child holds: in every run that ends in an exception with the child still
    * alive and every `kill` going through, the child was killed if and only if the exception came after the `try` was
    * entered. When kills may raise, a child neither exited nor killed means the first heartbeat raised or the handler's
    * kill did. */
  lemma ChildIsKilledExactly(s: State, acts: seq<Action>)
    requires Reachable(s, acts) && (s.main.Raised? || s.main.Escaped?) && s.exit.None?
    ensures (forall a | a in acts :: a != Kill(true)) ==> (s.killed <==> s.main.Raised?)
    ensures !s.killed ==> s.main.Escaped? || s.killFailed
    ensures s.main.Escaped? ==> !s.killed
  {
    hide Inv, Step, Enabled;
    var s0 :| Init(s0) && Runs(STEPS, s0, acts) && s == RunTo(STEPS, s0, acts);
    forall t, a | EscapesUnkilled(t) && Enabled(t, a)
      ensures EscapesUnkilled(Step(t, a))
    {
      StaysUnkilled(t, a);
    }
    Invariant(STEPS, t => EscapesUnkilled(t), s0, acts);
    if s.main.Raised? {
      RaiseKillsTheChild(s, acts);
    }
  }

  // ---- The time limit ----

  /** Neither the limit nor an exception has come up. */
  ghost predicate InTime(acts: seq<Action>) {
    forall a | a in acts :: a != Clock(true) && a != Interrupt
  }

  ghost predicate Peaceful(s: State) {
    && !s.killed && !s.killFailed
    && (s.main.Starting? || s.main.Returned? || (InTry(s.main) && !s.main.Expired? && !s.main.ExpiredJoin?))
  }

  lemma PeaceIsKept(s: State, a: Action)
    requires Enabled(s, a) && Peaceful(s) && a != Clock(true) && a != Interrupt
    ensures Peaceful(Step(s, a))
  {
    hide Lines, Break, PipeStep, PipeEnabled;
  }

  lemma {:induction false} PeacefulRun(s: State, acts: seq<Action>)
    requires Runs(STEPS, s, acts) && Peaceful(s) && InTime(acts)
    ensures Peaceful(RunTo(STEPS, s, acts))
    decreases |acts|
  {
    if acts != [] {
      hide Step, Enabled, Peaceful;
      assert acts[0] in acts && forall a | a in acts[1..] :: a in acts;
      PeaceIsKept(s, acts[0]);
      PeacefulRun(Step(s, acts[0]), acts[1..]);
    }
  }

  /** A child is killed, and an exception raised, only after the limit was passed or an exception came up. */
  lemma NoKillInTime(s: State, acts: seq<Action>)
    requires Reachable(s, acts) && InTime(acts)
    ensures !s.killed && !s.main.Raised? && !s.main.Escaped?
  {
    var s0 :| Init(s0) && Runs(STEPS, s0, acts) && s == RunTo(STEPS, s0, acts);
    PeacefulRun(s0, acts);
  }

  /** On the way to the exception. */
  ghost predicate Overdue(s: State) {
    && (s.main.Expired? || s.main.ExpiredJoin? || s.main.Handler? || s.main.HandlerKill? || s.main.HandlerJoin?
        || s.main.Raised?)
    && (s.main.ExpiredJoin? ==> s.killed)
  }

  lemma StaysOverdue(s: State, a: Action)
    requires Enabled(s, a) && Overdue(s)
    ensures Overdue(Step(s, a))
  {
    hide Lines, Break, PipeStep, PipeEnabled;
  }

  /** Once the limit is passed the call never returns a result; it can only end in the exception. */
  lemma PastTheLimitNeverReturns(s: State, acts: seq<Action>, later: seq<Action>)
    requires Reachable(s, acts) && Enabled(s, Clock(true)) && Runs(STEPS, Step(s, Clock(true)), later)
    ensures var t := RunTo(STEPS, Step(s, Clock(true)), later); !t.main.Returned? && !t.main.Escaped?
  {
    assert Overdue(Step(s, Clock(true)));
    hide Step, Enabled, Overdue;
    forall t, a | Overdue(t) && Enabled(t, a)
      ensures Overdue(Step(t, a))
    {
      StaysOverdue(t, a);
    }
    Invariant(STEPS, t => Overdue(t), Step(s, Clock(true)), later);
    OverdueIsNot(RunTo(STEPS, Step(s, Clock(true)), later));
  }

  lemma OverdueIsNot(s: State)
    requires Overdue(s)
    ensures !s.main.Returned? && !s.main.Escaped?
  {
  }

  // ---- What a drain thread can read, and what a call can return ----

  lemma BreakFinds(s: string)
    requires s != ""
    ensures s[Break(s) - 1] == '\n' <==> '\n' in s
  {
    hide Break;
    if '\n' in s {
      var i :| 0 <= i < |s| && s[i] == '\n';
      assert i >= Break(s) - 1;
    }
  }

  /** A drain thread can go on exactly when a newline has arrived, or the pipe is closed with something left; it meets
    * the end exactly when the pipe is closed with nothing left. */
  lemma DrainGoesOn(s: State, acts: seq<Action>, fd: Fd)
    requires Reachable(s, acts) && Of(s, fd).drain.Reading?
    ensures var x := Of(s, fd);
            && x.taken <= |x.written|
            && (Enabled(s, At(fd, ReadLine)) <==>
                  '\n' in x.written[x.taken..] || (x.closed && x.taken < |x.written|))
            && (Enabled(s, At(fd, ReadEof)) <==> x.closed && x.taken == |x.written|)
  {
    hide Break;
    ReachableInv(s, acts);
    var x := Of(s, fd);
    if Rest(x) != "" {
      BreakFinds(Rest(x));
    }
  }

  /** Same but for one pipe. */
  ghost predicate OnlyAt(s: State, t: State, fd: Fd) {
    && t.exit == s.exit && t.main == s.main && t.killed == s.killed && t.killFailed == s.killFailed
    && Of(t, if fd.Out? then Err else Out) == Of(s, if fd.Out? then Err else Out)
    && Of(t, fd).written == Of(s, fd).written && Of(t, fd).closed && Of(t, fd).broke == Of(s, fd).broke
  }

  /** A closed pipe can be drained to its end. */
  lemma {:induction false} DrainAll(s: State, fd: Fd) returns (acts: seq<Action>, t: State)
    requires Of(s, fd).closed && Of(s, fd).drain.Reading? && Of(s, fd).taken <= |Of(s, fd).written|
    ensures Leads(STEPS, s, acts, t) && OnlyAt(s, t, fd) && Of(t, fd).drain.Ended?
    decreases |Of(s, fd).written| - Of(s, fd).taken
  {
    hide Lines, Break, Join, MainStep, MainEnabled;
    var x := Of(s, fd);
    if x.taken == |x.written| {
      var u := Step(s, At(fd, ReadEof));
      One(STEPS, s, At(fd, ReadEof));
      One(STEPS, u, At(fd, Signal));
      t := Step(u, At(fd, Signal));
      acts := Onward(STEPS, s, [At(fd, ReadEof)], u, [At(fd, Signal)], t);
    } else {
      var u := Step(s, At(fd, ReadLine));
      var v := Step(u, At(fd, OnChunk));
      One(STEPS, s, At(fd, ReadLine));
      One(STEPS, u, At(fd, OnChunk));
      acts := Onward(STEPS, s, [At(fd, ReadLine)], u, [At(fd, OnChunk)], v);
      var more;
      more, t := DrainAll(v, fd);
      acts := Onward(STEPS, s, acts, v, more, t);
    }
  }

  /** Whatever the child writes and exits with, some schedule returns it all. */
  lemma EveryOutputCanBeReturned(stdout: string, stderr: string, rc: int) returns (s: State, acts: seq<Action>)
    ensures Reachable(s, acts) && s.main == Returned(rc, true, true, stdout, stderr) && !s.killed
  {
    hide Lines, Break, Join, PipeStep, MainStep;
    var start := State(NEW_STREAM, NEW_STREAM, None, 2, false, Starting, false, false);
    var written, a := WriteAndClose(start, Out, stdout);
    var x, t := DrainAll(written, Out);
    a := Onward(STEPS, start, a, written, x, t);
    var written2, b := WriteAndClose(t, Err, stderr);
    a := Onward(STEPS, start, a, t, b, written2);
    x, t := DrainAll(written2, Err);
    a := Onward(STEPS, start, a, written2, x, t);
    x, s := ReturnAll(t, rc);
    acts := Onward(STEPS, start, a, t, x, s);
    assert Reachable(s, acts);
    OutputIsNeverInvented(s, acts);
  }

  lemma WriteAndClose(s: State, fd: Fd, text: string) returns (t: State, acts: seq<Action>)
    requires !Of(s, fd).closed
    ensures Leads(STEPS, s, acts, t)
    ensures t == With(s, fd, Of(s, fd).(written := Of(s, fd).written + text, closed := true))
  {
    hide MainStep, MainEnabled;
    var u := Step(s, At(fd, Write(text)));
    t := Step(u, At(fd, ClosePipe));
    One(STEPS, s, At(fd, Write(text)));
    One(STEPS, u, At(fd, ClosePipe));
    acts := Onward(STEPS, s, [At(fd, Write(text))], u, [At(fd, ClosePipe)], t);
  }

  lemma Next(s: State, x: seq<Action>, t: State, a: Action) returns (acts: seq<Action>, u: State)
    requires Leads(STEPS, s, x, t) && Enabled(t, a)
    ensures Leads(STEPS, s, acts, u) && u == Step(t, a)
  {
    u := Step(t, a);
    acts := OneMore(STEPS, s, x, t, a);
  }

  /** From the exit of a child whose pipes have been drained to the result. */
  lemma ReturnAll(s: State, rc: int) returns (acts: seq<Action>, t: State)
    requires s.main.Starting? && s.exit.None? && s.out.drain.Ended? && s.err.drain.Ended?
    ensures Leads(STEPS, s, acts, t)
    ensures t == s.(exit := Some(rc), main := Returned(rc, true, true, Join(s.out.sink), Join(s.err.sink)))
  {
    hide Lines, Break, Join, PipeStep, PipeEnabled;
    One(STEPS, s, Exit(rc));
    t := Step(s, Exit(rc));
    acts := [Exit(rc)];
    acts, t := Next(s, acts, t, Begin);
    acts, t := Next(s, acts, t, Poll);
    acts, t := Next(s, acts, t, Join1(false));
    acts, t := Next(s, acts, t, Join1(false));
    acts, t := Next(s, acts, t, Take);
    acts, t := Next(s, acts, t, Take);
  }
}

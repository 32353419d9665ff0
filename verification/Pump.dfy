/** The shared lists, counter and event of one `run_cli_with_heartbeat` call, changed by its three threads. */
module Pump {
  import opened Wrappers
  import opened PumpMachine

  datatype CompletedProcess = CompletedProcess(returncode: int, stdout: string, stderr: string)

  class Pump {
    var stdoutLines: seq<string>
    var stderrLines: seq<string>
    var drainsRemaining: int
    var drainsDone: bool
    /** Where the main thread stands, with its local variables. */
    var main: Main

    /** The state of the machine this call is in. */
    ghost var at: State

    ghost predicate Valid()
      reads this
    {
      && Inv(at) && stdoutLines == at.out.sink && stderrLines == at.err.sink
      && drainsRemaining == at.remaining && drainsDone == at.drainsDone && main == at.main
    }

    constructor ()
      ensures Valid() && Init(at)
    {
      stdoutLines, stderrLines, drainsRemaining, drainsDone, main := [], [], 2, false, Starting;
      at := State(NEW_STREAM, NEW_STREAM, None, 2, false, Starting, false, false);
      new;
      InitInv(at);
    }

    /** What the drain threads and the child do outside the shared fields. */
    method Elsewhere(ghost a: Action)
      requires Valid() && Enabled(at, a) && (a.Exit? || (a.At? && !a.p.ReadLine? && !a.p.Signal?))
      modifies this`at
      ensures at == Step(old(at), a) && Valid()
    {
      hide Inv, MainStep, Lines, Break;
      StepInv(at, a);
      at := Step(at, a);
    }

    /** One line that `readline` returned, collected. */
    method Collect(fd: Fd, line: string)
      requires Valid() && Enabled(at, At(fd, ReadLine)) && line == Rest(Of(at, fd))[..Break(Rest(Of(at, fd)))]
      modifies this
      ensures at == Step(old(at), At(fd, ReadLine)) && Valid()
      ensures fd.Out? ==> stdoutLines == old(stdoutLines) + [line] && stderrLines == old(stderrLines)
      ensures fd.Err? ==> stderrLines == old(stderrLines) + [line] && stdoutLines == old(stdoutLines)
    {
      hide Inv, Lines, Break, MainStep;
      StepInv(at, At(fd, ReadLine));
      at := Step(at, At(fd, ReadLine));
      match fd {
        case Out => stdoutLines := stdoutLines + [line];
        case Err => stderrLines := stderrLines + [line];
      }
    }

    /** The end of a drain thread: the last one to get there sets the event. */
    method DrainEnds(fd: Fd)
      requires Valid() && Enabled(at, At(fd, Signal))
      modifies this
      ensures at == Step(old(at), At(fd, Signal)) && Valid()
      ensures drainsRemaining == old(drainsRemaining) - 1
      ensures drainsDone == (old(drainsDone) || drainsRemaining <= 0) && main == old(main)
    {
      hide Inv, MainStep;
      StepInv(at, At(fd, Signal));
      at := Step(at, At(fd, Signal));
      drainsRemaining := drainsRemaining - 1;
      if drainsRemaining <= 0 {
        drainsDone := true;
      }
    }

    method Joining(lines: seq<string>) returns (text: string)
      ensures text == Join(lines)
    {
      text := "";
      var i := |lines|;
      while i > 0
        invariant 0 <= i <= |lines| && text == Join(lines[i..])
      {
        i := i - 1;
        text := lines[i] + text;
        assert lines[i..][1..] == lines[i + 1..];
      }
      assert lines[0..] == lines;
    }

    // ---- The main thread ----

    method EnterLoop()
      requires Valid() && main.Starting?
      modifies this`at, this`main
      ensures at == Step(old(at), Begin) && Valid()
      ensures main == Polling
    {
      hide Inv, PipeStep;
      StepInv(at, Begin);
      at := Step(at, Begin);
      main := Polling;
    }

    /** The child's exit code decides between the joins and another round. */
    method PollChild(status: Option<int>)
      requires Valid() && main.Polling? && status == at.exit
      modifies this`at, this`main
      ensures at == Step(old(at), Poll) && Valid()
      ensures main == if status.Some? then JoinOut(status.value) else Alive
    {
      hide Inv, PipeStep;
      StepInv(at, Poll);
      at := Step(at, Poll);
      main := if status.Some? then JoinOut(status.value) else Alive;
    }

    method CheckClock(elapsed: real, timeout: real)
      requires Valid() && main.Alive?
      modifies this`at, this`main
      ensures at == Step(old(at), Clock(elapsed > timeout)) && Valid()
      ensures main == if elapsed > timeout then Expired else Beating
      ensures at.killed == old(at).killed && at.exit == old(at).exit
    {
      hide Inv, PipeStep;
      StepInv(at, Clock(elapsed > timeout));
      at := Step(at, Clock(elapsed > timeout));
      main := if elapsed > timeout then Expired else Beating;
    }

    /** The heartbeat, or the wait for the event after it. */
    method BeatOrWait()
      requires Valid() && (main.Beating? || main.Sleeping?)
      modifies this`at, this`main
      ensures at == Step(old(at), if old(main).Beating? then Beat else Wake(drainsDone)) && Valid()
      ensures main == if old(main).Beating? then Sleeping else Polling
    {
      hide Inv, PipeStep;
      StepInv(at, if main.Beating? then Beat else Wake(drainsDone));
      at := Step(at, if main.Beating? then Beat else Wake(drainsDone));
      main := if main.Beating? then Sleeping else Polling;
    }

    /** A join of one drain thread; `alive` is whether it was still running when the join returned. */
    method JoinThread(alive: bool)
      requires Valid() && Joined(at).Some? && alive == !Of(at, Joined(at).value).drain.Ended?
      modifies this`at, this`main
      ensures at == Step(old(at), Join1(alive)) && Valid()
      ensures main == match old(main)
                      case JoinOut(rc) => JoinErr(rc, !alive)
                      case JoinErr(rc, outDone) => TakeOut(rc, outDone, !alive)
                      case ExpiredJoin(left) => if left == 2 then ExpiredJoin(1) else Handler
                      case HandlerJoin(left) => if left == 2 then HandlerJoin(1) else Raised
                      case other => other
    {
      hide Inv, PipeStep;
      StepInv(at, Join1(alive));
      at := Step(at, Join1(alive));
      main := match main
              case JoinOut(rc) => JoinErr(rc, !alive)
              case JoinErr(rc, outDone) => TakeOut(rc, outDone, !alive)
              case ExpiredJoin(left) => if left == 2 then ExpiredJoin(1) else Handler
              case HandlerJoin(left) => if left == 2 then HandlerJoin(1) else Raised
              case other => other;
    }

    /** The kill after a timeout, and the one or two of the handler. */
    method KillChild(raises: bool)
      requires Valid() && Enabled(at, Kill(raises))
      modifies this`at, this`main
      ensures at == Step(old(at), Kill(raises)) && Valid()
      ensures main.HandlerJoin? ==> at.killed || at.killFailed
      ensures main == match old(main)
                      case Expired => ExpiredJoin(2)
                      case HandlerKill(again) => if raises && !again then HandlerKill(true) else HandlerJoin(2)
                      case other => other
      ensures at.killed == (old(at).killed || !raises)
    {
      hide Inv, PipeStep;
      StepInv(at, Kill(raises));
      at := Step(at, Kill(raises));
      if main.Expired? {
        main := ExpiredJoin(2);
      } else if !raises || main.again {
        main := HandlerJoin(2);
      } else {
        main := HandlerKill(true);
      }
    }

    /** An exception: before the `try` it escapes, inside it goes to the handler. */
    method Raise()
      requires Valid() && Enabled(at, Interrupt)
      modifies this`at, this`main
      ensures at == Step(old(at), Interrupt) && Valid()
      ensures main == if old(main).Starting? then Escaped else Handler
    {
      hide Inv, PipeStep;
      StepInv(at, Interrupt);
      at := Step(at, Interrupt);
      main := if main.Starting? then Escaped else Handler;
    }

    /** The handler's own poll; a child that has exited needs no kill. */
    method PollInHandler(raises: bool, status: Option<int>)
      requires Valid() && main.Handler? && (!raises ==> status == at.exit)
      modifies this`at, this`main
      ensures at == Step(old(at), HandlerPoll(raises)) && Valid()
      ensures main == if raises then HandlerKill(true) else if status.Some? then HandlerJoin(2) else HandlerKill(false)
    {
      hide Inv, PipeStep;
      StepInv(at, HandlerPoll(raises));
      at := Step(at, HandlerPoll(raises));
      main := if raises then HandlerKill(true) else if status.Some? then HandlerJoin(2) else HandlerKill(false);
    }

    /** The two joins of the collected lines; the threads may go on between them. */
    method TakeStdout() returns (stdout: string)
      requires Valid() && main.TakeOut?
      modifies this`at, this`main
      ensures at == Step(old(at), Take) && Valid()
      ensures at.main.TakeErr? && stdout == at.main.stdout && stdout <= at.out.written
    {
      hide Join, PipeStep, DrainOk;
      StepInv(at, Take);
      at := Step(at, Take);
      stdout := Joining(stdoutLines);
      main := TakeErr(main.rc, main.outDone, main.errDone, stdout);
    }

    method TakeStderr() returns (r: CompletedProcess)
      requires Valid() && main.TakeErr?
      modifies this`at, this`main
      ensures at == Step(old(at), Take) && Valid() && at.main.Returned?
      ensures r == CompletedProcess(at.main.rc, at.main.stdout, at.main.stderr)
      ensures at.exit == Some(r.returncode) && r.stdout <= at.out.written && r.stderr <= at.err.written
      ensures at.main.outDone && !at.out.broke ==> r.stdout == at.out.written
      ensures at.main.errDone && !at.err.broke ==> r.stderr == at.err.written
    {
      hide Join, PipeStep, DrainOk;
      StepInv(at, Take);
      at := Step(at, Take);
      var stderr := Joining(stderrLines);
      r := CompletedProcess(main.rc, main.stdout, stderr);
      main := Returned(main.rc, main.outDone, main.errDone, main.stdout, stderr);
    }

    // ---- The two ends of a call, with no other thread in between ----

    /** After the child's exit: both joins, and the process result. What a thread that had ended collected is all there
      * was. */
    method Finish(outAlive: bool, errAlive: bool) returns (r: CompletedProcess)
      requires Valid() && main.JoinOut? && outAlive == !at.out.drain.Ended? && errAlive == !at.err.drain.Ended?
      modifies this`at, this`main
      ensures Valid() && main.Returned? && at.out == old(at).out && at.err == old(at).err
      ensures old(at).exit == Some(r.returncode)
      ensures r.stdout == Join(at.out.sink) && r.stdout <= at.out.written
      ensures r.stderr == Join(at.err.sink) && r.stderr <= at.err.written
      ensures !outAlive && !at.out.broke ==> r.stdout == at.out.written
      ensures !errAlive && !at.err.broke ==> r.stderr == at.err.written
    {
      hide Join, PipeStep, PipeEnabled, DrainOk, Inv;
      JoinAfterExit(outAlive, errAlive);
      r := TakeBoth();
    }

    method JoinAfterExit(outAlive: bool, errAlive: bool)
      requires Valid() && main.JoinOut? && outAlive == !at.out.drain.Ended? && errAlive == !at.err.drain.Ended?
      modifies this`at, this`main
      ensures Valid() && main == TakeOut(old(main).rc, !outAlive, !errAlive)
      ensures at.out == old(at).out && at.err == old(at).err && at.exit == old(at).exit
    {
      hide Inv, PipeStep, PipeEnabled;
      JoinThread(outAlive);
      JoinThread(errAlive);
    }

    method TakeBoth() returns (r: CompletedProcess)
      requires Valid() && main.TakeOut?
      modifies this`at, this`main
      ensures Valid() && main.Returned? && at.out == old(at).out && at.err == old(at).err && at.exit == old(at).exit
      ensures at.exit == Some(r.returncode)
      ensures r.stdout == Join(at.out.sink) && r.stdout <= at.out.written
      ensures r.stderr == Join(at.err.sink) && r.stderr <= at.err.written
      ensures old(main).outDone && !at.out.broke ==> r.stdout == at.out.written
      ensures old(main).errDone && !at.err.broke ==> r.stderr == at.err.written
    {
      hide Inv, Join, PipeStep, PipeEnabled;
      var stdout := TakeStdout();
      r := TakeStderr();
    }

    /** The handler as a whole: a child that has exited is left alone, any other one is killed unless every kill that
      * was tried raises; then the threads are joined and the exception goes on. */
    method HandleException(status: Option<int>, pollRaises: bool, killRaises: bool, againRaises: bool, outAlive: bool,
                           errAlive: bool)
      requires Valid() && main.Handler? && (!pollRaises ==> status == at.exit)
      requires outAlive == !at.out.drain.Ended? && errAlive == !at.err.drain.Ended?
      modifies this`at, this`main
      ensures Valid() && main.Raised? && at.exit == old(at).exit
      ensures at.killed == (old(at).killed || if pollRaises then !againRaises
                                              else status == None && !(killRaises && againRaises))
    {
      hide Inv, PipeStep, PipeEnabled, MainStep, MainEnabled;
      KillUnlessExited(status, pollRaises, killRaises, againRaises);
      JoinBoth(outAlive, errAlive);
    }

    method KillUnlessExited(status: Option<int>, pollRaises: bool, killRaises: bool, againRaises: bool)
      requires Valid() && main.Handler? && (!pollRaises ==> status == at.exit)
      modifies this`at, this`main
      ensures Valid() && main == HandlerJoin(2)
      ensures at.exit == old(at).exit && at.out == old(at).out && at.err == old(at).err
      ensures at.killed == (old(at).killed || if pollRaises then !againRaises
                                              else status == None && !(killRaises && againRaises))
    {
      hide Inv, PipeStep, PipeEnabled;
      PollInHandler(pollRaises, status);
      if main.HandlerKill? && !main.again {
        KillChild(killRaises);
      }
      if main.HandlerKill? {
        KillChild(againRaises);
      }
    }

    method JoinBoth(outAlive: bool, errAlive: bool)
      requires Valid() && main == HandlerJoin(2)
      requires outAlive == !at.out.drain.Ended? && errAlive == !at.err.drain.Ended?
      modifies this`at, this`main
      ensures Valid() && main.Raised? && at.exit == old(at).exit && at.killed == old(at).killed
    {
      hide Inv, PipeStep, PipeEnabled;
      JoinThread(outAlive);
      JoinThread(errAlive);
    }
  }
}

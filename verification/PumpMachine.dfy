/** A child process, two threads that drain its pipes, and the main thread that polls it, as interleaved steps. */
module PumpMachine {
  import opened Wrappers
  import opened Interleavings

  // ---- Lines ----

  /** The length of the first line, its newline included. */
  function Break(s: string): (k: nat)
    ensures k <= |s| && (s != "" ==> 0 < k)
    ensures forall i | 0 <= i < k - 1 :: s[i] != '\n'
    ensures 0 < k < |s| ==> s[k - 1] == '\n'
  {
    if s == "" then 0 else if s[0] == '\n' then 1 else 1 + Break(s[1..])
  }

  function Lines(s: string): seq<string>
    decreases |s|
  {
    if s == "" then [] else [s[..Break(s)]] + Lines(s[Break(s)..])
  }

  function Join(lines: seq<string>): string {
    if lines == [] then "" else lines[0] + Join(lines[1..])
  }

  lemma {:induction false} JoinLines(s: string)
    ensures Join(Lines(s)) == s
    decreases |s|
  {
    hide Lines, Break;
    if s == "" {
      NoLines();
    } else {
      var k := FirstLine(s);
      JoinLines(s[k..]);
      assert Lines(s)[0] == s[..k] && Lines(s)[1..] == Lines(s[k..]);
      assert s == s[..k] + s[k..];
    }
  }

  lemma NoLines()
    ensures Lines("") == []
  {
  }

  lemma FirstLine(s: string) returns (k: nat)
    requires s != ""
    ensures k == Break(s) && 0 < k <= |s| && Lines(s) == [s[..k]] + Lines(s[k..])
  {
    hide Break;
    k := Break(s);
  }

  /** A text that can be followed by a fresh line. */
  predicate AtLineStart(s: string) {
    s == "" || s[|s| - 1] == '\n'
  }

  lemma {:induction false} BreakUnique(s: string, k: nat)
    requires 0 < k <= |s| && (forall i | 0 <= i < k - 1 :: s[i] != '\n') && (s[k - 1] == '\n' || k == |s|)
    ensures Break(s) == k
  {
  }

  lemma {:induction false} LinesConcat(a: string, b: string)
    requires AtLineStart(a)
    ensures Lines(a + b) == Lines(a) + Lines(b)
    decreases |a|
  {
    hide Lines, Break;
    if a == "" {
      NoLines();
      assert a + b == b;
    } else {
      var k := FirstLine(a);
      var j := FirstLine(a + b);
      BreakUnique(a + b, k);
      assert (a + b)[..k] == a[..k] && (a + b)[k..] == a[k..] + b;
      LinesConcat(a[k..], b);
      assert [a[..k]] + (Lines(a[k..]) + Lines(b)) == ([a[..k]] + Lines(a[k..])) + Lines(b);
    }
  }

  lemma OneLine(line: string)
    requires line != "" && Break(line) == |line|
    ensures Lines(line) == [line]
  {
    assert line[..|line|] == line && line[|line|..] == "";
  }

  // ---- The processes ----

  datatype Fd = Out | Err

  datatype Drain = Reading | Delivering | Finishing | Ended

  /** One pipe and the thread that drains it: what was written so far and whether every writer has closed it, how much
    * was read, the lines collected, the lines `on_chunk` was called with, and whether a read raised. */
  datatype Stream =
    Stream(written: string, closed: bool, taken: nat, sink: seq<string>, seen: seq<string>, drain: Drain, broke: bool)

  /** Where the main thread stands. The flags say which drain threads had ended when they were joined. */
  datatype Main =
    | Starting
    | Polling
    | Alive
    | Beating
    | Sleeping
    | JoinOut(rc: int)
    | JoinErr(rc: int, outDone: bool)
    | TakeOut(rc: int, outDone: bool, errDone: bool)
    | TakeErr(rc: int, outDone: bool, errDone: bool, stdout: string)
    | Expired
    | ExpiredJoin(left: nat)
    | Handler
    | HandlerKill(again: bool)
    | HandlerJoin(left: nat)
    | Returned(rc: int, outDone: bool, errDone: bool, stdout: string, stderr: string)
    | Raised
    | Escaped

  /** The pipes, the child's exit code, the counter and the event the drain threads share, the main thread, and history:
    * whether a kill went through, and whether the handler's last one raised. */
  datatype State = State(out: Stream, err: Stream, exit: Option<int>, remaining: int, drainsDone: bool, main: Main,
                         killed: bool, killFailed: bool)

  /** What happens at one pipe: to its writers, and in its drain thread. */
  datatype PipeAction =
    | Write(text: string)
    | ClosePipe
    | ReadLine
    | ReadRaises
    | ReadEof
    | OnChunk
    | Signal

  datatype Action =
    | At(fd: Fd, p: PipeAction)
    | Exit(rc: int)
    | Begin
    | Poll
    | Clock(expired: bool)
    | Beat
    | Wake(signalled: bool)
    | Join1(timedOut: bool)
    | Take
    | Kill(raises: bool)
    | HandlerPoll(raises: bool)
    | Interrupt

  function Of(s: State, fd: Fd): Stream {
    if fd.Out? then s.out else s.err
  }

  function With(s: State, fd: Fd, x: Stream): State {
    if fd.Out? then s.(out := x) else s.(err := x)
  }

  function Rest(x: Stream): string
    requires x.taken <= |x.written|
  {
    x.written[x.taken..]
  }

  /** `readline` returns: a whole line has arrived, or the pipe is closed and something is left. */
  predicate LineReady(x: Stream) {
    x.taken <= |x.written| && Rest(x) != "" && (x.closed || Rest(x)[Break(Rest(x)) - 1] == '\n')
  }

  /** The main thread is inside the `try`. */
  predicate InTry(m: Main) {
    m.Polling? || m.Alive? || m.Beating? || m.Sleeping? || m.JoinOut? || m.JoinErr? || m.TakeOut? || m.TakeErr?
    || m.Expired? || m.ExpiredJoin?
  }

  function Joined(s: State): Option<Fd> {
    match s.main
    case JoinOut(_) => Some(Out)
    case JoinErr(_, _) => Some(Err)
    case ExpiredJoin(left) => Some(if left == 2 then Out else Err)
    case HandlerJoin(left) => Some(if left == 2 then Out else Err)
    case _ => None
  }

  predicate PipeEnabled(x: Stream, p: PipeAction) {
    match p
    case Write(_) => !x.closed
    case ClosePipe => true
    case ReadLine => x.drain.Reading? && LineReady(x)
    case ReadRaises => x.drain.Reading?
    case ReadEof => x.drain.Reading? && x.closed && x.taken == |x.written|
    case OnChunk => x.drain.Delivering? && x.sink != []
    case Signal => x.drain.Finishing?
  }

  predicate MainEnabled(s: State, a: Action) {
    match a
    case Begin => s.main.Starting?
    case Poll => s.main.Polling?
    case Clock(_) => s.main.Alive?
    case Beat => s.main.Beating?
    case Wake(signalled) => s.main.Sleeping? && (signalled ==> s.drainsDone)
    case Join1(timedOut) => Joined(s).Some? && (timedOut || Of(s, Joined(s).value).drain.Ended?)
    case Take => s.main.TakeOut? || s.main.TakeErr?
    case Kill(raises) => (s.main.Expired? && !raises) || s.main.HandlerKill?
    case HandlerPoll(_) => s.main.Handler?
    case Interrupt => s.main.Starting? || InTry(s.main)
    case _ => false
  }

  predicate Enabled(s: State, a: Action) {
    match a
    case At(fd, p) => PipeEnabled(Of(s, fd), p)
    case Exit(_) => s.exit.None?
    case _ => MainEnabled(s, a)
  }

  function ReadStep(x: Stream): Stream
    requires LineReady(x)
  {
    var k := Break(Rest(x));
    x.(taken := x.taken + k, sink := x.sink + [Rest(x)[..k]], drain := Delivering)
  }

  function PipeStep(x: Stream, p: PipeAction): Stream
    requires PipeEnabled(x, p)
  {
    match p
    case Write(text) => x.(written := x.written + text)
    case ClosePipe => x.(closed := true)
    case ReadLine => ReadStep(x)
    case ReadRaises => x.(drain := Finishing, broke := true)
    case ReadEof => x.(drain := Finishing)
    case OnChunk => x.(seen := x.seen + [x.sink[|x.sink| - 1]], drain := Reading)
    case Signal => x.(drain := Ended)
  }

  /** The thread that signals last sets the event. */
  function Notice(s: State, p: PipeAction): State {
    if p.Signal? then s.(remaining := s.remaining - 1, drainsDone := s.drainsDone || s.remaining - 1 <= 0) else s
  }

  /** Joining one thread: whether it has ended decides the flag, not whether the wait was cut short. */
  function JoinStep(s: State): State
    requires Joined(s).Some?
  {
    var done := Of(s, Joined(s).value).drain.Ended?;
    s.(main := match s.main
               case JoinOut(rc) => JoinErr(rc, done)
               case JoinErr(rc, outDone) => TakeOut(rc, outDone, done)
               case ExpiredJoin(left) => if left == 2 then ExpiredJoin(1) else Handler
               case HandlerJoin(left) => if left == 2 then HandlerJoin(1) else Raised
               case other => other)
  }

  function TakeStep(s: State): State
    requires s.main.TakeOut? || s.main.TakeErr?
  {
    var m := s.main;
    s.(main := if m.TakeOut? then TakeErr(m.rc, m.outDone, m.errDone, Join(s.out.sink))
               else Returned(m.rc, m.outDone, m.errDone, m.stdout, Join(s.err.sink)))
  }

  /** A kill; the handler tries once more when the first one raises, and gives up after the second. */
  function KillStep(s: State, raises: bool): State
    requires s.main.Expired? || s.main.HandlerKill?
  {
    if s.main.Expired? then s.(killed := true, main := ExpiredJoin(2))
    else if !raises then s.(killed := true, main := HandlerJoin(2))
    else if s.main.again then s.(killFailed := true, main := HandlerJoin(2))
    else s.(main := HandlerKill(true))
  }

  function MainStep(s: State, a: Action): State
    requires MainEnabled(s, a)
  {
    match a
    case Begin => s.(main := Polling)
    case Poll => s.(main := if s.exit.Some? then JoinOut(s.exit.value) else Alive)
    case Clock(expired) => s.(main := if expired then Expired else Beating)
    case Beat => s.(main := Sleeping)
    case Wake(_) => s.(main := Polling)
    case Join1(_) => JoinStep(s)
    case Take => TakeStep(s)
    case Kill(raises) => KillStep(s, raises)
    case HandlerPoll(raises) =>
      s.(main := if raises then HandlerKill(true) else if s.exit.Some? then HandlerJoin(2) else HandlerKill(false))
    case Interrupt => s.(main := if s.main.Starting? then Escaped else Handler)
  }

  function Step(s: State, a: Action): State
    requires Enabled(s, a)
  {
    match a
    case At(fd, p) => Notice(With(s, fd, PipeStep(Of(s, fd), p)), p)
    case Exit(rc) => s.(exit := Some(rc))
    case _ => MainStep(s, a)
  }

  const STEPS: Protocol<State, Action> :=
    Protocol((s, a) => Enabled(s, a), (s, a) => if Enabled(s, a) then Step(s, a) else s)

  const NEW_STREAM := Stream("", false, 0, [], [], Reading, false)

  ghost predicate Init(s: State) {
    s == State(NEW_STREAM, NEW_STREAM, None, 2, false, Starting, false, false)
  }

  // ---- The invariant ----

  /** The collected lines are the lines of what was read; `on_chunk` has had each of them, except one on its way. */
  ghost predicate Collected(x: Stream) {
    && x.taken <= |x.written| && x.sink == Lines(x.written[..x.taken])
    && (AtLineStart(x.written[..x.taken]) || (x.closed && x.taken == |x.written|))
    && (if x.drain.Delivering? then x.sink != [] && x.seen == x.sink[..|x.sink| - 1] else x.seen == x.sink)
  }

  /** A drain thread that has met the end of its pipe has read all of it. */
  ghost predicate Whole(x: Stream) {
    (x.drain.Finishing? || x.drain.Ended?) && !x.broke ==> x.closed && x.taken == |x.written|
  }

  ghost predicate DrainOk(x: Stream) {
    Collected(x) && Whole(x)
  }

  function Open(x: Stream): int {
    if x.drain.Ended? then 0 else 1
  }

  ghost predicate Signalled(s: State) {
    s.remaining == Open(s.out) + Open(s.err) && (s.drainsDone <==> s.remaining == 0)
  }

  /** A text taken from a sink: a prefix of what was written, and all of it once the thread ended without a raise. */
  ghost predicate Faithful(text: string, x: Stream, done: bool) {
    text <= x.written && (done ==> x.drain.Ended?) && (done && !x.broke ==> x.closed && text == x.written)
  }

  ghost predicate MainOk(s: State) {
    match s.main
    case JoinOut(rc) => s.exit == Some(rc)
    case JoinErr(rc, outDone) => s.exit == Some(rc) && (outDone ==> s.out.drain.Ended?)
    case TakeOut(rc, outDone, errDone) =>
      s.exit == Some(rc) && (outDone ==> s.out.drain.Ended?) && (errDone ==> s.err.drain.Ended?)
    case TakeErr(rc, outDone, errDone, stdout) =>
      s.exit == Some(rc) && Faithful(stdout, s.out, outDone) && (errDone ==> s.err.drain.Ended?)
    case Returned(rc, outDone, errDone, stdout, stderr) =>
      s.exit == Some(rc) && Faithful(stdout, s.out, outDone) && Faithful(stderr, s.err, errDone)
    case ExpiredJoin(_) => s.killed
    case HandlerJoin(_) => s.exit.Some? || s.killed || s.killFailed
    case Raised => s.exit.Some? || s.killed || s.killFailed
    case _ => true
  }

  ghost predicate Inv(s: State) {
    DrainOk(s.out) && DrainOk(s.err) && Signalled(s) && MainOk(s)
  }

  lemma InitInv(s: State)
    requires Init(s)
    ensures Inv(s)
  {
  }

  lemma LineAfter(w: string, t: nat, k: nat)
    requires t < |w| && k == Break(w[t..]) && AtLineStart(w[..t])
    ensures t + k <= |w| && Lines(w[..t + k]) == Lines(w[..t]) + [w[t..][..k]]
    ensures k < |w| - t ==> AtLineStart(w[..t + k])
    ensures w[t..][k - 1] == '\n' ==> AtLineStart(w[..t + k])
  {
    hide Lines, Break;
    var line := w[t..][..k];
    BreakUnique(line, k);
    OneLine(line);
    LinesConcat(w[..t], line);
    assert w[..t + k] == w[..t] + line;
  }

  lemma ReadKeeps(x: Stream)
    requires DrainOk(x) && x.drain.Reading? && LineReady(x)
    ensures DrainOk(ReadStep(x))
  {
    hide Lines, Break, AtLineStart;
    assert AtLineStart(x.written[..x.taken]);
    LineAfter(x.written, x.taken, Break(Rest(x)));
  }

  lemma PipeKeeps(x: Stream, p: PipeAction)
    requires DrainOk(x) && PipeEnabled(x, p)
    ensures DrainOk(PipeStep(x, p))
  {
    hide Lines, ReadStep, LineReady, AtLineStart;
    match p
    case Write(text) => assert (x.written + text)[..x.taken] == x.written[..x.taken];
    case ReadLine => ReadKeeps(x);
    case _ =>
  }

  lemma SignalledOk(s: State, fd: Fd, p: PipeAction)
    requires Signalled(s) && Enabled(s, At(fd, p))
    ensures Signalled(Step(s, At(fd, p)))
  {
    hide ReadStep, LineReady;
    assert p.ReadLine? ==> !PipeStep(Of(s, fd), p).drain.Ended? by {
      ReadOnly(Of(s, fd));
    }
  }

  lemma ReadOnly(x: Stream)
    ensures LineReady(x) ==> ReadStep(x).drain.Delivering?
  {
  }

  lemma TakenIsFaithful(x: Stream, done: bool)
    requires DrainOk(x) && (done ==> x.drain.Ended?)
    ensures Faithful(Join(x.sink), x, done)
  {
    JoinLines(x.written[..x.taken]);
    assert x.taken == |x.written| ==> x.written[..x.taken] == x.written;
  }

  /** A taken text stays faithful whatever the writers and the drain threads go on doing. */
  lemma FaithfulStays(text: string, x: Stream, done: bool, p: PipeAction)
    requires Faithful(text, x, done) && PipeEnabled(x, p)
    ensures Faithful(text, PipeStep(x, p), done)
    ensures x.drain.Ended? ==> PipeStep(x, p).drain.Ended?
  {
    hide Lines, Join, Break, LineReady;
  }

  lemma EndedStays(x: Stream, p: PipeAction)
    requires PipeEnabled(x, p) && x.drain.Ended?
    ensures PipeStep(x, p).drain.Ended?
  {
  }

  lemma MainKeptByPipe(s: State, fd: Fd, p: PipeAction)
    requires MainOk(s) && Enabled(s, At(fd, p))
    ensures MainOk(Step(s, At(fd, p)))
  {
    hide PipeEnabled, PipeStep, Faithful;
    var x := Of(s, fd);
    if (s.main.TakeErr? || s.main.Returned?) && fd.Out? {
      FaithfulStays(s.main.stdout, x, s.main.outDone, p);
    } else if s.main.Returned? {
      FaithfulStays(s.main.stderr, x, s.main.errDone, p);
    }
    if x.drain.Ended? {
      EndedStays(x, p);
    }
  }

  lemma MainKept(s: State, a: Action)
    requires DrainOk(s.out) && DrainOk(s.err) && MainOk(s) && MainEnabled(s, a)
    ensures MainOk(MainStep(s, a))
  {
    hide Join, DrainOk, Faithful;
    if s.main.TakeOut? {
      TakenIsFaithful(s.out, s.main.outDone);
    } else if s.main.TakeErr? {
      TakenIsFaithful(s.err, s.main.errDone);
    }
  }

  lemma StepInv(s: State, a: Action)
    requires Inv(s) && Enabled(s, a)
    ensures Inv(Step(s, a))
  {
    hide DrainOk, MainOk, PipeEnabled, PipeStep, MainEnabled, MainStep, Notice, Signalled;
    match a
    case At(fd, p) =>
      PipeKeeps(Of(s, fd), p);
      SignalledOk(s, fd, p);
      MainKeptByPipe(s, fd, p);
      NoticeKeeps(With(s, fd, PipeStep(Of(s, fd), p)), p);
    case Exit(rc) => ExitKeeps(s, rc);
    case _ =>
      MainKept(s, a);
      MainOnly(s, a);
  }

  lemma NoticeKeeps(s: State, p: PipeAction)
    ensures Notice(s, p).out == s.out && Notice(s, p).err == s.err
  {
  }

  lemma ExitKeeps(s: State, rc: int)
    requires s.exit.None? && MainOk(s) && Signalled(s)
    ensures MainOk(s.(exit := Some(rc))) && Signalled(s.(exit := Some(rc)))
  {
  }

  lemma MainOnly(s: State, a: Action)
    requires MainEnabled(s, a)
    ensures MainStep(s, a).out == s.out && MainStep(s, a).err == s.err
    ensures Signalled(s) ==> Signalled(MainStep(s, a))
  {
  }
}

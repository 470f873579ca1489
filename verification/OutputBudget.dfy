/**
 Two reader threads that share one output budget, and the monitor that reports how the process
 ended, as a state machine over all interleavings of their steps.
 */
module OutputBudget {
  import opened Basics

  type Bytes = seq<bv8>

  /**
   One reader: the chunks still to come, the chunk it holds between reading and taking the lock,
   what it captured, and everything it will have read when its stream ends.
   */
  datatype Reader = Reader(stream: Bytes, captured: Bytes, held: Option<Bytes>, todo: seq<Bytes>, done: bool)

  datatype Termination = Exited | OutputLimit | Timeout | MemoryLimit | CpuLimit | ProcessLimit | FileLimit

  /** The monitor watches, has stopped watching, has given its verdict, or has returned the result. */
  datatype Monitor =
    | Watching
    | Stopped(termination: Termination)
    | Judged(verdict: Termination)
    | Returned(result: ProcessResult)

  datatype ProcessResult = ProcessResult(termination: Termination, stdout: Bytes, stderr: Bytes)

  datatype State = State(limit: nat, total: nat, reached: bool, out: Reader, err: Reader, monitor: Monitor)

  datatype Who = StdOut | StdErr

  /** What the environment sees when the monitor polls: an exit, another exceeded limit, or neither. */
  datatype Step =
    | Read(who: Who)
    | EndOfStream(who: Who)
    | Commit(who: Who)
    | Poll(exited: bool, other: Option<Termination>)
    | Conclude(fileLimit: bool)
    | Return

  function Concat(chunks: seq<Bytes>): (b: Bytes) {
    if chunks == [] then [] else chunks[0] + Concat(chunks[1..])
  }

  function NewReader(chunks: seq<Bytes>): (r: Reader) {
    Reader(Concat(chunks), [], None, chunks, false)
  }

  function Start(limit: nat, out: seq<Bytes>, err: seq<Bytes>): (s: State) {
    State(limit, 0, false, NewReader(out), NewReader(err), Watching)
  }

  // ---------------------------------------------------------------- the locked region

  /** How much of a chunk still fits. */
  function Accepted(limit: nat, total: nat, chunk: Bytes): (a: Bytes)
    ensures a <= chunk
  {
    var remaining := if limit > total then limit - total else 0;
    if |chunk| <= remaining then chunk else chunk[..remaining]
  }

  /** The shared variables, updated in place under the lock. */
  class SharedOutput {
    const maxOutputBytes: nat
    var totalOutput: nat
    var limitReached: bool

    constructor (limit: nat)
      ensures maxOutputBytes == limit && totalOutput == 0 && !limitReached
    {
      maxOutputBytes := limit;
      totalOutput, limitReached := 0, false;
    }

    /** One chunk is taken: stop tells the reader that something was dropped. */
    method Take(destination: Bytes, chunk: Bytes) returns (extended: Bytes, stop: bool)
      modifies this
      ensures extended == destination + Accepted(maxOutputBytes, old(totalOutput), chunk)
      ensures totalOutput - old(totalOutput) == |extended| - |destination|
      ensures old(totalOutput) <= maxOutputBytes ==> totalOutput <= maxOutputBytes
      ensures stop <==> |destination| + |chunk| > |extended|
      ensures limitReached == (old(limitReached) || stop)
      ensures old(totalOutput) <= maxOutputBytes && stop ==> totalOutput == maxOutputBytes
    {
      var remaining := if maxOutputBytes > totalOutput then maxOutputBytes - totalOutput else 0;
      var accepted := if |chunk| <= remaining then chunk else chunk[..remaining];
      extended := destination + accepted;
      totalOutput := totalOutput + |accepted|;
      stop := |accepted| != |chunk|;
      if stop {
        limitReached := true;
      }
    }
  }

  // ---------------------------------------------------------------- steps

  function ReaderOf(s: State, who: Who): (r: Reader) {
    if who.StdOut? then s.out else s.err
  }

  function WithReader(s: State, who: Who, r: Reader): (t: State) {
    if who.StdOut? then s.(out := r) else s.(err := r)
  }

  predicate Enabled(s: State, step: Step) {
    match step
    case Read(who) => var r := ReaderOf(s, who); !r.done && r.held.None? && r.todo != []
    case EndOfStream(who) => var r := ReaderOf(s, who); !r.done && r.held.None? && r.todo == []
    case Commit(who) => ReaderOf(s, who).held.Some?
    case Poll(_, _) => s.monitor.Watching?
    case Conclude(_) => s.monitor.Stopped?
    case Return => s.monitor.Judged?
  }

  function CommitChunk(s: State, who: Who): (t: State)
    requires ReaderOf(s, who).held.Some?
  {
    var r := ReaderOf(s, who);
    var chunk := r.held.value;
    var accepted := Accepted(s.limit, s.total, chunk);
    var full := |accepted| != |chunk|;
    var after := r.(captured := r.captured + accepted, held := None, done := full);
    WithReader(s, who, after).(total := s.total + |accepted|, reached := s.reached || full)
  }

  /** One iteration of the monitor loop. */
  function PollOnce(s: State, exited: bool, other: Option<Termination>): (m: Monitor) {
    if exited then Stopped(Exited)
    else if s.reached then Stopped(OutputLimit)
    else if other.Some? then Stopped(other.value)
    else Watching
  }

  /** The verdict after the readers were joined, or the waiting for them was given up. */
  function Verdict(t: Termination, reached: bool, fileLimit: bool): (v: Termination) {
    if t.Exited? && reached then OutputLimit else if t.Exited? && fileLimit then FileLimit else t
  }

  function Next(s: State, step: Step): (t: State)
    requires Enabled(s, step)
  {
    match step
    case Read(who) =>
      var r := ReaderOf(s, who);
      WithReader(s, who, r.(held := Some(r.todo[0]), todo := r.todo[1..]))
    case EndOfStream(who) => WithReader(s, who, ReaderOf(s, who).(done := true))
    case Commit(who) => CommitChunk(s, who)
    case Poll(exited, other) => s.(monitor := PollOnce(s, exited, other))
    case Conclude(fileLimit) => s.(monitor := Judged(Verdict(s.monitor.termination, s.reached, fileLimit)))
    case Return => s.(monitor := Returned(ProcessResult(s.monitor.verdict, s.out.captured, s.err.captured)))
  }

  /** The states of a run; steps that are not enabled end it. */
  function Run(s: State, steps: seq<Step>): (r: Option<State>)
    decreases |steps|
  {
    if steps == [] then Some(s)
    else if !Enabled(s, steps[0]) then None
    else Run(Next(s, steps[0]), steps[1..])
  }

  // ---------------------------------------------------------------- what every step keeps

  /** Nothing was dropped so far: captured, held and still to come make up the stream. */
  predicate Complete(r: Reader) {
    r.captured + (if r.held.Some? then r.held.value else []) + Concat(r.todo) == r.stream && (r.done ==> r.held.None? && r.todo == [])
  }

  /** Some data was dropped: the reader has stopped short of its stream. */
  predicate Cut(r: Reader) {
    r.captured <= r.stream && |r.captured| < |r.stream| && r.done && r.held.None?
  }

  predicate Invariant(s: State) {
    && s.total == |s.out.captured| + |s.err.captured| && s.total <= s.limit
    && (Complete(s.out) || Cut(s.out)) && (Complete(s.err) || Cut(s.err))
    && (s.reached <==> Cut(s.out) || Cut(s.err))
    && (s.reached ==> s.total == s.limit)
    && MonitorHonest(s)
  }

  /** A reported output limit was really reached, and a returned result holds captured data only. */
  predicate MonitorHonest(s: State) {
    match s.monitor
    case Watching => true
    case Stopped(t) => t.OutputLimit? ==> s.reached
    case Judged(v) => v.OutputLimit? ==> s.reached
    case Returned(r) =>
      (r.termination.OutputLimit? ==> s.reached) && r.stdout <= s.out.captured && r.stderr <= s.err.captured
  }

  /** The environment never reports the output limit itself. */
  predicate Ordinary(step: Step) {
    step.Poll? && step.other.Some? ==> !step.other.value.OutputLimit?
  }

  lemma {:induction false} StartInvariant(limit: nat, out: seq<Bytes>, err: seq<Bytes>)
    ensures Invariant(Start(limit, out, err))
  {
    assert [] + [] + Concat(out) == Concat(out);
    assert [] + [] + Concat(err) == Concat(err);
  }

  lemma {:induction false} ReadKeeps(r: Reader)
    requires Complete(r) && !r.done && r.held.None? && r.todo != []
    ensures Complete(r.(held := Some(r.todo[0]), todo := r.todo[1..]))
  {
    assert r.captured + [] + Concat(r.todo) == r.captured + r.todo[0] + Concat(r.todo[1..]);
  }

  lemma {:induction false} CommitKeeps(r: Reader, accepted: Bytes)
    requires Complete(r) && r.held.Some? && accepted <= r.held.value
    ensures var after := r.(captured := r.captured + accepted, held := None, done := |accepted| != |r.held.value|);
      if |accepted| == |r.held.value| then Complete(after) else Cut(after)
  {
    var chunk := r.held.value;
    var rest := Concat(r.todo);
    assert r.stream == r.captured + chunk + rest;
    if |accepted| == |chunk| {
      assert accepted == chunk;
      assert r.captured + chunk + [] + rest == r.captured + chunk + rest;
    } else {
      assert r.captured + accepted == r.stream[..|r.captured| + |accepted|];
    }
  }

  lemma {:induction false} NeverBoth(r: Reader)
    ensures !(Complete(r) && Cut(r))
  {
    if Complete(r) && r.done && r.held.None? {
      assert r.captured + [] + [] == r.captured;
    }
  }

  lemma {:induction false} CommitInvariant(s: State, who: Who)
    requires Invariant(s) && ReaderOf(s, who).held.Some?
    ensures Invariant(CommitChunk(s, who))
  {
    hide Complete;
    var r := ReaderOf(s, who);
    var accepted := Accepted(s.limit, s.total, r.held.value);
    NeverBoth(s.out);
    NeverBoth(s.err);
    CommitKeeps(r, accepted);
    var t := CommitChunk(s, who);
    NeverBoth(t.out);
    NeverBoth(t.err);
  }

  /** Every step of every thread keeps the invariant. */
  lemma {:induction false} StepKeeps(s: State, step: Step)
    requires Invariant(s) && Enabled(s, step) && Ordinary(step)
    ensures Invariant(Next(s, step))
  {
    NeverBoth(s.out);
    NeverBoth(s.err);
    match step {
      case Read(who) => ReadKeeps(ReaderOf(s, who));
      case Commit(who) => CommitInvariant(s, who);
      case _ =>
    }
    NeverBoth(Next(s, step).out);
    NeverBoth(Next(s, step).err);
  }

  /** A result never changes once returned, and readers that are done stay as they are. */
  predicate Settled(a: State, b: State) {
    && a.limit == b.limit && a.out.stream == b.out.stream && a.err.stream == b.err.stream
    && (a.monitor.Returned? ==> b.monitor == a.monitor)
    && (a.out.done && a.out.held.None? ==> b.out == a.out) && (a.err.done && a.err.held.None? ==> b.err == a.err)
    && (a.reached ==> b.reached)
  }

  lemma {:induction false} StepSettles(s: State, step: Step)
    requires Enabled(s, step)
    ensures Settled(s, Next(s, step))
  {
  }

  lemma {:induction false} RunKeeps(s: State, steps: seq<Step>)
    requires Invariant(s) && Run(s, steps).Some? && forall i :: 0 <= i < |steps| ==> Ordinary(steps[i])
    ensures Invariant(Run(s, steps).value) && Settled(s, Run(s, steps).value)
    decreases |steps|
  {
    hide Invariant, Settled, Next, Enabled;
    if steps == [] {
      SettledSelf(s);
    } else {
      StepKeeps(s, steps[0]);
      StepSettles(s, steps[0]);
      RunKeeps(Next(s, steps[0]), steps[1..]);
      SettledTransitive(s, Next(s, steps[0]), Run(s, steps).value);
    }
  }

  lemma {:induction false} SettledSelf(s: State)
    ensures Settled(s, s)
  {
  }

  lemma {:induction false} SettledTransitive(a: State, b: State, c: State)
    requires Settled(a, b) && Settled(b, c)
    ensures Settled(a, c)
  {
  }

  /** Both readers have returned. */
  predicate ReadersDone(s: State) {
    s.out.done && s.out.held.None? && s.err.done && s.err.held.None?
  }

  // ---------------------------------------------------------------- main results

  /**
   In every interleaving: what was captured are prefixes of the two streams, their lengths add up
   to the counter, which never exceeds the limit; the limit flag is set exactly when a reader has
   dropped data, and then the budget is used up; and once both readers are done it is set exactly
   when more than the limit was written.
   */
  lemma {:induction false} BudgetIsShared(limit: nat, out: seq<Bytes>, err: seq<Bytes>, steps: seq<Step>)
    requires Run(Start(limit, out, err), steps).Some? && forall i :: 0 <= i < |steps| ==> Ordinary(steps[i])
    ensures var s := Run(Start(limit, out, err), steps).value;
      && s.out.captured <= Concat(out) && s.err.captured <= Concat(err)
      && |s.out.captured| + |s.err.captured| == s.total <= limit
      && (s.reached <==> Cut(s.out) || Cut(s.err))
      && (ReadersDone(s) ==> (s.reached <==> |Concat(out)| + |Concat(err)| > limit))
      && (s.reached ==> s.total == limit && |s.out.captured| + |s.err.captured| < |Concat(out)| + |Concat(err)|)
      && (s.monitor.Returned? ==>
            && (s.monitor.result.termination.OutputLimit? ==> s.reached)
            && s.monitor.result.stdout <= s.out.captured && s.monitor.result.stderr <= s.err.captured)
  {
    hide Concat, Run, Settled;
    StartInvariant(limit, out, err);
    RunKeeps(Start(limit, out, err), steps);
    var s := Run(Start(limit, out, err), steps).value;
    KeptStreams(limit, out, err, steps);
    PrefixOf(s.out);
    PrefixOf(s.err);
    if ReadersDone(s) {
      FinishedReaders(s);
    }
  }

  lemma {:induction false} KeptStreams(limit: nat, out: seq<Bytes>, err: seq<Bytes>, steps: seq<Step>)
    requires Run(Start(limit, out, err), steps).Some? && forall i :: 0 <= i < |steps| ==> Ordinary(steps[i])
    ensures var s := Run(Start(limit, out, err), steps).value;
      s.limit == limit && s.out.stream == Concat(out) && s.err.stream == Concat(err)
  {
    hide Run, Invariant;
    StartInvariant(limit, out, err);
    RunKeeps(Start(limit, out, err), steps);
  }

  lemma {:induction false} PrefixOf(r: Reader)
    requires Complete(r) || Cut(r)
    ensures r.captured <= r.stream
  {
    if Complete(r) {
      var rest := (if r.held.Some? then r.held.value else []) + Concat(r.todo);
      assert r.captured + rest == r.stream;
    }
  }

  /**
   In every interleaving: if both readers had finished when the monitor gave its verdict on a
   process that exited, then it is reported as exited only if nothing that was written is missing
   from the result, and as having reached the output limit exactly when it wrote more than the limit.
   */
  lemma {:induction false} VerdictIsHonest(limit: nat, out: seq<Bytes>, err: seq<Bytes>, steps: seq<Step>, fileLimit: bool, later: seq<Step>)
    requires Run(Start(limit, out, err), steps).Some? && forall i :: 0 <= i < |steps| ==> Ordinary(steps[i])
    requires var s := Run(Start(limit, out, err), steps).value;
      && s.monitor == Stopped(Exited) && ReadersDone(s)
      && Run(Next(s, Conclude(fileLimit)), later).Some?
    requires forall i :: 0 <= i < |later| ==> Ordinary(later[i])
    ensures var end := Run(Next(Run(Start(limit, out, err), steps).value, Conclude(fileLimit)), later).value;
      end.monitor.Returned? ==>
        && (end.monitor.result.termination.OutputLimit? <==> |Concat(out)| + |Concat(err)| > limit)
        && (end.monitor.result.termination.Exited? ==>
              end.monitor.result.stdout == Concat(out) && end.monitor.result.stderr == Concat(err))
  {
    hide Concat, Run, Settled, Invariant, Next;
    StartInvariant(limit, out, err);
    RunKeeps(Start(limit, out, err), steps);
    KeptStreams(limit, out, err, steps);
    VerdictFrom(Run(Start(limit, out, err), steps).value, fileLimit, later);
  }

  lemma {:induction false} VerdictFrom(s: State, fileLimit: bool, later: seq<Step>)
    requires Invariant(s) && s.monitor == Stopped(Exited) && ReadersDone(s)
    requires Run(Next(s, Conclude(fileLimit)), later).Some? && forall i :: 0 <= i < |later| ==> Ordinary(later[i])
    ensures var end := Run(Next(s, Conclude(fileLimit)), later).value;
      end.monitor.Returned? ==>
        && (end.monitor.result.termination.OutputLimit? <==> |s.out.stream| + |s.err.stream| > s.limit)
        && (end.monitor.result.termination.Exited? ==>
              end.monitor.result.stdout == s.out.stream && end.monitor.result.stderr == s.err.stream)
  {
    hide Invariant, Run;
    var judged := Next(s, Conclude(fileLimit));
    FinishedReaders(s);
    JudgedReturns(judged, later);
  }

  lemma {:induction false} FinishedReaders(s: State)
    requires Invariant(s) && ReadersDone(s)
    ensures s.reached <==> |s.out.stream| + |s.err.stream| > s.limit
    ensures !s.reached ==> s.out.captured == s.out.stream && s.err.captured == s.err.stream
  {
    NeverBoth(s.out);
    NeverBoth(s.err);
    WholeStream(s.out);
    WholeStream(s.err);
    PrefixOf(s.out);
    PrefixOf(s.err);
  }

  lemma {:induction false} WholeStream(r: Reader)
    ensures Complete(r) && r.done ==> r.captured == r.stream
  {
    if Complete(r) && r.done {
      assert r.captured + [] + [] == r.captured;
    }
  }

  /** From the verdict on, the result that is returned is the verdict with what was captured. */
  lemma {:induction false} JudgedReturns(s: State, later: seq<Step>)
    requires s.monitor.Judged? && ReadersDone(s) && Run(s, later).Some?
    ensures var end := Run(s, later).value;
      end.monitor.Returned? ==> end.monitor.result == ProcessResult(s.monitor.verdict, s.out.captured, s.err.captured)
  {
    if later != [] {
      StaysReturned(Next(s, later[0]), later[1..]);
    }
  }

  lemma {:induction false} StaysReturned(s: State, later: seq<Step>)
    requires s.monitor.Returned? && Run(s, later).Some?
    ensures Run(s, later).value.monitor == s.monitor
    decreases |later|
  {
    if later != [] {
      StaysReturned(Next(s, later[0]), later[1..]);
    }
  }
}

/**
 * What running a task does: `runSequence` flattening a sequence into the
 * leaf tasks it runs one after another, and each leaf task's effect on the
 * module state. The semantics is stated for any task table and then applied
 * to the gulpfile's own. A plugin failure is an input: the map from the
 * stream tasks whose chain reports an error to the position of the stage
 * that raises it and the error's text.
 */
module Runs {
  import opened Config
  import opened Effects
  import opened Tasks
  import Stages

  /** What each registered name does. */
  type Table = TaskName -> TaskDef

  /** `runSequence` flattened: the leaf tasks and parallel groups a list of steps runs, in order. */
  function Expand(table: Table, steps: seq<Step>, fuel: nat): Stages.Option<seq<Step>>
    decreases fuel, |steps|
  {
    if steps == [] then Stages.Some([])
    else
      var head :=
        match steps[0]
        case Parallel(_) => Stages.Some([steps[0]])
        case Run(t) =>
          match table(t)
          case Sequence(sub) => if fuel == 0 then Stages.None else Expand(table, sub, fuel - 1)
          case _ => Stages.Some([steps[0]]);
      var tail := Expand(table, steps[1..], fuel);
      if head.None? || tail.None? then Stages.None else Stages.Some(head.value + tail.value)
  }

  /** No step of the list is itself a sequence task. */
  predicate Flat(table: Table, steps: seq<Step>) {
    forall st :: st in steps && st.Run? ==> !table(st.task).Sequence?
  }

  /** Whatever expansion succeeds contains no sequence task. */
  lemma {:induction false} ExpandIsFlat(table: Table, steps: seq<Step>, fuel: nat)
    requires Expand(table, steps, fuel).Some?
    ensures Flat(table, Expand(table, steps, fuel).value)
    decreases fuel, |steps|
  {
    if steps != [] {
      ExpandIsFlat(table, steps[1..], fuel);
      var tail := Expand(table, steps[1..], fuel).value;
      match steps[0]
      case Parallel(_) =>
        assert Expand(table, steps, fuel).value == [steps[0]] + tail;
      case Run(t) =>
        match table(t)
        case Sequence(sub) =>
          ExpandIsFlat(table, sub, fuel - 1);
          assert Expand(table, steps, fuel).value == Expand(table, sub, fuel - 1).value + tail;
        case _ =>
          assert Expand(table, steps, fuel).value == [steps[0]] + tail;
    }
  }

  /** A list with no sequence task expands to itself. */
  lemma {:induction false} ExpandFlatList(table: Table, steps: seq<Step>, fuel: nat)
    requires Flat(table, steps)
    ensures Expand(table, steps, fuel) == Stages.Some(steps)
    decreases |steps|
  {
    if steps != [] {
      assert forall st :: st in steps[1..] ==> st in steps;
      ExpandFlatList(table, steps[1..], fuel);
      assert steps == [steps[0]] + steps[1..];
    }
  }

  /** A sequence task followed by more steps expands to its own steps' expansion followed by theirs. */
  lemma ExpandRunThen(table: Table, t: TaskName, rest: seq<Step>, fuel: nat)
    requires table(t).Sequence?
    requires Expand(table, table(t).steps, fuel).Some? && Expand(table, rest, fuel + 1).Some?
    ensures Expand(table, [Run(t)] + rest, fuel + 1) ==
      Stages.Some(Expand(table, table(t).steps, fuel).value + Expand(table, rest, fuel + 1).value)
  {
    assert ([Run(t)] + rest)[0] == Run(t) && ([Run(t)] + rest)[1..] == rest;
  }

  /** A sequence task whose own steps are leaves expands to exactly those steps. */
  lemma ExpandSequence(table: Table, t: TaskName, fuel: nat)
    requires table(t).Sequence? && Flat(table, table(t).steps)
    ensures Expand(table, [Run(t)], fuel + 1) == Stages.Some(table(t).steps)
  {
    ExpandFlatList(table, table(t).steps, fuel);
    ExpandRunThen(table, t, [], fuel);
    assert [Run(t)] + [] == [Run(t)];
    assert table(t).steps + [] == table(t).steps;
  }

  /** How running one leaf task ends: the process goes on, or an unhandled error ends it. */
  datatype Outcome = Completed(state: State) | Crashed(state: State, error: string)

  /** A plugin error: the position in the task's chain of the stage that raises it, and its text. */
  datatype Failure = Failure(at: nat, error: string)

  /** The stream tasks whose chain reports an error during a run. */
  type Failures = map<TaskName, Failure>

  /** A stream task one of whose stages raises an error. */
  predicate Fails(table: Table, c: Config, t: TaskName, failures: Failures) {
    t in failures && table(t).Stream? && failures[t].at < |Stages.StagesOf(table(t).pipeline, c)|
  }

  /** The stage that raises a failing task's error. */
  function Raiser(table: Table, c: Config, t: TaskName, failures: Failures): (st: Stages.Stage)
    requires Fails(table, c, t, failures)
    ensures st in Stages.StagesOf(table(t).pipeline, c)
  {
    Stages.StagesOf(table(t).pipeline, c)[failures[t].at]
  }

  /**
   * A failing task whose raising stage has an error handler attached: the
   * handler reports the error and ends the stream, and the run goes on.
   * `.on('error', …)` listens to that one stage's stream only.
   */
  predicate Handled(table: Table, c: Config, t: TaskName, failures: Failures) {
    Fails(table, c, t, failures) && Raiser(table, c, t, failures).Handler().Some?
  }

  /** A failing task whose raising stage has no handler: the error is thrown and ends the process. */
  predicate Unhandled(table: Table, c: Config, t: TaskName, failures: Failures) {
    Fails(table, c, t, failures) && Raiser(table, c, t, failures).Handler().None?
  }

  /** Running one task that is not a sequence. */
  function ExecTask(table: Table, s: State, c: Config, t: TaskName, failures: Failures): (o: Outcome)
    requires !table(t).Sequence?
    ensures o.Crashed? <==> Unhandled(table, c, t, failures)
    ensures o.Crashed? ==> o.error == failures[t].error
  {
    match table(t)
    case Stream(_, _) =>
      if !Fails(table, c, t, failures) then Completed(s)
      else (
        match Raiser(table, c, t, failures).Handler()
        case Some(kind) => Completed(OnError(s, kind, failures[t].error))
        case None => Crashed(s, failures[t].error))
    case Cleanup(pattern) => Completed(OnCleanUp(s, c, pattern))
    case Notification(msg) => Completed(OnSuccess(s, msg))
    case Watch(_, _) => Completed(s)
  }

  /** Running an expanded list of steps in order; a parallel group only starts watchers. */
  function ExecFlat(table: Table, s: State, c: Config, steps: seq<Step>, failures: Failures): Outcome
    requires Flat(table, steps)
    decreases |steps|
  {
    if steps == [] then Completed(s)
    else
      assert forall st :: st in steps[1..] ==> st in steps;
      match steps[0]
      case Parallel(_) => ExecFlat(table, s, c, steps[1..], failures)
      case Run(t) =>
        match ExecTask(table, s, c, t, failures)
        case Completed(s') => ExecFlat(table, s', c, steps[1..], failures)
        case Crashed(s', e) => Crashed(s', e)
  }

  /** Running two lists one after the other is running their concatenation. */
  lemma {:induction false} ExecFlatConcat(table: Table, s: State, c: Config, a: seq<Step>, b: seq<Step>,
                                          failures: Failures)
    requires Flat(table, a) && Flat(table, b)
    ensures Flat(table, a + b)
    ensures ExecFlat(table, s, c, a + b, failures) ==
      match ExecFlat(table, s, c, a, failures)
      case Completed(s') => ExecFlat(table, s', c, b, failures)
      case Crashed(s', e) => Crashed(s', e)
    decreases |a|
  {
    if a == [] {
      assert a + b == b;
    } else {
      assert (a + b)[0] == a[0] && (a + b)[1..] == a[1..] + b;
      assert forall st :: st in a[1..] ==> st in a;
      match a[0]
      case Parallel(_) =>
        ExecFlatConcat(table, s, c, a[1..], b, failures);
      case Run(t) =>
        match ExecTask(table, s, c, t, failures)
        case Completed(s') => ExecFlatConcat(table, s', c, a[1..], b, failures);
        case Crashed(_, _) =>
    }
  }

  /** Some task of the list fails with no handler. */
  predicate AnyUnhandled(table: Table, c: Config, steps: seq<Step>, failures: Failures) {
    exists st :: st in steps && st.Run? && Unhandled(table, c, st.task, failures)
  }

  /** Some task of the list fails and reports it to its handler. */
  predicate AnyHandled(table: Table, c: Config, steps: seq<Step>, failures: Failures) {
    exists st :: st in steps && st.Run? && Handled(table, c, st.task, failures)
  }

  /** What a list's first step and the rest of it each contribute to the list's shape. */
  lemma StepsTail(table: Table, steps: seq<Step>)
    requires steps != []
    ensures Flat(table, steps) ==> Flat(table, steps[1..]) && (steps[0].Run? ==> !table(steps[0].task).Sequence?)
    ensures NoNotification(table, steps) ==>
      NoNotification(table, steps[1..]) && (steps[0].Run? ==> !table(steps[0].task).Notification?)
  {
    assert steps[0] in steps;
    assert forall st :: st in steps[1..] ==> st in steps;
  }

  /** A list has a task failing unhandled exactly when its first step or the rest of it has one. */
  lemma UnhandledTail(table: Table, c: Config, steps: seq<Step>, failures: Failures)
    requires steps != []
    ensures AnyUnhandled(table, c, steps, failures) <==>
      (steps[0].Run? && Unhandled(table, c, steps[0].task, failures)) || AnyUnhandled(table, c, steps[1..], failures)
  {
    assert steps[0] in steps;
    assert forall st :: st in steps[1..] ==> st in steps;
    assert forall st :: st in steps ==> st == steps[0] || st in steps[1..];
  }

  /** Likewise for a task whose failure is reported. */
  lemma HandledTail(table: Table, c: Config, steps: seq<Step>, failures: Failures)
    requires steps != []
    ensures AnyHandled(table, c, steps, failures) <==>
      (steps[0].Run? && Handled(table, c, steps[0].task, failures)) || AnyHandled(table, c, steps[1..], failures)
  {
    assert steps[0] in steps;
    assert forall st :: st in steps[1..] ==> st in steps;
    assert forall st :: st in steps ==> st == steps[0] || st in steps[1..];
  }

  /** A list of one leaf task has the properties of that task. */
  lemma OneStep(table: Table, c: Config, t: TaskName, failures: Failures)
    requires !table(t).Sequence? && !table(t).Notification?
    ensures Flat(table, [Run(t)]) && NoNotification(table, [Run(t)])
    ensures AnyUnhandled(table, c, [Run(t)], failures) <==> Unhandled(table, c, t, failures)
    ensures AnyHandled(table, c, [Run(t)], failures) <==> Handled(table, c, t, failures)
    ensures CleanupsOf(table, c, [Run(t)]) == if table(t).Cleanup? then [CleanUpPattern(c, table(t).pattern)] else []
  {
    assert [Run(t)][1..] == [];
    StepsTail(table, [Run(t)]);
    UnhandledTail(table, c, [Run(t)], failures);
    HandledTail(table, c, [Run(t)], failures);
  }

  /** Fail-soft: a run ends the process exactly when one of its tasks fails with no handler. */
  lemma {:induction false} FailSoft(table: Table, s: State, c: Config, steps: seq<Step>, failures: Failures)
    requires Flat(table, steps)
    ensures ExecFlat(table, s, c, steps, failures).Crashed? <==> AnyUnhandled(table, c, steps, failures)
    decreases |steps|
  {
    if steps != [] {
      var rest := steps[1..];
      StepsTail(table, steps);
      UnhandledTail(table, c, steps, failures);
      match steps[0]
      case Parallel(_) =>
        FailSoft(table, s, c, rest, failures);
      case Run(t) =>
        match ExecTask(table, s, c, t, failures)
        case Completed(s') =>
          FailSoft(table, s', c, rest, failures);
        case Crashed(_, _) =>
    }
  }

  /** No step of the list is a notification task. */
  predicate NoNotification(table: Table, steps: seq<Step>) {
    forall st :: st in steps && st.Run? ==> !table(st.task).Notification?
  }

  /** The patterns the clean-up tasks of a list delete, in order. */
  function CleanupsOf(table: Table, c: Config, steps: seq<Step>): seq<seq<string>> {
    if steps == [] then []
    else
      (if steps[0].Run? && table(steps[0].task).Cleanup?
       then [CleanUpPattern(c, table(steps[0].task).pattern)] else [])
      + CleanupsOf(table, c, steps[1..])
  }

  /**
   * One task that is neither a sequence nor a notification: the flag is set
   * if it fails soft and kept otherwise, no notice is shown, and a clean-up
   * task issues its one delete.
   */
  lemma TaskEffects(table: Table, s: State, c: Config, t: TaskName, failures: Failures)
    requires !table(t).Sequence? && !table(t).Notification?
    requires ExecTask(table, s, c, t, failures).Completed?
    ensures var r := ExecTask(table, s, c, t, failures).state;
      && r.hasErrors == (s.hasErrors || Handled(table, c, t, failures))
      && Notices(r.log) == Notices(s.log)
      && Deletions(r.log) == Deletions(s.log)
           + (if table(t).Cleanup? then [CleanUpPattern(c, table(t).pattern)] else [])
  {
    match table(t)
    case Stream(_, _) =>
      if Handled(table, c, t, failures) {
        ErrorSetsFlag(s, Raiser(table, c, t, failures).Handler().value, failures[t].error);
      }
    case Cleanup(p) =>
      CleanUpDeletesOnce(s, c, p);
    case Watch(_, _) =>
  }

  /**
   * Before the notification: the flag ends up set exactly when it was set
   * already or some task failed soft, no success notice is shown, and each
   * clean-up task issues its one delete.
   */
  lemma BodyEffects(table: Table, s: State, c: Config, body: seq<Step>, failures: Failures)
    requires Flat(table, body) && NoNotification(table, body)
    requires ExecFlat(table, s, c, body, failures).Completed?
    ensures var r := ExecFlat(table, s, c, body, failures).state;
      && r.hasErrors == (s.hasErrors || AnyHandled(table, c, body, failures))
      && Notices(r.log) == Notices(s.log)
      && Deletions(r.log) == Deletions(s.log) + CleanupsOf(table, c, body)
  {
    BodyFlag(table, s, c, body, failures);
    BodyNotices(table, s, c, body, failures);
    BodyDeletions(table, s, c, body, failures);
  }

  /** The flag after a body: set exactly when it was set already or some task failed soft. */
  lemma {:induction false} BodyFlag(table: Table, s: State, c: Config, body: seq<Step>, failures: Failures)
    requires Flat(table, body) && NoNotification(table, body)
    requires ExecFlat(table, s, c, body, failures).Completed?
    ensures ExecFlat(table, s, c, body, failures).state.hasErrors == (s.hasErrors || AnyHandled(table, c, body, failures))
    decreases |body|
  {
    if body != [] {
      StepsTail(table, body);
      HandledTail(table, c, body, failures);
      match body[0]
      case Parallel(_) =>
        BodyFlag(table, s, c, body[1..], failures);
      case Run(t) =>
        RunFirst(table, s, c, body, failures);
        TaskEffects(table, s, c, t, failures);
        BodyFlag(table, ExecTask(table, s, c, t, failures).state, c, body[1..], failures);
    }
  }

  /** A body shows no success notice. */
  lemma {:induction false} BodyNotices(table: Table, s: State, c: Config, body: seq<Step>, failures: Failures)
    requires Flat(table, body) && NoNotification(table, body)
    requires ExecFlat(table, s, c, body, failures).Completed?
    ensures Notices(ExecFlat(table, s, c, body, failures).state.log) == Notices(s.log)
    decreases |body|
  {
    if body != [] {
      StepsTail(table, body);
      match body[0]
      case Parallel(_) =>
        BodyNotices(table, s, c, body[1..], failures);
      case Run(t) =>
        RunFirst(table, s, c, body, failures);
        TaskEffects(table, s, c, t, failures);
        BodyNotices(table, ExecTask(table, s, c, t, failures).state, c, body[1..], failures);
    }
  }

  /** Each clean-up task of a body issues its one delete, in order. */
  lemma {:induction false} BodyDeletions(table: Table, s: State, c: Config, body: seq<Step>, failures: Failures)
    requires Flat(table, body) && NoNotification(table, body)
    requires ExecFlat(table, s, c, body, failures).Completed?
    ensures Deletions(ExecFlat(table, s, c, body, failures).state.log) == Deletions(s.log) + CleanupsOf(table, c, body)
    decreases |body|
  {
    if body != [] {
      StepsTail(table, body);
      match body[0]
      case Parallel(_) =>
        BodyDeletions(table, s, c, body[1..], failures);
      case Run(t) =>
        RunFirst(table, s, c, body, failures);
        TaskEffects(table, s, c, t, failures);
        BodyDeletions(table, ExecTask(table, s, c, t, failures).state, c, body[1..], failures);
    }
  }

  /** A run that completes has completed its first task, and goes on from the state that task left. */
  lemma RunFirst(table: Table, s: State, c: Config, steps: seq<Step>, failures: Failures)
    requires steps != [] && steps[0].Run? && Flat(table, steps)
    requires ExecFlat(table, s, c, steps, failures).Completed?
    ensures Flat(table, steps[1..]) && !table(steps[0].task).Sequence?
    ensures ExecTask(table, s, c, steps[0].task, failures).Completed?
    ensures ExecFlat(table, s, c, steps, failures) ==
      ExecFlat(table, ExecTask(table, s, c, steps[0].task, failures).state, c, steps[1..], failures)
  {
    assert steps[0] in steps;
    assert forall st :: st in steps[1..] ==> st in steps;
  }

  /**
   * The notifier invariant of one run: the closing success notice is shown
   * exactly when the flag was clear at the start and no task of the run
   * failed, and the flag is clear afterwards either way.
   */
  lemma NotifierInvariant(table: Table, s: State, c: Config, body: seq<Step>, n: TaskName, failures: Failures)
    requires Flat(table, body) && NoNotification(table, body) && table(n).Notification?
    requires ExecFlat(table, s, c, body, failures).Completed?
    ensures Flat(table, body + [Run(n)])
    ensures ExecFlat(table, s, c, body + [Run(n)], failures).Completed?
    ensures var r := ExecFlat(table, s, c, body + [Run(n)], failures).state;
      && !r.hasErrors
      && Notices(r.log) == Notices(s.log)
           + (if s.hasErrors || AnyHandled(table, c, body, failures) then [] else [table(n).message])
      && Deletions(r.log) == Deletions(s.log) + CleanupsOf(table, c, body)
  {
    ExecFlatConcat(table, s, c, body, [Run(n)], failures);
    BodyEffects(table, s, c, body, failures);
    var m := ExecFlat(table, s, c, body, failures).state;
    assert [Run(n)][1..] == [];
    SuccessNotifiesIffClean(m, table(n).message);
  }

  /**
   * A sequence of one task that deletes nothing, then the notification: the
   * run ends the process exactly when that task fails with no handler;
   * otherwise the notice is shown exactly when the flag was clear and the
   * task did not fail, the flag is clear afterwards, and nothing is deleted.
   */
  lemma LeafThenNotify(table: Table, s: State, c: Config, t: TaskName, n: TaskName, failures: Failures)
    requires !table(t).Sequence? && !table(t).Notification? && !table(t).Cleanup? && table(n).Notification?
    ensures Flat(table, [Run(t), Run(n)])
    ensures ExecFlat(table, s, c, [Run(t), Run(n)], failures).Crashed? <==> Unhandled(table, c, t, failures)
    ensures var o := ExecFlat(table, s, c, [Run(t), Run(n)], failures);
      o.Completed? ==>
        && !o.state.hasErrors
        && Notices(o.state.log) == Notices(s.log)
             + (if s.hasErrors || Handled(table, c, t, failures) then [] else [table(n).message])
        && Deletions(o.state.log) == Deletions(s.log)
  {
    var body := [Run(t)];
    assert [Run(t), Run(n)] == body + [Run(n)];
    OneStep(table, c, t, failures);
    FailSoft(table, s, c, body, failures);
    ExecFlatConcat(table, s, c, body, [Run(n)], failures);
    if ExecFlat(table, s, c, body, failures).Completed? {
      NotifierInvariant(table, s, c, body, n, failures);
    }
  }

  /**
   * A build sequence: a compile step, a concatenation none of whose stages
   * has a handler, a clean-up and the notification. The run ends the
   * process exactly when the compile step fails outside its handled stage
   * or the concatenation fails at all; otherwise the notice is shown
   * exactly when the flag was clear and the compile step's error, if any,
   * was not reported, the flag is clear afterwards, and exactly one delete
   * is issued.
   */
  lemma BuildRun(table: Table, s: State, c: Config, compile: TaskName, concat: TaskName, cleanup: TaskName, n: TaskName,
                 failures: Failures)
    requires table(compile).Stream?
    requires table(concat).Stream? && Stages.HandlerOf(Stages.StagesOf(table(concat).pipeline, c)).None?
    requires table(cleanup).Cleanup? && table(n).Notification?
    ensures var steps := [Run(compile), Run(concat), Run(cleanup), Run(n)];
      && Flat(table, steps)
      && (ExecFlat(table, s, c, steps, failures).Crashed? <==>
            Unhandled(table, c, compile, failures) || Fails(table, c, concat, failures))
      && (ExecFlat(table, s, c, steps, failures).Completed? ==>
            var r := ExecFlat(table, s, c, steps, failures).state;
            && !r.hasErrors
            && Notices(r.log) == Notices(s.log)
                 + (if s.hasErrors || Handled(table, c, compile, failures) then [] else [table(n).message])
            && Deletions(r.log) == Deletions(s.log) + [CleanUpPattern(c, table(cleanup).pattern)])
  {
    var body := [Run(compile), Run(concat), Run(cleanup)];
    var steps := [Run(compile), Run(concat), Run(cleanup), Run(n)];
    assert steps == body + [Run(n)];
    BuildBody(table, c, compile, concat, cleanup, failures);
    FailSoft(table, s, c, body, failures);
    ExecFlatConcat(table, s, c, body, [Run(n)], failures);
    if ExecFlat(table, s, c, body, failures).Completed? {
      NotifierInvariant(table, s, c, body, n, failures);
    }
  }

  /** The body of a build sequence: which of its failures end the process, which are reported, what it deletes. */
  lemma BuildBody(table: Table, c: Config, compile: TaskName, concat: TaskName, cleanup: TaskName, failures: Failures)
    requires table(compile).Stream?
    requires table(concat).Stream? && Stages.HandlerOf(Stages.StagesOf(table(concat).pipeline, c)).None?
    requires table(cleanup).Cleanup?
    ensures var body := [Run(compile), Run(concat), Run(cleanup)];
      && Flat(table, body) && NoNotification(table, body)
      && (AnyUnhandled(table, c, body, failures) <==>
            Unhandled(table, c, compile, failures) || Fails(table, c, concat, failures))
      && (AnyHandled(table, c, body, failures) <==> Handled(table, c, compile, failures))
      && CleanupsOf(table, c, body) == [CleanUpPattern(c, table(cleanup).pattern)]
  {
    var body := [Run(compile), Run(concat), Run(cleanup)];
    Unreported(table, c, concat, failures);
    assert body[1..] == [Run(concat), Run(cleanup)] && body[1..][1..] == [Run(cleanup)];
    OneStep(table, c, cleanup, failures);
    StepsTail(table, body[1..]);
    UnhandledTail(table, c, body[1..], failures);
    HandledTail(table, c, body[1..], failures);
    StepsTail(table, body);
    UnhandledTail(table, c, body, failures);
    HandledTail(table, c, body, failures);
  }

  /** A task none of whose stages has a handler never reports its error: every failure of it is fatal. */
  lemma Unreported(table: Table, c: Config, t: TaskName, failures: Failures)
    requires table(t).Stream? && Stages.HandlerOf(Stages.StagesOf(table(t).pipeline, c)).None?
    ensures !Handled(table, c, t, failures)
    ensures Unhandled(table, c, t, failures) <==> Fails(table, c, t, failures)
  {
  }

  /**
   * Two tables whose tasks do the same work: they differ at most in whether
   * a stream task returns its stream, which decides only when gulp starts
   * the next step, not what runs or in which order.
   */
  predicate SameWork(a: Table, b: Table) {
    forall t :: Awaited(a(t)) == Awaited(b(t))
  }

  /** One task in two such tables: the same kind, the same chain, and otherwise the same definition. */
  lemma SameWorkAt(a: Table, b: Table, t: TaskName)
    requires SameWork(a, b)
    ensures a(t).Stream? <==> b(t).Stream?
    ensures a(t).Stream? ==> a(t).pipeline == b(t).pipeline
    ensures !a(t).Stream? ==> a(t) == b(t)
  {
    assert Awaited(a(t)) == Awaited(b(t));
  }

  /** Such tables flatten every list of steps alike. */
  lemma {:induction false} SameWorkExpand(a: Table, b: Table, steps: seq<Step>, fuel: nat)
    requires SameWork(a, b)
    ensures Expand(a, steps, fuel) == Expand(b, steps, fuel)
    decreases fuel, |steps|
  {
    if steps != [] {
      SameWorkExpand(a, b, steps[1..], fuel);
      match steps[0]
      case Parallel(_) =>
      case Run(t) =>
        SameWorkAt(a, b, t);
        if a(t).Sequence? && fuel > 0 {
          SameWorkExpand(a, b, a(t).steps, fuel - 1);
        }
    }
  }

  /** Such tables run every flat list alike: the same outcome, state and log. */
  lemma {:induction false} SameWorkExec(a: Table, b: Table, s: State, c: Config, steps: seq<Step>, failures: Failures)
    requires SameWork(a, b) && Flat(a, steps)
    ensures Flat(b, steps)
    ensures ExecFlat(a, s, c, steps, failures) == ExecFlat(b, s, c, steps, failures)
    decreases |steps|
  {
    forall st | st in steps && st.Run?
      ensures !b(st.task).Sequence?
    {
      SameWorkAt(a, b, st.task);
    }
    if steps != [] {
      StepsTail(a, steps);
      match steps[0]
      case Parallel(_) =>
        SameWorkExec(a, b, s, c, steps[1..], failures);
      case Run(t) =>
        SameWorkAt(a, b, t);
        assert ExecTask(a, s, c, t, failures) == ExecTask(b, s, c, t, failures);
        match ExecTask(a, s, c, t, failures)
        case Completed(s') => SameWorkExec(a, b, s', c, steps[1..], failures);
        case Crashed(_, _) =>
    }
  }
}

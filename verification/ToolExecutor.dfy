/** The executors: the loops that announce, prepare, run and report the tool calls of a reply. */
module ToolExecutor {
  import opened Options
  import opened Messages
  import opened HostState
  import opened Interleavings
  import opened ToolBatch

  method ShouldTerminateToolBatch(finals: seq<Finalized>) returns (terminate: bool)
    ensures terminate == ShouldTerminate(finals)
  {
    terminate := |finals| > 0;
    for i := 0 to |finals|
      invariant terminate == (|finals| > 0 && forall j :: 0 <= j < i ==> finals[j].output.terminate == Some(true))
    {
      if finals[i].output.terminate != Some(true) {
        terminate := false;
      }
    }
  }

  method EmitUpdates(ghost r: CallRecord, call: ToolCall, updates: seq<string>, host: Host)
    requires r.call == call && r.updates == updates && host.Valid()
    modifies host
    ensures host.Valid() && host.origin == old(host.origin)
    ensures host.trace == old(host.trace) + AllUpdates(r)
  {
    for m := 0 to |updates|
      invariant host.Valid() && host.origin == old(host.origin)
      invariant host.trace == old(host.trace) + Updates(r, m)
    {
      host.ProcessEvents(UpdateEvent(call, updates[m]));
      assert Updates(r, m + 1) == Updates(r, m) + [UpdateEvent(call, updates[m])];
    }
  }

  method EmitToolResultMessage(ghost r: CallRecord, finalized: Finalized, host: Host)
    returns (message: ToolResultMessage)
    requires finalized == r.final && host.Valid()
    modifies host
    ensures host.Valid() && host.origin == old(host.origin)
    ensures host.trace == old(host.trace) + ResultPair(r)
    ensures message == ResultMessage(r.final)
  {
    message := ResultMessage(finalized);
    host.ProcessEvents(MessageStart(ToolResult(message)));
    host.ProcessEvents(MessageEnd(ToolResult(message)));
  }

  /** Prepares a call and, unless it is answered at once, runs and finalizes it. */
  method SettleCall(call: ToolCall, tools: seq<Tool>, fate: Fate, host: Host) returns (finalized: Finalized)
    requires host.Valid()
    modifies host
    ensures host.Valid() && host.origin == old(host.origin)
    ensures host.trace == old(host.trace) + AllUpdates(Record(call, tools, fate))
    ensures finalized == Record(call, tools, fate).final
  {
    match Prepare(call, tools, fate) {
      case Immediate(output, isError) =>
        finalized := Finalized(call, output, isError);
      case Prepared(_) =>
        EmitUpdates(Record(call, tools, fate), call, fate.updates, host);
        finalized := Finalize(call, fate, Execute(fate));
    }
  }

  /** Announces, prepares, runs, finalizes and reports one call before the next is looked at. */
  method RunOneCall(call: ToolCall, tools: seq<Tool>, fate: Fate, host: Host)
    returns (finalized: Finalized, message: ToolResultMessage)
    requires host.Valid()
    modifies host
    ensures host.Valid() && host.origin == old(host.origin)
    ensures host.trace == old(host.trace) + CallSection(Record(call, tools, fate))
    ensures finalized == Record(call, tools, fate).final && message == ResultMessage(finalized)
  {
    ghost var r := Record(call, tools, fate);
    host.ProcessEvents(StartEvent(call));
    finalized := SettleCall(call, tools, fate, host);
    host.ProcessEvents(EndEvent(finalized));
    Assoc3(old(host.trace), [StartEvent(call)], AllUpdates(r), [EndEvent(finalized)]);
    message := EmitToolResultMessage(r, finalized, host);
    Assoc(old(host.trace), [StartEvent(call)] + AllUpdates(r) + [EndEvent(finalized)], ResultPair(r));
  }

  method ExecuteToolCallsSequential(b: Batch, host: Host)
    returns (messages: seq<ToolResultMessage>, terminate: bool)
    requires host.Valid()
    modifies host
    ensures host.Valid() && host.origin == old(host.origin)
    ensures host.trace == old(host.trace) + SequentialTrace(b.Taken())
    ensures messages == Results(b.Taken())
    ensures terminate == ShouldTerminate(Finals(b.Taken()))
  {
    var finals: seq<Finalized> := [];
    messages := [];
    ghost var reached, records: seq<CallRecord> := b.Reached(), [];
    var k, aborted := 0, false;
    while k < |b.calls| && !aborted
      invariant k <= |b.calls| && reached == if aborted then k else b.ReachedFrom(k)
      invariant records == b.Records(k)
      invariant host.Valid() && host.origin == old(host.origin)
      invariant host.trace == old(host.trace) + SequentialTrace(records)
      invariant finals == Finals(records) && messages == Results(records)
    {
      var finalized, message := RunOneCall(b.calls[k], b.tools, b.fate(k), host);
      finals := finals + [finalized];
      messages := messages + [message];
      ghost var r := Record(b.calls[k], b.tools, b.fate(k));
      b.NextRecord(k);
      Grow(records, r);
      GrowResults(records, r);
      Assoc(old(host.trace), SequentialTrace(records), CallSection(r));
      records := records + [r];
      aborted := b.fate(k).abortedAfterCall;
      k := k + 1;
    }
    terminate := ShouldTerminateToolBatch(finals);
  }

  /** Where a call of a concurrent batch stands: still running with some updates emitted, its tool
      settled, its result finalized but not yet announced, or done. */
  datatype Task = Running(emitted: nat) | ToolSettled | ResultReady(finalized: Finalized) | Done(finalized: Finalized)

  ghost predicate TaskOk(r: CallRecord, task: Task) {
    match task
    case Running(m) => r.prepared && m <= |r.updates|
    case ToolSettled => r.prepared
    case ResultReady(f) => r.prepared && f == r.final
    case Done(f) => f == r.final
  }

  /** The events already emitted by a concurrent call. */
  ghost function Emitted(r: CallRecord, task: Task): seq<Event>
    requires TaskOk(r, task)
  {
    match task
    case Running(m) => Updates(r, m)
    case ToolSettled => AllUpdates(r)
    case ResultReady(_) => AllUpdates(r)
    case Done(_) => Thread(r)
  }

  ghost function StepsLeft(r: CallRecord, task: Task): nat
    requires TaskOk(r, task)
  {
    match task
    case Running(m) => |r.updates| - m + 3
    case ToolSettled => 2
    case ResultReady(_) => 1
    case Done(_) => 0
  }

  ghost predicate TasksOk(records: seq<CallRecord>, tasks: seq<Task>) {
    |tasks| == |records| && forall k :: 0 <= k < |tasks| ==> TaskOk(records[k], tasks[k])
  }

  ghost function TotalSteps(records: seq<CallRecord>, tasks: seq<Task>): nat
    requires TasksOk(records, tasks)
  {
    if tasks == [] then 0
    else
      var n := |tasks| - 1;
      TotalSteps(records[..n], tasks[..n]) + StepsLeft(records[n], tasks[n])
  }

  lemma {:induction false} TotalStepsUpdate(records: seq<CallRecord>, tasks: seq<Task>, i: nat, task: Task)
    requires i < |tasks| && TasksOk(records, tasks) && TaskOk(records[i], task)
    ensures TasksOk(records, tasks[i := task])
    ensures TotalSteps(records, tasks[i := task])
         == TotalSteps(records, tasks) - StepsLeft(records[i], tasks[i]) + StepsLeft(records[i], task)
  {
    var n := |tasks| - 1;
    if i == n {
      assert tasks[i := task][..n] == tasks[..n];
    } else {
      TotalStepsUpdate(records[..n], tasks[..n], i, task);
      assert tasks[i := task][..n] == tasks[..n][i := task];
    }
  }

  /** A call that has been announced and prepared but has emitted nothing concurrently. */
  ghost predicate FreshTask(r: CallRecord, task: Task) {
    TaskOk(r, task) && Emitted(r, task) == []
  }

  ghost predicate AllFresh(records: seq<CallRecord>, tasks: seq<Task>) {
    |tasks| == |records| && forall k :: 0 <= k < |tasks| ==> FreshTask(records[k], tasks[k])
  }

  lemma AllFreshSnoc(records: seq<CallRecord>, tasks: seq<Task>, r: CallRecord, task: Task)
    requires AllFresh(records, tasks) && FreshTask(r, task)
    ensures AllFresh(records + [r], tasks + [task])
  {
  }

  /** Announces and prepares one call without running it. */
  method AnnounceOne(call: ToolCall, tools: seq<Tool>, fate: Fate, host: Host) returns (task: Task)
    requires host.Valid()
    modifies host
    ensures host.Valid() && host.origin == old(host.origin)
    ensures host.trace == old(host.trace) + Announcement(Record(call, tools, fate))
    ensures FreshTask(Record(call, tools, fate), task)
  {
    host.ProcessEvents(StartEvent(call));
    match Prepare(call, tools, fate) {
      case Immediate(output, isError) =>
        var finalized := Finalized(call, output, isError);
        host.ProcessEvents(EndEvent(finalized));
        task := Done(finalized);
      case Prepared(_) =>
        task := Running(0);
    }
  }

  /** The preparation pass: every call is announced and prepared before anything runs. */
  lemma NextAnnouncement(b: Batch, k: nat, base: seq<Event>)
    requires k < |b.calls|
    ensures var r := Record(b.calls[k], b.tools, b.fate(k));
            && b.Records(k + 1) == b.Records(k) + [r]
            && base + Announcements(b.Records(k + 1)) == base + Announcements(b.Records(k)) + Announcement(r)
  {
    var r := Record(b.calls[k], b.tools, b.fate(k));
    b.NextRecord(k);
    Grow(b.Records(k), r);
    Assoc(base, Announcements(b.Records(k)), Announcement(r));
  }

  method AnnounceAll(b: Batch, host: Host) returns (tasks: seq<Task>)
    requires host.Valid()
    modifies host
    ensures host.Valid() && host.origin == old(host.origin)
    ensures host.trace == old(host.trace) + Announcements(b.Taken())
    ensures AllFresh(b.Taken(), tasks)
  {
    tasks := [];
    ghost var reached, records: seq<CallRecord> := b.Reached(), [];
    var k, aborted := 0, false;
    while k < |b.calls| && !aborted
      invariant k <= |b.calls| && reached == if aborted then k else b.ReachedFrom(k)
      invariant records == b.Records(k)
      invariant host.Valid() && host.origin == old(host.origin)
      invariant host.trace == old(host.trace) + Announcements(records)
      invariant AllFresh(records, tasks)
    {
      var task := AnnounceOne(b.calls[k], b.tools, b.fate(k), host);
      AllFreshSnoc(records, tasks, Record(b.calls[k], b.tools, b.fate(k)), task);
      tasks := tasks + [task];
      NextAnnouncement(b, k, old(host.trace));
      records := records + [Record(b.calls[k], b.tools, b.fate(k))];
      aborted := b.fate(k).abortedAfterCall;
      k := k + 1;
    }
  }

  /** One scheduler step: the chosen call emits its next update, settles, is finalized or ends. */
  method Advance(call: ToolCall, tools: seq<Tool>, fate: Fate, task: Task, host: Host)
    returns (next: Task, ghost emitted: seq<Event>)
    requires TaskOk(Record(call, tools, fate), task) && !task.Done? && host.Valid()
    modifies host
    ensures host.Valid() && host.origin == old(host.origin)
    ensures host.trace == old(host.trace) + emitted && |emitted| <= 1
    ensures var r := Record(call, tools, fate);
            TaskOk(r, next) && StepsLeft(r, next) < StepsLeft(r, task) &&
            Emitted(r, next) == Emitted(r, task) + emitted
  {
    emitted := [];
    match task {
      case Running(m) =>
        if m < |fate.updates| {
          var event := UpdateEvent(call, fate.updates[m]);
          host.ProcessEvents(event);
          next, emitted := Running(m + 1), [event];
        } else {
          next := ToolSettled;
        }
      case ToolSettled =>
        next := ResultReady(Finalize(call, fate, Execute(fate)));
      case ResultReady(finalized) =>
        host.ProcessEvents(EndEvent(finalized));
        next, emitted := Done(finalized), [EndEvent(finalized)];
    }
  }

  /** What a partly run batch has emitted is an interleaving of what its calls have emitted. */
  ghost predicate Progress(records: seq<CallRecord>, tasks: seq<Task>, weave: seq<Event>, tags: seq<nat>) {
    && TasksOk(records, tasks)
    && |weave| == |tags|
    && (forall k :: 0 <= k < |tags| ==> tags[k] < |tasks|)
    && (forall k :: 0 <= k < |tasks| ==> Project(weave, tags, k) == Emitted(records[k], tasks[k]))
  }

  lemma ProgressStart(records: seq<CallRecord>, tasks: seq<Task>)
    requires AllFresh(records, tasks)
    ensures Progress(records, tasks, [], [])
  {
  }

  /** The scheduler's choice of call `i`, once for each event it emitted. */
  function Tagged(n: nat, i: nat): seq<nat> {
    seq(n, _ => i)
  }

  lemma ProgressStep(records: seq<CallRecord>, tasks: seq<Task>, weave: seq<Event>, tags: seq<nat>,
                     i: nat, next: Task, emitted: seq<Event>)
    requires Progress(records, tasks, weave, tags) && i < |tasks| && TaskOk(records[i], next)
    requires |emitted| <= 1 && Emitted(records[i], next) == Emitted(records[i], tasks[i]) + emitted
    requires StepsLeft(records[i], next) < StepsLeft(records[i], tasks[i])
    ensures Progress(records, tasks[i := next], weave + emitted, tags + Tagged(|emitted|, i))
    ensures TotalSteps(records, tasks[i := next]) < TotalSteps(records, tasks)
  {
    TotalStepsUpdate(records, tasks, i, next);
    forall k: nat | k < |tasks|
      ensures Project(weave + emitted, tags + Tagged(|emitted|, i), k) == Emitted(records[k], tasks[i := next][k])
    {
      ProjectStep(weave, tags, emitted, i, k);
    }
  }

  lemma ProjectStep(weave: seq<Event>, tags: seq<nat>, emitted: seq<Event>, i: nat, k: nat)
    requires |weave| == |tags| && |emitted| <= 1
    ensures Project(weave + emitted, tags + Tagged(|emitted|, i), k)
         == if i == k then Project(weave, tags, k) + emitted else Project(weave, tags, k)
  {
    if |emitted| == 1 {
      ProjectSnoc(weave, tags, emitted[0], i, k);
      assert emitted == [emitted[0]] && Tagged(|emitted|, i) == [i];
      assert Project(weave, tags, k) + [] == Project(weave, tags, k);
    } else {
      assert weave + emitted == weave && tags + Tagged(|emitted|, i) == tags;
      assert Project(weave, tags, k) + emitted == Project(weave, tags, k);
    }
  }

  lemma ProgressEnd(records: seq<CallRecord>, tasks: seq<Task>, weave: seq<Event>, tags: seq<nat>)
    requires Progress(records, tasks, weave, tags)
    requires forall k :: 0 <= k < |tasks| ==> tasks[k].Done?
    ensures Interleaving(weave, tags, Threads(records))
    ensures forall k :: 0 <= k < |tasks| ==> tasks[k].finalized == records[k].final
  {
  }

  /** Runs all prepared calls to completion; which call moves next is chosen arbitrarily. */
  method RunConcurrently(b: Batch, start: seq<Task>, host: Host)
    returns (finals: seq<Finalized>, ghost weave: seq<Event>)
    requires AllFresh(b.Taken(), start) && host.Valid()
    modifies host
    ensures host.Valid() && host.origin == old(host.origin)
    ensures host.trace == old(host.trace) + weave
    ensures LegalWeave(b.Taken(), weave)
    ensures finals == Finals(b.Taken())
  {
    ghost var records, tags: seq<nat> := b.Taken(), [];
    var tasks := start;
    weave := [];
    ProgressStart(records, tasks);
    while exists i :: 0 <= i < |tasks| && !tasks[i].Done?
      invariant Progress(records, tasks, weave, tags)
      invariant host.Valid() && host.origin == old(host.origin)
      invariant host.trace == old(host.trace) + weave
      decreases TotalSteps(records, tasks)
    {
      var i :| 0 <= i < |tasks| && !tasks[i].Done?;
      var next;
      ghost var emitted;
      next, emitted := Advance(b.calls[i], b.tools, b.fate(i), tasks[i], host);
      ProgressStep(records, tasks, weave, tags, i, next, emitted);
      Assoc(old(host.trace), weave, emitted);
      weave, tags := weave + emitted, tags + Tagged(|emitted|, i);
      tasks := tasks[i := next];
    }
    ProgressEnd(records, tasks, weave, tags);
    finals := seq(|tasks|, k requires 0 <= k < |tasks| && tasks[k].Done? => tasks[k].finalized);
  }

  /** Reports the results of a concurrent batch in the order of the calls. */
  method ReportAll(ghost records: seq<CallRecord>, finals: seq<Finalized>, host: Host)
    returns (messages: seq<ToolResultMessage>)
    requires finals == Finals(records) && host.Valid()
    modifies host
    ensures host.Valid() && host.origin == old(host.origin)
    ensures host.trace == old(host.trace) + ResultPairs(records)
    ensures messages == Results(records)
  {
    messages := [];
    for k := 0 to |finals|
      invariant host.Valid() && host.origin == old(host.origin)
      invariant host.trace == old(host.trace) + ResultPairs(records[..k])
      invariant messages == Results(records[..k])
    {
      var message := EmitToolResultMessage(records[k], finals[k], host);
      messages := messages + [message];
      assert records[..k + 1] == records[..k] + [records[k]];
      Grow(records[..k], records[k]);
      GrowResults(records[..k], records[k]);
      Assoc(old(host.trace), ResultPairs(records[..k]), ResultPair(records[k]));
    }
    assert records[..|finals|] == records;
  }

  method ExecuteToolCallsParallel(b: Batch, host: Host)
    returns (messages: seq<ToolResultMessage>, terminate: bool, ghost weave: seq<Event>)
    requires host.Valid()
    modifies host
    ensures host.Valid() && host.origin == old(host.origin)
    ensures LegalWeave(b.Taken(), weave)
    ensures host.trace == old(host.trace) + ConcurrentTrace(b.Taken(), weave)
    ensures messages == Results(b.Taken())
    ensures terminate == ShouldTerminate(Finals(b.Taken()))
  {
    ghost var records := b.Taken();
    var tasks := AnnounceAll(b, host);
    var finals;
    finals, weave := RunConcurrently(b, tasks, host);
    messages := ReportAll(records, finals, host);
    Assoc3(old(host.trace), Announcements(records), weave, ResultPairs(records));
    terminate := ShouldTerminateToolBatch(finals);
  }

  method ExecuteToolCalls(b: Batch, mode: Mode, host: Host)
    returns (messages: seq<ToolResultMessage>, terminate: bool, ghost weave: seq<Event>)
    requires host.Valid()
    modifies host
    ensures host.Valid() && host.origin == old(host.origin)
    ensures b.Allows(mode, weave)
    ensures host.trace == old(host.trace) + b.Section(mode, weave)
    ensures messages == Results(b.Taken())
    ensures terminate == ShouldTerminate(Finals(b.Taken()))
  {
    if b.ForcedSequential(mode) {
      weave := [];
      messages, terminate := ExecuteToolCallsSequential(b, host);
    } else {
      messages, terminate, weave := ExecuteToolCallsParallel(b, host);
    }
  }
}

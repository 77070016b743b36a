/** Execution of the tool calls of one assistant reply, one by one or concurrently. Everything the
    outside world decides about a call (argument preparation, validation, hooks, the tool itself and
    each read of the abort signal) is a `Fate`; the order in which concurrent calls make progress is
    left to an arbitrary scheduler. */
module ToolBatch {
  import opened Options
  import opened Messages
  import opened Interleavings

  datatype Mode = Sequential | Parallel

  datatype Tool = Tool(name: string, executionMode: Option<Mode>)

  datatype Answer<+T> = Returned(value: T) | Threw(error: string)

  datatype BeforeResult = BeforeResult(block: bool, reason: Option<string>)

  datatype AfterResult = AfterResult(
    content: Option<string>, details: Option<string>, terminate: Option<bool>, isError: Option<bool>)

  datatype Fate = Fate(
    arguments: Answer<string>,
    before: Option<Answer<Option<BeforeResult>>>,
    abortedAfterHook: bool,
    abortedBeforeRun: bool,
    updates: seq<string>,
    execution: Answer<ToolOutput>,
    after: Option<Answer<Option<AfterResult>>>,
    abortedAfterCall: bool)

  datatype Preparation = Immediate(output: ToolOutput, isError: bool) | Prepared(arguments: string)

  datatype Executed = Executed(output: ToolOutput, isError: bool)

  datatype Finalized = Finalized(call: ToolCall, output: ToolOutput, isError: bool)

  function ErrorOutput(message: string): ToolOutput {
    ToolOutput(message, "{}", None)
  }

  function FindTool(tools: seq<Tool>, name: string): Option<Tool> {
    if tools == [] then None
    else if tools[0].name == name then Some(tools[0])
    else FindTool(tools[1..], name)
  }

  /** The first tool of that name is found, and none only if there is none. */
  lemma {:induction false} FirstToolIsFound(tools: seq<Tool>, name: string)
    ensures FindTool(tools, name).None? <==> forall t :: t in tools ==> t.name != name
    ensures forall i :: 0 <= i < |tools| && tools[i].name == name && (forall j :: 0 <= j < i ==> tools[j].name != name)
              ==> FindTool(tools, name) == Some(tools[i])
    ensures FindTool(tools, name).Some? ==> FindTool(tools, name).value in tools && FindTool(tools, name).value.name == name
  {
    if tools != [] {
      FirstToolIsFound(tools[1..], name);
      forall i | 0 < i < |tools| && tools[i].name == name && (forall j :: 0 <= j < i ==> tools[j].name != name)
        ensures FindTool(tools, name) == Some(tools[i])
      {
        assert tools[1..][i - 1] == tools[i];
        assert forall j :: 0 <= j < i - 1 ==> tools[1..][j] == tools[j + 1];
        assert tools[0].name != name;
      }
      assert forall t :: t in tools <==> t == tools[0] || t in tools[1..];
    }
  }

  function Prepare(call: ToolCall, tools: seq<Tool>, fate: Fate): Preparation {
    if FindTool(tools, call.name).None? then
      Immediate(ErrorOutput("Tool " + call.name + " not found"), true)
    else
      match fate.arguments
      case Threw(error) => Immediate(ErrorOutput(error), true)
      case Returned(arguments) =>
        match fate.before
        case Some(Threw(error)) => Immediate(ErrorOutput(error), true)
        case Some(Returned(verdict)) =>
          if fate.abortedAfterHook then Immediate(ErrorOutput("Operation aborted"), true)
          else if verdict.Some? && verdict.value.block then
            Immediate(ErrorOutput(BlockReason(verdict.value)), true)
          else if fate.abortedBeforeRun then Immediate(ErrorOutput("Operation aborted"), true)
          else Prepared(arguments)
        case None =>
          if fate.abortedBeforeRun then Immediate(ErrorOutput("Operation aborted"), true)
          else Prepared(arguments)
  }

  function BlockReason(verdict: BeforeResult): string {
    if verdict.reason.Some? && verdict.reason.value != "" then verdict.reason.value
    else "Tool execution was blocked"
  }

  function Execute(fate: Fate): Executed {
    match fate.execution
    case Returned(output) => Executed(output, false)
    case Threw(error) => Executed(ErrorOutput(error), true)
  }

  function Or<T>(override: Option<T>, otherwise: T): T {
    if override.Some? then override.value else otherwise
  }

  function Finalize(call: ToolCall, fate: Fate, executed: Executed): Finalized {
    match fate.after
    case None => Finalized(call, executed.output, executed.isError)
    case Some(Threw(error)) => Finalized(call, ErrorOutput(error), true)
    case Some(Returned(None)) => Finalized(call, executed.output, executed.isError)
    case Some(Returned(Some(o))) =>
      Finalized(
        call,
        ToolOutput(
          Or(o.content, executed.output.content),
          Or(o.details, executed.output.details),
          if o.terminate.Some? then o.terminate else executed.output.terminate),
        Or(o.isError, executed.isError))
  }

  function ResultMessage(f: Finalized): ToolResultMessage {
    ToolResultMessage(f.call.id, f.call.name, f.output.content, f.output.details, f.isError)
  }

  function StartEvent(call: ToolCall): Event {
    ToolExecutionStart(call.id, call.name, call.arguments)
  }

  function UpdateEvent(call: ToolCall, partial: string): Event {
    ToolExecutionUpdate(call.id, call.name, call.arguments, partial)
  }

  function EndEvent(f: Finalized): Event {
    ToolExecutionEnd(f.call.id, f.call.name, f.output, f.isError)
  }

  /** Every finalized call of a batch asked to stop, and there is one. */
  predicate ShouldTerminate(finals: seq<Finalized>) {
    finals != [] && forall f :: f in finals ==> f.output.terminate == Some(true)
  }

  /** What becomes of one call: whether it was prepared or answered at once, the progress its tool
      reports and how it ends. */
  datatype CallRecord = CallRecord(call: ToolCall, prepared: bool, updates: seq<string>, final: Finalized)

  function Record(call: ToolCall, tools: seq<Tool>, fate: Fate): (r: CallRecord)
    ensures r.call == call && r.final.call == call && (!r.prepared ==> r.updates == [])
  {
    match Prepare(call, tools, fate)
    case Immediate(output, isError) => CallRecord(call, false, [], Finalized(call, output, isError))
    case Prepared(_) => CallRecord(call, true, fate.updates, Finalize(call, fate, Execute(fate)))
  }

  /** The hook before the call, if any, neither throws nor blocks nor outlives the signal. */
  predicate Admitted(fate: Fate) {
    fate.before.Some? ==>
      var verdict := fate.before.value;
      verdict.Returned? && !fate.abortedAfterHook && (verdict.value.Some? ==> !verdict.value.value.block)
  }

  /** The verdict of the hook after the call, if it is there and gives one. */
  function Override(fate: Fate): Option<AfterResult> {
    if fate.after.Some? && fate.after.value.Returned? then fate.after.value.value else None
  }

  predicate HookThrew(fate: Fate) {
    fate.after.Some? && fate.after.value.Threw?
  }

  predicate AbortedInHook(fate: Fate) {
    fate.arguments.Returned? && fate.before.Some? && fate.before.value.Returned? && fate.abortedAfterHook
  }

  /** Exactly when the tool of a call runs. Otherwise the call is answered with an error, and an abort
      seen after the hook is reported rather than the hook's verdict. */
  lemma CallRunsIff(call: ToolCall, tools: seq<Tool>, fate: Fate)
    ensures var r := Record(call, tools, fate);
            && (r.prepared <==>
                  && (exists t :: t in tools && t.name == call.name)
                  && fate.arguments.Returned? && Admitted(fate) && !fate.abortedBeforeRun)
            && (!r.prepared ==> r.final.isError && r.final.output.terminate.None?)
            && (AbortedInHook(fate) && (exists t :: t in tools && t.name == call.name) ==>
                  r.final.output.content == "Operation aborted")
  {
    FirstToolIsFound(tools, call.name);
  }

  /** A call asks the batch to stop: it ran, the hook after it did not throw, and the hook asks for it
      or leaves it to the tool, which returned and asks for it. */
  predicate AsksToStop(call: ToolCall, tools: seq<Tool>, fate: Fate) {
    && Record(call, tools, fate).prepared && !HookThrew(fate)
    && (if Override(fate).Some? && Override(fate).value.terminate.Some?
        then Override(fate).value.terminate == Some(true)
        else fate.execution.Returned? && fate.execution.value.terminate == Some(true))
  }

  lemma CallStopsIff(call: ToolCall, tools: seq<Tool>, fate: Fate)
    ensures Record(call, tools, fate).final.output.terminate == Some(true) <==> AsksToStop(call, tools, fate)
  {
    CallRunsIff(call, tools, fate);
  }

  predicate Coherent(records: seq<CallRecord>) {
    forall r :: r in records ==> r.final.call == r.call && (!r.prepared ==> r.updates == [])
  }

  function Calls(records: seq<CallRecord>): seq<ToolCall> {
    seq(|records|, k requires 0 <= k < |records| => records[k].call)
  }

  function Finals(records: seq<CallRecord>): seq<Finalized> {
    seq(|records|, k requires 0 <= k < |records| => records[k].final)
  }

  function Results(records: seq<CallRecord>): seq<ToolResultMessage> {
    seq(|records|, k requires 0 <= k < |records| => ResultMessage(records[k].final))
  }

  /** The first `m` progress events of a running call. */
  function Updates(r: CallRecord, m: nat): seq<Event>
    requires m <= |r.updates|
  {
    seq(m, j requires 0 <= j < m => UpdateEvent(r.call, r.updates[j]))
  }

  function AllUpdates(r: CallRecord): seq<Event> {
    Updates(r, |r.updates|)
  }

  function ResultPair(r: CallRecord): seq<Event> {
    var message := ToolResult(ResultMessage(r.final));
    [MessageStart(message), MessageEnd(message)]
  }

  function ResultPairs(records: seq<CallRecord>): seq<Event> {
    if records == [] then []
    else
      var n := |records| - 1;
      ResultPairs(records[..n]) + ResultPair(records[n])
  }

  function CallSection(r: CallRecord): seq<Event> {
    [StartEvent(r.call)] + AllUpdates(r) + [EndEvent(r.final)] + ResultPair(r)
  }

  /** The events of calls served one by one. */
  function SequentialTrace(records: seq<CallRecord>): seq<Event> {
    if records == [] then []
    else
      var n := |records| - 1;
      SequentialTrace(records[..n]) + CallSection(records[n])
  }

  function Announcement(r: CallRecord): seq<Event> {
    [StartEvent(r.call)] + (if r.prepared then [] else [EndEvent(r.final)])
  }

  /** The events of the preparation pass of a concurrent batch. */
  function Announcements(records: seq<CallRecord>): seq<Event> {
    if records == [] then []
    else
      var n := |records| - 1;
      Announcements(records[..n]) + Announcement(records[n])
  }

  /** What a call emits once everything runs concurrently. */
  function Thread(r: CallRecord): seq<Event> {
    if r.prepared then AllUpdates(r) + [EndEvent(r.final)] else []
  }

  function Threads(records: seq<CallRecord>): seq<seq<Event>> {
    seq(|records|, k requires 0 <= k < |records| => Thread(records[k]))
  }

  ghost predicate LegalWeave(records: seq<CallRecord>, weave: seq<Event>) {
    exists tags :: Interleaving(weave, tags, Threads(records))
  }

  function ConcurrentTrace(records: seq<CallRecord>, weave: seq<Event>): seq<Event> {
    Announcements(records) + weave + ResultPairs(records)
  }

  lemma Grow(records: seq<CallRecord>, r: CallRecord)
    ensures SequentialTrace(records + [r]) == SequentialTrace(records) + CallSection(r)
    ensures Announcements(records + [r]) == Announcements(records) + Announcement(r)
    ensures ResultPairs(records + [r]) == ResultPairs(records) + ResultPair(r)
  {
    assert (records + [r])[..|records|] == records;
  }

  lemma GrowResults(records: seq<CallRecord>, r: CallRecord)
    ensures Finals(records + [r]) == Finals(records) + [r.final]
    ensures Results(records + [r]) == Results(records) + [ResultMessage(r.final)]
    ensures Calls(records + [r]) == Calls(records) + [r.call]
  {
  }

  /** One batch: the calls of a reply, the tools visible to it and what happens to each call. */
  datatype Batch = Batch(calls: seq<ToolCall>, tools: seq<Tool>, fate: nat -> Fate) {

    /** How many calls are taken up when the loop stands before call `k`: the signal is read after
        each call, in both modes, and an abort skips the rest. */
    function ReachedFrom(k: nat): (n: nat)
      requires k <= |calls|
      ensures k <= n <= |calls|
      ensures k < |calls| ==> k < n
      decreases |calls| - k
    {
      if k == |calls| then k
      else if fate(k).abortedAfterCall then k + 1
      else ReachedFrom(k + 1)
    }

    function Reached(): (n: nat)
      ensures n <= |calls|
    {
      ReachedFrom(0)
    }

    function Records(n: nat): seq<CallRecord>
      requires n <= |calls|
    {
      seq(n, k requires 0 <= k < n => Record(calls[k], tools, fate(k)))
    }

    /** The records of the calls that are taken up. */
    function Taken(): seq<CallRecord> {
      Records(Reached())
    }

    lemma NextRecord(k: nat)
      requires k < |calls|
      ensures Records(k + 1) == Records(k) + [Record(calls[k], tools, fate(k))]
    {
    }

    /** No abort is seen after any call from `k` on but the last, where it would skip nothing. */
    predicate Uninterrupted(k: nat) {
      forall j: nat :: k <= j && j + 1 < |calls| ==> !fate(j).abortedAfterCall
    }

    lemma {:induction false} ReachesAllIff(k: nat)
      requires k <= |calls|
      ensures ReachedFrom(k) == |calls| <==> Uninterrupted(k)
      decreases |calls| - k
    {
      if k + 1 < |calls| {
        ReachesAllIff(k + 1);
      }
    }

    /** The calls taken up are a prefix of the calls of the reply, non-empty when there are any, and all
        of them exactly if no abort is seen before the last. */
    lemma TakenIsPrefix()
      ensures Coherent(Taken()) && Calls(Taken()) <= calls
      ensures calls != [] ==> Taken() != []
      ensures Calls(Taken()) == calls <==> Uninterrupted(0)
    {
      ReachesAllIff(0);
    }

    /** A batch stops the run exactly when it took up a call and every call it took up asked for it: one
        call that was refused, or whose hook threw, keeps the run going. */
    lemma StopsIff()
      ensures ShouldTerminate(Finals(Taken())) <==>
                calls != [] && forall k: nat :: k < Reached() ==> AsksToStop(calls[k], tools, fate(k))
    {
      var finals := Finals(Taken());
      TakenIsPrefix();
      forall k: nat | k < Reached()
        ensures finals[k] in finals
        ensures finals[k].output.terminate == Some(true) <==> AsksToStop(calls[k], tools, fate(k))
      {
        CallStopsIff(calls[k], tools, fate(k));
      }
    }

    predicate ForcedSequential(mode: Mode) {
      mode == Sequential || exists c :: c in calls && WantsSequential(c)
    }

    predicate WantsSequential(call: ToolCall) {
      var tool := FindTool(tools, call.name);
      tool.Some? && tool.value.executionMode == Some(Sequential)
    }

    /** The events of the whole batch, given how the scheduler wove the concurrent part. */
    function Section(mode: Mode, weave: seq<Event>): seq<Event> {
      if ForcedSequential(mode) then SequentialTrace(Taken()) else ConcurrentTrace(Taken(), weave)
    }

    /** The schedules the chosen mode allows. */
    ghost predicate Allows(mode: Mode, weave: seq<Event>) {
      ForcedSequential(mode) || LegalWeave(Taken(), weave)
    }
  }
}

/** What a tool batch guarantees whatever the scheduler does. */
module BatchTheorems {
  import opened Messages
  import opened HostState
  import opened Interleavings
  import opened ToolBatch

  function IdSet(records: seq<CallRecord>): set<string> {
    set r | r in records :: r.call.id
  }

  function PreparedIds(records: seq<CallRecord>): set<string> {
    set r | r in records && r.prepared :: r.call.id
  }

  lemma IdSetSnoc(records: seq<CallRecord>, r: CallRecord)
    ensures IdSet(records + [r]) == IdSet(records) + {r.call.id}
    ensures PreparedIds(records + [r]) == PreparedIds(records) + (if r.prepared then {r.call.id} else {})
  {
    assert forall x :: x in records + [r] <==> x in records || x == r;
  }

  /** The host once the calls in `records` are settled and reported, however they were run. */
  function Settled(s: State, records: seq<CallRecord>): State {
    s.(messages := s.messages + AsMessages(Results(records)),
       pendingToolCalls := s.pendingToolCalls - IdSet(records))
  }

  lemma SettledNone(s: State)
    ensures Settled(s, []) == s
  {
    assert s.messages + AsMessages(Results([])) == s.messages;
  }

  lemma SettledNext(s: State, records: seq<CallRecord>, r: CallRecord)
    ensures Settled(s, records + [r])
         == s.(messages := Settled(s, records).messages + [ToolResult(ResultMessage(r.final))],
               pendingToolCalls := Settled(s, records).pendingToolCalls - {r.call.id})
  {
    GrowResults(records, r);
    var m := ResultMessage(r.final);
    assert AsMessages(Results(records) + [m]) == AsMessages(Results(records)) + [ToolResult(m)];
    Assoc(s.messages, AsMessages(Results(records)), [ToolResult(m)]);
    IdSetSnoc(records, r);
  }

  lemma FoldOne(s: State, e: Event)
    ensures Fold(s, [e]) == Reduce(s, e)
  {
    assert [e][..0] == [];
  }

  lemma FoldTwo(s: State, e: Event, f: Event)
    ensures Fold(s, [e, f]) == Reduce(Reduce(s, e), f)
  {
    FoldOne(s, e);
    assert [e, f][..1] == [e];
  }

  /** Progress events change nothing in the host. */
  lemma {:induction false} FoldUpdates(s: State, r: CallRecord, m: nat)
    requires m <= |r.updates|
    ensures Fold(s, Updates(r, m)) == s
  {
    if m > 0 {
      FoldUpdates(s, r, m - 1);
      assert Updates(r, m)[..m - 1] == Updates(r, m - 1);
    }
  }

  lemma FoldResultPair(s: State, r: CallRecord)
    requires s.streamingMessage.None?
    ensures Fold(s, ResultPair(r)) == s.(messages := s.messages + [ToolResult(ResultMessage(r.final))])
  {
    var message := ToolResult(ResultMessage(r.final));
    FoldTwo(s, MessageStart(message), MessageEnd(message));
  }

  lemma FoldExecution(s: State, r: CallRecord)
    requires r.final.call == r.call
    ensures Fold(s, [StartEvent(r.call)] + AllUpdates(r) + [EndEvent(r.final)])
         == s.(pendingToolCalls := s.pendingToolCalls - {r.call.id})
  {
    var running := s.(pendingToolCalls := s.pendingToolCalls + {r.call.id});
    FoldOne(s, StartEvent(r.call));
    FoldUpdates(running, r, |r.updates|);
    FoldConcat(s, [StartEvent(r.call)], AllUpdates(r));
    FoldSnoc(s, [StartEvent(r.call)] + AllUpdates(r), EndEvent(r.final));
    assert running.pendingToolCalls - {r.call.id} == s.pendingToolCalls - {r.call.id};
  }

  lemma FoldCallSection(s: State, r: CallRecord)
    requires s.streamingMessage.None? && r.final.call == r.call
    ensures Fold(s, CallSection(r)) == s.(messages := s.messages + [ToolResult(ResultMessage(r.final))],
                                          pendingToolCalls := s.pendingToolCalls - {r.call.id})
  {
    FoldExecution(s, r);
    FoldConcat(s, [StartEvent(r.call)] + AllUpdates(r) + [EndEvent(r.final)], ResultPair(r));
    FoldResultPair(s.(pendingToolCalls := s.pendingToolCalls - {r.call.id}), r);
  }

  lemma {:induction false} FoldSequential(s: State, records: seq<CallRecord>)
    requires Coherent(records) && s.streamingMessage.None?
    ensures Fold(s, SequentialTrace(records)) == Settled(s, records)
  {
    if records == [] {
      SettledNone(s);
    } else {
      var n := |records| - 1;
      assert records == records[..n] + [records[n]];
      FoldSequential(s, records[..n]);
      FoldConcat(s, SequentialTrace(records[..n]), CallSection(records[n]));
      FoldCallSection(Settled(s, records[..n]), records[n]);
      SettledNext(s, records[..n], records[n]);
    }
  }

  lemma FoldAnnouncement(s: State, r: CallRecord)
    requires r.final.call == r.call
    ensures Fold(s, Announcement(r)) ==
      s.(pendingToolCalls := if r.prepared then s.pendingToolCalls + {r.call.id} else s.pendingToolCalls - {r.call.id})
  {
    if r.prepared {
      FoldOne(s, StartEvent(r.call));
    } else {
      FoldTwo(s, StartEvent(r.call), EndEvent(r.final));
      assert s.pendingToolCalls + {r.call.id} - {r.call.id} == s.pendingToolCalls - {r.call.id};
    }
  }

  /** After the preparation pass only ids of prepared calls can have been added. */
  lemma {:induction false} FoldAnnouncements(s: State, records: seq<CallRecord>)
    requires Coherent(records)
    ensures var t := Fold(s, Announcements(records));
            && t == s.(pendingToolCalls := t.pendingToolCalls)
            && s.pendingToolCalls - IdSet(records) <= t.pendingToolCalls
            && t.pendingToolCalls <= s.pendingToolCalls - IdSet(records) + PreparedIds(records)
  {
    if records != [] {
      var n := |records| - 1;
      var r := records[n];
      assert records == records[..n] + [r];
      FoldAnnouncements(s, records[..n]);
      FoldConcat(s, Announcements(records[..n]), Announcement(r));
      FoldAnnouncement(Fold(s, Announcements(records[..n])), r);
      IdSetSnoc(records[..n], r);
    }
  }

  lemma {:induction false} EndedIdsMember(trace: seq<Event>, id: string)
    ensures id in EndedIds(trace) <==> exists e :: e in trace && e.ToolExecutionEnd? && e.toolCallId == id
  {
    if trace != [] {
      var init, last := trace[..|trace| - 1], trace[|trace| - 1];
      EndedIdsMember(init, id);
      assert trace == init + [last];
    }
  }

  /** Every woven event belongs to a prepared call and is an update or the end of it. */
  lemma WovenEvent(records: seq<CallRecord>, weave: seq<Event>, tags: seq<nat>, m: nat)
    requires Interleaving(weave, tags, Threads(records)) && m < |weave|
    ensures tags[m] < |records| && records[tags[m]].prepared
    ensures weave[m] == EndEvent(records[tags[m]].final) || weave[m].ToolExecutionUpdate?
  {
    InterleavingElement(weave, tags, m);
    assert weave[m] in Threads(records)[tags[m]];
    assert Threads(records)[tags[m]] == Thread(records[tags[m]]);
  }

  lemma WeaveRunsOnly(records: seq<CallRecord>, weave: seq<Event>)
    requires LegalWeave(records, weave)
    ensures forall e :: e in weave ==> e.ToolExecutionUpdate? || e.ToolExecutionEnd?
  {
    var tags :| Interleaving(weave, tags, Threads(records));
    forall m | 0 <= m < |weave| {
      WovenEvent(records, weave, tags, m);
    }
  }

  lemma WeaveEnds(records: seq<CallRecord>, weave: seq<Event>)
    requires Coherent(records) && LegalWeave(records, weave)
    ensures EndedIds(weave) == PreparedIds(records)
  {
    var tags :| Interleaving(weave, tags, Threads(records));
    forall id
      ensures id in EndedIds(weave) <==> id in PreparedIds(records)
    {
      EndedIdsMember(weave, id);
      if id in EndedIds(weave) {
        var m :| 0 <= m < |weave| && weave[m].ToolExecutionEnd? && weave[m].toolCallId == id;
        WovenEvent(records, weave, tags, m);
        assert records[tags[m]] in records;
      }
      if id in PreparedIds(records) {
        var k :| 0 <= k < |records| && records[k].prepared && records[k].call.id == id;
        assert Threads(records)[k] == Thread(records[k]);
        assert EndEvent(records[k].final) in Project(weave, tags, k);
        ProjectElement(weave, tags, k, EndEvent(records[k].final));
      }
    }
  }

  lemma {:induction false} FoldQuiet(s: State, trace: seq<Event>)
    requires forall e :: e in trace ==> e.ToolExecutionUpdate? || e.ToolExecutionEnd?
    ensures Fold(s, trace) == s.(pendingToolCalls := s.pendingToolCalls - EndedIds(trace))
  {
    if trace != [] {
      var init := trace[..|trace| - 1];
      assert forall e :: e in init ==> e in trace;
      assert trace[|trace| - 1] in trace;
      FoldQuiet(s, init);
    }
  }

  lemma {:induction false} FoldResultPairs(s: State, records: seq<CallRecord>)
    requires s.streamingMessage.None?
    ensures Fold(s, ResultPairs(records)) == s.(messages := s.messages + AsMessages(Results(records)))
  {
    if records == [] {
      SettledNone(s);
    } else {
      var n := |records| - 1;
      assert records == records[..n] + [records[n]];
      FoldResultPairs(s, records[..n]);
      FoldConcat(s, ResultPairs(records[..n]), ResultPair(records[n]));
      FoldResultPair(s.(messages := s.messages + AsMessages(Results(records[..n]))), records[n]);
      SettledNext(s, records[..n], records[n]);
    }
  }

  lemma PreparedAmongIds(s: set<string>, t: set<string>, records: seq<CallRecord>)
    requires s - IdSet(records) <= t <= s - IdSet(records) + PreparedIds(records)
    ensures t - PreparedIds(records) == s - IdSet(records)
  {
  }

  lemma FoldParallel(s: State, records: seq<CallRecord>, weave: seq<Event>)
    requires Coherent(records) && LegalWeave(records, weave) && s.streamingMessage.None?
    ensures Fold(s, ConcurrentTrace(records, weave)) == Settled(s, records)
  {
    FoldConcat(s, Announcements(records), weave);
    FoldConcat(s, Announcements(records) + weave, ResultPairs(records));
    FoldAnnouncements(s, records);
    WeaveRunsOnly(records, weave);
    WeaveEnds(records, weave);
    var t := Fold(s, Announcements(records));
    FoldQuiet(t, weave);
    PreparedAmongIds(s.pendingToolCalls, t.pendingToolCalls, records);
    FoldResultPairs(s.(pendingToolCalls := s.pendingToolCalls - IdSet(records)), records);
  }

  /** Confluence and refinement in one: run one by one, or concurrently under any schedule, a batch
      leaves the host in the same state, whatever that was before. In particular no started id stays
      pending, even when ids repeat. */
  lemma ScheduleDoesNotMatter(s: State, b: Batch, mode: Mode, weave: seq<Event>)
    requires s.streamingMessage.None? && b.Allows(mode, weave)
    ensures Fold(s, b.Section(mode, weave)) == Settled(s, b.Taken())
    ensures Fold(s, SequentialTrace(b.Taken())) == Settled(s, b.Taken())
  {
    b.TakenIsPrefix();
    FoldSequential(s, b.Taken());
    if !b.ForcedSequential(mode) {
      FoldParallel(s, b.Taken(), weave);
    }
  }

  /** The `tool_execution_end` events of a trace, in trace order. */
  function Ends(trace: seq<Event>): seq<Event> {
    if trace == [] then []
    else
      var last := trace[|trace| - 1];
      Ends(trace[..|trace| - 1]) + (if last.ToolExecutionEnd? then [last] else [])
  }

  lemma {:induction false} EndsConcat(a: seq<Event>, b: seq<Event>)
    ensures Ends(a + b) == Ends(a) + Ends(b)
  {
    if b == [] {
      assert a + b == a;
    } else {
      EndsConcat(a, b[..|b| - 1]);
      assert (a + b)[..|a + b| - 1] == a + b[..|b| - 1];
    }
  }

  lemma {:induction false} NoEnds(trace: seq<Event>)
    requires forall e :: e in trace ==> !e.ToolExecutionEnd?
    ensures Ends(trace) == []
  {
    if trace != [] {
      var init := trace[..|trace| - 1];
      assert forall e :: e in init ==> e in trace;
      assert trace[|trace| - 1] in trace;
      NoEnds(init);
    }
  }

  lemma EndsOfOne(e: Event)
    ensures Ends([e]) == if e.ToolExecutionEnd? then [e] else []
  {
    assert [e][..0] == [];
  }

  lemma EndsOfThread(r: CallRecord)
    ensures Ends(Thread(r)) == if r.prepared then [EndEvent(r.final)] else []
    ensures Ends(Announcement(r)) == if r.prepared then [] else [EndEvent(r.final)]
  {
    EndsOfOne(StartEvent(r.call));
    EndsOfOne(EndEvent(r.final));
    if r.prepared {
      NoEnds(AllUpdates(r));
      EndsConcat(AllUpdates(r), [EndEvent(r.final)]);
    } else {
      EndsConcat([StartEvent(r.call)], [EndEvent(r.final)]);
    }
  }

  /** The threads of the ends of a weave. */
  function EndTags(trace: seq<Event>, tags: seq<nat>): (r: seq<nat>)
    requires |trace| == |tags|
    ensures |r| == |Ends(trace)|
  {
    if trace == [] then []
    else
      var n := |trace| - 1;
      EndTags(trace[..n], tags[..n]) + (if trace[n].ToolExecutionEnd? then [tags[n]] else [])
  }

  lemma EndTagsSnoc(trace: seq<Event>, tags: seq<nat>, e: Event, j: nat)
    requires |trace| == |tags|
    ensures Ends(trace + [e]) == if e.ToolExecutionEnd? then Ends(trace) + [e] else Ends(trace)
    ensures EndTags(trace + [e], tags + [j])
         == if e.ToolExecutionEnd? then EndTags(trace, tags) + [j] else EndTags(trace, tags)
  {
    assert (trace + [e])[..|trace|] == trace && (tags + [j])[..|trace|] == tags;
  }

  lemma {:induction false} ProjectEnds(trace: seq<Event>, tags: seq<nat>, i: nat)
    requires |trace| == |tags|
    ensures Project(Ends(trace), EndTags(trace, tags), i) == Ends(Project(trace, tags, i))
    ensures forall t :: t in EndTags(trace, tags) ==> t in tags
  {
    if trace != [] {
      var n := |trace| - 1;
      var e, j, init, before := trace[n], tags[n], trace[..n], tags[..n];
      assert trace == init + [e] && tags == before + [j];
      ProjectEnds(init, before, i);
      EndTagsSnoc(init, before, e, j);
      ProjectSnoc(init, before, e, j, i);
      ProjectSnoc(Ends(init), EndTags(init, before), e, j, i);
      EndsConcat(Project(init, before, i), [e]);
      EndsOfOne(e);
      assert Project(init, before, i) + [] == Project(init, before, i);
    }
  }

  function EndsOfEach(threads: seq<seq<Event>>): seq<seq<Event>> {
    seq(|threads|, k requires 0 <= k < |threads| => Ends(threads[k]))
  }

  lemma EndsInterleave(records: seq<CallRecord>, weave: seq<Event>, tags: seq<nat>)
    requires Interleaving(weave, tags, Threads(records))
    ensures multiset(Ends(weave)) == Union(EndsOfEach(Threads(records)))
  {
    ProjectEnds(weave, tags, 0);
    forall i: nat {
      ProjectEnds(weave, tags, i);
    }
    var endTags := EndTags(weave, tags);
    forall k | 0 <= k < |endTags|
      ensures endTags[k] < |records|
    {
      assert endTags[k] in tags;
    }
    assert Interleaving(Ends(weave), endTags, EndsOfEach(Threads(records)));
    InterleavingConserves(Ends(weave), endTags, EndsOfEach(Threads(records)));
  }

  function EndEvents(records: seq<CallRecord>): seq<Event> {
    seq(|records|, k requires 0 <= k < |records| => EndEvent(records[k].final))
  }

  lemma EndsOfEachSnoc(threads: seq<seq<Event>>, thread: seq<Event>)
    ensures Union(EndsOfEach(threads + [thread])) == Union(EndsOfEach(threads)) + multiset(Ends(thread))
  {
    EndsOfOneMore(threads, thread);
    UnionOneMore(EndsOfEach(threads), Ends(thread));
  }

  lemma EndsOfOneMore(threads: seq<seq<Event>>, thread: seq<Event>)
    ensures EndsOfEach(threads + [thread]) == EndsOfEach(threads) + [Ends(thread)]
  {
  }

  lemma ThreadsSnoc(records: seq<CallRecord>, r: CallRecord)
    ensures Threads(records + [r]) == Threads(records) + [Thread(r)]
    ensures EndEvents(records + [r]) == EndEvents(records) + [EndEvent(r.final)]
  {
  }

  /** Every call ends once, either while it is announced or in its thread. */
  lemma {:induction false} EndsOfThreads(records: seq<CallRecord>)
    ensures multiset(Ends(Announcements(records))) + Union(EndsOfEach(Threads(records))) == multiset(EndEvents(records))
  {
    if records != [] {
      var n := |records| - 1;
      assert records == records[..n] + [records[n]];
      EndsOfThreads(records[..n]);
      ThreadsSnoc(records[..n], records[n]);
      EndsOfEachSnoc(Threads(records[..n]), Thread(records[n]));
      EndsOfThread(records[n]);
      EndsConcat(Announcements(records[..n]), Announcement(records[n]));
      CountEnd(Ends(Announcements(records[..n])), Union(EndsOfEach(Threads(records[..n]))), EndEvent(records[n].final));
    }
  }

  lemma CountEnd(announced: seq<Event>, woven: multiset<Event>, end: Event)
    ensures multiset(announced + [end]) + (woven + multiset([])) == multiset(announced) + woven + multiset{end}
    ensures multiset(announced + []) + (woven + multiset([end])) == multiset(announced) + woven + multiset{end}
  {
    assert announced + [] == announced;
  }

  lemma {:induction false} ResultPairsAreMessages(records: seq<CallRecord>)
    ensures forall e :: e in ResultPairs(records) ==> e.MessageStart? || e.MessageEnd?
  {
    if records != [] {
      ResultPairsAreMessages(records[..|records| - 1]);
    }
  }

  /** Under every schedule each call taken up ends exactly once, with its own outcome: the end
      events are a permutation of the outcomes in call order. */
  lemma EachCallEndsOnce(records: seq<CallRecord>, weave: seq<Event>)
    requires LegalWeave(records, weave)
    ensures multiset(Ends(ConcurrentTrace(records, weave))) == multiset(EndEvents(records))
  {
    var tags :| Interleaving(weave, tags, Threads(records));
    EndsConcat(Announcements(records), weave);
    EndsConcat(Announcements(records) + weave, ResultPairs(records));
    ResultPairsAreMessages(records);
    NoEnds(ResultPairs(records));
    EndsInterleave(records, weave, tags);
    EndsOfThreads(records);
  }

  lemma {:induction false} AnnouncementsRunNothing(records: seq<CallRecord>)
    ensures forall e :: e in Announcements(records) ==> e.ToolExecutionStart? || e.ToolExecutionEnd?
  {
    if records != [] {
      AnnouncementsRunNothing(records[..|records| - 1]);
    }
  }

  /** The event of a call at work: its tool reports progress, or ends where no call was answered at once
      with that very end. */
  predicate AtWork(records: seq<CallRecord>, e: Event) {
    || e.ToolExecutionUpdate?
    || (e.ToolExecutionEnd? && forall r :: r in records && !r.prepared ==> EndEvent(r.final) != e)
  }

  lemma {:induction false} AnnouncementsAreIdle(records: seq<CallRecord>)
    ensures forall e :: e in Announcements(records) ==> !AtWork(records, e)
  {
    if records != [] {
      var n := |records| - 1;
      AnnouncementsAreIdle(records[..n]);
      assert Announcements(records) == Announcements(records[..n]) + Announcement(records[n]);
      assert records[n] in records && forall r :: r in records[..n] ==> r in records;
    }
  }

  /** In a concurrent batch nothing runs until every call has been announced: once a prepared call has
      reported progress or ended, no further call is announced. */
  lemma AnnouncedBeforeRunning(records: seq<CallRecord>, weave: seq<Event>, i: nat, j: nat)
    requires LegalWeave(records, weave) && i < j < |ConcurrentTrace(records, weave)|
    requires AtWork(records, ConcurrentTrace(records, weave)[i])
    ensures !ConcurrentTrace(records, weave)[j].ToolExecutionStart?
  {
    AnnouncementsAreIdle(records);
    WeaveRunsOnly(records, weave);
    ResultPairsAreMessages(records);
    var trace := ConcurrentTrace(records, weave);
    var a := |Announcements(records)|;
    forall m | 0 <= m < a
      ensures !AtWork(records, trace[m])
    {
      assert trace[m] == Announcements(records)[m] && Announcements(records)[m] in Announcements(records);
    }
    if j < a + |weave| {
      assert trace[j] in weave;
    } else {
      assert trace[j] in ResultPairs(records);
    }
  }
}

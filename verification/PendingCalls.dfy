/** The host's set of pending tool calls at every moment of a batch, not only at its end. */
module PendingCalls {
  import opened Messages
  import opened HostState
  import opened ToolBatch
  import opened BatchTheorems

  /** No call is announced again after its id has ended. */
  predicate NoRestart(trace: seq<Event>) {
    trace != [] ==>
      var init, last := trace[..|trace| - 1], trace[|trace| - 1];
      NoRestart(init) && (last.ToolExecutionStart? ==> last.toolCallId !in EndedIds(init))
  }

  /** While no id restarts, the pending ids are exactly those started and not ended. */
  lemma {:induction false} PendingIsStartedMinusEnded(h: State, trace: seq<Event>)
    requires h.pendingToolCalls == {} && NoRestart(trace)
    ensures Fold(h, trace).pendingToolCalls == StartedIds(trace) - EndedIds(trace)
  {
    if trace != [] {
      PendingIsStartedMinusEnded(h, trace[..|trace| - 1]);
    }
  }

  lemma {:induction false} NoRestartPrefix(trace: seq<Event>, m: nat)
    requires NoRestart(trace) && m <= |trace|
    ensures NoRestart(trace[..m])
  {
    if m == |trace| {
      assert trace[..m] == trace;
    } else {
      NoRestartPrefix(trace[..|trace| - 1], m);
      assert trace[..|trace| - 1][..m] == trace[..m];
    }
  }

  lemma {:induction false} IdsConcat(a: seq<Event>, b: seq<Event>)
    ensures StartedIds(a + b) == StartedIds(a) + StartedIds(b)
    ensures EndedIds(a + b) == EndedIds(a) + EndedIds(b)
  {
    if b == [] {
      assert a + b == a;
    } else {
      IdsConcat(a, b[..|b| - 1]);
      assert (a + b)[..|a + b| - 1] == a + b[..|b| - 1];
    }
  }

  lemma {:induction false} NoRestartConcat(a: seq<Event>, b: seq<Event>)
    requires NoRestart(a) && NoRestart(b) && StartedIds(b) !! EndedIds(a)
    ensures NoRestart(a + b)
  {
    if b == [] {
      assert a + b == a;
    } else {
      var init := b[..|b| - 1];
      NoRestartConcat(a, init);
      IdsConcat(a, init);
      assert (a + b)[..|a + b| - 1] == a + init;
    }
  }

  lemma {:induction false} NothingStarts(trace: seq<Event>)
    requires forall e :: e in trace ==> !e.ToolExecutionStart?
    ensures NoRestart(trace) && StartedIds(trace) == {}
  {
    if trace != [] {
      var init := trace[..|trace| - 1];
      assert forall e :: e in init ==> e in trace;
      assert trace[|trace| - 1] in trace;
      NothingStarts(init);
    }
  }

  lemma IdsOfOne(e: Event)
    ensures StartedIds([e]) == if e.ToolExecutionStart? then {e.toolCallId} else {}
    ensures EndedIds([e]) == if e.ToolExecutionEnd? then {e.toolCallId} else {}
    ensures NoRestart([e])
  {
    assert [e][..0] == [];
  }

  /** A trace that begins with the one announcement of a call and otherwise only ends that call. */
  lemma StartThenRest(call: ToolCall, rest: seq<Event>)
    requires forall e :: e in rest ==> !e.ToolExecutionStart? && (e.ToolExecutionEnd? ==> e.toolCallId == call.id)
    ensures NoRestart([StartEvent(call)] + rest)
    ensures StartedIds([StartEvent(call)] + rest) == {call.id}
    ensures EndedIds([StartEvent(call)] + rest) <= {call.id}
  {
    IdsOfOne(StartEvent(call));
    NothingStarts(rest);
    NoRestartConcat([StartEvent(call)], rest);
    IdsConcat([StartEvent(call)], rest);
    forall id | id in EndedIds(rest)
      ensures id == call.id
    {
      EndedIdsMember(rest, id);
    }
  }

  predicate DistinctIds(records: seq<CallRecord>) {
    forall i, j :: 0 <= i < j < |records| ==> records[i].call.id != records[j].call.id
  }

  lemma DistinctSnoc(records: seq<CallRecord>, r: CallRecord)
    requires DistinctIds(records + [r])
    ensures DistinctIds(records) && r.call.id !in IdSet(records)
  {
    var all := records + [r];
    assert forall i :: 0 <= i < |records| ==> all[i] == records[i];
    assert all[|records|] == r;
  }

  lemma CallSectionIds(r: CallRecord)
    requires r.final.call == r.call
    ensures NoRestart(CallSection(r)) && StartedIds(CallSection(r)) == {r.call.id}
    ensures EndedIds(CallSection(r)) <= {r.call.id}
  {
    var rest := AllUpdates(r) + [EndEvent(r.final)] + ResultPair(r);
    assert CallSection(r) == [StartEvent(r.call)] + rest;
    StartThenRest(r.call, rest);
  }

  lemma AnnouncementIds(r: CallRecord)
    requires r.final.call == r.call
    ensures NoRestart(Announcement(r)) && StartedIds(Announcement(r)) == {r.call.id}
    ensures EndedIds(Announcement(r)) <= {r.call.id}
  {
    StartThenRest(r.call, if r.prepared then [] else [EndEvent(r.final)]);
  }

  lemma {:induction false} DistinctNeverRestart(records: seq<CallRecord>)
    requires Coherent(records) && DistinctIds(records)
    ensures NoRestart(SequentialTrace(records)) && EndedIds(SequentialTrace(records)) <= IdSet(records)
    ensures NoRestart(Announcements(records)) && EndedIds(Announcements(records)) <= IdSet(records)
  {
    if records != [] {
      var n := |records| - 1;
      var r := records[n];
      assert records == records[..n] + [r];
      DistinctSnoc(records[..n], r);
      DistinctNeverRestart(records[..n]);
      IdSetSnoc(records[..n], r);
      CallSectionIds(r);
      AnnouncementIds(r);
      NoRestartConcat(SequentialTrace(records[..n]), CallSection(r));
      NoRestartConcat(Announcements(records[..n]), Announcement(r));
      IdsConcat(SequentialTrace(records[..n]), CallSection(r));
      IdsConcat(Announcements(records[..n]), Announcement(r));
    }
  }

  lemma ConcurrentNeverRestarts(records: seq<CallRecord>, weave: seq<Event>)
    requires Coherent(records) && DistinctIds(records) && LegalWeave(records, weave)
    ensures NoRestart(ConcurrentTrace(records, weave))
  {
    var rest := weave + ResultPairs(records);
    DistinctNeverRestart(records);
    WeaveRunsOnly(records, weave);
    ResultPairsAreMessages(records);
    NothingStarts(rest);
    NoRestartConcat(Announcements(records), rest);
    Assoc(Announcements(records), weave, ResultPairs(records));
  }

  lemma {:induction false} OnlyThisId(h: State, trace: seq<Event>, id: string)
    requires h.pendingToolCalls == {} && forall e :: e in trace && e.ToolExecutionStart? ==> e.toolCallId == id
    ensures Fold(h, trace).pendingToolCalls <= {id}
  {
    if trace != [] {
      var init := trace[..|trace| - 1];
      assert forall e :: e in init ==> e in trace;
      assert trace[|trace| - 1] in trace;
      OnlyThisId(h, init, id);
    }
  }

  /** In a batch that runs one by one at most one call is pending at any moment, even if ids repeat. */
  lemma {:induction false} SequentialPendsOne(h: State, records: seq<CallRecord>, m: nat)
    requires h.pendingToolCalls == {} && h.streamingMessage.None? && Coherent(records)
    requires m <= |SequentialTrace(records)|
    ensures |Fold(h, SequentialTrace(records)[..m]).pendingToolCalls| <= 1
  {
    if records != [] {
      var n := |records| - 1;
      var r, before := records[n], SequentialTrace(records[..n]);
      var section := CallSection(r);
      if m <= |before| {
        SequentialPendsOne(h, records[..n], m);
        assert SequentialTrace(records)[..m] == before[..m];
      } else {
        var part := section[..m - |before|];
        assert SequentialTrace(records)[..m] == before + part;
        FoldConcat(h, before, part);
        FoldSequential(h, records[..n]);
        OnlyThisId(Fold(h, before), part, r.call.id);
        SmallSet(Fold(h, before + part).pendingToolCalls, r.call.id);
      }
    }
  }

  lemma SmallSet<T>(s: set<T>, x: T)
    requires s <= {x}
    ensures |s| <= 1
  {
    if x in s {
      assert s == {x};
    } else {
      assert s == {};
    }
  }
}

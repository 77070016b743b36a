/** The concurrent batch keeps the event protocol under every scheduler. */
module ConcurrentProtocol {
  import opened Options
  import opened Messages
  import opened Interleavings
  import opened Picking
  import opened ToolBatch
  import opened Protocol

  function Ids(records: seq<CallRecord>): seq<string> {
    seq(|records|, k requires 0 <= k < |records| => records[k].call.id)
  }

  /** The monitor when the calls in `records` are announced and those at the positions `over` have ended. */
  function Concurrent(ended: seq<AgentMessage>, reply: AssistantMessage, records: seq<CallRecord>, over: set<nat>): Monitor {
    Tools(ended, reply, |records|, Picked(Ids(records), over, false), Picked(Results(records), over, true), [], None)
  }

  lemma FeedStart(ended: seq<AgentMessage>, reply: AssistantMessage, records: seq<CallRecord>, r: CallRecord, over: set<nat>)
    requires |records| < |ToolCalls(reply)| && r.call == ToolCalls(reply)[|records|] && |records| !in over
    ensures Step(Concurrent(ended, reply, records, over), StartEvent(r.call))
         == Concurrent(ended, reply, records + [r], over)
  {
    StepStart(Concurrent(ended, reply, records, over), r.call);
    assert Ids(records + [r]) == Ids(records) + [r.call.id];
    PickSnoc(Ids(records), r.call.id, over, false);
    GrowResults(records, r);
    PickSnoc(Results(records), ResultMessage(r.final), over, true);
  }

  lemma FeedEnd(ended: seq<AgentMessage>, reply: AssistantMessage, records: seq<CallRecord>, k: nat, over: set<nat>)
    requires k < |records| && k !in over && records[k].final.call == records[k].call
    ensures records[k].call.id in Concurrent(ended, reply, records, over).running
    ensures Step(Concurrent(ended, reply, records, over), EndEvent(records[k].final))
         == Concurrent(ended, reply, records, over + {k})
  {
    PickMore(Ids(records), over, k);
    PickMore(Results(records), over, k);
    StepEnd(Concurrent(ended, reply, records, over), records[k].final, Picked(Ids(records), over + {k}, false));
  }

  /** The positions of the calls answered during preparation. */
  function Early(records: seq<CallRecord>): set<nat> {
    set k | 0 <= k < |records| && !records[k].prepared
  }

  lemma FeedAnnouncement(ended: seq<AgentMessage>, reply: AssistantMessage, records: seq<CallRecord>, r: CallRecord)
    requires |records| < |ToolCalls(reply)| && r.call == ToolCalls(reply)[|records|] && r.final.call == r.call
    ensures Feed(Concurrent(ended, reply, records, Early(records)), Announcement(r))
         == Concurrent(ended, reply, records + [r], Early(records + [r]))
  {
    var over, k := Early(records), |records|;
    var q := Concurrent(ended, reply, records, over);
    FeedStart(ended, reply, records, r, over);
    if r.prepared {
      assert Early(records + [r]) == over;
      FeedOne(q, StartEvent(r.call));
    } else {
      assert Early(records + [r]) == over + {k};
      FeedTwo(q, StartEvent(r.call), EndEvent(r.final));
      FeedEnd(ended, reply, records + [r], k, over);
    }
  }

  lemma {:induction false} FeedAnnouncements(ended: seq<AgentMessage>, reply: AssistantMessage, records: seq<CallRecord>)
    requires Coherent(records) && Calls(records) <= ToolCalls(reply)
    ensures Feed(Serving(ended, reply), Announcements(records)) == Concurrent(ended, reply, records, Early(records))
  {
    if records != [] {
      var n := |records| - 1;
      assert records == records[..n] + [records[n]];
      assert Calls(records)[n] == ToolCalls(reply)[n];
      FeedAnnouncements(ended, reply, records[..n]);
      FeedConcat(Serving(ended, reply), Announcements(records[..n]), Announcement(records[n]));
      FeedAnnouncement(ended, reply, records[..n], records[n]);
    }
  }

  /** The calls whose events have all been woven in after `m` events. */
  function Over(records: seq<CallRecord>, weave: seq<Event>, tags: seq<nat>, m: nat): set<nat>
    requires |weave| == |tags| && m <= |weave|
  {
    set k | 0 <= k < |records| && Project(weave[..m], tags[..m], k) == Thread(records[k])
  }

  /** A woven event is the next one of its thread: the end if and only if it completes the thread. */
  lemma NextOfThread(records: seq<CallRecord>, weave: seq<Event>, tags: seq<nat>, m: nat)
    requires Interleaving(weave, tags, Threads(records)) && m < |weave|
    ensures var i := tags[m];
            && i < |records| && i !in Over(records, weave, tags, m)
            && var over, next := Over(records, weave, tags, m), Over(records, weave, tags, m + 1);
               || (weave[m] == EndEvent(records[i].final) && next == over + {i})
               || (next == over && exists p :: weave[m] == UpdateEvent(records[i].call, p))
  {
    var i := tags[m];
    assert weave[..m + 1] == weave[..m] + [weave[m]] && tags[..m + 1] == tags[..m] + [i];
    forall k: nat {
      ProjectSnoc(weave[..m], tags[..m], weave[m], i, k);
    }
    ProjectPrefix(weave, tags, m + 1, i);
    var before := Project(weave[..m], tags[..m], i);
    assert Threads(records)[i] == Thread(records[i]);
    assert before + [weave[m]] <= Thread(records[i]);
    assert weave[m] == Thread(records[i])[|before|];
    if |before| < |records[i].updates| {
      assert weave[m] == UpdateEvent(records[i].call, records[i].updates[|before|]);
      assert Over(records, weave, tags, m + 1) == Over(records, weave, tags, m);
    } else {
      assert Thread(records[i]) == before + [weave[m]];
      assert Over(records, weave, tags, m + 1) == Over(records, weave, tags, m) + {i};
    }
  }

  lemma FeedWoven(ended: seq<AgentMessage>, reply: AssistantMessage, records: seq<CallRecord>,
                  weave: seq<Event>, tags: seq<nat>, m: nat)
    requires Coherent(records) && Interleaving(weave, tags, Threads(records)) && m < |weave|
    ensures Step(Concurrent(ended, reply, records, Over(records, weave, tags, m)), weave[m])
         == Concurrent(ended, reply, records, Over(records, weave, tags, m + 1))
  {
    var i, over, next := tags[m], Over(records, weave, tags, m), Over(records, weave, tags, m + 1);
    NextOfThread(records, weave, tags, m);
    FeedEnd(ended, reply, records, i, over);
  }

  lemma {:induction false} FeedWeave(ended: seq<AgentMessage>, reply: AssistantMessage, records: seq<CallRecord>,
                                     weave: seq<Event>, tags: seq<nat>, m: nat)
    requires Coherent(records) && Interleaving(weave, tags, Threads(records)) && m <= |weave|
    ensures Feed(Concurrent(ended, reply, records, Early(records)), weave[..m])
         == Concurrent(ended, reply, records, Over(records, weave, tags, m))
  {
    if m == 0 {
      assert Early(records) == Over(records, weave, tags, 0);
    } else {
      FeedWeave(ended, reply, records, weave, tags, m - 1);
      assert weave[..m][..m - 1] == weave[..m - 1];
      FeedWoven(ended, reply, records, weave, tags, m - 1);
    }
  }

  /** The monitor after the first `k` results have been reported. */
  function Reporting(ended: seq<AgentMessage>, reply: AssistantMessage, records: seq<CallRecord>, k: nat): Monitor
    requires k <= |records|
  {
    Tools(ended + AsMessages(Results(records[..k])), reply, |records|, multiset{},
          multiset(Results(records)[k..]), Results(records[..k]), None)
  }

  lemma TakeFirst<T>(xs: seq<T>, k: nat)
    requires k < |xs|
    ensures xs[k] in multiset(xs[k..])
    ensures multiset(xs[k..]) - multiset{xs[k]} == multiset(xs[k + 1..])
  {
    assert xs[k..] == [xs[k]] + xs[k + 1..];
  }

  lemma ReportNext(ended: seq<AgentMessage>, reply: AssistantMessage, records: seq<CallRecord>, k: nat)
    requires Coherent(records) && Calls(records) <= ToolCalls(reply) && k < |records|
    ensures Feed(Reporting(ended, reply, records, k), ResultPair(records[k])) == Reporting(ended, reply, records, k + 1)
  {
    var m := ResultMessage(records[k].final);
    TakeFirst(Results(records), k);
    assert Calls(records)[k] == ToolCalls(reply)[k];
    FeedReport(Reporting(ended, reply, records, k), m);
    assert records[..k + 1] == records[..k] + [records[k]];
    ServedNext(ended, reply, records[..k], records[k]);
  }

  lemma {:induction false} FeedReports(ended: seq<AgentMessage>, reply: AssistantMessage, records: seq<CallRecord>, k: nat)
    requires Coherent(records) && Calls(records) <= ToolCalls(reply) && k <= |records|
    ensures Feed(Reporting(ended, reply, records, 0), ResultPairs(records[..k])) == Reporting(ended, reply, records, k)
  {
    if k > 0 {
      FeedReports(ended, reply, records, k - 1);
      FeedOneMore(Reporting(ended, reply, records, 0), records, k - 1);
      ReportNext(ended, reply, records, k - 1);
    }
  }

  lemma FeedOneMore(q: Monitor, records: seq<CallRecord>, k: nat)
    requires k < |records|
    ensures Feed(q, ResultPairs(records[..k + 1])) == Feed(Feed(q, ResultPairs(records[..k])), ResultPair(records[k]))
  {
    assert records[..k + 1] == records[..k] + [records[k]];
    Grow(records[..k], records[k]);
    FeedConcat(q, ResultPairs(records[..k]), ResultPair(records[k]));
  }

  lemma ReportingBounds(ended: seq<AgentMessage>, reply: AssistantMessage, records: seq<CallRecord>)
    ensures Reporting(ended, reply, records, 0)
         == Tools(ended, reply, |records|, multiset{}, multiset(Results(records)), [], None)
    ensures Reporting(ended, reply, records, |records|) == Served(ended, reply, records)
  {
    assert Results(records)[0..] == Results(records) && Results(records)[|records|..] == [];
    assert records[..|records|] == records && records[..0] == [];
    assert ended + AsMessages(Results([])) == ended;
  }

  /** Once everything is woven in, every call has ended and every result is ready to be reported. */
  lemma AllOver(ended: seq<AgentMessage>, reply: AssistantMessage, records: seq<CallRecord>,
                weave: seq<Event>, tags: seq<nat>)
    requires Interleaving(weave, tags, Threads(records))
    ensures Concurrent(ended, reply, records, Over(records, weave, tags, |weave|)) == Reporting(ended, reply, records, 0)
  {
    assert weave[..|weave|] == weave && tags[..|tags|] == tags;
    var over := Over(records, weave, tags, |weave|);
    forall k: nat | k < |records|
      ensures k in over
    {
      assert Threads(records)[k] == Thread(records[k]);
    }
    PickAll(Ids(records), over);
    PickAll(Results(records), over);
    ReportingBounds(ended, reply, records);
  }

  lemma FeedParallel(ended: seq<AgentMessage>, reply: AssistantMessage, records: seq<CallRecord>, weave: seq<Event>)
    requires Coherent(records) && Calls(records) <= ToolCalls(reply) && LegalWeave(records, weave)
    ensures Feed(Serving(ended, reply), ConcurrentTrace(records, weave)) == Served(ended, reply, records)
  {
    var tags :| Interleaving(weave, tags, Threads(records));
    var q := Serving(ended, reply);
    FeedConcat(q, Announcements(records), weave);
    FeedConcat(q, Announcements(records) + weave, ResultPairs(records));
    FeedAnnouncements(ended, reply, records);
    FeedWeave(ended, reply, records, weave, tags, |weave|);
    assert weave[..|weave|] == weave && records[..|records|] == records;
    AllOver(ended, reply, records, weave, tags);
    FeedReports(ended, reply, records, |records|);
    ReportingBounds(ended, reply, records);
  }

  lemma {:induction false} SectionBegins(records: seq<CallRecord>)
    requires records != []
    ensures SequentialTrace(records) != [] && SequentialTrace(records)[0].ToolExecutionStart?
    ensures Announcements(records) != [] && Announcements(records)[0].ToolExecutionStart?
  {
    var n := |records| - 1;
    if n > 0 {
      SectionBegins(records[..n]);
    }
  }

  /** Whatever the mode and the schedule, a batch takes the monitor from the reply to all its results. */
  lemma FeedSection(q: Monitor, reply: AssistantMessage, b: Batch, mode: Mode, weave: seq<Event>)
    requires q.Between? && q.last == Some(Assistant(reply)) && !Failed(reply)
    requires ToolCalls(reply) == b.calls && b.calls != [] && b.Allows(mode, weave)
    ensures Feed(q, b.Section(mode, weave)) == Served(q.ended, reply, b.Taken())
  {
    var records := b.Taken();
    b.TakenIsPrefix();
    SectionBegins(records);
    EnterTools(q, reply, b.Section(mode, weave));
    if b.ForcedSequential(mode) {
      FeedSequential(q.ended, reply, records);
    } else {
      FeedParallel(q.ended, reply, records, weave);
    }
  }
}

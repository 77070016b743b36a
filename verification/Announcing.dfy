/** Announcements before execution, over whole runs. */
module Announcing {
  import opened Messages
  import opened ToolBatch
  import opened Streaming
  import opened LoopSpec
  import opened LoopTheorems
  import opened BatchTheorems
  import opened RecordTheorems
  import opened PendingRuns

  lemma PrefixOfLonger<T>(a: seq<T>, b: seq<T>, c: seq<T>)
    requires a <= b <= c
    ensures a <= c
  {
  }

  lemma RunExtends(s0: LoopState, mode: Mode, played: seq<Played>)
    requires LegalRun(s0, mode, played) && played != []
    ensures Run(s0, mode, played[..|played| - 1]).trace <= Run(s0, mode, played).trace
  {
    var n := |played| - 1;
    TurnExtends(Run(s0, mode, played[..n]), mode, played[n]);
  }

  lemma {:induction false} LegalPrefix(s0: LoopState, mode: Mode, played: seq<Played>, m: nat)
    requires LegalRun(s0, mode, played) && m <= |played|
    ensures LegalRun(s0, mode, played[..m])
  {
    if m == |played| {
      assert played[..m] == played;
    } else {
      LegalPrefix(s0, mode, played[..|played| - 1], m);
      assert played[..|played| - 1][..m] == played[..m];
    }
  }

  lemma {:induction false} TracePrefix(s0: LoopState, mode: Mode, played: seq<Played>, m: nat)
    requires LegalRun(s0, mode, played) && m <= |played|
    ensures Run(s0, mode, played[..m]).trace <= Run(s0, mode, played).trace
  {
    if m == |played| {
      assert played[..m] == played;
    } else {
      var init := played[..|played| - 1];
      TracePrefix(s0, mode, init, m);
      assert init[..m] == played[..m];
      RunExtends(s0, mode, played);
      PrefixOfLonger(Run(s0, mode, played[..m]).trace, Run(s0, mode, init).trace, Run(s0, mode, played).trace);
    }
  }

  lemma LastTurn(s0: LoopState, mode: Mode, before: seq<Played>, upTo: seq<Played>, p: Played)
    requires upTo == before + [p] && LegalRun(s0, mode, upTo)
    ensures var s := Run(s0, mode, before);
            LegalTurn(s, mode, p) && s.trace + TurnTrace(s, p.turn, mode, p.weave) <= Run(s0, mode, upTo).trace
  {
    assert upTo[..|upTo| - 1] == before;
    TurnExtends(Run(s0, mode, before), mode, p);
  }

  /** The trace of a run holds the trace of each of its turns where that turn began. */
  lemma TurnIsStretch(s0: LoopState, mode: Mode, played: seq<Played>, k: nat)
    requires LegalRun(s0, mode, played) && k < |played|
    ensures var s, p := Run(s0, mode, played[..k]), played[k];
            && LegalTurn(s, mode, p)
            && s.trace + TurnTrace(s, p.turn, mode, p.weave) <= Run(s0, mode, played).trace
  {
    var before, upTo, p := played[..k], played[..k + 1], played[k];
    OneMore(played, k);
    LegalPrefix(s0, mode, played, k + 1);
    LastTurn(s0, mode, before, upTo, p);
    TracePrefix(s0, mode, played, k + 1);
    var s := Run(s0, mode, before);
    PrefixOfLonger(s.trace + TurnTrace(s, p.turn, mode, p.weave), Run(s0, mode, upTo).trace, Run(s0, mode, played).trace);
  }

  lemma OneMore<T>(xs: seq<T>, k: nat)
    requires k < |xs|
    ensures xs[..k + 1] == xs[..k] + [xs[k]]
  {
  }

  /** Within a turn whose batch runs concurrently. */
  lemma TurnAnnouncesFirst(s: LoopState, mode: Mode, p: Played, i: nat, j: nat)
    requires LegalTurn(s, mode, p) && !TurnBatch(s, p.turn).ForcedSequential(mode)
    requires i < j < |TurnTrace(s, p.turn, mode, p.weave)|
    requires AtWork(TurnBatch(s, p.turn).Taken(), TurnTrace(s, p.turn, mode, p.weave)[i])
    ensures !TurnTrace(s, p.turn, mode, p.weave)[j].ToolExecutionStart?
  {
    var b, trace := TurnBatch(s, p.turn), TurnTrace(s, p.turn, mode, p.weave);
    var opening, tools := Opening(s.first, s.pending) + p.turn.stream.Trace(), ToolTrace(b, p.turn, mode, p.weave);
    var n := |opening|;
    OpeningIsIdle(s.first, s.pending, p.turn.stream, b.Taken());
    forall m | 0 <= m < n
      ensures !AtWork(b.Taken(), trace[m])
    {
      assert trace[m] == opening[m] && opening[m] in opening;
    }
    if j < n + |tools| {
      assert trace[i] == tools[i - n] && trace[j] == tools[j - n];
      assert ServesTools(b, p.turn);
      AnnouncedBeforeRunning(b.Taken(), p.weave, i - n, j - n);
    } else {
      assert j == n + |tools|;
    }
  }

  lemma OpeningIsIdle(first: bool, pending: seq<AgentMessage>, stream: Stream, records: seq<CallRecord>)
    ensures forall e :: e in Opening(first, pending) + stream.Trace() ==> !AtWork(records, e)
  {
    PairsAreMessages(pending);
    ShownEndsNothing(stream, stream.Length());
  }

  /** In every turn of a run that is not forced to be sequential, once a prepared call has reported
      progress or ended, no further call is announced before the turn is over. */
  lemma RunAnnouncesFirst(s0: LoopState, mode: Mode, played: seq<Played>, k: nat, s: LoopState, i: nat, j: nat)
    requires LegalRun(s0, mode, played) && k < |played| && s == Run(s0, mode, played[..k])
    requires !TurnBatch(s, played[k].turn).ForcedSequential(mode)
    requires |s.trace| <= i < j < |s.trace| + |TurnTrace(s, played[k].turn, mode, played[k].weave)|
    requires j < |Run(s0, mode, played).trace|
    requires AtWork(TurnBatch(s, played[k].turn).Taken(), Run(s0, mode, played).trace[i])
    ensures !Run(s0, mode, played).trace[j].ToolExecutionStart?
  {
    var n := |s.trace|;
    var turn := TurnTrace(s, played[k].turn, mode, played[k].weave);
    TurnIsStretch(s0, mode, played, k);
    AtOffset(s.trace, turn, Run(s0, mode, played).trace, i);
    AtOffset(s.trace, turn, Run(s0, mode, played).trace, j);
    TurnAnnouncesFirst(s, mode, played[k], i - n, j - n);
  }

  lemma AtOffset<T>(a: seq<T>, b: seq<T>, c: seq<T>, i: nat)
    requires a + b <= c && |a| <= i < |a| + |b|
    ensures c[i] == b[i - |a|]
  {
    assert c[i] == (a + b)[i];
  }
}

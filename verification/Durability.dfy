/** When a finished job's record has reached the results log: exactly when its append worked. */
module Durability {
  import opened Records
  import opened MetadataLog
  import opened Protocol
  import opened ProtocolInvariants
  import opened ProtocolTheorems

  /** The append of this job's final record fails in this step. */
  predicate AppendFails(w: World, e: Event, id: JobId) {
    && w.server.Some? && e.Work? && e.work.FailResult?
    && e.worker < |w.server.value.workers| && JobOf(w.server.value.workers[e.worker]) == Some(id)
  }

  /** ... somewhere along a run. */
  predicate SomeAppendFails(from: World, events: seq<Event>, id: JobId)
    decreases |events|
  {
    && events != [] && Enabled(from, events[0])
    && (AppendFails(from, events[0], id) || SomeAppendFails(Apply(from, events[0]), events[1..], id))
  }

  /** Its worker has finished it and is about to append. */
  predicate AppendPending(s: Server, id: JobId) {
    var holder := HolderOf(s, id);
    holder.Some? && holder.value.Persisting?
  }

  /** Its worker is past the append. */
  predicate PastAppend(s: Server, id: JobId) {
    || HasTicket(s, id, Completed)
    || (HolderOf(s, id).Some? && HolderOf(s, id).value.Notifying?)
  }

  predicate PastAppendIn(w: World, id: JobId) {
    w.server.Some? && PastAppend(w.server.value, id)
  }

  predicate InTable(w: World, id: JobId) {
    w.server.Some? && id in w.server.value.jobs
  }

  predicate Logged(w: World, id: JobId) {
    id in Ids(w.disk.results)
  }

  /** What one step says about one job, told from its view alone. */
  predicate AppendStep(before: IdView, after: IdView, fails: bool) {
    && (PastView(before) ==> PastView(after) && (after.lines == {} <==> before.lines == {}) && !fails)
    && (!PastView(before) && !PastView(after) ==> !fails)
    && (!PastView(before) && PastView(after) && after.record.Some? ==> (after.lines == {} <==> fails))
  }

  predicate PastView(v: IdView) {
    v.ticket == Some(Completed) || (v.holder.Some? && v.holder.value.Notifying?)
  }

  lemma SubmitAppends(w: World, s: Server, target: JobId, step: SubmitStep, id: JobId)
    requires w.server == Some(s) && SubmitEnabled(w, s, target, step)
    requires ViewOK(id, ViewOf(w, s, id)) && ViewOK(target, ViewOf(w, s, target))
    ensures AppendStep(ViewOf(w, s, id), ViewOf(ApplySubmit(w, s, target, step),
                       ApplySubmit(w, s, target, step).server.value, id), false)
  {
    if target != id {
      SubmitFrame(w, s, target, step, id);
    }
  }

  lemma OwnAppends(w: World, s: Server, i: nat, work: WorkStep, id: JobId)
    requires w.server == Some(s) && WorkEnabled(s, i, work) && Subject(s, i, work) == Some(id)
    requires HasTicket(s, id, if work.Receive? then InQueue else Held(i)) && ViewOK(id, ViewOf(w, s, id))
    ensures AppendStep(ViewOf(w, s, id), ViewOf(ApplyWork(w, s, i, work), ApplyWork(w, s, i, work).server.value, id),
                       work.FailResult?)
  {
    if work.AppendResult? {
      AppendedLines(w.disk.results, s.workers[i].final, id);
    }
  }

  lemma WorkAppends(w: World, s: Server, i: nat, work: WorkStep, id: JobId)
    requires w.server == Some(s) && WorkEnabled(s, i, work) && JobsInv(w)
    ensures AppendStep(ViewOf(w, s, id), ViewOf(ApplyWork(w, s, i, work), ApplyWork(w, s, i, work).server.value, id),
                       AppendFails(w, Work(i, work), id))
  {
    assert ViewOK(id, ViewOf(w, s, id));
    WorkSubject(s, i, work);
    if Subject(s, i, work) == Some(id) {
      OwnAppends(w, s, i, work, id);
    } else {
      FinalIsOwn(w, s, i, work);
      WorkFrame(w, s, i, work, id);
    }
  }

  lemma EventAppends(w: World, e: Event, id: JobId)
    requires JobsInv(w) && Enabled(w, e) && KeepsProcess(e) && w.server.Some?
    ensures Apply(w, e).server.Some?
    ensures AppendStep(ViewOf(w, w.server.value, id), ViewOf(Apply(w, e), Apply(w, e).server.value, id),
                       AppendFails(w, e, id))
  {
    match e
    case Submit(target, step) =>
      assert ViewOK(id, ViewOf(w, w.server.value, id));
      assert ViewOK(target, ViewOf(w, w.server.value, target));
      SubmitAppends(w, w.server.value, target, step, id);
    case Work(i, work) => WorkAppends(w, w.server.value, i, work, id);
    case _ =>
  }

  /** The same, told from the worlds. */
  lemma StepAppends(w: World, e: Event, id: JobId)
    requires JobsInv(w) && Enabled(w, e) && KeepsProcess(e) && w.server.Some?
    ensures Apply(w, e).server.Some?
    ensures PastAppendIn(w, id) ==>
              PastAppendIn(Apply(w, e), id) && (Logged(Apply(w, e), id) <==> Logged(w, id)) && !AppendFails(w, e, id)
    ensures !PastAppendIn(Apply(w, e), id) ==> !AppendFails(w, e, id)
    ensures !PastAppendIn(w, id) && PastAppendIn(Apply(w, e), id) && InTable(Apply(w, e), id) ==>
              (Logged(Apply(w, e), id) <==> !AppendFails(w, e, id))
  {
    EventAppends(w, e, id);
    NoLines(w.disk.results, id);
    NoLines(Apply(w, e).disk.results, id);
  }

  /** Past the append for the first time and still in the table at the end: the table never lost it. */
  lemma StillInTable(next: World, rest: seq<Event>, to: World, id: JobId)
    requires JobsInv(next) && Runs(next, rest, to) && forall e :: e in rest ==> KeepsProcess(e)
    requires PastAppendIn(next, id) && InTable(to, id)
    ensures InTable(next, id)
  {
    assert ViewOK(id, ViewOf(next, next.server.value, id));
    StatusOnlyMovesForward(next, rest, to, id);
  }

  /** A job's final line is in the log exactly if its append did not fail, told over a run of one process. */
  lemma {:induction false} RunAppends(from: World, events: seq<Event>, to: World, id: JobId)
    requires JobsInv(from) && Runs(from, events, to) && from.server.Some?
    requires forall e :: e in events ==> KeepsProcess(e)
    ensures to.server.Some?
    ensures PastAppendIn(from, id) ==>
              PastAppendIn(to, id) && (Logged(to, id) <==> Logged(from, id)) && !SomeAppendFails(from, events, id)
    ensures !PastAppendIn(to, id) ==> !SomeAppendFails(from, events, id)
    ensures !PastAppendIn(from, id) && PastAppendIn(to, id) && InTable(to, id) ==>
              (Logged(to, id) <==> !SomeAppendFails(from, events, id))
    decreases |events|
  {
    if events != [] {
      var e, rest := events[0], events[1..];
      var next := Apply(from, e);
      StepAppends(from, e, id);
      StepKeepsJobs(from, e);
      RunAppends(next, rest, to, id);
      if PastAppendIn(next, id) && InTable(to, id) {
        StillInTable(next, rest, to, id);
      }
    }
  }

  /** Where a finished job this process accepted can be. */
  lemma FinishedWhere(w: World, s: Server, id: JobId)
    requires Reachable(w) && w.server == Some(s) && AcceptedHere(w, s, id)
    requires id in s.jobs && Terminal(s.jobs[id])
    ensures AppendPending(s, id) != PastAppend(s, id)
    ensures AppendPending(s, id) ==> !Logged(w, id)
    ensures id in Ids(w.disk.submissions)
  {
    ReachableJobs(w);
    assert ViewOK(id, ViewOf(w, s, id));
    NoLines(w.disk.results, id);
  }

  /**
   * A terminal record of a job this process accepted is in the results log exactly when
   * its worker is past the append and the append did not fail.  Otherwise a restart
   * reports it only if it happens to look like a restart failure.
   */
  lemma FinishedDurableIff(boot: World, events: seq<Event>, w: World, s: Server, id: JobId)
    requires Reachable(boot) && boot.server.Some? && boot.server.value.tickets == map[]
    requires Runs(boot, events, w) && forall e :: e in events ==> KeepsProcess(e)
    requires Reachable(w) && w.server == Some(s) && AcceptedHere(w, s, id)
    requires id in s.jobs && Terminal(s.jobs[id])
    ensures Logged(w, id) <==> !AppendPending(s, id) && !SomeAppendFails(boot, events, id)
    ensures id in Outcomes(w.disk) && Outcomes(w.disk)[id] == OutcomeOf(s.jobs[id])
            <==> (!AppendPending(s, id) && !SomeAppendFails(boot, events, id))
                 || OutcomeOf(s.jobs[id]) == Outcome(Failed, Some(RESTART_ERROR), None)
  {
    ReachableJobs(boot);
    FinishedWhere(w, s, id);
    RunAppends(boot, events, w, id);
    TerminalDurableIff(w, s, id);
  }
}

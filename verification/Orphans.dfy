/** Queued records nobody will ever work on: exactly when they arise, and that they stay so. */
module Orphans {
  import opened Records
  import opened MetadataLog
  import opened Protocol
  import opened ProtocolInvariants
  import opened ProtocolTheorems

  /** Some handler will still move this job. */
  predicate HandlerRunning(s: Server, id: JobId) {
    id in s.tickets && (s.tickets[id].Inserted? || s.tickets[id].Appended? || s.tickets[id].Refused?)
  }

  /** A queued record in the table, in no queue, at no worker, and with no handler. */
  predicate Orphan(s: Server, id: JobId) {
    && id in s.jobs && s.jobs[id].status.Queued?
    && id !in s.queue && Holders(s, id) == {} && !HandlerRunning(s, id)
  }

  /** The handler was cancelled or failed before the job reached the queue or left the table. */
  predicate LeftBehind(s: Server, id: JobId) {
    id in s.tickets && (s.tickets[id].AppendAbandoned? || s.tickets[id].Stranded?)
  }

  /** Exactly the queued records whose handler gave up are orphans. */
  lemma OrphanIff(w: World, s: Server, id: JobId)
    requires Reachable(w) && w.server == Some(s)
    requires id in s.jobs && s.jobs[id].status.Queued?
    ensures Orphan(s, id) <==> LeftBehind(s, id)
  {
    ReachableJobs(w);
    assert ViewOK(id, ViewOf(w, s, id));
    HeldOnce(s, id);
    assert id in s.queue <==> HasTicket(s, id, InQueue);
  }

  /** A handler gives up: its append fails or it is cancelled, before or after the refusal. */
  predicate GivesUp(e: Event, id: JobId) {
    e.Submit? && e.id == id && (e.step.AbandonSubmission? || e.step.AbandonRefused?)
  }

  predicate LeftBehindIn(w: World, id: JobId) {
    w.server.Some? && LeftBehind(w.server.value, id)
  }

  lemma SubmitLeavesBehind(w: World, s: Server, target: JobId, step: SubmitStep, id: JobId)
    requires w.server == Some(s) && SubmitEnabled(w, s, target, step)
    requires target in s.tickets ==> target in w.used
    ensures LeftBehind(ApplySubmit(w, s, target, step).server.value, id)
            <==> LeftBehind(s, id) || GivesUp(Submit(target, step), id)
  {
  }

  lemma WorkLeavesBehind(w: World, s: Server, i: nat, work: WorkStep, id: JobId)
    requires w.server == Some(s) && WorkEnabled(s, i, work)
    requires Subject(s, i, work).Some? ==>
               HasTicket(s, Subject(s, i, work).value, if work.Receive? then InQueue else Held(i))
    ensures LeftBehind(ApplyWork(w, s, i, work).server.value, id) <==> LeftBehind(s, id)
  {
    if Subject(s, i, work) == Some(id) {
      WorkOutcome(w, s, i, work);
    } else {
      WorkTickets(w, s, i, work, id);
    }
  }

  /** No event of the same process takes a job out of that state, and only giving up puts one in. */
  lemma EventLeavesBehind(w: World, e: Event, id: JobId)
    requires JobsInv(w) && Enabled(w, e) && KeepsProcess(e) && w.server.Some?
    ensures LeftBehindIn(Apply(w, e), id) <==> LeftBehindIn(w, id) || GivesUp(e, id)
  {
    var s := w.server.value;
    match e
    case Submit(target, step) =>
      assert ViewOK(target, ViewOf(w, s, target));
      SubmitLeavesBehind(w, s, target, step, id);
    case Work(i, work) =>
      WorkSubject(s, i, work);
      WorkLeavesBehind(w, s, i, work, id);
    case _ =>
  }

  predicate SomeGivesUp(events: seq<Event>, id: JobId) {
    exists e :: e in events && GivesUp(e, id)
  }

  /** Over a run of one process, exactly the jobs whose handler gave up are left behind. */
  lemma {:induction false} RunLeavesBehind(from: World, events: seq<Event>, to: World, id: JobId)
    requires JobsInv(from) && Runs(from, events, to) && from.server.Some?
    requires forall e :: e in events ==> KeepsProcess(e)
    ensures to.server.Some?
    ensures LeftBehindIn(to, id) <==> LeftBehindIn(from, id) || SomeGivesUp(events, id)
    decreases |events|
  {
    if events != [] {
      var e, rest := events[0], events[1..];
      EventForward(from, e, id);
      EventLeavesBehind(from, e, id);
      StepKeepsJobs(from, e);
      RunLeavesBehind(Apply(from, e), rest, to, id);
      assert events == [e] + rest;
      assert SomeGivesUp(events, id) <==> GivesUp(e, id) || SomeGivesUp(rest, id);
    }
  }

  /**
   * In the life of a process a queued record is an orphan if and only if its handler
   * gave up, so a run in which no handler does has no orphans.
   */
  lemma OrphanIffGaveUp(boot: World, events: seq<Event>, w: World, s: Server, id: JobId)
    requires Reachable(boot) && boot.server.Some? && boot.server.value.tickets == map[]
    requires Runs(boot, events, w) && Reachable(w) && w.server == Some(s)
    requires forall e :: e in events ==> KeepsProcess(e)
    requires id in s.jobs && s.jobs[id].status.Queued?
    ensures Orphan(s, id) <==> SomeGivesUp(events, id)
  {
    ReachableJobs(boot);
    RunLeavesBehind(boot, events, w, id);
    OrphanIff(w, s, id);
  }

  /** Once an orphan, a job is never worked on: its record stays an orphan until it is evicted. */
  lemma OrphanForever(w: World, events: seq<Event>, w': World, s': Server, id: JobId)
    requires Reachable(w) && w.server.Some? && Orphan(w.server.value, id)
    requires Runs(w, events, w') && Reachable(w') && w'.server == Some(s')
    requires forall e :: e in events ==> KeepsProcess(e)
    ensures id !in s'.queue && Holders(s', id) == {}
    ensures id in s'.jobs ==> Orphan(s', id) && s'.jobs[id] == w.server.value.jobs[id]
  {
    ReachableJobs(w);
    ReachableJobs(w');
    OrphanIff(w, w.server.value, id);
    RunLeavesBehind(w, events, w', id);
    assert ViewOK(id, ViewOf(w, w.server.value, id));
    assert ViewOK(id, ViewOf(w', s', id));
    HeldOnce(s', id);
    assert id in s'.queue <==> HasTicket(s', id, InQueue);
    CarriedStays(w, events, w', id);
    if id in s'.jobs {
      OrphanIff(w', s', id);
    }
  }

  /** The record a handler carries never changes while the process lives. */
  lemma {:induction false} CarriedStays(from: World, events: seq<Event>, to: World, id: JobId)
    requires JobsInv(from) && Runs(from, events, to) && from.server.Some? && id in from.server.value.submitted
    requires forall e :: e in events ==> KeepsProcess(e)
    ensures to.server.Some? && id in to.server.value.submitted
    ensures to.server.value.submitted[id] == from.server.value.submitted[id]
    decreases |events|
  {
    if events != [] {
      assert ViewOK(id, ViewOf(from, from.server.value, id));
      EventKeepsCarried(from, events[0], id);
      StepKeepsJobs(from, events[0]);
      CarriedStays(Apply(from, events[0]), events[1..], to, id);
    }
  }

  lemma EventKeepsCarried(w: World, e: Event, id: JobId)
    requires Enabled(w, e) && KeepsProcess(e) && w.server.Some?
    requires id in w.server.value.submitted && id in w.used
    ensures Apply(w, e).server.Some? && id in Apply(w, e).server.value.submitted
    ensures Apply(w, e).server.value.submitted[id] == w.server.value.submitted[id]
  {
  }

  /** A restart reports an orphan as failed if its submission was logged, and forgets it otherwise. */
  lemma OrphanAfterRestart(w: World, s: Server, id: JobId)
    requires Reachable(w) && w.server == Some(s) && Orphan(s, id)
    ensures id in Outcomes(w.disk) <==> id in Ids(w.disk.submissions)
    ensures id in Outcomes(w.disk) ==> Outcomes(w.disk)[id] == Outcome(Failed, Some(RESTART_ERROR), None)
  {
    ReachableJobs(w);
    OrphanIff(w, s, id);
    assert ViewOK(id, ViewOf(w, s, id));
    NoLines(w.disk.results, id);
    RestartMeaning(w, id);
  }
}

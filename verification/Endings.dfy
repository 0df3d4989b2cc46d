/** How an inference ended is what the record, the log and a restart report of it. */
module Endings {
  import opened Records
  import opened JobTables
  import opened Protocol
  import opened ProtocolInvariants
  import opened ProtocolTheorems

  /** What the final record of a job must say about the end of its inference. */
  predicate TellsEnding(final: JobRecord, ending: Ending, timeoutSeconds: nat) {
    match ending
    case Returned(Success(metadata)) =>
      final.status.Succeeded? && final.result == Some(metadata) && final.error.None?
    case Returned(Failure(message)) =>
      final.status.Failed? && final.error == Some(message)
    case TimedOut =>
      final.status.Failed? && final.error == Some("job timed out after " + Decimals.Decimal(timeoutSeconds) + " seconds")
    case JoinFailed(message) =>
      final.status.Failed? && final.error == Some("worker task failed: " + message)
  }

  lemma FinishedTells(record: JobRecord, ending: Ending, config: Config, now: Stamp)
    ensures var final := Finish(record, VerdictOf(ending, config), now);
            && TellsEnding(final, ending, config.jobTimeoutSeconds)
            && SameJob(final, record) && final.updatedAt == now
            && (!TellsSuccess(ending) ==> final.result == record.result)
  {
  }

  predicate TellsSuccess(ending: Ending) {
    ending.Returned? && ending.verdict.Success?
  }

  /** The lock region of `finish_job` records how the inference ended and changes nothing else of the job. */
  lemma FinishStepTells(w: World, s: Server, i: nat)
    requires w.server == Some(s) && WorkEnabled(s, i, WorkStep.FinishLocked) && s.workers[i].job in s.jobs
    ensures var job, s' := s.workers[i].job, ApplyWork(w, s, i, WorkStep.FinishLocked).server.value;
            && job in s'.jobs && SameJob(s'.jobs[job], s.jobs[job]) && s'.jobs[job].updatedAt == w.clock
            && TellsEnding(s'.jobs[job], s.workers[i].ending, s.config.jobTimeoutSeconds)
            && s'.workers[i].Persisting? && s'.workers[i].final == s'.jobs[job]
  {
    FinishedTells(s.jobs[s.workers[i].job], s.workers[i].ending, s.config, w.clock);
  }

  // ----- from the end of the inference to the log -----

  /** One job whose inference ended with `ending`, as far as it has come since. */
  predicate EndedView(v: IdView, ending: Ending, timeoutSeconds: nat) {
    && (forall line :: line in v.lines ==> TellsEnding(line, ending, timeoutSeconds))
    && (v.record.Some? && Terminal(v.record.value) ==> TellsEnding(v.record.value, ending, timeoutSeconds))
    && (|| v.ticket == Some(Completed)
        || (v.ticket.Some? && v.ticket.value.Held? && v.holder.Some?
            && HeldAfterEnd(v.holder.value, ending, timeoutSeconds)))
  }

  predicate HeldAfterEnd(holder: Worker, ending: Ending, timeoutSeconds: nat) {
    match holder
    case Recording(_, _, e, _) => e == ending
    case Persisting(_, _, final, _) => TellsEnding(final, ending, timeoutSeconds)
    case Notifying(_, _, _) => true
    case _ => false
  }

  predicate EndedIn(w: World, id: JobId, ending: Ending, timeoutSeconds: nat) {
    && w.server.Some? && w.server.value.config.jobTimeoutSeconds == timeoutSeconds
    && EndedView(ViewOf(w, w.server.value, id), ending, timeoutSeconds)
  }

  lemma TaskEndsIn(w: World, s: Server, i: nat, ending: Ending)
    requires JobsInv(w) && w.server == Some(s) && WorkEnabled(s, i, TaskEnds(ending))
    ensures EndedIn(ApplyWork(w, s, i, TaskEnds(ending)), s.workers[i].job, ending, s.config.jobTimeoutSeconds)
  {
    var job := s.workers[i].job;
    assert HasTicket(s, job, Held(i));
    assert ViewOK(job, ViewOf(w, s, job));
  }

  lemma FinishingKeepsEnding(w: World, s: Server, i: nat, work: WorkStep, id: JobId, ending: Ending)
    requires w.server == Some(s) && WorkEnabled(s, i, work) && Finishing(work) && Subject(s, i, work) == Some(id)
    requires HasTicket(s, id, Held(i)) && ViewOK(id, ViewOf(w, s, id))
    requires EndedIn(w, id, ending, s.config.jobTimeoutSeconds)
    ensures EndedIn(ApplyWork(w, s, i, work), id, ending, s.config.jobTimeoutSeconds)
  {
    if work.FinishLocked? && id in s.jobs {
      FinishStepTells(w, s, i);
    }
  }

  lemma PersistingKeepsEnding(w: World, s: Server, i: nat, work: WorkStep, id: JobId, ending: Ending)
    requires w.server == Some(s) && WorkEnabled(s, i, work) && !Opening(work) && !Finishing(work) && Subject(s, i, work) == Some(id)
    requires HasTicket(s, id, Held(i)) && ViewOK(id, ViewOf(w, s, id))
    requires EndedIn(w, id, ending, s.config.jobTimeoutSeconds)
    ensures EndedIn(ApplyWork(w, s, i, work), id, ending, s.config.jobTimeoutSeconds)
  {
    if work.AppendResult? {
      AppendedLines(w.disk.results, s.workers[i].final, id);
    }
  }

  lemma WorkKeepsConfig(w: World, s: Server, i: nat, work: WorkStep)
    requires w.server == Some(s) && WorkEnabled(s, i, work)
    ensures ApplyWork(w, s, i, work).server.value.config == s.config
  {
  }

  lemma WorkKeepsEnding(w: World, s: Server, i: nat, work: WorkStep, id: JobId, ending: Ending)
    requires JobsInv(w) && w.server == Some(s) && WorkEnabled(s, i, work)
    requires EndedIn(w, id, ending, s.config.jobTimeoutSeconds)
    ensures EndedIn(ApplyWork(w, s, i, work), id, ending, s.config.jobTimeoutSeconds)
  {
    WorkSubject(s, i, work);
    assert ViewOK(id, ViewOf(w, s, id));
    if Subject(s, i, work) == Some(id) {
      if Finishing(work) {
        FinishingKeepsEnding(w, s, i, work, id, ending);
      } else {
        PersistingKeepsEnding(w, s, i, work, id, ending);
      }
    } else {
      FinalIsOwn(w, s, i, work);
      WorkFrame(w, s, i, work, id);
      WorkKeepsConfig(w, s, i, work);
    }
  }

  lemma SubmitKeepsEnding(w: World, s: Server, target: JobId, step: SubmitStep, id: JobId, ending: Ending)
    requires JobsInv(w) && w.server == Some(s) && SubmitEnabled(w, s, target, step)
    requires EndedIn(w, id, ending, s.config.jobTimeoutSeconds)
    ensures EndedIn(ApplySubmit(w, s, target, step), id, ending, s.config.jobTimeoutSeconds)
  {
    assert ViewOK(id, ViewOf(w, s, id));
    assert ViewOK(target, ViewOf(w, s, target));
    SubmitFrame(w, s, target, step, id);
  }

  lemma EventKeepsEnding(w: World, e: Event, id: JobId, ending: Ending, timeoutSeconds: nat)
    requires JobsInv(w) && Enabled(w, e) && KeepsProcess(e) && EndedIn(w, id, ending, timeoutSeconds)
    ensures EndedIn(Apply(w, e), id, ending, timeoutSeconds)
  {
    match e
    case Submit(target, step) => SubmitKeepsEnding(w, w.server.value, target, step, id, ending);
    case Work(i, work) => WorkKeepsEnding(w, w.server.value, i, work, id, ending);
    case _ =>
  }

  lemma {:induction false} RunKeepsEnding(
    from: World, events: seq<Event>, to: World, id: JobId, ending: Ending, timeoutSeconds: nat)
    requires JobsInv(from) && Runs(from, events, to) && EndedIn(from, id, ending, timeoutSeconds)
    requires forall e :: e in events ==> KeepsProcess(e)
    ensures JobsInv(to) && EndedIn(to, id, ending, timeoutSeconds)
    decreases |events|
  {
    if events != [] {
      EventKeepsEnding(from, events[0], id, ending, timeoutSeconds);
      StepKeepsJobs(from, events[0]);
      RunKeepsEnding(Apply(from, events[0]), events[1..], to, id, ending, timeoutSeconds);
    }
  }

  /**
   * Whatever happens after an inference ends, the table and the results log never say
   * anything else of that job than how it ended.
   */
  lemma RecordedAsEnded(w: World, s: Server, i: nat, ending: Ending, events: seq<Event>, to: World, final: JobRecord)
    requires Reachable(w) && w.server == Some(s) && Enabled(w, Work(i, TaskEnds(ending)))
    requires Runs(Apply(w, Work(i, TaskEnds(ending))), events, to) && forall e :: e in events ==> KeepsProcess(e)
    requires final.id == s.workers[i].job
    requires final in to.disk.results
             || (to.server.Some? && final.id in to.server.value.jobs && to.server.value.jobs[final.id] == final
                 && Terminal(final))
    ensures TellsEnding(final, ending, s.config.jobTimeoutSeconds)
  {
    ReachableJobs(w);
    TaskEndsIn(w, s, i, ending);
    StepKeepsJobs(w, Work(i, TaskEnds(ending)));
    RunKeepsEnding(Apply(w, Work(i, TaskEnds(ending))), events, to, final.id, ending, s.config.jobTimeoutSeconds);
    if final in to.disk.results {
      assert final in Lines(to.disk.results, final.id);
    }
  }
}

/** What every step of the job protocol keeps, job by job. */
module ProtocolInvariants {
  import opened Records
  import opened MetadataLog
  import opened CrashRecovery
  import opened JobTables
  import opened Protocol

  /** The results lines of one job. */
  function Lines(results: seq<JobRecord>, id: JobId): set<JobRecord> {
    set record | record in results && record.id == id
  }

  /** Everything the system holds about one job. */
  datatype IdView = IdView(
    ticket: Option<Ticket>,
    holder: Option<Worker>,
    record: Option<JobRecord>,
    carried: Option<JobRecord>,
    logged: bool,
    lines: set<JobRecord>,
    evicted: bool,
    used: bool,
    accepted: bool)

  function Lookup<K, V>(m: map<K, V>, k: K): Option<V> {
    if k in m then Some(m[k]) else None
  }

  function HolderOf(s: Server, id: JobId): Option<Worker> {
    if id in s.tickets && s.tickets[id].Held? && s.tickets[id].worker < |s.workers| then
      Some(s.workers[s.tickets[id].worker])
    else
      None
  }

  function ViewOf(w: World, s: Server, id: JobId): IdView {
    IdView(Lookup(s.tickets, id), HolderOf(s, id), Lookup(s.jobs, id), Lookup(s.submitted, id),
           id in Ids(w.disk.submissions), Lines(w.disk.results, id),
           id in s.evicted, id in w.used, id in w.accepted)
  }

  // ----- what may be in the table at each stage: exactly this, or evicted -----

  predicate StillQueued(v: IdView) {
    if v.record.Some? then v.record == v.carried else v.evicted
  }

  predicate StillRunning(v: IdView) {
    if v.record.Some? then v.record.value.status.Running? else v.evicted
  }

  predicate NowFinished(v: IdView) {
    if v.record.Some? then Terminal(v.record.value) else v.evicted
  }

  predicate HeldOK(id: JobId, v: IdView) {
    && v.holder.Some?
    && match v.holder.value
       case Received(job, _) => StillQueued(v) && v.lines == {}
       case Started(job, _) => StillQueued(v) && v.lines == {}
       case Marked(job, _) => StillRunning(v) && v.lines == {}
       case Inferring(job, _, _) => StillRunning(v) && v.lines == {}
       case Recording(job, _, _, _) => StillRunning(v) && v.lines == {}
       case Persisting(job, _, final, _) =>
         && Terminal(final) && final.id == id && v.lines == {}
         && (if v.record.Some? then v.record.value == final else v.evicted)
       case Notifying(job, _, _) => NowFinished(v)
       case _ => false
  }

  predicate TicketOK(id: JobId, v: IdView) {
    match v.ticket
    case None => v.record.Some? ==> Terminal(v.record.value)
    case Some(ticket) =>
      match ticket
      case Checked => v.record.None? && !v.logged && v.lines == {} && !v.evicted && !v.accepted
      case Inserted => StillQueued(v) && !v.logged && v.lines == {} && !v.accepted
      case AppendAbandoned => StillQueued(v) && !v.logged && v.lines == {} && !v.accepted
      case Appended => StillQueued(v) && v.logged && v.lines == {} && !v.accepted
      case Refused(_) => StillQueued(v) && v.logged && v.lines == {} && !v.accepted
      case Withdrawn(_) => v.record.None? && v.logged && v.lines == {} && !v.accepted
      case RefusalAbandoned(_) => v.record.None? && v.logged && v.lines == {} && !v.accepted
      case Stranded => StillQueued(v) && v.lines == {} && !v.accepted
      case Gone => v.record.None? && !v.accepted
      case InQueue => StillQueued(v) && v.logged && v.lines == {} && v.accepted
      case Held(_) => HeldOK(id, v) && v.logged && v.accepted
      case Completed => NowFinished(v) && v.logged && v.accepted
  }

  predicate ViewOK(id: JobId, v: IdView) {
    && (v.record.Some? ==> v.used && v.record.value.id == id)
    && (v.logged || v.lines != {} || v.evicted || v.accepted ==> v.used)
    && (v.ticket.Some? ==> v.used && v.carried.Some? && v.carried.value.id == id && FreshlyQueued(v.carried.value))
    && (v.carried.Some? ==> v.ticket.Some?)
    && (v.evicted ==> v.record.None?)
    // Memory and log never disagree about a job that is in both.
    && (forall line :: line in v.lines ==> Terminal(line) && (v.record.Some? ==> v.record.value == line))
    && TicketOK(id, v)
  }

  ghost predicate IdsOK(w: World, s: Server) {
    forall id :: ViewOK(id, ViewOf(w, s, id))
  }

  // ----- the queue and the workers against the tickets -----

  ghost predicate QueueOK(s: Server) {
    && (forall i :: 0 <= i < |s.queue| ==> HasTicket(s, s.queue[i], InQueue))
    && (forall i, j :: 0 <= i < j < |s.queue| ==> s.queue[i] != s.queue[j])
    && (forall id :: HasTicket(s, id, InQueue) ==> id in s.queue)
  }

  ghost predicate HoldersOK(s: Server) {
    && (forall i :: 0 <= i < |s.workers| && JobOf(s.workers[i]).Some? ==>
          HasTicket(s, JobOf(s.workers[i]).value, Held(i)))
    && (forall id :: id in s.tickets && s.tickets[id].Held? ==>
          s.tickets[id].worker < |s.workers| && JobOf(s.workers[s.tickets[id].worker]) == Some(id))
  }

  // ----- the logs -----

  /** At most one line per job in either log; results are terminal, submissions never are. */
  predicate LogsOK(disk: Disk) {
    && DistinctIds(disk.submissions) && DistinctIds(disk.results)
    && (forall record :: record in disk.submissions ==> FreshlyQueued(record))
    && (forall record :: record in disk.results ==> Terminal(record))
  }

  /** No accepted job is lost except by compaction. */
  predicate DurableOK(w: World) {
    && Ids(w.disk.submissions) + Ids(w.disk.results) <= w.used
    && w.accepted <= w.used
    && w.accepted <= Ids(w.disk.submissions) + Ids(w.disk.results) + w.truncated
  }

  ghost predicate JobsInv(w: World) {
    && LogsOK(w.disk)
    && DurableOK(w)
    && (w.server.Some? ==>
          && IdsOK(w, w.server.value) && QueueOK(w.server.value) && HoldersOK(w.server.value))
  }

  // ----- appends, seen from one job -----

  lemma AppendedIds(lines: seq<JobRecord>, record: JobRecord)
    ensures Ids(lines + [record]) == Ids(lines) + {record.id}
  {
    IdsOfConcat(lines, [record]);
    assert Ids([record]) == {record.id};
  }

  lemma AppendedLines(results: seq<JobRecord>, record: JobRecord, id: JobId)
    ensures Lines(results + [record], id) ==
            if record.id == id then Lines(results, id) + {record} else Lines(results, id)
  {
  }

  lemma NoLines(results: seq<JobRecord>, id: JobId)
    ensures Lines(results, id) == {} <==> id !in Ids(results)
  {
    if id in Ids(results) {
      var record :| record in results && record.id == id;
      assert record in Lines(results, id);
    } else {
      assert forall record :: record in results ==> record.id != id;
    }
  }

  lemma AppendKeepsDistinct(lines: seq<JobRecord>, record: JobRecord)
    requires DistinctIds(lines) && record.id !in Ids(lines)
    ensures DistinctIds(lines + [record])
  {
    forall i | 0 <= i < |lines|
      ensures lines[i].id != record.id
    {
      assert lines[i] in lines;
    }
  }

  /** Logging a new submission keeps the logs well formed and adds one id. */
  lemma SubmissionLogged(w: World, record: JobRecord)
    requires LogsOK(w.disk) && DurableOK(w)
    requires FreshlyQueued(record) && record.id !in Ids(w.disk.submissions) && record.id in w.used
    ensures LogsOK(LogSubmission(w, record).disk) && DurableOK(LogSubmission(w, record))
    ensures forall id :: id in Ids(LogSubmission(w, record).disk.submissions) <==>
                         id == record.id || id in Ids(w.disk.submissions)
  {
    AppendedIds(w.disk.submissions, record);
    AppendKeepsDistinct(w.disk.submissions, record);
  }

  lemma ResultLogged(w: World, record: JobRecord)
    requires LogsOK(w.disk) && DurableOK(w)
    requires Terminal(record) && Lines(w.disk.results, record.id) == {} && record.id in w.used
    ensures LogsOK(LogResult(w, record).disk) && DurableOK(LogResult(w, record))
    ensures forall id :: Lines(LogResult(w, record).disk.results, id) ==
                         if record.id == id then {record} else Lines(w.disk.results, id)
  {
    NoLines(w.disk.results, record.id);
    AppendedIds(w.disk.results, record);
    AppendKeepsDistinct(w.disk.results, record);
    forall id
      ensures Lines(LogResult(w, record).disk.results, id) ==
              if record.id == id then {record} else Lines(w.disk.results, id)
    {
      AppendedLines(w.disk.results, record, id);
    }
  }

  // ----- submit steps -----

  predicate WritesLog(step: SubmitStep) {
    step.AppendSubmission? || step.LandSubmission? || step.AppendRefusal? || step.LandRefusal?
  }

  lemma SubmitFrameInMemory(w: World, s: Server, id: JobId, step: SubmitStep, other: JobId)
    requires w.server == Some(s) && SubmitEnabled(w, s, id, step) && other != id
    requires !WritesLog(step)
    ensures ViewOf(ApplySubmit(w, s, id, step), ApplySubmit(w, s, id, step).server.value, other) == ViewOf(w, s, other)
  {
  }

  lemma SubmitFrameOnDisk(w: World, s: Server, id: JobId, step: SubmitStep, other: JobId)
    requires w.server == Some(s) && SubmitEnabled(w, s, id, step) && other != id
    requires id in s.submitted ==> s.submitted[id].id == id
    requires WritesLog(step)
    ensures ViewOf(ApplySubmit(w, s, id, step), ApplySubmit(w, s, id, step).server.value, other) == ViewOf(w, s, other)
  {
    var record := CarriedRecord(s, id);
    if step.AppendSubmission? || step.LandSubmission? {
      AppendedIds(w.disk.submissions, record);
    } else {
      AppendedLines(w.disk.results, Unqueued(record, RefusalMessage(s.tickets[id]), w.clock), other);
    }
  }

  /** A handler's step changes nothing about any other job. */
  lemma SubmitFrame(w: World, s: Server, id: JobId, step: SubmitStep, other: JobId)
    requires w.server == Some(s) && SubmitEnabled(w, s, id, step) && other != id
    requires id in s.submitted ==> s.submitted[id].id == id
    ensures ViewOf(ApplySubmit(w, s, id, step), ApplySubmit(w, s, id, step).server.value, other) == ViewOf(w, s, other)
  {
    if WritesLog(step) {
      SubmitFrameOnDisk(w, s, id, step, other);
    } else {
      SubmitFrameInMemory(w, s, id, step, other);
    }
  }

  /** The handler gives up or withdraws. */
  predicate Retreats(step: SubmitStep) {
    || step.CancelChecked? || step.AbandonSubmission? || step.Withdraw? || step.AbandonRefused? || step.AbandonRefusal?
  }

  lemma SubmitOwnForward(w: World, s: Server, id: JobId, step: SubmitStep)
    requires w.server == Some(s) && SubmitEnabled(w, s, id, step)
    requires ViewOK(id, ViewOf(w, s, id))
    requires !WritesLog(step) && !Retreats(step)
    ensures ViewOK(id, ViewOf(ApplySubmit(w, s, id, step), ApplySubmit(w, s, id, step).server.value, id))
  {
  }

  lemma SubmitOwnRetreat(w: World, s: Server, id: JobId, step: SubmitStep)
    requires w.server == Some(s) && SubmitEnabled(w, s, id, step)
    requires ViewOK(id, ViewOf(w, s, id))
    requires Retreats(step)
    ensures ViewOK(id, ViewOf(ApplySubmit(w, s, id, step), ApplySubmit(w, s, id, step).server.value, id))
  {
  }

  lemma SubmitOwnInMemory(w: World, s: Server, id: JobId, step: SubmitStep)
    requires w.server == Some(s) && SubmitEnabled(w, s, id, step)
    requires ViewOK(id, ViewOf(w, s, id))
    requires !WritesLog(step)
    ensures ViewOK(id, ViewOf(ApplySubmit(w, s, id, step), ApplySubmit(w, s, id, step).server.value, id))
  {
    if Retreats(step) {
      SubmitOwnRetreat(w, s, id, step);
    } else {
      SubmitOwnForward(w, s, id, step);
    }
  }

  lemma SubmitOwnOnDisk(w: World, s: Server, id: JobId, step: SubmitStep)
    requires w.server == Some(s) && SubmitEnabled(w, s, id, step)
    requires ViewOK(id, ViewOf(w, s, id))
    requires WritesLog(step)
    ensures ViewOK(id, ViewOf(ApplySubmit(w, s, id, step), ApplySubmit(w, s, id, step).server.value, id))
  {
    var record := CarriedRecord(s, id);
    if step.AppendSubmission? || step.LandSubmission? {
      AppendedIds(w.disk.submissions, record);
    } else {
      AppendedLines(w.disk.results, Unqueued(record, RefusalMessage(s.tickets[id]), w.clock), id);
    }
  }

  /** ... and leaves its own job in order. */
  lemma SubmitOwn(w: World, s: Server, id: JobId, step: SubmitStep)
    requires w.server == Some(s) && SubmitEnabled(w, s, id, step)
    requires ViewOK(id, ViewOf(w, s, id))
    ensures ViewOK(id, ViewOf(ApplySubmit(w, s, id, step), ApplySubmit(w, s, id, step).server.value, id))
  {
    if WritesLog(step) {
      SubmitOwnOnDisk(w, s, id, step);
    } else {
      SubmitOwnInMemory(w, s, id, step);
    }
  }

  /** Only the ticket of `id` differs, and `id` was neither queued nor held. */
  ghost predicate OwnTicketOnly(s: Server, s': Server, id: JobId) {
    && (id in s.tickets ==> !s.tickets[id].InQueue? && !s.tickets[id].Held?)
    && s'.workers == s.workers && id in s'.tickets && !s'.tickets[id].Held?
    && s'.queue == s.queue + (if s'.tickets[id].InQueue? then [id] else [])
    && forall other: JobId :: other != id ==> Lookup(s'.tickets, other) == Lookup(s.tickets, other)
  }

  /** A handler moves only its own ticket, and its own job is neither queued nor held yet. */
  lemma SubmitMovesOwnTicket(w: World, s: Server, id: JobId, step: SubmitStep)
    requires w.server == Some(s) && SubmitEnabled(w, s, id, step) && ViewOK(id, ViewOf(w, s, id))
    ensures OwnTicketOnly(s, ApplySubmit(w, s, id, step).server.value, id)
  {
    forall other: JobId | other != id
      ensures Lookup(ApplySubmit(w, s, id, step).server.value.tickets, other) == Lookup(s.tickets, other)
    {
      SubmitTickets(w, s, id, step, other);
    }
  }

  lemma OwnTicketKeepsQueue(s: Server, s': Server, id: JobId)
    requires OwnTicketOnly(s, s', id) && QueueOK(s)
    ensures QueueOK(s')
  {
    forall i | 0 <= i < |s.queue|
      ensures s.queue[i] != id && HasTicket(s', s.queue[i], InQueue)
    {
      assert HasTicket(s, s.queue[i], InQueue);
      assert Lookup(s'.tickets, s.queue[i]) == Lookup(s.tickets, s.queue[i]);
    }
    forall other | HasTicket(s', other, InQueue)
      ensures other in s'.queue
    {
      if other != id {
        assert Lookup(s'.tickets, other) == Lookup(s.tickets, other);
        assert HasTicket(s, other, InQueue);
      }
    }
  }

  lemma OwnTicketKeepsHolders(s: Server, s': Server, id: JobId)
    requires OwnTicketOnly(s, s', id) && HoldersOK(s)
    ensures HoldersOK(s')
  {
    forall i | 0 <= i < |s'.workers| && JobOf(s'.workers[i]).Some?
      ensures HasTicket(s', JobOf(s'.workers[i]).value, Held(i))
    {
      var job := JobOf(s.workers[i]).value;
      assert HasTicket(s, job, Held(i));
      assert Lookup(s'.tickets, job) == Lookup(s.tickets, job);
    }
    forall other | other in s'.tickets && s'.tickets[other].Held?
      ensures s'.tickets[other].worker < |s'.workers| && JobOf(s'.workers[s'.tickets[other].worker]) == Some(other)
    {
      assert Lookup(s'.tickets, other) == Lookup(s.tickets, other);
    }
  }

  lemma SubmitKeepsQueue(w: World, s: Server, id: JobId, step: SubmitStep)
    requires w.server == Some(s) && SubmitEnabled(w, s, id, step)
    requires QueueOK(s) && HoldersOK(s) && ViewOK(id, ViewOf(w, s, id))
    ensures QueueOK(ApplySubmit(w, s, id, step).server.value) && HoldersOK(ApplySubmit(w, s, id, step).server.value)
  {
    var s' := ApplySubmit(w, s, id, step).server.value;
    SubmitMovesOwnTicket(w, s, id, step);
    OwnTicketKeepsQueue(s, s', id);
    OwnTicketKeepsHolders(s, s', id);
  }

  lemma SubmitTickets(w: World, s: Server, id: JobId, step: SubmitStep, other: JobId)
    requires w.server == Some(s) && SubmitEnabled(w, s, id, step) && other != id
    ensures Lookup(ApplySubmit(w, s, id, step).server.value.tickets, other) == Lookup(s.tickets, other)
  {
  }

  lemma SubmitKeepsLogs(w: World, s: Server, id: JobId, step: SubmitStep)
    requires w.server == Some(s) && SubmitEnabled(w, s, id, step)
    requires LogsOK(w.disk) && DurableOK(w) && ViewOK(id, ViewOf(w, s, id))
    ensures LogsOK(ApplySubmit(w, s, id, step).disk) && DurableOK(ApplySubmit(w, s, id, step))
  {
    var record := CarriedRecord(s, id);
    if step.AppendSubmission? || step.LandSubmission? {
      if id !in Ids(w.disk.submissions) {
        SubmissionLogged(w, record);
      }
    }
    if step.AppendRefusal? || step.LandRefusal? {
      ResultLogged(w, Unqueued(record, RefusalMessage(s.tickets[id]), w.clock));
    }
  }

  lemma SubmitKeepsJobs(w: World, s: Server, id: JobId, step: SubmitStep)
    requires w.server == Some(s) && SubmitEnabled(w, s, id, step) && JobsInv(w)
    ensures JobsInv(ApplySubmit(w, s, id, step))
  {
    var w' := ApplySubmit(w, s, id, step);
    assert ViewOK(id, ViewOf(w, s, id));
    forall other: JobId
      ensures ViewOK(other, ViewOf(w', w'.server.value, other))
    {
      assert ViewOK(other, ViewOf(w, s, other));
      if other == id {
        SubmitOwn(w, s, id, step);
      } else {
        SubmitFrame(w, s, id, step, other);
      }
    }
    SubmitKeepsQueue(w, s, id, step);
    SubmitKeepsLogs(w, s, id, step);
  }

  // ----- worker steps -----

  /** The job a worker's step is about. */
  function Subject(s: Server, i: nat, work: WorkStep): Option<JobId>
    requires WorkEnabled(s, i, work)
  {
    if work.Receive? then Some(s.queue[0]) else JobOf(s.workers[i])
  }

  /** Retention may evict any job; nothing else about another job changes. */
  predicate SameOrEvicted(before: IdView, after: IdView) {
    after == before || (after == before.(record := None, evicted := true) && before.record.Some?)
  }

  lemma WorkFrameOpening(w: World, s: Server, i: nat, work: WorkStep, other: JobId)
    requires w.server == Some(s) && WorkEnabled(s, i, work)
    requires Subject(s, i, work) != Some(other)
    requires other in s.tickets && s.tickets[other].Held? ==>
               s.tickets[other].worker < |s.workers| && JobOf(s.workers[s.tickets[other].worker]) == Some(other)
    requires Opening(work)
    ensures var after := ViewOf(ApplyWork(w, s, i, work), ApplyWork(w, s, i, work).server.value, other);
            && SameOrEvicted(ViewOf(w, s, other), after)
            && (after == ViewOf(w, s, other) || work.Retain?)
  {
  }

  lemma WorkFrameFinishing(w: World, s: Server, i: nat, work: WorkStep, other: JobId)
    requires w.server == Some(s) && WorkEnabled(s, i, work)
    requires Subject(s, i, work) != Some(other)
    requires other in s.tickets && s.tickets[other].Held? ==>
               s.tickets[other].worker < |s.workers| && JobOf(s.workers[s.tickets[other].worker]) == Some(other)
    requires Finishing(work)
    ensures var after := ViewOf(ApplyWork(w, s, i, work), ApplyWork(w, s, i, work).server.value, other);
            && SameOrEvicted(ViewOf(w, s, other), after)
            && (after == ViewOf(w, s, other) || work.Retain?)
  {
  }

  lemma WorkFrameClosing(w: World, s: Server, i: nat, work: WorkStep, other: JobId)
    requires w.server == Some(s) && WorkEnabled(s, i, work)
    requires Subject(s, i, work) != Some(other)
    requires other in s.tickets && s.tickets[other].Held? ==>
               s.tickets[other].worker < |s.workers| && JobOf(s.workers[s.tickets[other].worker]) == Some(other)
    requires !Opening(work) && !Finishing(work)
    requires work.AppendResult? ==> s.workers[i].final.id == s.workers[i].job
    ensures var after := ViewOf(ApplyWork(w, s, i, work), ApplyWork(w, s, i, work).server.value, other);
            && SameOrEvicted(ViewOf(w, s, other), after)
            && (after == ViewOf(w, s, other) || work.Retain?)
  {
    if work.AppendResult? {
      AppendedLines(w.disk.results, s.workers[i].final, other);
    }
  }

  lemma WorkFrame(w: World, s: Server, i: nat, work: WorkStep, other: JobId)
    requires w.server == Some(s) && WorkEnabled(s, i, work)
    requires Subject(s, i, work) != Some(other)
    requires other in s.tickets && s.tickets[other].Held? ==>
               s.tickets[other].worker < |s.workers| && JobOf(s.workers[s.tickets[other].worker]) == Some(other)
    requires work.AppendResult? ==> s.workers[i].final.id == s.workers[i].job
    ensures var after := ViewOf(ApplyWork(w, s, i, work), ApplyWork(w, s, i, work).server.value, other);
            && SameOrEvicted(ViewOf(w, s, other), after)
            && (after == ViewOf(w, s, other) || work.Retain?)
  {
    if Opening(work) {
      WorkFrameOpening(w, s, i, work, other);
    } else if Finishing(work) {
      WorkFrameFinishing(w, s, i, work, other);
    } else {
      WorkFrameClosing(w, s, i, work, other);
    }
  }

  lemma WorkOwnOpening(w: World, s: Server, i: nat, work: WorkStep, id: JobId)
    requires w.server == Some(s) && WorkEnabled(s, i, work)
    requires Subject(s, i, work) == Some(id)
    requires HasTicket(s, id, if work.Receive? then InQueue else Held(i))
    requires ViewOK(id, ViewOf(w, s, id))
    requires Opening(work)
    ensures ViewOK(id, ViewOf(ApplyWork(w, s, i, work), ApplyWork(w, s, i, work).server.value, id))
  {
  }

  lemma WorkOwnFinishing(w: World, s: Server, i: nat, work: WorkStep, id: JobId)
    requires w.server == Some(s) && WorkEnabled(s, i, work)
    requires Subject(s, i, work) == Some(id)
    requires HasTicket(s, id, if work.Receive? then InQueue else Held(i))
    requires ViewOK(id, ViewOf(w, s, id))
    requires Finishing(work)
    ensures ViewOK(id, ViewOf(ApplyWork(w, s, i, work), ApplyWork(w, s, i, work).server.value, id))
  {
  }

  lemma WorkOwnClosing(w: World, s: Server, i: nat, work: WorkStep, id: JobId)
    requires w.server == Some(s) && WorkEnabled(s, i, work)
    requires Subject(s, i, work) == Some(id)
    requires HasTicket(s, id, if work.Receive? then InQueue else Held(i))
    requires ViewOK(id, ViewOf(w, s, id))
    requires !Opening(work) && !Finishing(work)
    ensures ViewOK(id, ViewOf(ApplyWork(w, s, i, work), ApplyWork(w, s, i, work).server.value, id))
  {
    if work.AppendResult? {
      AppendedLines(w.disk.results, s.workers[i].final, id);
    }
  }

  /** A worker's step leaves its own job in order. */
  lemma WorkOwn(w: World, s: Server, i: nat, work: WorkStep, id: JobId)
    requires w.server == Some(s) && WorkEnabled(s, i, work)
    requires Subject(s, i, work) == Some(id)
    requires HasTicket(s, id, if work.Receive? then InQueue else Held(i))
    requires ViewOK(id, ViewOf(w, s, id))
    ensures ViewOK(id, ViewOf(ApplyWork(w, s, i, work), ApplyWork(w, s, i, work).server.value, id))
  {
    if Opening(work) {
      WorkOwnOpening(w, s, i, work, id);
    } else if Finishing(work) {
      WorkOwnFinishing(w, s, i, work, id);
    } else {
      WorkOwnClosing(w, s, i, work, id);
    }
  }

  lemma EvictionKeepsView(id: JobId, before: IdView, after: IdView)
    requires ViewOK(id, before) && SameOrEvicted(before, after)
    ensures ViewOK(id, after)
  {
  }

  lemma WorkTickets(w: World, s: Server, i: nat, work: WorkStep, other: JobId)
    requires w.server == Some(s) && WorkEnabled(s, i, work)
    requires Subject(s, i, work) != Some(other)
    ensures Lookup(ApplyWork(w, s, i, work).server.value.tickets, other) == Lookup(s.tickets, other)
  {
  }

  lemma WorkTouchesOneWorker(w: World, s: Server, i: nat, work: WorkStep)
    requires w.server == Some(s) && WorkEnabled(s, i, work)
    ensures var s' := ApplyWork(w, s, i, work).server.value;
            && |s'.workers| == |s.workers|
            && (forall j :: 0 <= j < |s.workers| && j != i ==> s'.workers[j] == s.workers[j])
            && s'.queue == (if work.Receive? then s.queue[1..] else s.queue)
  {
  }

  lemma OpeningHolds(w: World, s: Server, i: nat, work: WorkStep)
    requires w.server == Some(s) && WorkEnabled(s, i, work)
    requires Opening(work)
    requires Subject(s, i, work).Some? ==>
               HasTicket(s, Subject(s, i, work).value, if work.Receive? then InQueue else Held(i))
    ensures |ApplyWork(w, s, i, work).server.value.workers| == |s.workers|
    ensures var s' := ApplyWork(w, s, i, work).server.value;
            match Subject(s, i, work)
            case None => JobOf(s'.workers[i]).None?
            case Some(id) =>
              if JobOf(s'.workers[i]).Some? then
                JobOf(s'.workers[i]) == Some(id) && HasTicket(s', id, Held(i))
              else
                HasTicket(s', id, Completed)
  {
  }

  lemma ClosingHolds(w: World, s: Server, i: nat, work: WorkStep)
    requires w.server == Some(s) && WorkEnabled(s, i, work)
    requires !Opening(work)
    requires Subject(s, i, work).Some? ==>
               HasTicket(s, Subject(s, i, work).value, if work.Receive? then InQueue else Held(i))
    ensures |ApplyWork(w, s, i, work).server.value.workers| == |s.workers|
    ensures var s' := ApplyWork(w, s, i, work).server.value;
            match Subject(s, i, work)
            case None => JobOf(s'.workers[i]).None?
            case Some(id) =>
              if JobOf(s'.workers[i]).Some? then
                JobOf(s'.workers[i]) == Some(id) && HasTicket(s', id, Held(i))
              else
                HasTicket(s', id, Completed)
  {
  }

  /** Where a worker's step leaves the worker and its job. */
  lemma WorkOutcome(w: World, s: Server, i: nat, work: WorkStep)
    requires w.server == Some(s) && WorkEnabled(s, i, work)
    requires Subject(s, i, work).Some? ==>
               HasTicket(s, Subject(s, i, work).value, if work.Receive? then InQueue else Held(i))
    ensures var s' := ApplyWork(w, s, i, work).server.value;
            && |s'.workers| == |s.workers|
            && (forall j :: 0 <= j < |s.workers| && j != i ==> s'.workers[j] == s.workers[j])
            && s'.queue == (if work.Receive? then s.queue[1..] else s.queue)
    ensures var s' := ApplyWork(w, s, i, work).server.value;
            match Subject(s, i, work)
            case None => JobOf(s'.workers[i]).None?
            case Some(id) =>
              if JobOf(s'.workers[i]).Some? then
                JobOf(s'.workers[i]) == Some(id) && HasTicket(s', id, Held(i))
              else
                HasTicket(s', id, Completed)
  {
    WorkTouchesOneWorker(w, s, i, work);
    if Opening(work) {
      OpeningHolds(w, s, i, work);
    } else {
      ClosingHolds(w, s, i, work);
    }
  }

  lemma WorkKeepsHolders(w: World, s: Server, i: nat, work: WorkStep)
    requires w.server == Some(s) && WorkEnabled(s, i, work)
    requires QueueOK(s) && HoldersOK(s)
    ensures HoldersOK(ApplyWork(w, s, i, work).server.value)
  {
    var s' := ApplyWork(w, s, i, work).server.value;
    WorkSubject(s, i, work);
    WorkOutcome(w, s, i, work);
    forall j | 0 <= j < |s'.workers| && JobOf(s'.workers[j]).Some?
      ensures HasTicket(s', JobOf(s'.workers[j]).value, Held(j))
    {
      if j != i {
        var job := JobOf(s.workers[j]).value;
        assert HasTicket(s, job, Held(j));
        WorkTickets(w, s, i, work, job);
      }
    }
    forall other | other in s'.tickets && s'.tickets[other].Held?
      ensures s'.tickets[other].worker < |s'.workers| && JobOf(s'.workers[s'.tickets[other].worker]) == Some(other)
    {
      if Subject(s, i, work) != Some(other) {
        WorkTickets(w, s, i, work, other);
        assert s.tickets[other].worker != i;
      }
    }
  }

  /** A step's job is where the tickets say it is. */
  lemma WorkSubject(s: Server, i: nat, work: WorkStep)
    requires WorkEnabled(s, i, work) && QueueOK(s) && HoldersOK(s)
    ensures Subject(s, i, work).Some? ==>
              HasTicket(s, Subject(s, i, work).value, if work.Receive? then InQueue else Held(i))
  {
    if work.Receive? {
      assert HasTicket(s, s.queue[0], InQueue);
    }
  }

  lemma WorkKeepsQueue(w: World, s: Server, i: nat, work: WorkStep)
    requires w.server == Some(s) && WorkEnabled(s, i, work)
    requires QueueOK(s) && HoldersOK(s)
    ensures QueueOK(ApplyWork(w, s, i, work).server.value)
  {
    var s' := ApplyWork(w, s, i, work).server.value;
    WorkSubject(s, i, work);
    WorkOutcome(w, s, i, work);
    forall k | 0 <= k < |s'.queue|
      ensures HasTicket(s', s'.queue[k], InQueue)
    {
      var id := s'.queue[k];
      assert id == s.queue[if work.Receive? then k + 1 else k];
      assert HasTicket(s, id, InQueue);
      WorkTickets(w, s, i, work, id);
    }
    forall id | HasTicket(s', id, InQueue)
      ensures id in s'.queue
    {
      WorkTickets(w, s, i, work, id);
      assert HasTicket(s, id, InQueue);
      var k :| 0 <= k < |s.queue| && s.queue[k] == id;
      if work.Receive? {
        assert s'.queue[k - 1] == id;
      }
    }
  }

  lemma WorkKeepsLogs(w: World, s: Server, i: nat, work: WorkStep)
    requires w.server == Some(s) && WorkEnabled(s, i, work)
    requires LogsOK(w.disk) && DurableOK(w)
    requires work.AppendResult? ==>
               && HasTicket(s, s.workers[i].job, Held(i))
               && ViewOK(s.workers[i].job, ViewOf(w, s, s.workers[i].job))
    ensures LogsOK(ApplyWork(w, s, i, work).disk) && DurableOK(ApplyWork(w, s, i, work))
  {
    if work.AppendResult? {
      ResultLogged(w, s.workers[i].final);
    }
  }

  lemma WorkKeepsView(w: World, s: Server, i: nat, work: WorkStep, id: JobId)
    requires w.server == Some(s) && WorkEnabled(s, i, work) && JobsInv(w)
    ensures ViewOK(id, ViewOf(ApplyWork(w, s, i, work), ApplyWork(w, s, i, work).server.value, id))
  {
    var w' := ApplyWork(w, s, i, work);
    WorkSubject(s, i, work);
    assert ViewOK(id, ViewOf(w, s, id));
    if Subject(s, i, work) == Some(id) {
      WorkOwn(w, s, i, work, id);
    } else {
      FinalIsOwn(w, s, i, work);
      WorkFrame(w, s, i, work, id);
      EvictionKeepsView(id, ViewOf(w, s, id), ViewOf(w', w'.server.value, id));
    }
  }

  /** A worker about to append holds the final record of its own job. */
  lemma FinalIsOwn(w: World, s: Server, i: nat, work: WorkStep)
    requires w.server == Some(s) && WorkEnabled(s, i, work) && JobsInv(w)
    ensures work.AppendResult? ==> s.workers[i].final.id == s.workers[i].job
  {
    if work.AppendResult? {
      var job := s.workers[i].job;
      assert HasTicket(s, job, Held(i));
      assert ViewOK(job, ViewOf(w, s, job));
    }
  }

  lemma WorkKeepsJobs(w: World, s: Server, i: nat, work: WorkStep)
    requires w.server == Some(s) && WorkEnabled(s, i, work) && JobsInv(w)
    ensures JobsInv(ApplyWork(w, s, i, work))
  {
    forall id: JobId
      ensures ViewOK(id, ViewOf(ApplyWork(w, s, i, work), ApplyWork(w, s, i, work).server.value, id))
    {
      WorkKeepsView(w, s, i, work, id);
    }
    WorkKeepsQueue(w, s, i, work);
    WorkKeepsHolders(w, s, i, work);
    WorkKeepsLogs(w, s, i, work);
  }

  // ----- restarts -----

  /** The server never writes a terminal submissions line, so emptying that log is always safe. */
  lemma LogsRedundant(disk: Disk)
    requires LogsOK(disk)
    ensures SubmissionsRedundant(disk)
  {
    forall id | id in Loaded(disk) && Terminal(Loaded(disk)[id])
      ensures id in Ids(disk.results)
    {
      LoadedMeaning(disk, id);
    }
  }

  /** Recovered jobs had no results line. */
  lemma RecoveredAreNew(disk: Disk, recovered: seq<JobRecord>, since: Stamp)
    requires LogsOK(disk) && Recovers(disk, recovered, since)
    ensures Ids(recovered) !! Ids(disk.results)
  {
    forall id | id in Ids(recovered)
      ensures id !in Ids(disk.results)
    {
      assert id in Live(disk);
      LoadedMeaning(disk, id);
    }
  }

  lemma ConcatDistinct(a: seq<JobRecord>, b: seq<JobRecord>)
    requires DistinctIds(a) && DistinctIds(b) && Ids(a) !! Ids(b)
    ensures DistinctIds(a + b)
  {
    forall i, j | 0 <= i < |a| && 0 <= j < |b|
      ensures a[i].id != b[j].id
    {
      assert a[i] in a && b[j] in b;
      assert a[i].id in Ids(a) && b[j].id in Ids(b);
    }
  }

  lemma ExtendedResultsOK(disk: Disk, run: LoadRun, since: Stamp, k: nat)
    requires LogsOK(disk) && Recovers(disk, run.recovered, since) && k <= |run.recovered|
    ensures DistinctIds(disk.results + run.recovered[..k])
    ensures forall record :: record in disk.results + run.recovered[..k] ==> Terminal(record)
  {
    PrefixIds(run.recovered, k);
    RecoveredAreNew(disk, run.recovered, since);
    ConcatDistinct(disk.results, run.recovered[..k]);
  }

  lemma CompactedLogsOK(disk: Disk, metadataLimit: nat, jobLimit: nat, since: Stamp, run: LoadRun)
    requires ValidRun(disk, metadataLimit, jobLimit, since, run) && metadataLimit > 0
    ensures LogsOK(Disk(Unfinished(run.recent), Finished(run.recent)))
  {
    CompactionEmptiesSubmissions(disk, metadataLimit, jobLimit, since, run);
    RecoveredMeaning(disk, run, since);
    forall record | record in run.recent
      ensures Terminal(record)
    {
      assert record.id in Recovered(disk, run) && Recovered(disk, run)[record.id] == record;
    }
  }

  lemma BetweenLogsOK(disk: Disk, metadataLimit: nat, jobLimit: nat, since: Stamp, run: LoadRun)
    requires LogsOK(disk) && ValidRun(disk, metadataLimit, jobLimit, since, run) && metadataLimit > 0
    ensures LogsOK(BetweenRenames(disk, run))
  {
    CompactionEmptiesSubmissions(disk, metadataLimit, jobLimit, since, run);
    ExtendedResultsOK(disk, run, since, |run.recovered|);
    assert run.recovered[..|run.recovered|] == run.recovered;
  }

  /** Wherever a restart is cut off, the logs stay well formed. */
  lemma RestartKeepsLogs(disk: Disk, metadataLimit: nat, jobLimit: nat, since: Stamp, run: LoadRun, writes: nat)
    requires LogsOK(disk) && ValidRun(disk, metadataLimit, jobLimit, since, run)
    requires writes <= |DurableStates(disk, metadataLimit, run)|
    ensures LogsOK(StateAfter(disk, metadataLimit, run, writes))
  {
    StateAfterCases(disk, metadataLimit, run, writes);
    if writes <= |run.recovered| {
      ExtendedResultsOK(disk, run, since, writes);
    } else if writes == |run.recovered| + 1 {
      BetweenLogsOK(disk, metadataLimit, jobLimit, since, run);
    } else {
      CompactedLogsOK(disk, metadataLimit, jobLimit, since, run);
    }
  }

  lemma RestartKeys(disk: Disk, metadataLimit: nat, jobLimit: nat, since: Stamp, run: LoadRun, writes: nat)
    requires LogsOK(disk) && ValidRun(disk, metadataLimit, jobLimit, since, run)
    requires writes <= |DurableStates(disk, metadataLimit, run)|
    ensures Loaded(StateAfter(disk, metadataLimit, run, writes)).Keys <= Loaded(disk).Keys
  {
    LogsRedundant(disk);
    InterruptedLoad(disk, metadataLimit, jobLimit, since, run, writes);
    assert Outcomes(StateAfter(disk, metadataLimit, run, writes)).Keys <= Outcomes(disk).Keys;
  }

  lemma RewritingKeepsDurable(w: World, disk: Disk)
    requires DurableOK(w) && Loaded(disk).Keys <= Loaded(w.disk).Keys
    ensures DurableOK(Rewritten(w, disk))
  {
    LoadedKeys(w.disk);
    LoadedKeys(disk);
  }

  lemma FinalIsLast(disk: Disk, metadataLimit: nat, run: LoadRun)
    ensures FinalDisk(disk, metadataLimit, run)
            == StateAfter(disk, metadataLimit, run, |DurableStates(disk, metadataLimit, run)|)
  {
  }

  /** After a complete restart every loaded record agrees with its results line. */
  lemma LoadedAgreesWithLog(
    disk: Disk, metadataLimit: nat, jobLimit: nat, since: Stamp, run: LoadRun, line: JobRecord)
    requires LogsOK(disk) && ValidRun(disk, metadataLimit, jobLimit, since, run)
    requires line in FinalDisk(disk, metadataLimit, run).results
    ensures line.id in Recovered(disk, run) && Recovered(disk, run)[line.id] == line
  {
    var final := FinalDisk(disk, metadataLimit, run);
    FinalIsLast(disk, metadataLimit, run);
    RestartKeepsLogs(disk, metadataLimit, jobLimit, since, run, |DurableStates(disk, metadataLimit, run)|);
    FinalDiskLoads(disk, metadataLimit, jobLimit, since, run);
    ReplayDistinct(final.results, Replay(final.submissions, map[]));
    assert line.id in Ids(final.results);
    LoadedKeys(final);
    assert Loaded(final)[line.id] == line;
  }

  lemma BootView(w: World, config: Config, run: LoadRun, id: JobId)
    requires LogsOK(w.disk) && Enabled(w, Restart(config, run))
    requires Loaded(w.disk).Keys <= w.used && DurableOK(Apply(w, Restart(config, run)))
    ensures ViewOK(id, ViewOf(Apply(w, Restart(config, run)), Apply(w, Restart(config, run)).server.value, id))
  {
    var w' := Apply(w, Restart(config, run));
    var s' := w'.server.value;
    RecoveredMeaning(w.disk, run, w.clock);
    forall line | line in Lines(w'.disk.results, id)
      ensures Terminal(line) && (id in s'.jobs ==> s'.jobs[id] == line)
    {
      LoadedAgreesWithLog(w.disk, config.metadataLimit, config.jobLimit, w.clock, run, line);
    }
    NoLines(w'.disk.results, id);
  }

  lemma BootOK(w: World, config: Config, run: LoadRun)
    requires JobsInv(w) && Enabled(w, Restart(config, run))
    ensures JobsInv(Apply(w, Restart(config, run)))
  {
    var writes := |DurableStates(w.disk, config.metadataLimit, run)|;
    var w' := Apply(w, Restart(config, run));
    FinalIsLast(w.disk, config.metadataLimit, run);
    RestartKeepsLogs(w.disk, config.metadataLimit, config.jobLimit, w.clock, run, writes);
    RestartKeys(w.disk, config.metadataLimit, config.jobLimit, w.clock, run, writes);
    RewritingKeepsDurable(w, FinalDisk(w.disk, config.metadataLimit, run));
    LoadedKeys(w.disk);
    forall id: JobId
      ensures ViewOK(id, ViewOf(w', w'.server.value, id))
    {
      BootView(w, config, run, id);
    }
  }

  lemma InterruptedRestartOK(w: World, config: Config, run: LoadRun, writes: nat)
    requires JobsInv(w) && Enabled(w, InterruptedRestart(config, run, writes))
    ensures JobsInv(Apply(w, InterruptedRestart(config, run, writes)))
  {
    RestartKeepsLogs(w.disk, config.metadataLimit, config.jobLimit, w.clock, run, writes);
    RestartKeys(w.disk, config.metadataLimit, config.jobLimit, w.clock, run, writes);
    RewritingKeepsDurable(w, StateAfter(w.disk, config.metadataLimit, run, writes));
  }

  // ----- every step -----

  /** Events that touch no job. */
  lemma OtherEventsKeepJobs(w: World, e: Event)
    requires JobsInv(w) && Enabled(w, e)
    requires e.DropSenders? || e.DetachedTaskEnds? || e.Tick? || e.Crash?
    ensures JobsInv(Apply(w, e))
  {
    if !e.Crash? && w.server.Some? {
      var s, w' := w.server.value, Apply(w, e);
      forall id: JobId
        ensures ViewOK(id, ViewOf(w', w'.server.value, id))
      {
        assert ViewOK(id, ViewOf(w, s, id));
        assert ViewOf(w', w'.server.value, id) == ViewOf(w, s, id);
      }
      assert QueueOK(s) && HoldersOK(s);
      var s' := w'.server.value;
      assert s'.queue == s.queue && s'.tickets == s.tickets && s'.workers == s.workers;
      QueueSame(s, s');
    }
  }

  lemma QueueSame(s: Server, s': Server)
    requires QueueOK(s) && HoldersOK(s)
    requires s'.queue == s.queue && s'.tickets == s.tickets && s'.workers == s.workers
    ensures QueueOK(s') && HoldersOK(s')
  {
    assert forall id, ticket :: HasTicket(s', id, ticket) == HasTicket(s, id, ticket);
  }

  lemma StepKeepsJobs(w: World, e: Event)
    requires JobsInv(w) && Enabled(w, e)
    ensures JobsInv(Apply(w, e))
  {
    match e
    case Submit(id, step) => SubmitKeepsJobs(w, w.server.value, id, step);
    case Work(i, work) => WorkKeepsJobs(w, w.server.value, i, work);
    case Restart(config, run) => BootOK(w, config, run);
    case InterruptedRestart(config, run, writes) => InterruptedRestartOK(w, config, run, writes);
    case _ => OtherEventsKeepJobs(w, e);
  }

  lemma {:induction false} RunKeepsJobs(from: World, events: seq<Event>, to: World)
    requires JobsInv(from) && Runs(from, events, to)
    ensures JobsInv(to)
    decreases |events|
  {
    if events != [] {
      StepKeepsJobs(from, events[0]);
      RunKeepsJobs(Apply(from, events[0]), events[1..], to);
    }
  }

  /** The invariant holds in every world the server can reach, across crashes and restarts. */
  lemma ReachableJobs(w: World)
    requires Reachable(w)
    ensures JobsInv(w)
  {
    var events :| Runs(INITIAL, events, w);
    RunKeepsJobs(INITIAL, events, w);
  }
}

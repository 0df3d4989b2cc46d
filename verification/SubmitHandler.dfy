/** The submit handler's enqueue path as straight-line code, and the protocol steps it takes. */
module SubmitHandler {
  import opened Records
  import opened MetadataLog
  import opened JobTables
  import opened Protocol
  import opened Store
  import opened Tasks
  import opened Traces

  /** What a handler shares with the rest of the process, as values. */
  datatype Shared = Shared(config: Config, jobs: JobMap, disk: Disk, queue: seq<JobId>, closed: bool)

  function SharedBy(w: World, s: Server): Shared {
    Shared(s.config, s.jobs, w.disk, s.queue, ReceiversGone(s))
  }

  ghost predicate SharedAt(t: Trace, shared: Shared) {
    ValidTrace(t) && t.now.server.Some? && SharedBy(t.now, t.now.server.value) == shared
  }

  /** `t` ends where the shared state is `shared` and the handler of `record` is at `ticket`. */
  ghost predicate At(t: Trace, shared: Shared, record: JobRecord, ticket: Ticket) {
    && SharedAt(t, shared)
    && HasTicket(t.now.server.value, record.id, ticket)
    && record.id in t.now.server.value.submitted && t.now.server.value.submitted[record.id] == record
  }

  lemma TakeBegin(t: Trace, shared: Shared, record: JobRecord) returns (after: Trace)
    requires SharedAt(t, shared) && !t.now.server.value.sendersGone && |shared.queue| < shared.config.queueSize
    requires record.id !in t.now.used && FreshlyQueued(record) && record.createdAt == record.updatedAt <= t.now.clock
    ensures At(after, shared, record, Checked) && after.start == t.start && after.now.clock == t.now.clock
  {
    after := Take(t, Submit(record.id, Begin(record)));
  }

  lemma TakeInsert(t: Trace, shared: Shared, record: JobRecord) returns (after: Trace)
    requires At(t, shared, record, Checked)
    ensures At(after, shared.(jobs := shared.jobs[record.id := record]), record, Inserted)
    ensures after.start == t.start && after.now.clock == t.now.clock
  {
    after := Take(t, Submit(record.id, SubmitStep.Insert));
  }

  lemma TakeLog(t: Trace, shared: Shared, record: JobRecord) returns (after: Trace)
    requires At(t, shared, record, Inserted)
    ensures At(after, shared.(disk := Disk(shared.disk.submissions + [record], shared.disk.results)), record, Appended)
    ensures after.start == t.start && after.now.clock == t.now.clock
  {
    after := Take(t, Submit(record.id, AppendSubmission));
  }

  lemma TakeAbandon(t: Trace, shared: Shared, record: JobRecord) returns (after: Trace)
    requires At(t, shared, record, Inserted)
    ensures At(after, shared, record, AppendAbandoned)
    ensures after.start == t.start && after.now.clock == t.now.clock
  {
    after := Take(t, Submit(record.id, AbandonSubmission));
  }

  /** Where `try_send` leaves the ticket. */
  function Sent(shared: Shared): Ticket {
    if shared.closed then Refused(QUEUE_CLOSED)
    else if |shared.queue| >= shared.config.queueSize then Refused(QUEUE_FULL)
    else InQueue
  }

  lemma TakeTrySend(t: Trace, shared: Shared, record: JobRecord) returns (after: Trace)
    requires At(t, shared, record, Appended)
    ensures At(after, if Sent(shared).InQueue? then shared.(queue := shared.queue + [record.id]) else shared,
               record, Sent(shared))
    ensures after.start == t.start && after.now.clock == t.now.clock
    ensures record.id in after.now.accepted <== Sent(shared).InQueue?
  {
    after := Take(t, Submit(record.id, TrySend));
  }

  lemma TakeWithdraw(t: Trace, shared: Shared, record: JobRecord, message: string) returns (after: Trace)
    requires At(t, shared, record, Refused(message))
    ensures At(after, shared.(jobs := shared.jobs - {record.id}), record, Withdrawn(message))
    ensures after.start == t.start && after.now.clock == t.now.clock
  {
    after := Take(t, Submit(record.id, Withdraw));
  }

  lemma TakeTick(t: Trace, shared: Shared, record: JobRecord, ticket: Ticket, now: Stamp) returns (after: Trace)
    requires At(t, shared, record, ticket) && t.now.clock <= now
    ensures At(after, shared, record, ticket) && after.start == t.start && after.now.clock == now
  {
    after := Take(t, Tick(now));
  }

  lemma TakeRefusal(t: Trace, shared: Shared, record: JobRecord, message: string, appended: bool) returns (after: Trace)
    requires At(t, shared, record, Withdrawn(message))
    ensures var line := Unqueued(record, message, t.now.clock);
            var disk := if appended then Disk(shared.disk.submissions, shared.disk.results + [line]) else shared.disk;
            At(after, shared.(disk := disk), record, if appended then Gone else RefusalAbandoned(message))
    ensures after.start == t.start
  {
    after := Take(t, Submit(record.id, if appended then AppendRefusal else AbandonRefusal));
  }

  /** The line of a submission that was not queued: failed, with the message and the moment, otherwise unchanged. */
  predicate Refusal(line: JobRecord, record: JobRecord, message: string, now: Stamp) {
    && SameJob(line, record) && line.status.Failed? && line.error == Some(message) && line.updatedAt == now
    && line.result == record.result
  }

  datatype Reply = Accepted(id: JobId) | InvalidTask | QueueFull | QueueClosed | PersistFailed

  class AppState {
    const config: Config
    const table: JobTable
    const store: MetadataStore
    var queue: seq<JobId>
    var closed: bool

    constructor (config: Config, table: JobTable, store: MetadataStore)
      ensures this.config == config && this.table == table && this.store == store && queue == [] && !closed
    {
      this.config, this.table, this.store := config, table, store;
      queue, closed := [], false;
    }

    ghost function State(): Shared
      reads this, table, store
    {
      Shared(config, table.jobs, store.OnDisk(), queue, closed)
    }

    /** `rollback_unqueued_record`: out of the table first, then a failed line in the results log. */
    method RollBack(record: JobRecord, message: string, now: Stamp, appended: bool, ghost t: Trace)
      returns (ghost after: Trace)
      requires At(t, State(), record, Refused(message)) && t.now.clock <= now
      modifies table, store
      ensures At(after, State(), record, if appended then Gone else RefusalAbandoned(message)) && after.start == t.start
      ensures table.jobs == old(table.jobs) - {record.id}
      ensures store.OnDisk() == if appended then
                Disk(old(store.submissions), old(store.results) + [Unqueued(record, message, now)])
              else
                old(store.OnDisk())
      ensures appended ==> store.results != [] && Refusal(store.results[|store.results| - 1], record, message, now)
    {
      after := TakeWithdraw(t, State(), record, message);
      table.Remove(record.id);
      after := TakeTick(after, State(), record, Withdrawn(message), now);
      after := TakeRefusal(after, State(), record, message, appended);
      if appended {
        var line := record.(status := Failed, updatedAt := now);
        line := line.(error := Some(message));
        store.AppendResult(line);
      }
    }

    /**
     * The second half of `enqueue_record`, from wherever other tasks have brought the
     * queue meanwhile.  A refusal whose rollback cannot be logged is reported as a
     * persistence error.
     */
    method SendOrRollBack(record: JobRecord, now: Stamp, appended: bool, ghost t: Trace)
      returns (reply: Reply, ghost after: Trace)
      requires At(t, State(), record, Appended) && t.now.clock <= now
      modifies this`queue, table, store
      ensures ValidTrace(after) && after.start == t.start && SharedAt(after, State())
      ensures reply == if !old(closed) && |old(queue)| < config.queueSize then Accepted(record.id)
                       else if !appended then PersistFailed
                       else if old(closed) then Reply.QueueClosed
                       else QueueFull
      ensures reply.Accepted? ==>
                queue == old(queue) + [record.id] && table.jobs == old(table.jobs) && store.OnDisk() == old(store.OnDisk())
      ensures !reply.Accepted? ==> queue == old(queue) && table.jobs == old(table.jobs) - {record.id}
      ensures reply.QueueFull? || reply.QueueClosed? ==>
                store.OnDisk() == Disk(old(store.submissions),
                  old(store.results) + [Unqueued(record, if reply.QueueFull? then QUEUE_FULL else QUEUE_CLOSED, now)])
                && Refusal(store.results[|store.results| - 1], record,
                           if reply.QueueFull? then QUEUE_FULL else QUEUE_CLOSED, now)
    {
      after := TakeTrySend(t, State(), record);
      if closed {
        after := RollBack(record, QUEUE_CLOSED, now, appended, after);
        reply := if appended then Reply.QueueClosed else PersistFailed;
      } else if |queue| >= config.queueSize {
        after := RollBack(record, QUEUE_FULL, now, appended, after);
        reply := if appended then QueueFull else PersistFailed;
      } else {
        queue := queue + [record.id];
        reply := Accepted(record.id);
      }
    }

    /**
     * The first half: task check, fullness check, insert, append.  `appended` says
     * whether the submission reached its log; if not, the record stays in the table.
     */
    method LogSubmission(record: JobRecord, appended: bool, ghost t: Trace)
      returns (failed: Option<Reply>, ghost after: Trace)
      requires SharedAt(t, State()) && !t.now.server.value.sendersGone
      requires record.id !in t.now.used && FreshlyQueued(record) && record.createdAt == record.updatedAt <= t.now.clock
      modifies table, store
      ensures SharedAt(after, State()) && after.start == t.start && after.now.clock == t.now.clock
      ensures failed.None? ==> At(after, State(), record, Appended)
      ensures failed == if JobRequestFromRecord(record).Err? then Some(InvalidTask)
                        else if |queue| >= config.queueSize then Some(QueueFull)
                        else if !appended then Some(PersistFailed)
                        else None
      ensures failed == Some(InvalidTask) || failed == Some(QueueFull) ==>
                after == t && table.jobs == old(table.jobs) && store.OnDisk() == old(store.OnDisk())
      ensures failed == Some(PersistFailed) ==>
                table.jobs == old(table.jobs)[record.id := record] && store.OnDisk() == old(store.OnDisk())
      ensures failed.None? ==>
                && table.jobs == old(table.jobs)[record.id := record]
                && store.OnDisk() == Disk(old(store.submissions) + [record], old(store.results))
    {
      after := t;
      if JobRequestFromRecord(record).Err? {
        return Some(InvalidTask), after;
      }
      if |queue| >= config.queueSize {
        return Some(QueueFull), after;
      }
      after := TakeBegin(t, State(), record);
      after := TakeInsert(after, State(), record);
      table.Insert(record);
      if !appended {
        after := TakeAbandon(after, State(), record);
        return Some(PersistFailed), after;
      }
      after := TakeLog(after, State(), record);
      store.AppendSubmission(record);
      failed := None;
    }
  }
}

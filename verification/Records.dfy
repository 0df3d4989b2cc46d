/** Job records, as the server keeps them in memory and writes them to its logs. */
module Records {

  datatype Option<+T> = None | Some(value: T)

  /** Counts a condition. */
  function One(b: bool): nat {
    if b then 1 else 0
  }

  type JobId = nat

  /** Wall-clock stamps; only their order matters. */
  type Stamp = nat

  datatype JobStatus = Queued | Running | Succeeded | Failed

  /** What a successful inference leaves behind. */
  datatype InferenceMetadata = InferenceMetadata(taskToken: string, generatedText: string, generatedTokens: nat)

  /** The part of a record that is fixed when the job is submitted. */
  datatype Submission = Submission(
    imagePath: string,
    inputKind: string,
    taskType: string,
    taskPrompt: string,
    textInput: Option<string>,
    webhookUrl: Option<string>)

  datatype JobRecord = JobRecord(
    id: JobId,
    status: JobStatus,
    createdAt: Stamp,
    updatedAt: Stamp,
    submission: Submission,
    result: Option<InferenceMetadata>,
    error: Option<string>)

  predicate Terminal(record: JobRecord) {
    record.status.Succeeded? || record.status.Failed?
  }

  /** The same job, as it was submitted. */
  predicate SameJob(a: JobRecord, b: JobRecord) {
    a.id == b.id && a.createdAt == b.createdAt && a.submission == b.submission
  }

  /** The record a submit handler builds. */
  predicate FreshlyQueued(record: JobRecord) {
    record.status.Queued? && record.result.None? && record.error.None?
  }

  function Ids(lines: seq<JobRecord>): set<JobId> {
    set record | record in lines :: record.id
  }

  predicate DistinctIds(lines: seq<JobRecord>) {
    forall i, j :: 0 <= i < j < |lines| ==> lines[i].id != lines[j].id
  }

  type JobMap = map<JobId, JobRecord>

  /** Every table the server builds maps an id to a record of that id. */
  predicate KeyedById(jobs: JobMap) {
    forall id :: id in jobs ==> jobs[id].id == id
  }

  lemma IdsOfConcat(a: seq<JobRecord>, b: seq<JobRecord>)
    ensures Ids(a + b) == Ids(a) + Ids(b)
  {
    forall id | id in Ids(a) + Ids(b)
      ensures id in Ids(a + b)
    {
      var record :| record in a + b && record.id == id;
    }
  }

  /** With distinct ids there are as many ids as lines. */
  lemma {:induction false} DistinctIdsCount(lines: seq<JobRecord>)
    requires DistinctIds(lines)
    ensures |Ids(lines)| == |lines|
  {
    if lines != [] {
      var n := |lines| - 1;
      var front := lines[..n];
      DistinctIdsCount(front);
      assert lines == front + [lines[n]];
      IdsOfConcat(front, [lines[n]]);
      assert Ids([lines[n]]) == {lines[n].id};
      assert lines[n].id !in Ids(front);
    }
  }
}

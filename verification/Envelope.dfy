/** The job envelope and the functions that derive one envelope from another. */
module Envelope {
  import opened Redis

  /** Ids, queue names and process ids are only ever compared for equality here. */
  type JobId(==,!new)
  type QueueName(==,!new)
  type ProcessId(==,!new)
  type JobName(==,!new)

  type Json = string

  datatype ConflictStrategy = Skip | Replace

  datatype JobData = JobData(name: JobName, args: Json)

  /** Times are microseconds since the epoch. */
  datatype JobMeta = JobMeta(
    id: JobId,
    retries: nat,
    unique: bool,
    onConflict: Option<ConflictStrategy>,
    createdAt: int,
    scheduledAt: int,
    startedAt: Option<int>,
    state: Option<Json>,
    resurrect: bool,
    error: Option<string>,
    throttleCost: Option<nat>)

  datatype JobEnvelope = JobEnvelope(id: JobId, job: JobData, queue: QueueName, meta: JobMeta)

  function Max(a: int, b: int): int {
    if a < b then b else a
  }

  /** The id names the occurrence: job name and time. */
  function NewCron(queue: QueueName, id: JobId, name: JobName, scheduledAt: int, resurrect: bool, now: int): JobEnvelope
  {
    JobEnvelope(id, JobData(name, "{}"), queue,
                JobMeta(id, 0, true, Some(Skip), now, Max(scheduledAt, now), None, None, resurrect, None, None))
  }

  function WithScheduledAt(e: JobEnvelope, at: int, now: int): JobEnvelope {
    e.(meta := e.meta.(scheduledAt := Max(at, now)))
  }

  function WithError(e: JobEnvelope, error: string): JobEnvelope {
    e.(meta := e.meta.(error := Some(error)))
  }

  function WithState(e: JobEnvelope, state: Option<Json>): JobEnvelope {
    e.(meta := e.meta.(state := state))
  }

  function WithStartedAt(e: JobEnvelope, at: int): JobEnvelope {
    e.(meta := e.meta.(startedAt := Some(at)))
  }

  function WithRetriesIncremented(e: JobEnvelope, error: string): JobEnvelope {
    JobEnvelope(e.id, e.job, e.queue,
                JobMeta(e.id, e.meta.retries + 1, e.meta.unique, e.meta.onConflict, e.meta.createdAt,
                        e.meta.scheduledAt, None, e.meta.state, e.meta.resurrect, Some(error),
                        e.meta.throttleCost))
  }
}

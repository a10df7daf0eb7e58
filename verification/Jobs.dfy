/** The values that travel through the relay: jobs, dead letters and journal rows
    (internal/job, internal/dlq, internal/journal) and the jobs a replay builds (internal/replay). */
module Jobs {
  import opened Common

  type Id = string

  /** An instant, or a duration, in nanoseconds. */
  type Time = int

  const SECOND: Time := 1_000_000_000
  const MILLISECOND: Time := 1_000_000

  newtype Byte = x: int | 0 <= x < 256
  type Bytes = seq<Byte>

  datatype Job = Job(
    frameId: Id, relayId: Id, storeId: Id, typ: string, body: Bytes,
    attempt: nat, notBefore: Time, createdAt: Time, replayOf: Option<Id>)

  /** How a POST ended (classify.Kind). */
  datatype Kind = Success | Retryable | Terminal

  /** The kind column of a journal row. */
  datatype RowKind = PostRow(kind: Kind) | SkippedOpen | RateDelayed | TerminalNote

  /** Why a job was dead-lettered; in the program the texts "store missing or disabled", "terminal http
      status" and "attempts exhausted". */
  datatype Reason = StoreUnavailable | TerminalStatus | AttemptsExhausted

  datatype DeadItem = DeadItem(
    deadAt: Time, reason: Reason, frameId: Id, relayId: Id, storeId: Id, typ: string,
    attempt: nat, body: Bytes, replayOf: Option<Id>)

  datatype Entry = Entry(
    at: Time, frameId: Id, relayId: Id, storeId: Id, attempt: nat, kind: RowKind,
    typ: string, body: Bytes, replayOf: Option<Id>)

  /** dueHeap.Less: by due time, ties broken by creation time. */
  predicate Before(a: Job, b: Job) {
    if a.notBefore == b.notBefore then a.createdAt < b.createdAt else a.notBefore < b.notBefore
  }

  function DeadFromJob(j: Job, reason: Reason, now: Time): DeadItem {
    DeadItem(now, reason, j.frameId, j.relayId, j.storeId, j.typ, j.attempt, j.body, j.replayOf)
  }

  function EntryFromJob(j: Job, kind: RowKind, now: Time): Entry {
    Entry(now, j.frameId, j.relayId, j.storeId, j.attempt, kind, j.typ, j.body, j.replayOf)
  }

  /** replay.FromDLQ; None is the "no stored body" error. `newId` is the newly minted relay id. */
  function JobFromDead(it: DeadItem, newId: Id, now: Time): Option<Job> {
    if |it.body| == 0 then None
    else Some(Job(it.frameId, newId, it.storeId, it.typ, it.body, 0, now, now, Some(it.relayId)))
  }

  /** replay.FromJournal. */
  function JobFromEntry(e: Entry, newId: Id, now: Time): Option<Job> {
    if |e.body| == 0 then None
    else Some(Job(e.frameId, newId, e.storeId, e.typ, e.body, 0, now, now, Some(e.relayId)))
  }
}

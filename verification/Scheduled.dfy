/** Dispatch of scheduled messages to conversations. The worker selects due jobs and takes each
    through a lookup, a send and a status update, every one its own transaction; it may stop between
    any two of them. Its message key is derived from the job, so that a later pass recognises what an
    earlier one delivered. Changing or cancelling a job needs the worker's lock; banning the author
    does not. */
module Scheduled {

  type UserId = nat
  type JobId = nat
  type ConversationId = nat

  datatype Status = Pending | Failed | Sent | Cancelled

  /** `tries` are the times of the counted attempts since the job was last (re)scheduled. */
  datatype Job = Job(
    user: UserId, destination: ConversationId, payload: nat, malformed: bool, sendAt: int,
    status: Status, attempts: nat, nextAttempt: int, tries: seq<int>)

  /** Client keys: those of scheduled jobs, and all others. */
  datatype ClientKey = OfJob(id: JobId) | OfClient(text: nat)

  datatype RowKey = RowKey(conversation: ConversationId, author: UserId, key: ClientKey)

  /** Message rows by their unique key, with the request they were made for; and what was created
      and deleted so far. */
  datatype Db = Db(jobs: map<JobId, Job>, rows: map<RowKey, nat>, created: seq<RowKey>, deleted: seq<RowKey>)

  const MAX_ATTEMPTS: nat := 5
  const BATCH: nat := 20

  function Doubled(n: nat, times: nat): nat { if times == 0 then n else 2 * Doubled(n, times - 1) }

  /** Seconds before the next attempt, after `attempts` earlier ones. */
  function Delay(attempts: nat): nat { Doubled(5, if attempts < 4 then attempts else 4) }

  // ---- The worker's transactions ----

  /** A selected job, as read at selection. */
  datatype Work = Work(id: JobId, user: UserId, destination: ConversationId, payload: nat, malformed: bool,
      attempts: nat)

  function KeyOf(work: Work): RowKey { RowKey(work.destination, work.user, OfJob(work.id)) }

  function JobKey(id: JobId, job: Job): RowKey { RowKey(job.destination, job.user, OfJob(id)) }

  datatype Result = Delivered | Refused(permanent: bool)

  function SetStatus(db: Db, id: JobId, job: Job): Db { db.(jobs := db.jobs[id := job]) }

  predicate Due(job: Job, now: int) { job.status.Pending? && job.sendAt <= now && job.nextAttempt <= now }

  predicate Reads(db: Db, work: Work) {
    && work.id in db.jobs
    && var job := db.jobs[work.id];
    && job.user == work.user && job.destination == work.destination && job.payload == work.payload
    && job.malformed == work.malformed && job.attempts == work.attempts
  }

  predicate Selects(db: Db, now: int, queue: seq<Work>) {
    && |queue| <= BATCH
    && (forall i | 0 <= i < |queue| :: Reads(db, queue[i]) && Due(db.jobs[queue[i].id], now))
    && (forall i, j | 0 <= i < j < |queue| :: queue[i].id != queue[j].id)
  }

  /** Without regard to the job's current status. */
  function MarkMalformed(db: Db, now: int, work: Work): Db {
    if work.id !in db.jobs then db
    else
      var job := db.jobs[work.id];
      SetStatus(db, work.id, job.(status := Failed, attempts := job.attempts + 1, tries := job.tries + [now]))
  }

  /** Without regard to the job's current status. */
  function MarkDelivered(db: Db, work: Work): Db {
    if work.id !in db.jobs then db else SetStatus(db, work.id, db.jobs[work.id].(status := Sent))
  }

  function Insert(db: Db, key: RowKey, request: nat): Db {
    db.(rows := db.rows[key := request], created := db.created + [key])
  }

  /** One transaction: a key that exists is replayed for the same request and refused for another. */
  function CreateDirect(db: Db, key: RowKey, request: nat, refusal: Result): (Db, Result) {
    if refusal.Refused? then (db, refusal)
    else if key in db.rows then (db, if db.rows[key] == request then Delivered else Refused(true))
    else (Insert(db, key, request), Delivered)
  }

  function Outcome(work: Work, now: int, result: Result): (Status, int) {
    match result
    case Delivered => (Sent, 0)
    case Refused(permanent) =>
      if !permanent && work.attempts + 1 < MAX_ATTEMPTS then (Pending, now + Delay(work.attempts)) else (Failed, 0)
  }

  /** Only while the job is still pending. */
  function Record(db: Db, now: int, work: Work, result: Result): Db {
    if work.id !in db.jobs || !db.jobs[work.id].status.Pending? then db
    else
      SetStatus(db, work.id, Recorded(db.jobs[work.id], now, work, result))
  }

  // ---- Interleavings ----

  /** `lost` tells whether the message has been deleted, and not posted again, since the worker last
      saw or made it. */
  datatype Worker =
    | Idle
    | Next(now: int, queue: seq<Work>)
    | Looked(now: int, work: Work, found: bool, lost: bool, queue: seq<Work>)
    | Tried(now: int, work: Work, result: Result, lost: bool, queue: seq<Work>)

  function Touched(worker: Worker, key: RowKey, lost: bool): Worker {
    if (worker.Looked? || worker.Tried?) && KeyOf(worker.work) == key then worker.(lost := lost) else worker
  }

  datatype World = World(db: Db, worker: Worker)

  datatype Step =
    | Schedule(id: JobId, job: Job)
    | Reschedule(id: JobId, destination: ConversationId, payload: nat, sendAt: int)
    | Cancel(id: JobId)
    | Ban(user: UserId)
    | Post(key: RowKey, request: nat)
    | Delete(key: RowKey)
    | Select(now: int, queue: seq<Work>)
    | Malformed
    | Look
    | Found
    | Send(refusal: Result)
    | Update
    | Stop

  predicate Open(job: Job) { job.status.Pending? || job.status.Failed? }

  /** Messages of a saved conversation can be deleted by their owner. */
  function Deleted(db: Db, key: RowKey): Db { db.(rows := db.rows - {key}, deleted := db.deleted + [key]) }

  function Banned(db: Db, user: UserId): Db {
    db.(jobs := map id | id in db.jobs ::
      if db.jobs[id].user == user && Open(db.jobs[id]) then db.jobs[id].(status := Cancelled) else db.jobs[id])
  }

  function WorkerStep(w: World, step: Step): World {
    match w.worker
    case Idle =>
      if step.Select? && Selects(w.db, step.now, step.queue) then w.(worker := Next(step.now, step.queue)) else w
    case Next(now, queue) =>
      if queue == [] then w
      else if step.Malformed? && queue[0].malformed then
        World(MarkMalformed(w.db, now, queue[0]), Next(now, queue[1..]))
      else if step.Look? && !queue[0].malformed then
        w.(worker := Looked(now, queue[0], KeyOf(queue[0]) in w.db.rows, false, queue[1..]))
      else w
    case Looked(now, work, found, lost, queue) =>
      if step.Found? && found then World(MarkDelivered(w.db, work), Next(now, queue))
      else if step.Send? && !found then
        var (db, result) := CreateDirect(w.db, KeyOf(work), work.payload, step.refusal);
        World(db, Tried(now, work, result, false, queue))
      else w
    case Tried(now, work, result, lost, queue) =>
      if step.Update? then World(Record(w.db, now, work, result), Next(now, queue)) else w
  }

  function Apply(w: World, step: Step): World {
    match step
    case Schedule(id, job) =>
      if id in w.db.jobs || !w.worker.Idle? then w
      else w.(db := SetStatus(w.db, id, job.(status := Pending, attempts := 0, nextAttempt := 0, tries := [])))
    case Reschedule(id, destination, payload, sendAt) =>
      if id !in w.db.jobs || !Open(w.db.jobs[id]) || w.db.jobs[id].malformed || !w.worker.Idle? then w
      else
        w.(db := SetStatus(w.db, id, w.db.jobs[id].(destination := destination, payload := payload, sendAt := sendAt,
                                                    status := Pending, attempts := 0, nextAttempt := 0, tries := [])))
    case Cancel(id) =>
      if id !in w.db.jobs || !Open(w.db.jobs[id]) || !w.worker.Idle? then w
      else w.(db := SetStatus(w.db, id, w.db.jobs[id].(status := Cancelled)))
    case Ban(user) => w.(db := Banned(w.db, user))
    case Post(key, request) =>
      World(CreateDirect(w.db, key, request, Delivered).0, Touched(w.worker, key, false))
    case Delete(key) =>
      if key in w.db.rows then World(Deleted(w.db, key), Touched(w.worker, key, true)) else w
    case Stop => w.(worker := Idle)
    case _ => WorkerStep(w, step)
  }

  function Exec(w: World, steps: seq<Step>): World
    decreases |steps|
  {
    if steps == [] then w else Exec(Apply(w, steps[0]), steps[1..])
  }

  const START := World(Db(map[], map[], [], []), Idle)

  // ---- Messages are created once ----

  ghost function Count(keys: seq<RowKey>, key: RowKey): nat { multiset(keys)[key] }

  /** A row exists exactly when its key was created once more than it was deleted. */
  ghost predicate RowsExact(db: Db) {
    forall key: RowKey :: Count(db.created, key) == Count(db.deleted, key) + (if key in db.rows then 1 else 0)
  }

  lemma InsertExact(db: Db, key: RowKey, request: nat)
    requires RowsExact(db) && key !in db.rows
    ensures RowsExact(Insert(db, key, request))
  {
    var e := Insert(db, key, request);
    forall k: RowKey ensures Count(e.created, k) == Count(e.deleted, k) + (if k in e.rows then 1 else 0) {
      assert Count(e.created, k) == Count(db.created, k) + if k == key then 1 else 0;
      assert Count(db.created, k) == Count(db.deleted, k) + (if k in db.rows then 1 else 0);
    }
  }

  lemma DeleteExact(db: Db, key: RowKey)
    requires RowsExact(db) && key in db.rows
    ensures RowsExact(Deleted(db, key))
  {
    var e := Deleted(db, key);
    forall k: RowKey ensures Count(e.created, k) == Count(e.deleted, k) + (if k in e.rows then 1 else 0) {
      assert Count(e.deleted, k) == Count(db.deleted, k) + if k == key then 1 else 0;
      assert Count(db.created, k) == Count(db.deleted, k) + (if k in db.rows then 1 else 0);
    }
  }

  lemma SameRows(db: Db, e: Db)
    requires RowsExact(db) && e.rows == db.rows && e.created == db.created && e.deleted == db.deleted
    ensures RowsExact(e)
  {
    forall k: RowKey ensures Count(e.created, k) == Count(e.deleted, k) + (if k in e.rows then 1 else 0) {
      assert Count(db.created, k) == Count(db.deleted, k) + (if k in db.rows then 1 else 0);
    }
  }

  lemma CreateExact(db: Db, key: RowKey, request: nat, refusal: Result)
    requires RowsExact(db)
    ensures RowsExact(CreateDirect(db, key, request, refusal).0)
  {
    if refusal.Delivered? && key !in db.rows { InsertExact(db, key, request); }
  }

  lemma WorkerExact(w: World, step: Step)
    requires RowsExact(w.db)
    ensures RowsExact(WorkerStep(w, step).db)
  {
    match w.worker {
      case Idle =>
      case Next(now, queue) => SameRows(w.db, WorkerStep(w, step).db);
      case Looked(now, work, found, lost, queue) =>
        if step.Send? { CreateExact(w.db, KeyOf(work), work.payload, step.refusal); }
        SameRows(w.db, MarkDelivered(w.db, work));
      case Tried(now, work, result, lost, queue) => SameRows(w.db, Record(w.db, now, work, result));
    }
  }

  lemma JobStepSame(w: World, step: Step)
    requires step.Schedule? || step.Reschedule? || step.Cancel? || step.Ban?
    ensures var e := Apply(w, step).db; e.rows == w.db.rows && e.created == w.db.created && e.deleted == w.db.deleted
  {
  }

  lemma JobStepExact(w: World, step: Step)
    requires RowsExact(w.db) && (step.Schedule? || step.Reschedule? || step.Cancel? || step.Ban?)
    ensures RowsExact(Apply(w, step).db)
  {
    JobStepSame(w, step);
    SameRows(w.db, Apply(w, step).db);
  }

  lemma ApplyExact(w: World, step: Step)
    requires RowsExact(w.db)
    ensures RowsExact(Apply(w, step).db)
  {
    match step {
      case Schedule(id, job) => JobStepExact(w, step);
      case Reschedule(id, destination, payload, sendAt) => JobStepExact(w, step);
      case Cancel(id) => JobStepExact(w, step);
      case Ban(user) => JobStepExact(w, step);
      case Post(key, request) => CreateExact(w.db, key, request, Delivered);
      case Delete(key) => if key in w.db.rows { DeleteExact(w.db, key); }
      case Stop =>
      case _ => WorkerExact(w, step);
    }
  }

  lemma {:induction false} ExecExact(w: World, steps: seq<Step>)
    requires RowsExact(w.db)
    ensures RowsExact(Exec(w, steps).db)
    decreases |steps|
  {
    if steps != [] {
      ApplyExact(w, steps[0]);
      ExecExact(Apply(w, steps[0]), steps[1..]);
    }
  }

  // ---- Jobs ----

  /** Attempts never come sooner than the delay after the one before. */
  ghost predicate Spaced(tries: seq<int>) {
    forall k | 0 < k < |tries| :: tries[k - 1] + Delay(k - 1) <= tries[k]
  }

  /** The delay after the last attempt has passed. */
  ghost predicate Ready(job: Job, now: int) {
    |job.tries| > 0 ==> job.tries[|job.tries| - 1] + Delay(|job.tries| - 1) <= now
  }

  ghost predicate JobSound(job: Job) {
    && |job.tries| == job.attempts <= MAX_ATTEMPTS && Spaced(job.tries)
    && (job.status.Pending? ==> job.attempts < MAX_ATTEMPTS && Ready(job, job.nextAttempt))
  }

  ghost predicate JobsSound(db: Db) {
    forall id | id in db.jobs :: JobSound(db.jobs[id]) && (db.jobs[id].status.Sent? ==>
        JobKey(id, db.jobs[id]) in db.created)
  }

  /** A selected job is as it was read; at most a ban has cancelled it. */
  ghost predicate WorkSound(db: Db, now: int, work: Work) {
    && Reads(db, work)
    && var job := db.jobs[work.id];
    && (job.status.Pending? || job.status.Cancelled?) && job.attempts < MAX_ATTEMPTS && Ready(job, now)
    && job.sendAt <= now
  }

  ghost predicate QueueSound(db: Db, now: int, queue: seq<Work>) {
    && |queue| <= BATCH
    && (forall i | 0 <= i < |queue| :: WorkSound(db, now, queue[i]))
    && (forall i, j | 0 <= i < j < |queue| :: queue[i].id != queue[j].id)
  }

  ghost predicate Ahead(work: Work, queue: seq<Work>) { forall i | 0 <= i < |queue| :: queue[i].id != work.id }

  ghost predicate WorkerSound(w: World) {
    match w.worker
    case Idle => true
    case Next(now, queue) => QueueSound(w.db, now, queue)
    case Looked(now, work, found, lost, queue) =>
      && WorkSound(w.db, now, work) && QueueSound(w.db, now, queue) && Ahead(work, queue)
      && (found ==> KeyOf(work) in w.db.created) && !work.malformed
    case Tried(now, work, result, lost, queue) =>
      && WorkSound(w.db, now, work) && QueueSound(w.db, now, queue) && Ahead(work, queue)
      && (result.Delivered? ==> KeyOf(work) in w.db.created) && !work.malformed
  }

  ghost predicate Inv(w: World) { RowsExact(w.db) && JobsSound(w.db) && WorkerSound(w) }

  lemma CreatedIfRow(db: Db, key: RowKey)
    requires RowsExact(db) && key in db.rows
    ensures key in db.created
  {
    assert Count(db.created, key) > 0;
  }

  /** Another job changes. */
  lemma QueueKept(db: Db, e: Db, now: int, queue: seq<Work>, id: JobId)
    requires QueueSound(db, now, queue) && forall i | 0 <= i < |queue| :: queue[i].id != id
    requires forall j | j in db.jobs && j != id :: j in e.jobs && e.jobs[j] == db.jobs[j]
    ensures QueueSound(e, now, queue)
  {
    forall i | 0 <= i < |queue| ensures WorkSound(e, now, queue[i]) { assert WorkSound(db, now, queue[i]); }
  }

  lemma TailSound(db: Db, now: int, queue: seq<Work>)
    requires QueueSound(db, now, queue) && queue != []
    ensures QueueSound(db, now, queue[1..]) && Ahead(queue[0], queue[1..]) && WorkSound(db, now, queue[0])
  {
    forall i | 0 <= i < |queue| - 1 ensures WorkSound(db, now, queue[1..][i]) && queue[1..][i].id != queue[0].id {
      assert queue[1..][i] == queue[i + 1];
    }
  }

  lemma TryAdded(job: Job, now: int)
    requires |job.tries| == job.attempts < MAX_ATTEMPTS && Spaced(job.tries) && Ready(job, now)
    ensures Spaced(job.tries + [now]) && |job.tries + [now]| == job.attempts + 1
  {
  }

  lemma SelectSound(db: Db, now: int, queue: seq<Work>)
    requires JobsSound(db) && Selects(db, now, queue)
    ensures QueueSound(db, now, queue)
  {
    forall i | 0 <= i < |queue| ensures WorkSound(db, now, queue[i]) {
      assert Due(db.jobs[queue[i].id], now) && JobSound(db.jobs[queue[i].id]);
    }
  }

  lemma MalformedSound(w: World, now: int, queue: seq<Work>)
    requires Inv(w) && w.worker == Next(now, queue) && queue != []
    ensures Inv(World(MarkMalformed(w.db, now, queue[0]), Next(now, queue[1..])))
  {
    TailSound(w.db, now, queue);
    var db := MarkMalformed(w.db, now, queue[0]);
    var job := w.db.jobs[queue[0].id];
    assert JobSound(job);
    TryAdded(job, now);
    QueueKept(w.db, db, now, queue[1..], queue[0].id);
    SameRows(w.db, db);
  }

  lemma FoundSound(w: World, now: int, work: Work, lost: bool, queue: seq<Work>)
    requires Inv(w) && w.worker == Looked(now, work, true, lost, queue)
    ensures Inv(World(MarkDelivered(w.db, work), Next(now, queue)))
  {
    var db := MarkDelivered(w.db, work);
    assert JobSound(w.db.jobs[work.id]);
    QueueKept(w.db, db, now, queue, work.id);
    SameRows(w.db, db);
  }

  function Recorded(job: Job, now: int, work: Work, result: Result): Job {
    var (status, next) := Outcome(work, now, result);
    job.(status := status, attempts := job.attempts + 1, nextAttempt := next, tries := job.tries + [now])
  }

  lemma RecordedSound(job: Job, now: int, work: Work, result: Result)
    requires JobSound(job) && job.status.Pending? && job.attempts == work.attempts && Ready(job, now)
    ensures JobSound(Recorded(job, now, work, result))
  {
    TryAdded(job, now);
  }

  /** One job changes; sent only if its message was created. */
  lemma SetSound(db: Db, id: JobId, job: Job)
    requires RowsExact(db) && JobsSound(db) && JobSound(job) && (job.status.Sent? ==> JobKey(id, job) in db.created)
    ensures RowsExact(SetStatus(db, id, job)) && JobsSound(SetStatus(db, id, job))
  {
    SameRows(db, SetStatus(db, id, job));
  }

  lemma UpdateSound(w: World, now: int, work: Work, result: Result, lost: bool, queue: seq<Work>)
    requires Inv(w) && w.worker == Tried(now, work, result, lost, queue)
    ensures Inv(World(Record(w.db, now, work, result), Next(now, queue)))
  {
    var job := w.db.jobs[work.id];
    assert JobSound(job);
    if job.status.Pending? {
      RecordedSound(job, now, work, result);
      SetSound(w.db, work.id, Recorded(job, now, work, result));
      QueueKept(w.db, SetStatus(w.db, work.id, Recorded(job, now, work, result)), now, queue, work.id);
    }
  }

  /** Rows change, and the log of what was created only grows. */
  lemma RowsSound(w: World, e: Db, key: RowKey, lost: bool)
    requires Inv(w) && RowsExact(e) && e.jobs == w.db.jobs && forall k | k in w.db.created :: k in e.created
    ensures Inv(World(e, w.worker)) && Inv(World(e, Touched(w.worker, key, lost)))
  {
    match w.worker {
      case Idle =>
      case Next(now, queue) => SameJobsQueue(w.db, e, now, queue);
      case Looked(now, work, found, lost, queue) =>
        assert WorkSound(e, now, work);
        SameJobsQueue(w.db, e, now, queue);
      case Tried(now, work, result, lost, queue) =>
        assert WorkSound(e, now, work);
        SameJobsQueue(w.db, e, now, queue);
    }
  }

  lemma SameJobsQueue(db: Db, e: Db, now: int, queue: seq<Work>)
    requires QueueSound(db, now, queue) && e.jobs == db.jobs
    ensures QueueSound(e, now, queue)
  {
    forall i | 0 <= i < |queue| ensures WorkSound(e, now, queue[i]) { assert WorkSound(db, now, queue[i]); }
  }

  lemma SendSound(w: World, now: int, work: Work, lost: bool, queue: seq<Work>, refusal: Result)
    requires Inv(w) && w.worker == Looked(now, work, false, lost, queue)
    ensures var (db, result) := CreateDirect(w.db, KeyOf(work), work.payload, refusal);
            Inv(World(db, Tried(now, work, result, false, queue)))
  {
    var (db, result) := CreateDirect(w.db, KeyOf(work), work.payload, refusal);
    CreateExact(w.db, KeyOf(work), work.payload, refusal);
    RowsSound(w, db, KeyOf(work), lost);
    if result.Delivered? { CreatedIfRow(db, KeyOf(work)); }
  }

  lemma WorkerInv(w: World, step: Step)
    requires Inv(w)
    ensures Inv(WorkerStep(w, step))
  {
    match w.worker {
      case Idle => if step.Select? && Selects(w.db, step.now, step.queue) { SelectSound(w.db, step.now, step.queue); }
      case Next(now, queue) =>
        if queue != [] {
          TailSound(w.db, now, queue);
          if step.Malformed? { MalformedSound(w, now, queue); }
          if KeyOf(queue[0]) in w.db.rows { CreatedIfRow(w.db, KeyOf(queue[0])); }
        }
      case Looked(now, work, found, lost, queue) =>
        if step.Found? && found { FoundSound(w, now, work, lost, queue); }
        if step.Send? && !found { SendSound(w, now, work, lost, queue, step.refusal); }
      case Tried(now, work, result, lost, queue) => UpdateSound(w, now, work, result, lost, queue);
    }
  }

  lemma BanJobs(db: Db, user: UserId)
    requires RowsExact(db) && JobsSound(db)
    ensures RowsExact(Banned(db, user)) && JobsSound(Banned(db, user))
  {
    var e := Banned(db, user);
    SameRows(db, e);
    forall id | id in e.jobs
      ensures JobSound(e.jobs[id]) && (e.jobs[id].status.Sent? ==> JobKey(id, e.jobs[id]) in e.created)
    {
      assert JobSound(db.jobs[id]);
    }
  }

  lemma BanSound(w: World, user: UserId)
    requires Inv(w)
    ensures Inv(w.(db := Banned(w.db, user)))
  {
    BanJobs(w.db, user);
    match w.worker {
      case Idle =>
      case Next(now, queue) => BanQueue(w.db, user, now, queue);
      case Looked(now, work, found, lost, queue) =>
        BanWork(w.db, user, now, work);
        BanQueue(w.db, user, now, queue);
      case Tried(now, work, result, lost, queue) =>
        BanWork(w.db, user, now, work);
        BanQueue(w.db, user, now, queue);
    }
  }

  lemma BanWork(db: Db, user: UserId, now: int, work: Work)
    requires WorkSound(db, now, work)
    ensures WorkSound(Banned(db, user), now, work)
  {
  }

  lemma BanQueue(db: Db, user: UserId, now: int, queue: seq<Work>)
    requires QueueSound(db, now, queue)
    ensures QueueSound(Banned(db, user), now, queue)
  {
    forall i | 0 <= i < |queue| ensures WorkSound(Banned(db, user), now, queue[i]) {
      assert WorkSound(db, now, queue[i]);
    }
  }

  lemma IdleSound(w: World, id: JobId, job: Job)
    requires Inv(w) && w.worker.Idle? && JobSound(job) && !job.status.Sent?
    ensures Inv(w.(db := SetStatus(w.db, id, job)))
  {
    SameRows(w.db, SetStatus(w.db, id, job));
  }

  lemma ScheduleInv(w: World, id: JobId, job: Job)
    requires Inv(w)
    ensures Inv(Apply(w, Schedule(id, job)))
  {
    if id !in w.db.jobs && w.worker.Idle? {
      IdleSound(w, id, job.(status := Pending, attempts := 0, nextAttempt := 0, tries := []));
    }
  }

  lemma RescheduleInv(w: World, id: JobId, destination: ConversationId, payload: nat, sendAt: int)
    requires Inv(w)
    ensures Inv(Apply(w, Reschedule(id, destination, payload, sendAt)))
  {
    if id in w.db.jobs && Open(w.db.jobs[id]) && w.worker.Idle? {
      IdleSound(w, id, w.db.jobs[id].(destination := destination, payload := payload, sendAt := sendAt,
                                      status := Pending, attempts := 0, nextAttempt := 0, tries := []));
    }
  }

  lemma CancelInv(w: World, id: JobId)
    requires Inv(w)
    ensures Inv(Apply(w, Cancel(id)))
  {
    if id in w.db.jobs && Open(w.db.jobs[id]) && w.worker.Idle? {
      assert JobSound(w.db.jobs[id]);
      IdleSound(w, id, w.db.jobs[id].(status := Cancelled));
    }
  }

  lemma PostInv(w: World, key: RowKey, request: nat)
    requires Inv(w)
    ensures Inv(Apply(w, Post(key, request)))
  {
    var db := CreateDirect(w.db, key, request, Delivered).0;
    CreateExact(w.db, key, request, Delivered);
    RowsSound(w, db, key, false);
    assert Apply(w, Post(key, request)) == World(db, Touched(w.worker, key, false));
  }

  lemma DeleteInv(w: World, key: RowKey)
    requires Inv(w)
    ensures Inv(Apply(w, Delete(key)))
  {
    if key in w.db.rows {
      DeleteExact(w.db, key);
      RowsSound(w, Deleted(w.db, key), key, true);
      assert Apply(w, Delete(key)) == World(Deleted(w.db, key), Touched(w.worker, key, true));
    }
  }

  lemma ApplyInv(w: World, step: Step)
    requires Inv(w)
    ensures Inv(Apply(w, step))
  {
    match step {
      case Schedule(id, job) => ScheduleInv(w, id, job);
      case Reschedule(id, destination, payload, sendAt) => RescheduleInv(w, id, destination, payload, sendAt);
      case Cancel(id) => CancelInv(w, id);
      case Ban(user) => BanSound(w, user);
      case Post(key, request) => PostInv(w, key, request);
      case Delete(key) => DeleteInv(w, key);
      case Stop =>
      case _ => WorkerInv(w, step);
    }
  }

  lemma {:induction false} ExecInv(w: World, steps: seq<Step>)
    requires Inv(w)
    ensures Inv(Exec(w, steps))
    decreases |steps|
  {
    if steps != [] {
      ApplyInv(w, steps[0]);
      ExecInv(Apply(w, steps[0]), steps[1..]);
    }
  }

  // ---- Main results ----

  /** Main result: a message key is created once more often than it is deleted while its message exists,
      and as often otherwise. So a job sends at most one message to a conversation if and only if its
      deletions, and the message that exists, are at most one together; SendRepeatsExactly tells before
      a send whether it is the one too many. */
  lemma AtMostOneMessage(steps: seq<Step>, key: RowKey)
    ensures var db := Exec(START, steps).db;
            && Count(db.created, key) <= 1 + Count(db.deleted, key)
            && (key in db.rows <==> Count(db.created, key) == 1 + Count(db.deleted, key))
            && (Count(db.created, key) <= 1 <==> Count(db.deleted, key) + (if key in db.rows then 1 else 0) <= 1)
  {
    ExecExact(START, steps);
    var db := Exec(START, steps).db;
    assert Count(db.created, key) == Count(db.deleted, key) + (if key in db.rows then 1 else 0);
  }

  /** Main result: a job is recorded as sent only if the message with its key was created, and the
      message exists unless that very message was deleted. */
  lemma SentMeansCreated(steps: seq<Step>, id: JobId)
    requires var db := Exec(START, steps).db; id in db.jobs && db.jobs[id].status.Sent?
    ensures var db := Exec(START, steps).db;
            var key := JobKey(id, db.jobs[id]);
            key in db.created && (key !in db.rows ==> Count(db.deleted, key) > 0)
  {
    ExecInv(START, steps);
    var db := Exec(START, steps).db;
    var key := JobKey(id, db.jobs[id]);
    assert Count(db.created, key) == Count(db.deleted, key) + (if key in db.rows then 1 else 0);
  }

  /** The worker's bit is right: what it saw or made exists unless it was deleted since. */
  ghost predicate LostExact(w: World) {
    match w.worker
    case Looked(_, work, found, lost, _) => found ==> (KeyOf(work) in w.db.rows <==> !lost)
    case Tried(_, work, result, lost, _) => result.Delivered? ==> (KeyOf(work) in w.db.rows <==> !lost)
    case _ => true
  }

  lemma LostStep(w: World, step: Step)
    requires LostExact(w)
    ensures LostExact(Apply(w, step))
  {
    match step {
      case Schedule(_, _) => JobStepSame(w, step);
      case Reschedule(_, _, _, _) => JobStepSame(w, step);
      case Cancel(_) => JobStepSame(w, step);
      case Ban(_) => JobStepSame(w, step);
      case Post(_, _) =>
      case Delete(_) =>
      case Stop =>
      case _ =>
        match w.worker {
          case Idle =>
          case Next(_, _) =>
          case Looked(_, _, _, _, _) =>
          case Tried(_, _, _, _, _) =>
        }
    }
  }

  lemma {:induction false} ExecLost(w: World, steps: seq<Step>)
    requires LostExact(w)
    ensures LostExact(Exec(w, steps))
    decreases |steps|
  {
    if steps != [] {
      LostStep(w, steps[0]);
      ExecLost(Apply(w, steps[0]), steps[1..]);
    }
  }

  /** Only the worker records a job as sent, after it found or made the message. */
  ghost predicate Recording(w: World, id: JobId) {
    || (w.worker.Looked? && w.worker.work.id == id && w.worker.found)
    || (w.worker.Tried? && w.worker.work.id == id && w.worker.result.Delivered?)
  }

  lemma RecordedByWorker(w: World, step: Step, id: JobId)
    requires Inv(w) && id in w.db.jobs && !w.db.jobs[id].status.Sent?
    requires id in Apply(w, step).db.jobs && Apply(w, step).db.jobs[id].status.Sent?
    ensures Recording(w, id) && Apply(w, step).db.rows == w.db.rows
    ensures JobKey(id, Apply(w, step).db.jobs[id]) == KeyOf(w.worker.work)
  {
    match w.worker {
      case Idle =>
      case Next(now, queue) => if queue != [] { TailSound(w.db, now, queue); }
      case Looked(now, work, found, lost, queue) =>
      case Tried(now, work, result, lost, queue) =>
    }
  }

  /** Main result: at the step that records a job as sent, its message exists if and only if it was not
      deleted since the worker saw or made it. */
  lemma SentRecordedExactly(before: seq<Step>, step: Step, id: JobId)
    requires var w := Exec(START, before);
             var v := Apply(w, step);
             && id in w.db.jobs && !w.db.jobs[id].status.Sent? && id in v.db.jobs && v.db.jobs[id].status.Sent?
    ensures var w := Exec(START, before);
            var v := Apply(w, step);
            Recording(w, id) && (JobKey(id, v.db.jobs[id]) in v.db.rows <==> !w.worker.lost)
  {
    ExecInv(START, before);
    ExecLost(START, before);
    RecordedByWorker(Exec(START, before), step, id);
  }

  /** Main result: a send repeats a message if and only if it was deleted and not posted again. */
  lemma SendRepeatsExactly(before: seq<Step>)
    requires var w := Exec(START, before).worker; w.Looked? && !w.found
    ensures var w := Exec(START, before);
            var key := KeyOf(w.worker.work);
            var v := Apply(w, Send(Delivered));
            Count(v.db.created, key) > Count(w.db.created, key) >= 1
            <==> key !in w.db.rows && Count(w.db.deleted, key) > 0
  {
    var w := Exec(START, before);
    var key := KeyOf(w.worker.work);
    var v := Apply(w, Send(Delivered));
    ExecExact(START, before);
    ApplyExact(w, Send(Delivered));
    assert Count(w.db.created, key) == Count(w.db.deleted, key) + (if key in w.db.rows then 1 else 0);
    assert Count(v.db.created, key) == Count(v.db.deleted, key) + (if key in v.db.rows then 1 else 0);
  }

  /** Main result: since it was last scheduled a job has at most five counted attempts, and they are at
      least 5, 10, 20 and 40 seconds apart. */
  lemma AttemptsSpaced(steps: seq<Step>, id: JobId)
    requires id in Exec(START, steps).db.jobs
    ensures var job := Exec(START, steps).db.jobs[id];
            && |job.tries| == job.attempts <= 5
            && (job.attempts > 1 ==> job.tries[1] >= job.tries[0] + 5)
            && (job.attempts > 2 ==> job.tries[2] >= job.tries[1] + 10)
            && (job.attempts > 3 ==> job.tries[3] >= job.tries[2] + 20)
            && (job.attempts > 4 ==> job.tries[4] >= job.tries[3] + 40)
            && (job.status.Pending? ==> job.attempts < 5)
  {
    ExecInv(START, steps);
    assert JobSound(Exec(START, steps).db.jobs[id]);
    assert Doubled(5, 0) == 5 && Doubled(5, 1) == 10 && Doubled(5, 2) == 20 && Doubled(5, 3) == 40;
    assert Delay(0) == 5 && Delay(1) == 10 && Delay(2) == 20 && Delay(3) == 40;
  }

  /** Main result: the worker takes up at most twenty jobs at once, and none before its time, malformed, or
      more often than five times. */
  lemma NothingEarly(steps: seq<Step>)
    ensures var w := Exec(START, steps);
            match w.worker
            case Idle => true
            case Next(now, queue) =>
              |queue| <= 20 && forall i | 0 <= i < |queue| ::
                queue[i].id in w.db.jobs && w.db.jobs[queue[i].id].sendAt <= now && w.db.jobs[queue[i].id].attempts < 5
            case Looked(now, work, _, _, _) =>
              && work.id in w.db.jobs && w.db.jobs[work.id].sendAt <= now && w.db.jobs[work.id].attempts < 5
              && !w.db.jobs[work.id].malformed
            case Tried(now, work, _, _, _) =>
              && work.id in w.db.jobs && w.db.jobs[work.id].sendAt <= now && w.db.jobs[work.id].attempts < 5
              && !w.db.jobs[work.id].malformed
  {
    ExecInv(START, steps);
    var w := Exec(START, steps);
    if w.worker.Next? {
      forall i | 0 <= i < |w.worker.queue| ensures WorkSound(w.db, w.worker.now, w.worker.queue[i]) {}
    }
  }

  /** What users and moderators do to jobs: a cancellation takes effect exactly on a pending or failed job
      while the worker rests, a change exactly on such a job that is well-formed, and a ban exactly on such
      jobs of the banned author at any time. */
  lemma JobCallsExactly(w: World, id: JobId, job: Job, destination: ConversationId, payload: nat, sendAt: int,
                        user: UserId)
    ensures var v := Apply(w, Schedule(id, job));
            if w.worker.Idle? && id !in w.db.jobs
            then && v.db.jobs.Keys == w.db.jobs.Keys + {id} && v.db.jobs - {id} == w.db.jobs
                 && v.db.jobs[id] == job.(status := Pending, attempts := 0, nextAttempt := 0, tries := [])
            else v == w
    ensures var v := Apply(w, Reschedule(id, destination, payload, sendAt));
            if w.worker.Idle? && id in w.db.jobs && w.db.jobs[id].status in {Pending, Failed}
               && !w.db.jobs[id].malformed
            then v.db.jobs == w.db.jobs[id := Job(w.db.jobs[id].user, destination, payload, false, sendAt, Pending,
                                                  0, 0, [])]
            else v == w
    ensures var v := Apply(w, Cancel(id));
            if w.worker.Idle? && id in w.db.jobs && w.db.jobs[id].status in {Pending, Failed}
            then v.db.jobs == w.db.jobs[id := w.db.jobs[id].(status := Cancelled)]
            else v == w
    ensures var v := Apply(w, Ban(user));
            && v.db.jobs.Keys == w.db.jobs.Keys
            && (id in w.db.jobs ==>
                  v.db.jobs[id] == if w.db.jobs[id].user == user && w.db.jobs[id].status in {Pending, Failed}
                                   then w.db.jobs[id].(status := Cancelled) else w.db.jobs[id])
  {
    assert id !in w.db.jobs ==> Apply(w, Schedule(id, job)).db.jobs - {id} == w.db.jobs;
  }

  /** What comes of an attempt: sent; or another one after 5, 10, 20 or 40 seconds, if the refusal is
      temporary and less than five were made; or failed. */
  lemma OutcomesExactly(work: Work, now: int, permanent: bool)
    requires work.attempts < 5
    ensures Outcome(work, now, Delivered) == (Sent, 0)
    ensures Outcome(work, now, Refused(permanent)) ==
            if permanent || work.attempts == 4 then (Failed, 0) else (Pending, now + [5, 10, 20, 40][work.attempts])
  {
    assert Doubled(5, 0) == 5 && Doubled(5, 1) == 10 && Doubled(5, 2) == 20 && Doubled(5, 3) == 40;
  }

  lemma SentStep(w: World, step: Step, id: JobId)
    requires Inv(w) && id in w.db.jobs && w.db.jobs[id].status.Sent?
    ensures id in Apply(w, step).db.jobs && Apply(w, step).db.jobs[id] == w.db.jobs[id]
  {
    match w.worker {
      case Idle =>
      case Next(now, queue) => if queue != [] { TailSound(w.db, now, queue); }
      case Looked(now, work, found, lost, queue) =>
      case Tried(now, work, result, lost, queue) =>
    }
  }

  /** Main result: sent is never left, and a sent job never changes. */
  lemma {:induction false} SentIsFinal(w: World, steps: seq<Step>, id: JobId)
    requires Inv(w) && id in w.db.jobs && w.db.jobs[id].status.Sent?
    ensures id in Exec(w, steps).db.jobs && Exec(w, steps).db.jobs[id] == w.db.jobs[id]
    decreases |steps|
  {
    if steps != [] {
      SentStep(w, steps[0], id);
      ApplyInv(w, steps[0]);
      SentIsFinal(Apply(w, steps[0]), steps[1..], id);
    }
  }

  // ---- Cancelled jobs and bans ----

  /** The two status updates that do not look at the status. */
  ghost predicate Unguarded(w: World, step: Step, id: JobId) {
    || (step.Malformed? && w.worker.Next? && w.worker.queue != [] && w.worker.queue[0].malformed &&
        w.worker.queue[0].id == id)
    || (step.Found? && w.worker.Looked? && w.worker.found && w.worker.work.id == id)
  }

  /** Main result: a step leaves cancelled exactly when it is one of these two updates. */
  lemma CancelledLeftExactly(w: World, step: Step, id: JobId)
    requires id in w.db.jobs && w.db.jobs[id].status.Cancelled?
    ensures id in Apply(w, step).db.jobs
    ensures !Apply(w, step).db.jobs[id].status.Cancelled? <==> Unguarded(w, step, id)
  {
    match w.worker {
      case Idle =>
      case Next(now, queue) =>
      case Looked(now, work, found, lost, queue) =>
      case Tried(now, work, result, lost, queue) =>
    }
  }

  /** The jobs the worker is still busy with. */
  ghost function Busy(worker: Worker): seq<Work> {
    match worker
    case Idle => []
    case Next(_, queue) => queue
    case Looked(_, work, _, _, queue) => [work] + queue
    case Tried(_, work, _, _, queue) => [work] + queue
  }

  ghost predicate AllPending(w: World) {
    forall i | 0 <= i < |Busy(w.worker)| ::
      Busy(w.worker)[i].id in w.db.jobs && w.db.jobs[Busy(w.worker)[i].id].status.Pending?
  }

  /** No ban strikes while the worker is busy. */
  ghost predicate BansWait(w: World, steps: seq<Step>)
    decreases |steps|
  {
    steps == [] || ((steps[0].Ban? ==> w.worker.Idle?) && BansWait(Apply(w, steps[0]), steps[1..]))
  }

  lemma TouchedBusy(worker: Worker, key: RowKey, lost: bool)
    ensures Busy(Touched(worker, key, lost)) == Busy(worker)
  {
  }

  lemma PendingStep(w: World, step: Step)
    requires Inv(w) && AllPending(w) && (step.Ban? ==> w.worker.Idle?)
    ensures AllPending(Apply(w, step))
  {
    match step {
      case Schedule(_, _) =>
      case Reschedule(_, _, _, _) =>
      case Cancel(_) =>
      case Ban(_) =>
      case Post(key, _) => TouchedBusy(w.worker, key, false);
      case Delete(key) => TouchedBusy(w.worker, key, true);
      case Stop =>
      case _ => PendingWorker(w, step);
    }
  }

  lemma PendingWorker(w: World, step: Step)
    requires Inv(w) && AllPending(w)
    ensures AllPending(WorkerStep(w, step))
  {
    match w.worker {
      case Idle =>
      case Next(now, queue) =>
        if queue != [] { TailSound(w.db, now, queue); }
        assert Busy(w.worker) == queue;
      case Looked(now, work, found, lost, queue) => TailPending(w, work, queue);
      case Tried(now, work, result, lost, queue) => TailPending(w, work, queue);
    }
  }

  lemma TailPending(w: World, work: Work, queue: seq<Work>)
    requires AllPending(w) && Busy(w.worker) == [work] + queue
    ensures forall i | 0 <= i < |queue| :: queue[i].id in w.db.jobs && w.db.jobs[queue[i].id].status.Pending?
    ensures work.id in w.db.jobs && w.db.jobs[work.id].status.Pending?
  {
    assert Busy(w.worker)[0] == work;
    forall i | 0 <= i < |queue| ensures queue[i].id in w.db.jobs && w.db.jobs[queue[i].id].status.Pending? {
      assert Busy(w.worker)[i + 1] == queue[i];
    }
  }

  /** Main result: cancelled is never left in a run whose bans wait for the worker. */
  lemma {:induction false} CancelledIsFinal(w: World, steps: seq<Step>, id: JobId)
    requires Inv(w) && AllPending(w) && BansWait(w, steps) && id in w.db.jobs && w.db.jobs[id].status.Cancelled?
    ensures id in Exec(w, steps).db.jobs && Exec(w, steps).db.jobs[id].status.Cancelled?
    decreases |steps|
  {
    if steps != [] {
      assert |Busy(w.worker)| > 0 ==> Busy(w.worker)[0].id != id;
      CancelledLeftExactly(w, steps[0], id);
      PendingStep(w, steps[0]);
      ApplyInv(w, steps[0]);
      CancelledIsFinal(Apply(w, steps[0]), steps[1..], id);
    }
  }

  // A run in which a ban loses: the worker stops after sending, and its next pass is overtaken.

  const PLAIN := Job(1, 1, 0, false, 0, Pending, 0, 0, [])
  const TASK := Work(0, 1, 1, 0, false, 0)
  const SENT_ONCE := World(Db(map[0 := PLAIN], map[KeyOf(TASK) := 0], [KeyOf(TASK)], []), Idle)

  ghost predicate Has(db: Db, id: JobId, status: Status) { id in db.jobs && db.jobs[id].status == status }

  lemma Then(w: World, step: Step, rest: seq<Step>)
    ensures Exec(w, [step] + rest) == Exec(Apply(w, step), rest)
  {
    assert ([step] + rest)[0] == step && ([step] + rest)[1..] == rest;
  }

  lemma SendAndStop(rest: seq<Step>)
    ensures Exec(START, [Schedule(0, PLAIN)] + ([Select(0, [TASK])] + ([Look] + ([Send(Delivered)] + ([Stop] + rest)))))
            == Exec(SENT_ONCE, rest)
  {
    var w1 := World(Db(map[0 := PLAIN], map[], [], []), Idle);
    Then(START, Schedule(0, PLAIN), [Select(0, [TASK])] + ([Look] + ([Send(Delivered)] + ([Stop] + rest))));
    assert Apply(START, Schedule(0, PLAIN)) == w1;
    Then(w1, Select(0, [TASK]), [Look] + ([Send(Delivered)] + ([Stop] + rest)));
    var w2 := w1.(worker := Next(0, [TASK]));
    assert Apply(w1, Select(0, [TASK])) == w2;
    Then(w2, Look, [Send(Delivered)] + ([Stop] + rest));
    var w3 := w1.(worker := Looked(0, TASK, false, false, []));
    assert Apply(w2, Look) == w3;
    Then(w3, Send(Delivered), [Stop] + rest);
    assert Apply(w3, Send(Delivered)).db == SENT_ONCE.db;
    Then(Apply(w3, Send(Delivered)), Stop, rest);
  }

  lemma FoundTakes(db: Db)
    requires KeyOf(TASK) in db.rows && TASK.id in db.jobs
    ensures Has(Exec(World(db, Next(0, [TASK])), [Look] + ([Found] + [])).db, TASK.id, Sent)
  {
    var w := World(db, Next(0, [TASK]));
    Then(w, Look, [Found] + []);
    assert [TASK][1..] == [];
    var looked := World(db, Looked(0, TASK, true, false, []));
    assert Apply(w, Look) == looked;
    Then(looked, Found, []);
  }

  lemma BanOvertaken()
    ensures var w := Exec(SENT_ONCE, [Select(0, [TASK])] + ([Ban(1)] + []));
            Has(w.db, 0, Cancelled) && Has(Exec(w, [Look] + ([Found] + [])).db, 0, Sent)
  {
    var w1 := SENT_ONCE.(worker := Next(0, [TASK]));
    Then(SENT_ONCE, Select(0, [TASK]), [Ban(1)] + []);
    assert Apply(SENT_ONCE, Select(0, [TASK])) == w1;
    Then(w1, Ban(1), []);
    var banned := SENT_ONCE.db.(jobs := map[0 := PLAIN.(status := Cancelled)]);
    assert Banned(SENT_ONCE.db, 1) == banned;
    FoundTakes(banned);
  }

  /** Main result: without that condition cancelled can be left. */
  lemma CancelledCanBeLeft()
    ensures exists w: World, steps: seq<Step>, id: JobId ::
              (exists before: seq<Step> :: w == Exec(START, before)) && Has(w.db, id, Cancelled) &&
                  Has(Exec(w, steps).db, id, Sent)
  {
    var overtaken := [Select(0, [TASK])] + ([Ban(1)] + []);
    SendAndStop(overtaken);
    BanOvertaken();
    var w := Exec(SENT_ONCE, overtaken);
    var taken := [Select(0, [TASK])] + ([Look] + ([Send(Delivered)] + ([Stop] + overtaken)));
    assert w == Exec(START, [Schedule(0, PLAIN)] + taken);
    var steps := [Look] + ([Found] + []);
    assert Has(w.db, 0, Cancelled) && Has(Exec(w, steps).db, 0, Sent);
  }

  // Runs in which a deletion matters: the worker stopped after sending, and the message is deleted.

  lemma DeleteOnce(worker: Worker)
    ensures var key := KeyOf(TASK);
            Apply(SENT_ONCE.(worker := worker), Delete(key))
            == World(Db(map[0 := PLAIN], map[], [key], [key]), Touched(worker, key, true))
  {
    assert SENT_ONCE.db.deleted + [KeyOf(TASK)] == [KeyOf(TASK)];
  }

  lemma LookInVain(rest: seq<Step>)
    ensures var w := World(Db(map[0 := PLAIN], map[], [KeyOf(TASK)], [KeyOf(TASK)]), Idle);
            Exec(w, [Select(0, [TASK])] + ([Look] + rest))
            == Exec(w.(worker := Looked(0, TASK, false, false, [])), rest)
  {
    var w := World(Db(map[0 := PLAIN], map[], [KeyOf(TASK)], [KeyOf(TASK)]), Idle);
    Then(w, Select(0, [TASK]), [Look] + rest);
    var w1 := w.(worker := Next(0, [TASK]));
    assert Apply(w, Select(0, [TASK])) == w1;
    Then(w1, Look, rest);
    assert [TASK][1..] == [];
    assert Apply(w1, Look) == w.(worker := Looked(0, TASK, false, false, []));
  }

  lemma DeleteThenSend()
    ensures var steps := [Delete(KeyOf(TASK))] + ([Select(0, [TASK])] + ([Look] + ([Send(Delivered)] + [])));
            Exec(SENT_ONCE, steps).db.created == [KeyOf(TASK), KeyOf(TASK)]
  {
    var key := KeyOf(TASK);
    var w1 := World(Db(map[0 := PLAIN], map[], [key], [key]), Idle);
    Then(SENT_ONCE, Delete(key), [Select(0, [TASK])] + ([Look] + ([Send(Delivered)] + [])));
    DeleteOnce(Idle);
    LookInVain([Send(Delivered)] + []);
    Then(w1.(worker := Looked(0, TASK, false, false, [])), Send(Delivered), []);
  }

  /** Main result: a job can send a second message, after its first was deleted. */
  lemma SecondMessage()
    ensures exists steps: seq<Step>, key: RowKey :: Count(Exec(START, steps).db.created, key) == 2
  {
    var key := KeyOf(TASK);
    var again := [Delete(key)] + ([Select(0, [TASK])] + ([Look] + ([Send(Delivered)] + [])));
    SendAndStop(again);
    DeleteThenSend();
    var steps := [Schedule(0, PLAIN)] + ([Select(0, [TASK])] + ([Look] + ([Send(Delivered)] + ([Stop] + again))));
    var created := Exec(START, steps).db.created;
    assert created == [key, key] && multiset([key, key])[key] == 2;
    assert Count(created, key) == 2;
  }

  lemma LookAgain(rest: seq<Step>)
    ensures Exec(SENT_ONCE, [Select(0, [TASK])] + ([Look] + rest))
            == Exec(SENT_ONCE.(worker := Looked(0, TASK, true, false, [])), rest)
  {
    Then(SENT_ONCE, Select(0, [TASK]), [Look] + rest);
    var w1 := SENT_ONCE.(worker := Next(0, [TASK]));
    assert Apply(SENT_ONCE, Select(0, [TASK])) == w1;
    Then(w1, Look, rest);
    assert [TASK][1..] == [];
    assert Apply(w1, Look) == SENT_ONCE.(worker := Looked(0, TASK, true, false, []));
  }

  lemma DeleteBeforeRecord()
    ensures var db := Exec(SENT_ONCE, [Select(0, [TASK])] + ([Look] + ([Delete(KeyOf(TASK))] + ([Found] + [])))).db;
            Has(db, 0, Sent) && db.rows == map[]
  {
    var key := KeyOf(TASK);
    LookAgain([Delete(key)] + ([Found] + []));
    var w2 := SENT_ONCE.(worker := Looked(0, TASK, true, false, []));
    Then(w2, Delete(key), [Found] + []);
    var w3 := World(Db(map[0 := PLAIN], map[], [key], [key]), Looked(0, TASK, true, true, []));
    DeleteOnce(w2.worker);
    Then(w3, Found, []);
  }

  /** Main result: a job can be recorded as sent when its message is gone. */
  lemma SentWithoutMessage()
    ensures exists steps: seq<Step>, id: JobId ::
              Has(Exec(START, steps).db, id, Sent) && Exec(START, steps).db.rows == map[]
  {
    var late := [Select(0, [TASK])] + ([Look] + ([Delete(KeyOf(TASK))] + ([Found] + [])));
    SendAndStop(late);
    DeleteBeforeRecord();
    var steps := [Schedule(0, PLAIN)] + ([Select(0, [TASK])] + ([Look] + ([Send(Delivered)] + ([Stop] + late))));
    assert Has(Exec(START, steps).db, 0, Sent);
  }

  // ---- The dispatcher object ----

  /** What one job goes through when nothing interferes. */
  function Dispatch(db: Db, now: int, work: Work, refusal: Result): Db {
    if work.malformed then MarkMalformed(db, now, work)
    else if KeyOf(work) in db.rows then MarkDelivered(db, work)
    else
      var (e, result) := CreateDirect(db, KeyOf(work), work.payload, refusal);
      Record(e, now, work, result)
  }

  function DispatchAll(db: Db, now: int, queue: seq<Work>, refusals: seq<Result>): Db
    requires |refusals| == |queue|
    decreases |queue|
  {
    if queue == [] then db
    else DispatchAll(Dispatch(db, now, queue[0], refusals[0]), now, queue[1..], refusals[1..])
  }

  function Script(db: Db, work: Work, refusal: Result): seq<Step> {
    if work.malformed then [Malformed]
    else if KeyOf(work) in db.rows then [Look] + ([Found] + [])
    else [Look] + ([Send(refusal)] + ([Update] + []))
  }

  /** An uninterrupted pass over a job is a run of the worker's steps. */
  lemma DispatchIsRun(db: Db, now: int, queue: seq<Work>, refusal: Result)
    requires queue != []
    ensures Exec(World(db, Next(now, queue)), Script(db, queue[0], refusal))
            == World(Dispatch(db, now, queue[0], refusal), Next(now, queue[1..]))
  {
    var w, work := World(db, Next(now, queue)), queue[0];
    if work.malformed {
      Then(w, Malformed, []);
      assert [Malformed] + [] == [Malformed];
    } else {
      var found := KeyOf(work) in db.rows;
      var v := World(db, Looked(now, work, found, false, queue[1..]));
      if found {
        Then(w, Look, [Found] + []);
        Then(v, Found, []);
      } else {
        Then(w, Look, [Send(refusal)] + ([Update] + []));
        Then(v, Send(refusal), [Update] + []);
        Then(Apply(v, Send(refusal)), Update, []);
      }
    }
  }

  class Dispatcher {
    var jobs: map<JobId, Job>
    var rows: map<RowKey, nat>
    ghost var created: seq<RowKey>
    ghost var deleted: seq<RowKey>

    ghost function View(): Db
      reads this
    {
      Db(jobs, rows, created, deleted)
    }

    constructor ()
      ensures View() == START.db
    {
      jobs, rows, created, deleted := map[], map[], [], [];
    }

    /** Inserts the keyed message, or replays it. */
    method CreateMessage(key: RowKey, request: nat, refusal: Result) returns (result: Result)
      modifies this`rows, this`created
      ensures (View(), result) == CreateDirect(old(View()), key, request, refusal)
    {
      if refusal.Refused? { return refusal; }
      if key in rows {
        if rows[key] != request { return Refused(true); }
        return Delivered;
      }
      rows := rows[key := request];
      created := created + [key];
      result := Delivered;
    }

    method DispatchOne(now: int, work: Work, refusal: Result)
      requires work.id in jobs
      modifies this`jobs, this`rows, this`created
      ensures View() == Dispatch(old(View()), now, work, refusal) && jobs.Keys == old(jobs).Keys
    {
      if work.malformed {
        var job := jobs[work.id];
        jobs := jobs[work.id := job.(status := Failed, attempts := job.attempts + 1, tries := job.tries + [now])];
        return;
      }
      var key := RowKey(work.destination, work.user, OfJob(work.id));
      if key in rows {
        jobs := jobs[work.id := jobs[work.id].(status := Sent)];
        return;
      }
      var result := CreateMessage(key, work.payload, refusal);
      var status, next := Sent, 0;
      if result.Refused? {
        status := Failed;
        if !result.permanent && work.attempts + 1 < MAX_ATTEMPTS {
          status, next := Pending, now + Delay(work.attempts);
        }
      }
      var job := jobs[work.id];
      if job.status.Pending? {
        jobs := jobs[work.id := job.(status := status, attempts := job.attempts + 1, nextAttempt := next,
            tries := job.tries + [now])];
      }
    }

    /** One pass over the selected jobs; `refusals` are the outcomes of their sends. */
    method ProcessDue(now: int, queue: seq<Work>, refusals: seq<Result>)
      requires Selects(View(), now, queue) && |refusals| == |queue|
      modifies this`jobs, this`rows, this`created
      ensures View() == DispatchAll(old(View()), now, queue, refusals)
    {
      var i := 0;
      while i < |queue|
        invariant 0 <= i <= |queue| && jobs.Keys == old(jobs).Keys
        invariant DispatchAll(old(View()), now, queue, refusals) == DispatchAll(View(), now, queue[i..], refusals[i..])
      {
        assert Reads(old(View()), queue[i]);
        assert queue[i..][0] == queue[i] && queue[i..][1..] == queue[i + 1..];
        assert refusals[i..][0] == refusals[i] && refusals[i..][1..] == refusals[i + 1..];
        DispatchOne(now, queue[i], refusals[i]);
        i := i + 1;
      }
    }
  }
}

/** What the messages of scheduled jobs say: each row holds the request it was made for, and when the
    row of a job that was sent is not what the job asked for. */
module ScheduledContent {
  import opened Options
  import opened Scheduled

  // ---- Creating twice ----

  /** Main result: a created message is stored as requested, and beside it nothing changes; creating it
      again changes nothing, and delivers exactly for the same request. */
  lemma CreateTwice(db: Db, key: RowKey, request: nat, again: nat)
    requires key !in db.rows
    ensures var (made, result) := CreateDirect(db, key, request, Delivered);
            && result.Delivered? && key in made.rows && made.rows[key] == request
            && made.rows - {key} == db.rows && made.jobs == db.jobs
            && var (same, answer) := CreateDirect(made, key, again, Delivered);
            && same == made
            && answer == if again == request then Delivered else Refused(true)
  {
    var made := CreateDirect(db, key, request, Delivered).0;
    assert made.rows - {key} == db.rows;
  }

  // ---- Rows hold what was asked for ----

  /** The request of a step that makes the row of the key. */
  ghost function Requests(w: World, step: Step, key: RowKey): Option<nat> {
    if key in w.db.rows then None
    else if step.Post? && step.key == key then Some(step.request)
    else if step == Send(Delivered) && w.worker.Looked? && !w.worker.found && KeyOf(w.worker.work) == key then
      Some(w.worker.work.payload)
    else None
  }

  /** The request of the last step that made the row, given what it was before. */
  ghost function MadeFor(w: World, steps: seq<Step>, key: RowKey, before: Option<nat>): Option<nat>
    decreases |steps|
  {
    if steps == [] then before
    else
      var asked := Requests(w, steps[0], key);
      MadeFor(Apply(w, steps[0]), steps[1..], key, if asked.Some? then asked else before)
  }

  /** One step leaves a row alone unless it deletes it, and makes one only as requested. */
  lemma RowStep(w: World, step: Step, key: RowKey)
    ensures var e := Apply(w, step).db;
            && (key in w.db.rows ==>
                  if step == Delete(key) then key !in e.rows else key in e.rows && e.rows[key] == w.db.rows[key])
            && (key !in w.db.rows ==>
                  if Requests(w, step, key).Some? then key in e.rows && e.rows[key] == Requests(w, step, key).value
                  else key !in e.rows)
  {
    match step {
      case Schedule(_, _) => JobStepSame(w, step);
      case Reschedule(_, _, _, _) => JobStepSame(w, step);
      case Cancel(_) => JobStepSame(w, step);
      case Ban(_) => JobStepSame(w, step);
      case Post(_, _) =>
      case Delete(_) =>
      case Stop =>
      case _ => WorkerRow(w, step, key);
    }
  }

  lemma WorkerRow(w: World, step: Step, key: RowKey)
    requires !step.Post?
    ensures var e := WorkerStep(w, step).db;
            if Requests(w, step, key).Some? then e.rows == w.db.rows[key := Requests(w, step, key).value]
            else (key in e.rows <==> key in w.db.rows) && (key in e.rows ==> e.rows[key] == w.db.rows[key])
  {
    match w.worker {
      case Idle =>
      case Next(_, _) =>
      case Looked(_, _, _, _, _) =>
      case Tried(_, _, _, _, _) =>
    }
  }

  lemma {:induction false} RowsSince(w: World, steps: seq<Step>, key: RowKey, before: Option<nat>)
    requires key in w.db.rows ==> before == Some(w.db.rows[key])
    ensures var db := Exec(w, steps).db;
            key in db.rows ==> MadeFor(w, steps, key, before) == Some(db.rows[key])
    decreases |steps|
  {
    if steps != [] {
      RowStep(w, steps[0], key);
      var asked := Requests(w, steps[0], key);
      RowsSince(Apply(w, steps[0]), steps[1..], key, if asked.Some? then asked else before);
    }
  }

  /** Main result: after every run each row holds the request of the post or send that made it; a send
      asks for the payload with which the job was selected. */
  lemma RowsHoldRequests(steps: seq<Step>, key: RowKey)
    requires key in Exec(START, steps).db.rows
    ensures MadeFor(START, steps, key, None) == Some(Exec(START, steps).db.rows[key])
  {
    RowsSince(START, steps, key, None);
  }

  // ---- Sent jobs ----

  /** The message of a job, if there is one, says what the job says. */
  ghost predicate Says(db: Db, id: JobId)
    requires id in db.jobs
  {
    var key := JobKey(id, db.jobs[id]);
    key in db.rows ==> db.rows[key] == db.jobs[id].payload
  }

  ghost predicate SentSay(db: Db) { forall id | id in db.jobs && db.jobs[id].status.Sent? :: Says(db, id) }

  /** The row the worker is about to record was made for another request. */
  ghost predicate Stale(db: Db, work: Work) { KeyOf(work) in db.rows && db.rows[KeyOf(work)] != work.payload }

  /** The step records a job as sent over a stale row, or posts another message for a sent job whose own
      was deleted. */
  ghost predicate Misrecords(w: World, step: Step) {
    || (step.Found? && w.worker.Looked? && w.worker.found && Stale(w.db, w.worker.work))
    || (step.Update? && w.worker.Tried? && w.worker.result.Delivered? && Stale(w.db, w.worker.work)
        && w.worker.work.id in w.db.jobs && w.db.jobs[w.worker.work.id].status.Pending?)
    || (step.Post? && step.key !in w.db.rows
        && exists id | id in w.db.jobs && w.db.jobs[id].status.Sent? ::
             JobKey(id, w.db.jobs[id]) == step.key && w.db.jobs[id].payload != step.request)
  }

  ghost predicate NeverMisrecords(w: World, steps: seq<Step>)
    decreases |steps|
  {
    steps == [] || (!Misrecords(w, steps[0]) && NeverMisrecords(Apply(w, steps[0]), steps[1..]))
  }

  ghost predicate AlwaysSay(w: World, steps: seq<Step>)
    decreases |steps|
  {
    SentSay(w.db) && (steps == [] || AlwaysSay(Apply(w, steps[0]), steps[1..]))
  }

  /** A job that is sent and keeps its row keeps what it says. */
  lemma SaysKept(db: Db, e: Db)
    requires SentSay(db)
    requires forall id | id in e.jobs && e.jobs[id].status.Sent? :: id in db.jobs && e.jobs[id] == db.jobs[id]
    requires forall key | key in e.rows :: key in db.rows && e.rows[key] == db.rows[key]
    ensures SentSay(e)
  {
    forall id | id in e.jobs && e.jobs[id].status.Sent? ensures Says(e, id) { assert Says(db, id); }
  }

  /** The worker records one job. */
  lemma RecordSays(w: World, step: Step, work: Work)
    requires Inv(w) && SentSay(w.db) && Reads(w.db, work)
    requires Apply(w, step).db.rows == w.db.rows && work.id in Apply(w, step).db.jobs
    requires var job := Apply(w, step).db.jobs[work.id];
             job.status.Sent? && JobKey(work.id, job) == KeyOf(work) && job.payload == work.payload
    requires forall id | id in Apply(w, step).db.jobs && id != work.id ::
               id in w.db.jobs && Apply(w, step).db.jobs[id] == w.db.jobs[id]
    ensures SentSay(Apply(w, step).db) <==> !Stale(w.db, work)
  {
    var e := Apply(w, step).db;
    assert Says(e, work.id) <==> !Stale(w.db, work);
    forall id | id in e.jobs && e.jobs[id].status.Sent? && id != work.id ensures Says(e, id) {
      assert Says(w.db, id);
    }
  }

  lemma PostSays(w: World, key: RowKey, request: nat)
    requires SentSay(w.db)
    ensures SentSay(Apply(w, Post(key, request)).db) <==> !Misrecords(w, Post(key, request))
  {
    var e := Apply(w, Post(key, request)).db;
    if key in w.db.rows {
      SaysKept(w.db, e);
    } else {
      forall id | id in e.jobs && e.jobs[id].status.Sent?
        ensures Says(e, id) <==> !(JobKey(id, w.db.jobs[id]) == key && w.db.jobs[id].payload != request)
      {
        assert Says(w.db, id);
      }
    }
  }

  /** A send makes the row of its own job, which is not recorded yet. */
  lemma SendSays(w: World, refusal: Result)
    requires Inv(w) && SentSay(w.db) && w.worker.Looked? && !w.worker.found
    ensures SentSay(Apply(w, Send(refusal)).db)
  {
    var e, work := Apply(w, Send(refusal)).db, w.worker.work;
    assert WorkSound(w.db, w.worker.now, work);
    forall id | id in e.jobs && e.jobs[id].status.Sent? ensures Says(e, id) {
      assert Says(w.db, id) && id != work.id;
      assert JobKey(id, e.jobs[id]) != KeyOf(work);
    }
  }

  lemma JobStepSays(w: World, step: Step)
    requires SentSay(w.db) && (step.Schedule? || step.Reschedule? || step.Cancel? || step.Ban?)
    ensures SentSay(Apply(w, step).db)
  {
    JobStepSame(w, step);
    SaysKept(w.db, Apply(w, step).db);
  }

  lemma WorkerSays(w: World, step: Step)
    requires Inv(w) && SentSay(w.db)
    requires !step.Schedule? && !step.Reschedule? && !step.Cancel? && !step.Ban?
    requires !step.Post? && !step.Delete? && !step.Stop?
    ensures SentSay(Apply(w, step).db) <==> !Misrecords(w, step)
  {
    match w.worker {
      case Idle =>
      case Next(now, queue) =>
        if queue != [] { TailSound(w.db, now, queue); }
        SaysKept(w.db, Apply(w, step).db);
      case Looked(now, work, found, lost, queue) =>
        if step.Found? && found {
          RecordSays(w, step, work);
        } else if step.Send? && !found {
          SendSays(w, step.refusal);
        }
      case Tried(now, work, result, lost, queue) =>
        if step.Update? && w.db.jobs[work.id].status.Pending? {
          if result.Delivered? { RecordSays(w, step, work); } else { SaysKept(w.db, Apply(w, step).db); }
        }
    }
  }

  lemma StepSays(w: World, step: Step)
    requires Inv(w) && SentSay(w.db)
    ensures SentSay(Apply(w, step).db) <==> !Misrecords(w, step)
  {
    match step {
      case Schedule(_, _) => JobStepSays(w, step);
      case Reschedule(_, _, _, _) => JobStepSays(w, step);
      case Cancel(_) => JobStepSays(w, step);
      case Ban(_) => JobStepSays(w, step);
      case Post(key, request) => PostSays(w, key, request);
      case Delete(key) => SaysKept(w.db, Apply(w, step).db);
      case Stop =>
      case _ => WorkerSays(w, step);
    }
  }

  lemma {:induction false} SayInRuns(w: World, steps: seq<Step>)
    requires Inv(w) && SentSay(w.db)
    ensures AlwaysSay(w, steps) <==> NeverMisrecords(w, steps)
    decreases |steps|
  {
    if steps != [] {
      StepSays(w, steps[0]);
      if !Misrecords(w, steps[0]) {
        ApplyInv(w, steps[0]);
        SayInRuns(Apply(w, steps[0]), steps[1..]);
      }
    }
  }

  /** Main result: throughout a run the message of every sent job says what the job says, exactly when
      no job is recorded over a row made for another request and no other message is posted with the
      key of a sent job. */
  lemma SentSayExactly(steps: seq<Step>)
    ensures AlwaysSay(START, steps) <==> NeverMisrecords(START, steps)
  {
    SayInRuns(START, steps);
  }

  // ---- How a row becomes stale ----

  ghost predicate JobsSay(db: Db) { forall id | id in db.jobs :: Says(db, id) }

  /** The step gives a job another content than its row has, or its row another content than the job. */
  ghost predicate Diverges(w: World, step: Step) {
    match step
    case Schedule(id, job) =>
      && id !in w.db.jobs && w.worker.Idle?
      && JobKey(id, job) in w.db.rows && w.db.rows[JobKey(id, job)] != job.payload
    case Reschedule(id, destination, payload, _) =>
      && id in w.db.jobs && Open(w.db.jobs[id]) && !w.db.jobs[id].malformed && w.worker.Idle?
      && var key := RowKey(destination, w.db.jobs[id].user, OfJob(id));
      && key in w.db.rows && w.db.rows[key] != payload
    case Post(key, request) =>
      && key !in w.db.rows
      && exists id | id in w.db.jobs :: JobKey(id, w.db.jobs[id]) == key && w.db.jobs[id].payload != request
    case _ => false
  }

  /** One job is set, and no row changes. */
  lemma SetSays(db: Db, id: JobId, job: Job)
    requires forall j | j in db.jobs && j != id :: Says(db, j)
    ensures JobsSay(SetStatus(db, id, job)) <==>
            (JobKey(id, job) in db.rows ==> db.rows[JobKey(id, job)] == job.payload)
  {
    var e := SetStatus(db, id, job);
    assert Says(e, id) <==> (JobKey(id, job) in db.rows ==> db.rows[JobKey(id, job)] == job.payload);
    forall j | j in e.jobs && j != id ensures Says(e, j) { assert Says(db, j); }
  }

  /** Jobs keep their content, and rows at most disappear. */
  ghost predicate ContentStays(db: Db, e: Db) {
    && (forall id | id in e.jobs ::
          && id in db.jobs && JobKey(id, e.jobs[id]) == JobKey(id, db.jobs[id])
          && e.jobs[id].payload == db.jobs[id].payload)
    && (forall key | key in e.rows :: key in db.rows && e.rows[key] == db.rows[key])
  }

  lemma ContentKept(db: Db, e: Db)
    requires JobsSay(db) && ContentStays(db, e)
    ensures JobsSay(e)
  {
    forall id | id in e.jobs ensures Says(e, id) { assert Says(db, id); }
  }

  lemma PostDiverges(w: World, key: RowKey, request: nat)
    requires JobsSay(w.db)
    ensures JobsSay(Apply(w, Post(key, request)).db) <==> !Diverges(w, Post(key, request))
  {
    var e := Apply(w, Post(key, request)).db;
    if key in w.db.rows {
      ContentKept(w.db, e);
    } else {
      forall id | id in e.jobs
        ensures Says(e, id) <==> !(JobKey(id, w.db.jobs[id]) == key && w.db.jobs[id].payload != request)
      {
        assert Says(w.db, id);
      }
    }
  }

  lemma ScheduleDiverges(w: World, step: Step)
    requires JobsSay(w.db) && (step.Schedule? || step.Reschedule?)
    ensures JobsSay(Apply(w, step).db) <==> !Diverges(w, step)
  {
    if Apply(w, step) != w {
      SetSays(w.db, step.id, Apply(w, step).db.jobs[step.id]);
      assert Apply(w, step).db == SetStatus(w.db, step.id, Apply(w, step).db.jobs[step.id]);
    }
  }

  /** A send makes the row of its job with the content the job still has. */
  lemma SendMatches(w: World, refusal: Result)
    requires Inv(w) && JobsSay(w.db) && w.worker.Looked? && !w.worker.found
    ensures JobsSay(Apply(w, Send(refusal)).db)
  {
    var e, work := Apply(w, Send(refusal)).db, w.worker.work;
    assert WorkSound(w.db, w.worker.now, work);
    forall id | id in e.jobs ensures Says(e, id) {
      assert Says(w.db, id);
      assert id != work.id ==> JobKey(id, e.jobs[id]) != KeyOf(work);
    }
  }

  lemma WorkerMatches(w: World, step: Step)
    requires Inv(w) && JobsSay(w.db)
    requires !step.Schedule? && !step.Reschedule? && !step.Post?
    ensures JobsSay(Apply(w, step).db)
  {
    if step.Send? && w.worker.Looked? && !w.worker.found {
      SendMatches(w, step.refusal);
    } else {
      RowsOnlyLost(w, step);
      ContentKept(w.db, Apply(w, step).db);
    }
  }

  lemma RowsOnlyLost(w: World, step: Step)
    requires !step.Schedule? && !step.Reschedule? && !step.Post?
    requires !(step.Send? && w.worker.Looked? && !w.worker.found)
    ensures ContentStays(w.db, Apply(w, step).db)
  {
    match step {
      case Cancel(_) =>
      case Ban(_) =>
      case Delete(_) =>
      case Stop =>
      case _ => WorkerKeepsContent(w, step);
    }
  }

  lemma WorkerKeepsContent(w: World, step: Step)
    requires !(step.Send? && w.worker.Looked? && !w.worker.found)
    ensures ContentStays(w.db, WorkerStep(w, step).db)
  {
    match w.worker {
      case Idle =>
      case Next(_, _) =>
      case Looked(_, _, _, _, _) =>
      case Tried(_, _, _, _, _) =>
    }
  }

  ghost predicate NeverDiverges(w: World, steps: seq<Step>)
    decreases |steps|
  {
    steps == [] || (!Diverges(w, steps[0]) && NeverDiverges(Apply(w, steps[0]), steps[1..]))
  }

  ghost predicate AlwaysMatch(w: World, steps: seq<Step>)
    decreases |steps|
  {
    JobsSay(w.db) && (steps == [] || AlwaysMatch(Apply(w, steps[0]), steps[1..]))
  }

  lemma {:induction false} MatchInRuns(w: World, steps: seq<Step>)
    requires Inv(w) && JobsSay(w.db)
    ensures AlwaysMatch(w, steps) <==> NeverDiverges(w, steps)
    decreases |steps|
  {
    if steps != [] {
      var step := steps[0];
      if step.Schedule? || step.Reschedule? {
        ScheduleDiverges(w, step);
      } else if step.Post? {
        PostDiverges(w, step.key, step.request);
      } else {
        WorkerMatches(w, step);
      }
      if !Diverges(w, step) {
        ApplyInv(w, step);
        MatchInRuns(Apply(w, step), steps[1..]);
      }
    }
  }

  /** Main result: throughout a run every job and its row say the same, exactly when no job is scheduled
      or rescheduled over a row with another content and none is posted with its key. The worker itself
      never makes them differ. */
  lemma ContentsMatchExactly(steps: seq<Step>)
    ensures AlwaysMatch(START, steps) <==> NeverDiverges(START, steps)
  {
    MatchInRuns(START, steps);
  }

  // ---- It happens ----

  lemma RescheduleAfterStop()
    ensures var db := Exec(SENT_ONCE, [Reschedule(0, 1, 7, 0)] + ([Select(0, [Work(0, 1, 1, 7, false, 0)])]
                                      + ([Look] + ([Found] + [])))).db;
            && Has(db, 0, Sent) && db.jobs[0].payload == 7
            && JobKey(0, db.jobs[0]) == KeyOf(TASK) && db.rows == SENT_ONCE.db.rows
  {
    var work := Work(0, 1, 1, 7, false, 0);
    var w1 := Apply(SENT_ONCE, Reschedule(0, 1, 7, 0));
    Then(SENT_ONCE, Reschedule(0, 1, 7, 0), [Select(0, [work])] + ([Look] + ([Found] + [])));
    Then(w1, Select(0, [work]), [Look] + ([Found] + []));
    var w2 := w1.(worker := Next(0, [work]));
    assert Apply(w1, Select(0, [work])) == w2;
    Then(w2, Look, [Found] + []);
    assert [work][1..] == [];
    var w3 := w1.(worker := Looked(0, work, true, false, []));
    assert Apply(w2, Look) == w3;
    Then(w3, Found, []);
  }

  /** Main result: a job that is rescheduled after a stopped send is recorded as sent although the message
      that exists is the one from before. */
  lemma SentButStale()
    ensures exists steps: seq<Step>, id: JobId ::
              && Has(Exec(START, steps).db, id, Sent) && !Says(Exec(START, steps).db, id)
              && JobKey(id, Exec(START, steps).db.jobs[id]) in Exec(START, steps).db.rows
  {
    var changed := [Reschedule(0, 1, 7, 0)] + ([Select(0, [Work(0, 1, 1, 7, false, 0)])] + ([Look] + ([Found] + [])));
    SendAndStop(changed);
    RescheduleAfterStop();
    var steps := [Schedule(0, PLAIN)] + ([Select(0, [TASK])] + ([Look] + ([Send(Delivered)] + ([Stop] + changed))));
    var db := Exec(START, steps).db;
    assert db == Exec(SENT_ONCE, changed).db;
    assert Has(db, 0, Sent) && !Says(db, 0) && JobKey(0, db.jobs[0]) in db.rows;
  }
}

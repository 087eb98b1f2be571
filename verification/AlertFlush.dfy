/**
 Several flush workers on one outbox. Each step is one statement, one queue command or one local
 move of one party; the steps interleave freely, and a worker may stop between any two of them.
 */
module AlertFlush {
  import opened Wrappers
  import opened Sequences
  import opened AlertOutbox
  import AlertBatch
  import opened AlertDeliveryFlow

  // What a worker delivers

  /** One worker's delivery of a claim: the rows it loaded, what else it read, and the jobs that makes. */
  datatype Delivery = Delivery(claim: FlushId, rows: Table, reading: Reading, needed: seq<Job>)

  /** A job that was put into the queue, and the delivery that did it. */
  datatype Sent = Sent(job: Job, delivery: Delivery)

  function EventOf(): Row -> AlertBatch.OutboxEvent {
    (r: Row) => AlertBatch.OutboxEvent(r.id, r.data.appId, r.data.payload, r.createdAt)
  }

  function EventsOf(rows: Table): seq<AlertBatch.OutboxEvent> {
    Map(EventOf(), rows)
  }

  /** The claim's timestamp, which is the clock of its batches. */
  function ClaimTime(rows: Table): int {
    if rows == [] then 0 else rows[0].claimedAt.GetOr(0)
  }

  /** The jobs are those that assembling the rows and filtering for every subscription that was read gives. */
  ghost predicate Made(d: Delivery) {
    && AlertBatch.Coherent(d.reading.lookup)
    && d.needed == DeliveryJobs(EventsOf(d.rows), ClaimTime(d.rows), d.claim, d.reading)
  }

  // The protocol

  /** Where a worker stands. */
  datatype Phase =
    | Idle
    | Ready(claims: seq<FlushId>)
    | Loaded(claims: seq<FlushId>, rows: Table)
    | Prepared(claims: seq<FlushId>, delivery: Delivery)
    | Delivered(claims: seq<FlushId>, delivery: Delivery)
    | Counting(claims: seq<FlushId>, delivery: Delivery)
    | Failed(fault: Fault)

  type Worker = int

  /**
   The outbox, every job ever sent, the job ids the queue knows, the workers, the flush ids drawn,
   and the deliveries that were enqueued in full.
   */
  datatype State = State(
    rows: Table,
    sent: seq<Sent>,
    known: set<JobId>,
    workers: map<Worker, Phase>,
    used: set<FlushId>,
    deliveries: seq<Delivery>)

  datatype Step =
    | CollectUpdate(key: DedupeKey, data: Data, settledAt: Option<int>)
    | CollectCreate(id: RowId, createdAt: int, newKey: DedupeKey, newData: Data, createdSettledAt: Option<int>)
    | ClaimSnapshot(worker: Worker, flushId: FlushId, now: int)
    | Load(worker: Worker)
    | Prepare(worker: Worker, reading: Reading, needed: seq<Job>)
    | AddJob(worker: Worker, k: nat)
    | FinishDelivery(worker: Worker)
    | CompleteUpdate(worker: Worker, now: int)
    | CountCompleted(worker: Worker)
    | Forget(job: JobId)
    | Stop(worker: Worker)

  /** Which worker a step is of. */
  function Mover(step: Step): Option<Worker> {
    match step
    case CollectUpdate(_, _, _) => None
    case CollectCreate(_, _, _, _, _) => None
    case Forget(_) => None
    case _ => Some(step.worker)
  }

  function PhaseOf(s: State, worker: Worker): Phase {
    if worker in s.workers then s.workers[worker] else Idle
  }

  function Moved(s: State, worker: Worker, phase: Phase): State {
    s.(workers := s.workers[worker := phase])
  }

  /** Load the next claim and check it; a claim already flushed needs no more. */
  function LoadNext(s: State, claims: seq<FlushId>): Phase {
    if claims == [] then Idle
    else
      var rows := RowsOf(s.rows, claims[0]);
      if CheckClaim(rows).Some? then Failed(CheckClaim(rows).value)
      else if AllFlushed(rows) then Ready(claims[1..])
      else Loaded(claims, rows)
  }

  predicate WasSent(s: State, id: JobId) {
    exists k :: 0 <= k < |s.sent| && s.sent[k].job.id == id
  }

  predicate AllSent(s: State, jobs: seq<Job>) {
    forall k :: 0 <= k < |jobs| ==> WasSent(s, jobs[k].id)
  }

  /** A queue add: nothing happens when the queue knows the id. */
  function Added(s: State, job: Job, delivery: Delivery): State {
    if job.id in s.known then s
    else s.(sent := s.sent + [Sent(job, delivery)], known := s.known + {job.id})
  }

  /** What a worker concludes from how many rows its completing update changed. */
  function AfterUpdate(changed: nat, claims: seq<FlushId>, delivery: Delivery): Phase
    requires claims != []
  {
    if changed == |delivery.rows| then Ready(claims[1..])
    else if changed == 0 then Counting(claims, delivery)
    else Failed(CompletionMismatch)
  }

  function AfterCount(finished: nat, claims: seq<FlushId>, delivery: Delivery): Phase
    requires claims != []
  {
    if finished == |delivery.rows| then Ready(claims[1..]) else Failed(CompletionMismatch)
  }

  /** A step that its party cannot make changes nothing. */
  function Next(s: State, step: Step): State {
    match step
    case CollectUpdate(key, data, settledAt) => s.(rows := UpdateMany(s.rows, key, data, settledAt))
    case CollectCreate(id, createdAt, key, data, settledAt) =>
      s.(rows := Create(s.rows, id, createdAt, key, data, settledAt))
    case ClaimSnapshot(worker, flushId, now) =>
      Moved(s, worker, Ready(ClaimsToProcess(s.rows, flushId)))
        .(rows := Map(Claimed(flushId, now), s.rows), used := s.used + {flushId})
    case Load(worker) =>
      (match PhaseOf(s, worker)
       case Ready(claims) => Moved(s, worker, LoadNext(s, claims))
       case _ => s)
    case Prepare(worker, reading, needed) =>
      (match PhaseOf(s, worker)
       case Loaded(claims, rows) =>
         if claims == [] then s
         else Moved(s, worker, Prepared(claims, Delivery(claims[0], rows, reading, needed)))
       case _ => s)
    case AddJob(worker, k) =>
      (match PhaseOf(s, worker)
       case Prepared(_, delivery) =>
         if k < |delivery.needed| then Added(s, delivery.needed[k], delivery) else s
       case _ => s)
    case FinishDelivery(worker) =>
      (match PhaseOf(s, worker)
       case Prepared(claims, delivery) =>
         if AllSent(s, delivery.needed) then
           Moved(s, worker, Delivered(claims, delivery)).(deliveries := s.deliveries + [delivery])
         else s
       case _ => s)
    case CompleteUpdate(worker, now) =>
      (match PhaseOf(s, worker)
       case Delivered(claims, delivery) =>
         if claims == [] then s
         else
           var changed := |Filter(Unfinished(claims[0]), s.rows)|;
           Moved(s, worker, AfterUpdate(changed, claims, delivery)).(rows := Map(Completed(claims[0], now), s.rows))
       case _ => s)
    case CountCompleted(worker) =>
      (match PhaseOf(s, worker)
       case Counting(claims, delivery) =>
         if claims == [] then s
         else Moved(s, worker, AfterCount(|Filter(Finished(claims[0]), s.rows)|, claims, delivery))
       case _ => s)
    case Forget(job) => s.(known := s.known - {job})
    case Stop(worker) => Moved(s, worker, Idle)
  }

  /** Batched delivery: no step settles a row, and every snapshot draws a flush id of its own. */
  predicate Batched(s: State, step: Step) {
    match step
    case CollectUpdate(_, _, settledAt) => settledAt.None?
    case CollectCreate(_, _, _, _, settledAt) => settledAt.None?
    case ClaimSnapshot(_, flushId, _) => flushId !in s.used
    case _ => true
  }

  function Run(s: State, steps: seq<Step>): State
    decreases |steps|
  {
    if steps == [] then s else Run(Next(s, steps[0]), steps[1..])
  }

  predicate BatchedRun(s: State, steps: seq<Step>)
    decreases |steps|
  {
    steps == [] || (Batched(s, steps[0]) && BatchedRun(Next(s, steps[0]), steps[1..]))
  }

  /** A worker needs the jobs that its claim's rows and its reading make. */
  ghost predicate Computed(s: State, step: Step) {
    step.Prepare? && PhaseOf(s, step.worker).Loaded? && PhaseOf(s, step.worker).claims != [] ==>
      Made(Delivery(PhaseOf(s, step.worker).claims[0], PhaseOf(s, step.worker).rows, step.reading, step.needed))
  }

  ghost predicate ComputedRun(s: State, steps: seq<Step>)
    decreases |steps|
  {
    steps == [] || (Computed(s, steps[0]) && ComputedRun(Next(s, steps[0]), steps[1..]))
  }

  // What every step keeps

  /** What was read of a claim is still what the table holds of it. */
  predicate Current(rows: Table, claim: FlushId, read: Table) {
    read != [] && Map(Content, read) == ClaimContent(rows, claim)
  }

  predicate ClaimFlushed(rows: Table, claim: FlushId) {
    AllFlushed(RowsOf(rows, claim))
  }

  predicate HasRows(s: State, claim: FlushId) {
    claim in s.used && ClaimContent(s.rows, claim) != []
  }

  predicate AllHaveRows(s: State, claims: seq<FlushId>) {
    forall c :: c in claims ==> HasRows(s, c)
  }

  predicate DeliverySound(s: State, d: Delivery) {
    d.claim in s.used && Current(s.rows, d.claim, d.rows)
  }

  /** Some delivery of a claim was enqueued in full. */
  predicate WasDelivered(s: State, claim: FlushId) {
    exists k :: 0 <= k < |s.deliveries| && s.deliveries[k].claim == claim
  }

  predicate PhaseSound(s: State, phase: Phase) {
    match phase
    case Idle => true
    case Ready(claims) => AllHaveRows(s, claims)
    case Loaded(claims, rows) => claims != [] && AllHaveRows(s, claims) && Current(s.rows, claims[0], rows)
    case Prepared(claims, d) => claims != [] && AllHaveRows(s, claims) && d.claim == claims[0] && DeliverySound(s, d)
    case Delivered(claims, d) =>
      && claims != [] && AllHaveRows(s, claims) && d.claim == claims[0] && DeliverySound(s, d)
      && WasDelivered(s, d.claim)
    case Counting(claims, d) =>
      && claims != [] && AllHaveRows(s, claims) && d.claim == claims[0] && DeliverySound(s, d)
      && ClaimFlushed(s.rows, d.claim)
    case Failed(_) => false
  }

  /** Only a claim that was enqueued in full has flushed rows. */
  predicate FlushedWereDelivered(s: State) {
    forall i :: 0 <= i < |s.rows| && s.rows[i].flushId.Some? && s.rows[i].flushedAt.Some? ==>
      WasDelivered(s, s.rows[i].flushId.value)
  }

  predicate QueueSound(s: State) {
    && (forall k :: 0 <= k < |s.sent| ==> DeliverySound(s, s.sent[k].delivery))
    && (forall k :: 0 <= k < |s.deliveries| ==> DeliverySound(s, s.deliveries[k]) && AllSent(s, s.deliveries[k].needed))
    && (forall id :: id in s.known ==> WasSent(s, id))
  }

  predicate Sound(s: State) {
    && TableSound(s.rows, s.used)
    && (forall w :: w in s.workers ==> PhaseSound(s, s.workers[w]))
    && QueueSound(s)
    && FlushedWereDelivered(s)
  }

  /** No step changes the key, payload, flush id or claim time of a claimed row, or what a claim holds. */
  lemma StepFreezesClaims(s: State, step: Step, claim: FlushId)
    requires Batched(s, step) && claim in s.used
    ensures ClaimContent(Next(s, step).rows, claim) == ClaimContent(s.rows, claim)
    ensures claim in Next(s, step).used
  {
    match step
    case CollectUpdate(key, data, _) => UpdateKeepsClaim(Write(key, data, None), s.rows, claim);
    case CollectCreate(id, createdAt, key, data, _) =>
      if !HasKey(s.rows, key) {
        CreateKeepsClaim(s.rows, Row(id, createdAt, key, data, None, None, None), claim);
      }
    case ClaimSnapshot(_, flushId, now) => UpdateKeepsClaim(Claimed(flushId, now), s.rows, claim);
    case CompleteUpdate(worker, now) =>
      if PhaseOf(s, worker).Delivered? && PhaseOf(s, worker).claims != [] {
        UpdateKeepsClaim(Completed(PhaseOf(s, worker).claims[0], now), s.rows, claim);
      }
    case _ =>
  }

  /** No row is ever removed or unflushed, and a row's key and claim stay. */
  lemma StepKeepsRows(s: State, step: Step)
    requires Batched(s, step)
    ensures var next := Next(s, step);
            && |s.rows| <= |next.rows|
            && (forall i :: 0 <= i < |s.rows| ==>
                  && next.rows[i].id == s.rows[i].id && next.rows[i].key == s.rows[i].key
                  && (s.rows[i].flushId.Some? ==> next.rows[i].flushId == s.rows[i].flushId)
                  && (s.rows[i].flushedAt.Some? ==> next.rows[i].flushedAt == s.rows[i].flushedAt))
            && (forall i :: |s.rows| <= i < |next.rows| ==> next.rows[i].flushId.None? && next.rows[i].flushedAt.None?)
  {
  }

  lemma StepKeepsFlushed(s: State, step: Step, claim: FlushId)
    requires Batched(s, step) && claim in s.used
    requires TableSound(s.rows, s.used)
    requires ClaimFlushed(s.rows, claim)
    ensures ClaimFlushed(Next(s, step).rows, claim)
  {
    StepKeepsRows(s, step);
    var next := Next(s, step).rows;
    FilterMembers(OfClaim(claim), s.rows);
    FilterMembers(OfClaim(claim), next);
    forall r | r in RowsOf(next, claim)
      ensures r.flushedAt.Some?
    {
      var i :| 0 <= i < |next| && next[i] == r;
      assert i < |s.rows|;
      ClaimStays(s, step, i, claim);
      assert s.rows[i] in RowsOf(s.rows, claim);
    }
  }

  lemma ClaimStays(s: State, step: Step, i: nat, claim: FlushId)
    requires Batched(s, step) && claim in s.used && i < |s.rows| <= |Next(s, step).rows|
    ensures Next(s, step).rows[i].flushId == Some(claim) <==> s.rows[i].flushId == Some(claim)
  {
  }

  lemma TableStaysSound(s: State, step: Step)
    requires Batched(s, step) && TableSound(s.rows, s.used)
    ensures TableSound(Next(s, step).rows, Next(s, step).used)
  {
    match step
    case CollectUpdate(key, data, _) => CollectStaysSound(s.rows, s.used, 0, 0, key, data);
    case CollectCreate(id, createdAt, key, data, _) => CollectStaysSound(s.rows, s.used, id, createdAt, key, data);
    case ClaimSnapshot(_, flushId, now) => ClaimStaysSound(s.rows, s.used, flushId, now);
    case CompleteUpdate(worker, now) =>
      if PhaseOf(s, worker).Delivered? && PhaseOf(s, worker).claims != [] {
        CompletionStaysSound(s.rows, s.used, PhaseOf(s, worker).claims[0], now);
      }
    case _ =>
  }

  lemma StepKeepsHasRows(s: State, step: Step, claims: seq<FlushId>)
    requires Batched(s, step) && AllHaveRows(s, claims)
    ensures AllHaveRows(Next(s, step), claims)
  {
    forall c | c in claims
      ensures HasRows(Next(s, step), c)
    {
      StepFreezesClaims(s, step, c);
    }
  }

  /** What was sent stays recorded, and so does every delivery. */
  lemma StepKeepsSent(s: State, step: Step)
    ensures s.sent <= Next(s, step).sent && s.deliveries <= Next(s, step).deliveries
  {
  }

  lemma SentGrows(s: State, next: State, id: JobId)
    requires s.sent <= next.sent && WasSent(s, id)
    ensures WasSent(next, id)
  {
    var k :| 0 <= k < |s.sent| && s.sent[k].job.id == id;
    assert next.sent[k] == s.sent[k];
  }

  lemma DeliveredGrows(s: State, next: State, claim: FlushId)
    requires s.deliveries <= next.deliveries && WasDelivered(s, claim)
    ensures WasDelivered(next, claim)
  {
    var k :| 0 <= k < |s.deliveries| && s.deliveries[k].claim == claim;
    assert next.deliveries[k] == s.deliveries[k];
  }

  lemma AllSentGrows(s: State, next: State, jobs: seq<Job>)
    requires s.sent <= next.sent && AllSent(s, jobs)
    ensures AllSent(next, jobs)
  {
    forall k | 0 <= k < |jobs|
      ensures WasSent(next, jobs[k].id)
    {
      SentGrows(s, next, jobs[k].id);
    }
  }

  lemma DeliveryStaysSound(s: State, step: Step, d: Delivery)
    requires Batched(s, step) && DeliverySound(s, d)
    ensures DeliverySound(Next(s, step), d)
  {
    StepFreezesClaims(s, step, d.claim);
  }

  /** What a worker knows stays true whatever the others do. */
  lemma PhaseKept(s: State, step: Step, phase: Phase)
    requires Batched(s, step) && TableSound(s.rows, s.used) && PhaseSound(s, phase)
    ensures PhaseSound(Next(s, step), phase)
  {
    if !phase.Idle? {
      StepKeepsHasRows(s, step, phase.claims);
      if phase.Loaded? {
        assert phase.claims[0] in phase.claims;
        assert HasRows(s, phase.claims[0]);
        StepFreezesClaims(s, step, phase.claims[0]);
      } else if !phase.Ready? {
        DeliveryStaysSound(s, step, phase.delivery);
        if phase.Delivered? {
          StepKeepsSent(s, step);
          DeliveredGrows(s, Next(s, step), phase.delivery.claim);
        }
        if phase.Counting? {
          StepKeepsFlushed(s, step, phase.delivery.claim);
        }
      }
    }
  }

  lemma SnapshotPhase(s: State, step: Step)
    requires Sound(s) && Batched(s, step) && step.ClaimSnapshot?
    ensures AllHaveRows(Next(s, step), ClaimsToProcess(s.rows, step.flushId))
  {
    SnapshotIsComplete(s.rows, step.flushId, step.now);
    TableStaysSound(s, step);
    var next := Next(s, step);
    forall c | c in ClaimsToProcess(s.rows, step.flushId)
      ensures HasRows(next, c)
    {
      FilterMembers(OfClaim(c), next.rows);
      assert RowsOf(next.rows, c)[0] in RowsOf(next.rows, c);
      assert |ClaimContent(next.rows, c)| == |RowsOf(next.rows, c)|;
    }
  }

  lemma LoadPhase(s: State, claims: seq<FlushId>)
    requires TableSound(s.rows, s.used) && AllHaveRows(s, claims)
    ensures PhaseSound(s, LoadNext(s, claims))
  {
    if claims != [] {
      assert claims[0] in claims;
      assert HasRows(s, claims[0]);
      assert forall c :: c in claims[1..] ==> c in claims;
      ClaimIsWhole(s.rows, s.used, claims[0]);
      assert |ClaimContent(s.rows, claims[0])| == |RowsOf(s.rows, claims[0])|;
    }
  }

  lemma CurrentLength(rows: Table, claim: FlushId, read: Table)
    requires Current(rows, claim, read)
    ensures |read| == |RowsOf(rows, claim)| > 0
  {
    assert |Map(Content, read)| == |ClaimContent(rows, claim)|;
  }

  /** A completing update changes every row of the claim or none, so its count raises no mismatch. */
  lemma CompletePhase(s: State, step: Step, claims: seq<FlushId>, d: Delivery)
    requires Sound(s) && Batched(s, step) && step.CompleteUpdate?
    requires PhaseOf(s, step.worker) == Delivered(claims, d)
    ensures PhaseSound(Next(s, step), AfterUpdate(|Filter(Unfinished(claims[0]), s.rows)|, claims, d))
  {
    var claim := claims[0];
    CurrentLength(s.rows, claim, d.rows);
    ClaimIsWhole(s.rows, s.used, claim);
    PhaseKept(s, step, Delivered(claims, d));
    assert forall c :: c in claims[1..] ==> c in claims;
    if ClaimFlushed(s.rows, claim) {
      StepKeepsFlushed(s, step, claim);
    }
  }

  lemma CountPhase(s: State, claims: seq<FlushId>, d: Delivery)
    requires TableSound(s.rows, s.used) && PhaseSound(s, Counting(claims, d))
    ensures PhaseSound(s, AfterCount(|Filter(Finished(claims[0]), s.rows)|, claims, d))
  {
    CurrentLength(s.rows, claims[0], d.rows);
    ClaimIsWhole(s.rows, s.used, claims[0]);
    assert forall c :: c in claims[1..] ==> c in claims;
  }

  lemma PreparePhase(s: State, claims: seq<FlushId>, rows: Table, reading: Reading, needed: seq<Job>)
    requires PhaseSound(s, Loaded(claims, rows))
    ensures PhaseSound(s, Prepared(claims, Delivery(claims[0], rows, reading, needed)))
  {
    assert claims[0] in claims;
    assert HasRows(s, claims[0]);
  }

  lemma FinishPhase(s: State, step: Step, claims: seq<FlushId>, d: Delivery)
    requires Sound(s) && Batched(s, step) && step.FinishDelivery?
    requires PhaseOf(s, step.worker) == Prepared(claims, d)
    ensures AllSent(s, d.needed) ==> PhaseSound(Next(s, step), Delivered(claims, d))
  {
    PhaseKept(s, step, Prepared(claims, d));
    if AllSent(s, d.needed) {
      var next := Next(s, step);
      assert next.deliveries[|s.deliveries|] == d;
    }
  }

  /** The phase a worker's own step leaves it in holds what it says, and is never a failure. */
  lemma OwnPhase(s: State, step: Step, w: Worker)
    requires Sound(s) && Batched(s, step) && Mover(step) == Some(w)
    ensures PhaseSound(Next(s, step), PhaseOf(Next(s, step), w))
  {
    var phase := PhaseOf(s, w);
    PhaseKept(s, step, phase);
    match step
    case ClaimSnapshot(_, _, _) => SnapshotPhase(s, step);
    case Load(_) =>
      if phase.Ready? {
        LoadPhase(s, phase.claims);
        PhaseKept(s, step, LoadNext(s, phase.claims));
      }
    case Prepare(_, reading, needed) =>
      if phase.Loaded? {
        PreparePhase(s, phase.claims, phase.rows, reading, needed);
        PhaseKept(s, step, Prepared(phase.claims, Delivery(phase.claims[0], phase.rows, reading, needed)));
      }
    case AddJob(_, _) =>
    case FinishDelivery(_) =>
      if phase.Prepared? {
        FinishPhase(s, step, phase.claims, phase.delivery);
      }
    case CompleteUpdate(_, _) =>
      if phase.Delivered? {
        CompletePhase(s, step, phase.claims, phase.delivery);
      }
    case CountCompleted(_) =>
      if phase.Counting? {
        CountPhase(s, phase.claims, phase.delivery);
        PhaseKept(s, step, AfterCount(|Filter(Finished(phase.claims[0]), s.rows)|, phase.claims, phase.delivery));
      }
    case Stop(_) =>
  }

  lemma OthersKeepTheirPhase(s: State, step: Step, worker: Worker)
    requires worker in Next(s, step).workers && Mover(step) != Some(worker)
    ensures worker in s.workers && Next(s, step).workers[worker] == s.workers[worker]
  {
  }

  lemma WorkersStaySound(s: State, step: Step)
    requires Sound(s) && Batched(s, step)
    ensures forall w :: w in Next(s, step).workers ==> PhaseSound(Next(s, step), Next(s, step).workers[w])
  {
    forall w | w in Next(s, step).workers
      ensures PhaseSound(Next(s, step), Next(s, step).workers[w])
    {
      if Mover(step) == Some(w) {
        OwnPhase(s, step, w);
      } else {
        OthersKeepTheirPhase(s, step, w);
        PhaseKept(s, step, s.workers[w]);
      }
    }
  }

  /** A job is sent only by a worker that needs it, when the queue does not know its id. */
  lemma StepSends(s: State, step: Step)
    ensures var next := Next(s, step);
            next.sent == s.sent
            || (step.AddJob? && PhaseOf(s, step.worker).Prepared?
                && var d := PhaseOf(s, step.worker).delivery;
                   && step.k < |d.needed| && d.needed[step.k].id !in s.known
                   && next.sent == s.sent + [Sent(d.needed[step.k], d)]
                   && next.known == s.known + {d.needed[step.k].id})
  {
  }

  lemma StepDelivers(s: State, step: Step)
    ensures var next := Next(s, step);
            next.deliveries == s.deliveries
            || (step.FinishDelivery? && PhaseOf(s, step.worker).Prepared?
                && var d := PhaseOf(s, step.worker).delivery;
                   AllSent(s, d.needed) && next.deliveries == s.deliveries + [d])
  {
  }

  lemma SentStaySound(s: State, step: Step)
    requires Sound(s) && Batched(s, step)
    ensures forall k :: 0 <= k < |Next(s, step).sent| ==> DeliverySound(Next(s, step), Next(s, step).sent[k].delivery)
  {
    var next := Next(s, step);
    StepSends(s, step);
    forall k | 0 <= k < |next.sent|
      ensures DeliverySound(next, next.sent[k].delivery)
    {
      if k < |s.sent| {
        assert DeliverySound(s, s.sent[k].delivery);
      } else {
        assert PhaseSound(s, PhaseOf(s, step.worker));
      }
      DeliveryStaysSound(s, step, next.sent[k].delivery);
    }
  }

  lemma DeliveriesStaySound(s: State, step: Step)
    requires Sound(s) && Batched(s, step)
    ensures var next := Next(s, step);
            forall k :: 0 <= k < |next.deliveries| ==>
              DeliverySound(next, next.deliveries[k]) && AllSent(next, next.deliveries[k].needed)
  {
    var next := Next(s, step);
    StepDelivers(s, step);
    StepKeepsSent(s, step);
    forall k | 0 <= k < |next.deliveries|
      ensures DeliverySound(next, next.deliveries[k]) && AllSent(next, next.deliveries[k].needed)
    {
      if k < |s.deliveries| {
        assert DeliverySound(s, s.deliveries[k]) && AllSent(s, s.deliveries[k].needed);
      } else {
        assert PhaseSound(s, PhaseOf(s, step.worker));
      }
      DeliveryStaysSound(s, step, next.deliveries[k]);
      AllSentGrows(s, next, next.deliveries[k].needed);
    }
  }

  lemma KnownStaysSent(s: State, step: Step)
    requires QueueSound(s)
    ensures forall id :: id in Next(s, step).known ==> WasSent(Next(s, step), id)
  {
    var next := Next(s, step);
    StepSends(s, step);
    StepKeepsSent(s, step);
    forall id | id in next.known
      ensures WasSent(next, id)
    {
      if id in s.known {
        SentGrows(s, next, id);
      } else {
        assert next.sent[|s.sent|].job.id == id;
      }
    }
  }

  lemma FlushedStayDelivered(s: State, step: Step)
    requires Sound(s) && Batched(s, step)
    ensures FlushedWereDelivered(Next(s, step))
  {
    StepKeepsSent(s, step);
    StepKeepsRows(s, step);
    var next := Next(s, step);
    forall i | 0 <= i < |next.rows| && next.rows[i].flushId.Some? && next.rows[i].flushedAt.Some?
      ensures WasDelivered(next, next.rows[i].flushId.value)
    {
      var claim := next.rows[i].flushId.value;
      if s.rows[i].flushedAt.None? || s.rows[i].flushId.None? {
        FlushedByCompletion(s, step, i);
        assert PhaseSound(s, PhaseOf(s, step.worker));
      }
      DeliveredGrows(s, next, claim);
    }
  }

  /** Only a completing update flushes a claimed row: one of the claim the worker had delivered. */
  lemma FlushedByCompletion(s: State, step: Step, i: nat)
    requires Batched(s, step) && i < |s.rows| <= |Next(s, step).rows|
    requires s.rows[i].flushedAt.None? || s.rows[i].flushId.None?
    requires Next(s, step).rows[i].flushedAt.Some? && Next(s, step).rows[i].flushId.Some?
    ensures step.CompleteUpdate? && PhaseOf(s, step.worker).Delivered? && PhaseOf(s, step.worker).claims != []
    ensures Next(s, step).rows[i].flushId == Some(PhaseOf(s, step.worker).claims[0])
  {
  }

  lemma StepStaysSound(s: State, step: Step)
    requires Sound(s) && Batched(s, step)
    ensures Sound(Next(s, step))
  {
    TableStaysSound(s, step);
    WorkersStaySound(s, step);
    SentStaySound(s, step);
    DeliveriesStaySound(s, step);
    KnownStaysSent(s, step);
    FlushedStayDelivered(s, step);
  }

  /**
   The claim protocol over whole runs: however collectors and workers interleave and stop, the
   state stays sound. No worker ever reports a claim without rows, with several timestamps,
   partially completed or with a completion mismatch.
   */
  lemma {:induction false} EveryRunIsSound(s: State, steps: seq<Step>)
    requires Sound(s) && BatchedRun(s, steps)
    ensures Sound(Run(s, steps))
    decreases |steps|
  {
    if steps != [] {
      StepStaysSound(s, steps[0]);
      EveryRunIsSound(Next(s, steps[0]), steps[1..]);
    }
  }

  lemma NoWorkerFails(s: State, steps: seq<Step>, worker: Worker)
    requires Sound(s) && BatchedRun(s, steps)
    ensures !PhaseOf(Run(s, steps), worker).Failed?
  {
    EveryRunIsSound(s, steps);
  }

  /** A claim is what it was when it was taken, for the rest of every run. */
  lemma {:induction false} ClaimsAreFrozen(s: State, steps: seq<Step>, claim: FlushId)
    requires BatchedRun(s, steps) && claim in s.used
    ensures ClaimContent(Run(s, steps).rows, claim) == ClaimContent(s.rows, claim)
    decreases |steps|
  {
    if steps != [] {
      StepFreezesClaims(s, steps[0], claim);
      ClaimsAreFrozen(Next(s, steps[0]), steps[1..], claim);
    }
  }

  /** A dedupe key that was in one claim is never in another, at that moment or later. */
  lemma KeyInOneClaim(s: State, steps: seq<Step>, i: nat, j: nat)
    requires Sound(s) && BatchedRun(s, steps)
    requires i < |s.rows| && s.rows[i].flushId.Some?
    requires j < |Run(s, steps).rows| && Run(s, steps).rows[j].key == s.rows[i].key
    ensures Content(Run(s, steps).rows[j]) == Content(s.rows[i])
  {
    EveryRunIsSound(s, steps);
    var claim := s.rows[i].flushId.value;
    ClaimsAreFrozen(s, steps, claim);
    var m := FrozenRow(s.rows, Run(s, steps).rows, claim, i);
    SameKeySameRow(Run(s, steps).rows, m, j);
  }

  lemma SameKeySameRow(rows: Table, i: nat, j: nat)
    requires KeysUnique(rows) && i < |rows| && j < |rows| && rows[i].key == rows[j].key
    ensures i == j
  {
  }

  /** A claimed row is found again in every table that holds the same claim. */
  lemma FrozenRow(rows: Table, later: Table, claim: FlushId, i: nat) returns (m: nat)
    requires i < |rows| && rows[i].flushId == Some(claim)
    requires ClaimContent(later, claim) == ClaimContent(rows, claim)
    ensures m < |later| && Content(later[m]) == Content(rows[i])
  {
    FilterMembers(OfClaim(claim), rows);
    FilterMembers(OfClaim(claim), later);
    var own, kept := RowsOf(rows, claim), RowsOf(later, claim);
    assert rows[i] in own;
    var n :| 0 <= n < |own| && own[n] == rows[i];
    assert |kept| == |ClaimContent(later, claim)| && ClaimContent(later, claim)[n] == Content(own[n]);
    assert kept[n] in kept;
    m :| 0 <= m < |later| && later[m] == kept[n];
  }

  // What a claim holds is what was collected last

  /** The data that a step writes to a key's row: to the one still free, or to a new one when there is none. */
  function CollectedData(s: State, step: Step, key: DedupeKey): Option<Data> {
    if step.CollectUpdate? && step.key == key
       && exists i :: 0 <= i < |s.rows| && s.rows[i].key == key && s.rows[i].flushId.None? && s.rows[i].flushedAt.None?
    then Some(step.data)
    else if step.CollectCreate? && step.newKey == key && forall i :: 0 <= i < |s.rows| ==> s.rows[i].key != key
    then Some(step.newData)
    else None
  }

  /** The last data that a run writes for a key, or else what was there. */
  function LastCollected(s: State, steps: seq<Step>, key: DedupeKey, last: Option<Data>): Option<Data>
    decreases |steps|
  {
    if steps == [] then last
    else
      var written := CollectedData(s, steps[0], key);
      LastCollected(Next(s, steps[0]), steps[1..], key, if written.Some? then written else last)
  }

  predicate HoldsLast(rows: Table, key: DedupeKey, last: Option<Data>) {
    forall i :: 0 <= i < |rows| && rows[i].key == key ==> last == Some(rows[i].data)
  }

  lemma StepHoldsLast(s: State, step: Step, key: DedupeKey, last: Option<Data>)
    requires KeysUnique(s.rows) && Batched(s, step) && HoldsLast(s.rows, key, last)
    ensures var written := CollectedData(s, step, key);
            HoldsLast(Next(s, step).rows, key, if written.Some? then written else last)
  {
    match step
    case CollectUpdate(_, _, _) =>
      forall i | 0 <= i < |s.rows| && s.rows[i].key == key
        ensures var written := CollectedData(s, step, key);
                Some(Next(s, step).rows[i].data) == if written.Some? then written else last
      {
        FreeRow(s.rows, key, i);
      }
    case _ =>
  }

  /** With unique keys a key's row is free exactly when some row of the key is. */
  lemma FreeRow(rows: Table, key: DedupeKey, i: nat)
    requires KeysUnique(rows) && i < |rows| && rows[i].key == key
    ensures (exists j :: 0 <= j < |rows| && rows[j].key == key && rows[j].flushId.None? && rows[j].flushedAt.None?) <==>
              rows[i].flushId.None? && rows[i].flushedAt.None?
  {
    forall j | 0 <= j < |rows| && rows[j].key == key
      ensures j == i
    {
      SameKeySameRow(rows, i, j);
    }
  }

  /** Over every run a key's row holds what was collected last for it while it was free. */
  lemma {:induction false} RowsHoldLastCollected(s: State, steps: seq<Step>, key: DedupeKey, last: Option<Data>)
    requires Sound(s) && BatchedRun(s, steps) && HoldsLast(s.rows, key, last)
    ensures HoldsLast(Run(s, steps).rows, key, LastCollected(s, steps, key, last))
    decreases |steps|
  {
    if steps != [] {
      StepHoldsLast(s, steps[0], key, last);
      StepStaysSound(s, steps[0]);
      var written := CollectedData(s, steps[0], key);
      RowsHoldLastCollected(Next(s, steps[0]), steps[1..], key, if written.Some? then written else last);
    }
  }

  /**
   The payload a claim freezes is the last one collected for its key before the claim: a row that
   is claimed holds it, and so does the key's row at the end of every later run.
   */
  lemma ClaimHoldsLastCollected(s: State, before: seq<Step>, after: seq<Step>, i: nat, j: nat)
    requires Sound(s) && s.rows == [] && BatchedRun(s, before) && BatchedRun(Run(s, before), after)
    requires i < |Run(s, before).rows| && Run(s, before).rows[i].flushId.Some?
    requires j < |Run(Run(s, before), after).rows|
    requires Run(Run(s, before), after).rows[j].key == Run(s, before).rows[i].key
    ensures var row := Run(s, before).rows[i];
            && LastCollected(s, before, row.key, None) == Some(row.data)
            && Run(Run(s, before), after).rows[j].data == row.data
            && Run(Run(s, before), after).rows[j].flushId == row.flushId
  {
    RowsHoldLastCollected(s, before, Run(s, before).rows[i].key, None);
    EveryRunIsSound(s, before);
    KeyInOneClaim(Run(s, before), after, i, j);
  }

  // Delivery over whole runs

  /** How often a job was sent, and how often the queue was told to forget it. */
  function Sends(sent: seq<Sent>, id: JobId): nat {
    if sent == [] then 0 else Sends(Init(sent), id) + if Last(sent).job.id == id then 1 else 0
  }

  function Forgets(steps: seq<Step>, id: JobId): nat
    decreases |steps|
  {
    if steps == [] then 0 else (if steps[0] == Forget(id) then 1 else 0) + Forgets(steps[1..], id)
  }

  function Knows(s: State, id: JobId): nat {
    if id in s.known then 1 else 0
  }

  lemma SendsGrow(sent: seq<Sent>, one: Sent, id: JobId)
    ensures Sends(sent + [one], id) == Sends(sent, id) + if one.job.id == id then 1 else 0
  {
    assert Init(sent + [one]) == sent && Last(sent + [one]) == one;
  }

  /** Only forgetting an id makes the queue not know it any more. */
  lemma StepKnows(s: State, step: Step, id: JobId)
    ensures id in s.known && step != Forget(id) ==> id in Next(s, step).known
  {
  }

  lemma StepCountsSends(s: State, step: Step, id: JobId)
    ensures Sends(Next(s, step).sent, id) + Knows(s, id)
         <= Sends(s.sent, id) + Knows(Next(s, step), id) + if step == Forget(id) then 1 else 0
  {
    StepSends(s, step);
    StepKnows(s, step, id);
    if Next(s, step).sent != s.sent {
      var d := PhaseOf(s, step.worker).delivery;
      SendsGrow(s.sent, Sent(d.needed[step.k], d), id);
    }
  }

  /**
   However often a claim is processed again, a job is sent once more only after the queue forgot
   its id: over any run it is sent at most once plus once for each time it was forgotten.
   */
  lemma {:induction false} SentAgainOnlyWhenForgotten(s: State, steps: seq<Step>, id: JobId)
    ensures Sends(Run(s, steps).sent, id) + Knows(s, id)
         <= Sends(s.sent, id) + Knows(Run(s, steps), id) + Forgets(steps, id)
    ensures Sends(Run(s, steps).sent, id) + Knows(s, id) <= Sends(s.sent, id) + 1 + Forgets(steps, id)
    decreases |steps|
  {
    if steps != [] {
      StepCountsSends(s, steps[0], id);
      SentAgainOnlyWhenForgotten(Next(s, steps[0]), steps[1..], id);
    }
  }

  /** Every delivery in the state needs what its rows and reading make. */
  ghost predicate Honest(s: State) {
    && WorkersHonest(s.workers)
    && SendsHonest(s.sent)
    && DeliveriesHonest(s.deliveries)
  }

  ghost predicate DeliveriesHonest(deliveries: seq<Delivery>) {
    forall k :: 0 <= k < |deliveries| ==> Made(deliveries[k])
  }

  ghost predicate WorkersHonest(workers: map<Worker, Phase>) {
    forall w :: w in workers && HasDelivery(workers[w]) ==> Made(workers[w].delivery)
  }

  /** A job was sent by a delivery that needs it. */
  ghost predicate SendHonest(sent: Sent) {
    Made(sent.delivery) && sent.job in sent.delivery.needed
  }

  ghost predicate SendsHonest(sent: seq<Sent>) {
    forall k :: 0 <= k < |sent| ==> SendHonest(sent[k])
  }

  predicate HasDelivery(phase: Phase) {
    phase.Prepared? || phase.Delivered? || phase.Counting?
  }

  /** A delivery that a worker holds after a step it held before, or has just prepared. */
  lemma DeliveryComesFrom(s: State, step: Step, w: Worker)
    requires w in Next(s, step).workers && HasDelivery(Next(s, step).workers[w])
    ensures var d := Next(s, step).workers[w].delivery;
            || (w in s.workers && HasDelivery(s.workers[w]) && s.workers[w].delivery == d)
            || (step.Prepare? && step.worker == w && PhaseOf(s, w).Loaded? && PhaseOf(s, w).claims != []
                && d == Delivery(PhaseOf(s, w).claims[0], PhaseOf(s, w).rows, step.reading, step.needed))
  {
  }

  lemma WorkersStayHonest(s: State, step: Step)
    requires WorkersHonest(s.workers) && Computed(s, step)
    ensures WorkersHonest(Next(s, step).workers)
  {
    var next := Next(s, step);
    forall w | w in next.workers && HasDelivery(next.workers[w])
      ensures Made(next.workers[w].delivery)
    {
      DeliveryComesFrom(s, step, w);
    }
  }

  lemma HeldIsMade(s: State, worker: Worker)
    requires WorkersHonest(s.workers) && HasDelivery(PhaseOf(s, worker))
    ensures Made(PhaseOf(s, worker).delivery)
  {
  }

  lemma SendStaysHonest(sent: seq<Sent>, d: Delivery, k: nat)
    requires SendsHonest(sent) && Made(d) && k < |d.needed|
    ensures SendsHonest(sent + [Sent(d.needed[k], d)])
  {
    assert SendHonest(Sent(d.needed[k], d));
  }

  lemma SendsStayHonest(s: State, step: Step)
    requires WorkersHonest(s.workers) && SendsHonest(s.sent)
    ensures SendsHonest(Next(s, step).sent)
  {
    StepSends(s, step);
    if Next(s, step).sent != s.sent {
      HeldIsMade(s, step.worker);
      SendStaysHonest(s.sent, PhaseOf(s, step.worker).delivery, step.k);
    }
  }

  lemma DeliveriesStayHonest(s: State, step: Step)
    requires WorkersHonest(s.workers) && DeliveriesHonest(s.deliveries)
    ensures DeliveriesHonest(Next(s, step).deliveries)
  {
    StepDelivers(s, step);
    if Next(s, step).deliveries != s.deliveries {
      HeldIsMade(s, step.worker);
    }
  }

  lemma StepStaysHonest(s: State, step: Step)
    requires Honest(s) && Computed(s, step)
    ensures Honest(Next(s, step))
  {
    WorkersStayHonest(s, step);
    SendsStayHonest(s, step);
    DeliveriesStayHonest(s, step);
  }

  lemma {:induction false} EveryRunIsHonest(s: State, steps: seq<Step>)
    requires Honest(s) && ComputedRun(s, steps)
    ensures Honest(Run(s, steps))
    decreases |steps|
  {
    if steps != [] {
      StepStaysHonest(s, steps[0]);
      EveryRunIsHonest(Next(s, steps[0]), steps[1..]);
    }
  }

  /**
   Every job that was sent is one that assembling and filtering the claim's rows makes, and those
   rows are exactly what the claim holds to the end of the run.
   */
  lemma JobsHoldTheirClaim(s: State, steps: seq<Step>, k: nat)
    requires Sound(s) && Honest(s) && BatchedRun(s, steps) && ComputedRun(s, steps)
    requires k < |Run(s, steps).sent|
    ensures var (job, d) := (Run(s, steps).sent[k].job, Run(s, steps).sent[k].delivery);
            && Made(d) && job in d.needed
            && Map(Content, d.rows) == ClaimContent(Run(s, steps).rows, d.claim)
  {
    EveryRunIsSound(s, steps);
    EveryRunIsHonest(s, steps);
    var last := Run(s, steps);
    assert DeliverySound(last, last.sent[k].delivery) && SendHonest(last.sent[k]);
  }

  /** Every subscription a delivery read has been sent its job for each scope of which something survives. */
  predicate ScopesSent(s: State, d: Delivery) {
    forall j :: 0 <= j < |d.reading.subscriptions| ==> SubscriptionSent(s, d, d.reading.subscriptions[j])
  }

  predicate SubscriptionSent(s: State, d: Delivery, subscription: Subscription) {
    var (events, now) := (EventsOf(d.rows), ClaimTime(d.rows));
    && (OwnedSurvive(events, now, d.reading, subscription) ==> WasSent(s, OwnedJobId(d.claim, subscription)))
    && (CompetitorsSurvive(events, now, d.reading, subscription) ==>
          WasSent(s, CompetitorJobId(d.claim, subscription)))
  }

  lemma NeededIsSent(s: State, jobs: seq<Job>, id: JobId)
    requires AllSent(s, jobs) && HasJob(jobs, id)
    ensures WasSent(s, id)
  {
    var k :| 0 <= k < |jobs| && jobs[k].id == id;
    assert WasSent(s, jobs[k].id);
  }

  lemma DeliveryReachesAll(s: State, d: Delivery)
    requires Made(d) && AllSent(s, d.needed)
    ensures ScopesSent(s, d)
  {
    var (events, now) := (EventsOf(d.rows), ClaimTime(d.rows));
    forall j | 0 <= j < |d.reading.subscriptions|
      ensures SubscriptionSent(s, d, d.reading.subscriptions[j])
    {
      var subscription := d.reading.subscriptions[j];
      DeliveryCoversSurvivors(events, now, d.claim, d.reading, j);
      if OwnedSurvive(events, now, d.reading, subscription) {
        NeededIsSent(s, d.needed, OwnedJobId(d.claim, subscription));
      }
      if CompetitorsSurvive(events, now, d.reading, subscription) {
        NeededIsSent(s, d.needed, CompetitorJobId(d.claim, subscription));
      }
    }
  }

  /**
   A claimed row is marked as flushed only after some worker delivered exactly the rows of its
   claim: every subscription that worker read was sent its job for each scope of which a signal of
   those rows survives the subscription's filter.
   */
  lemma FlushedOnlyAfterDelivery(s: State, steps: seq<Step>, i: nat) returns (d: Delivery)
    requires Sound(s) && Honest(s) && BatchedRun(s, steps) && ComputedRun(s, steps)
    requires i < |Run(s, steps).rows| && Run(s, steps).rows[i].flushedAt.Some? && Run(s, steps).rows[i].flushId.Some?
    ensures Some(d.claim) == Run(s, steps).rows[i].flushId && Made(d)
    ensures Map(Content, d.rows) == ClaimContent(Run(s, steps).rows, d.claim)
    ensures ScopesSent(Run(s, steps), d)
  {
    EveryRunIsSound(s, steps);
    EveryRunIsHonest(s, steps);
    var last := Run(s, steps);
    var k :| 0 <= k < |last.deliveries| && last.deliveries[k].claim == last.rows[i].flushId.value;
    d := last.deliveries[k];
    assert DeliverySound(last, d) && AllSent(last, d.needed);
    DeliveryReachesAll(last, d);
  }

  /** Runs have a state to start from: no rows, jobs, workers or deliveries. */
  lemma EmptyIsSound()
    ensures Sound(State([], [], {}, map[], {}, [])) && Honest(State([], [], {}, map[], {}, []))
  {
  }

  // The text of a job id

  predicate Plain(text: string) {
    '~' !in text
  }

  function JobIdText(flushId: string, kind: string, subscription: string, scope: string): string {
    "flush~" + flushId + "~" + kind + "~" + subscription + "~" + scope
  }

  lemma {:induction false} SeparatorSplits(a: string, b: string, x: string, y: string)
    requires Plain(a) && Plain(b) && a + "~" + x == b + "~" + y
    ensures a == b && x == y
  {
    var left, right := a + "~" + x, b + "~" + y;
    assert left[|a|] == '~' && right[|b|] == '~';
    assert forall i :: 0 <= i < |a| ==> left[i] == a[i] && left[i] != '~';
    assert forall i :: 0 <= i < |b| ==> right[i] == b[i] && right[i] != '~';
    assert |a| == |b|;
    assert a == left[..|a|] && b == right[..|b|];
    assert x == left[|a| + 1..] && y == right[|b| + 1..];
  }

  /** Two deliveries have the same job id only when claim, kind, subscription and scope agree. */
  lemma JobIdsTellDeliveriesApart(f: string, k: string, s: string, c: string,
                                  f': string, k': string, s': string, c': string)
    requires Plain(f) && Plain(k) && Plain(s) && Plain(f') && Plain(k') && Plain(s')
    ensures JobIdText(f, k, s, c) == JobIdText(f', k', s', c') <==> f == f' && k == k' && s == s' && c == c'
  {
    if JobIdText(f, k, s, c) == JobIdText(f', k', s', c') {
      var r, r' := k + "~" + (s + "~" + c), k' + "~" + (s' + "~" + c');
      assert JobIdText(f, k, s, c) == "flush" + "~" + (f + "~" + r);
      assert JobIdText(f', k', s', c') == "flush" + "~" + (f' + "~" + r');
      SeparatorSplits("flush", "flush", f + "~" + r, f' + "~" + r');
      SeparatorSplits(f, f', r, r');
      SeparatorSplits(k, k', s + "~" + c, s' + "~" + c');
      SeparatorSplits(s, s', c, c');
    }
  }
}

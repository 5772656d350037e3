/**
 The authorization protocol as a state machine: any number of workers and reconcilers, the durable
 store, the writes each work connection has pending, the advisory lock table, the requests on the
 wire and ARCA's ledger.  One event is one step of one party; every interleaving is a run.

 `Enabled`/`Apply` say what the code, PostgreSQL and ARCA can do.  `Trusted` and `WireFresh` say what the
 environment is trusted for; Counterexamples.dfy shows a run that goes wrong for each part of it but the
 newness of ARCA's CAEs.
 */
module Protocol {
  import opened Base
  import opened Ledger
  import Wsfe

  type InvoiceId = nat
  type WorkerId = nat

  datatype ArcaState = NotRequired | Pending | Processing | Authorized | Rejected | Uncertain

  datatype Invoice = Invoice(
    company: nat, posted: bool, coord: Coordinate, arca: ArcaState, cae: Option<Cae>)

  datatype AttemptState = Sent | Authorized | Rejected | Uncertain | Aborted

  datatype Attempt = Attempt(
    invoice: InvoiceId, company: nat, coord: Coordinate, state: AttemptState, sentAt: nat, cae: Option<Cae>)
  {
    predicate Open() { state.Sent? || state.Uncertain? }

    /** Open or authorized: a voucher may exist for it. */
    predicate Live() { Open() || state.Authorized? }
  }

  /** What is committed. */
  datatype Store = Store(invoices: map<InvoiceId, Invoice>, attempts: map<AttemptId, Attempt>)

  /** The rows a transaction that will write an attempt and its invoice has in its snapshot. */
  datatype Seen = Seen(attempt: Attempt, invoice: Invoice)

  /** Where a worker is, with the snapshot it read and the writes its work connection has pending. */
  datatype Stage =
    | Locked(invoice: InvoiceId)
    | Checked(invoice: InvoiceId, row: Invoice)
    | Numbered(invoice: InvoiceId, row: Invoice)
    | Staged(invoice: InvoiceId, row: Invoice, sentAt: nat)
    | Armed(attempt: AttemptId)
    | Opened(attempt: AttemptId, seen: Seen)
    | Waiting(attempt: AttemptId, seen: Seen)
    | Resolved(attempt: AttemptId, seen: Seen, outcome: Wsfe.Outcome)
    | Recovering(attempt: AttemptId)
    | Consulted(attempt: AttemptId, seen: Seen, answer: Wsfe.Consultation)
    | Finished

  datatype Worker = Worker(key: int, stage: Stage)

  datatype State = State(
    store: Store,
    workers: map<WorkerId, Worker>,
    locks: map<int, WorkerId>,
    wire: set<AttemptId>,
    log: seq<Voucher>,
    now: nat)

  /** The lock-key hash, collisions included, and the numbers issued before this system took over. */
  datatype Config = Config(key: Sequence -> int, base: Sequence -> nat)

  datatype Verdict = Accept(cae: Cae) | Refuse | Die

  datatype Event =
    // users
    | NewInvoice(invoice: InvoiceId, company: nat, coord: Coordinate)
    | Post(invoice: InvoiceId)
    | ButtonDraft(invoice: InvoiceId)
    | Renumber(invoice: InvoiceId, coord: Coordinate)
    // a worker authorizing an invoice
    | Begin(worker: WorkerId, invoice: InvoiceId, view: Sequence)
    | CheckReady(worker: WorkerId)
    | CheckSequence(worker: WorkerId)
    | CreateAttempt(worker: WorkerId)
    | CommitAttempt(worker: WorkerId, attempt: AttemptId)
    | BeginCall(worker: WorkerId)
    | Send(worker: WorkerId)
    | Return(worker: WorkerId, result: Wsfe.CallResult)
    | CommitOutcome(worker: WorkerId)
    // a worker reconciling an attempt
    | BeginRecovery(worker: WorkerId, attempt: AttemptId)
    | Query(worker: WorkerId, answer: Wsfe.Consultation)
    | CommitRecovery(worker: WorkerId)
    | ReconcileButton(attempt: AttemptId)
    // any end of a worker's block: return, exception or crash
    | Leave(worker: WorkerId)
    // ARCA and the clock
    | Land(attempt: AttemptId, verdict: Verdict)
    | Tick

  const STALE_ATTEMPT_MINUTES: nat := 5

  predicate Stale(a: Attempt, now: nat) { a.sentAt + STALE_ATTEMPT_MINUTES < now }

  /** What the cron may take: uncertain at once, sent only when too old to be in flight. */
  predicate Eligible(a: Attempt, now: nat) {
    a.state.Uncertain? || (a.state.Sent? && Stale(a, now))
  }

  predicate Ready(row: Invoice) { row.posted && (row.arca.Pending? || row.arca.Rejected?) }

  /** The partial unique index: one authorized attempt per company and fiscal coordinate. */
  predicate IndexFree(attempts: map<AttemptId, Attempt>, a: AttemptId)
    requires a in attempts
  {
    forall b | b in attempts ::
      b != a && attempts[b].state.Authorized? && attempts[b].company == attempts[a].company
      ==> attempts[b].coord != attempts[a].coord
  }

  // ----- writes ------------------------------------------------------------------------------

  function SetInvoice(store: Store, i: InvoiceId, row: Invoice): Store {
    store.(invoices := store.invoices[i := row])
  }

  /** The attempt and the invoice, written together. */
  function Write(store: Store, a: AttemptId, row: Attempt, arca: ArcaState, cae: Option<Cae>): Store
    requires row.invoice in store.invoices
  {
    var i := row.invoice;
    Store(store.invoices[i := store.invoices[i].(arca := arca, cae := cae)], store.attempts[a := row])
  }

  predicate HasAttempt(store: Store, a: AttemptId) {
    a in store.attempts && store.attempts[a].invoice in store.invoices
  }

  /** `_mark_*` on the attempt with the matching write on its invoice. */
  function WriteOutcome(store: Store, a: AttemptId, outcome: Wsfe.Outcome): Store
    requires HasAttempt(store, a)
  {
    var row := store.attempts[a];
    var kept := store.invoices[row.invoice].cae;
    match outcome
    case Authorized(cae) =>
      Write(store, a, row.(state := AttemptState.Authorized, cae := cae), ArcaState.Authorized, cae)
    case Rejected(_) => Write(store, a, row.(state := AttemptState.Rejected), ArcaState.Rejected, kept)
    case Aborted => Write(store, a, row.(state := AttemptState.Aborted), ArcaState.Rejected, kept)
    case Uncertain => Write(store, a, row.(state := AttemptState.Uncertain), ArcaState.Uncertain, kept)
  }

  /** `_reconcile` once ARCA has answered, with `_apply_reconciliation`. */
  function WriteReconciliation(store: Store, a: AttemptId, answer: Wsfe.Consultation): Store
    requires HasAttempt(store, a) && !answer.Refused?
  {
    var row := store.attempts[a];
    match answer
    case Found(cae) =>
      Write(store, a, row.(state := AttemptState.Authorized, cae := cae), ArcaState.Authorized, cae)
    case NotFound =>
      Write(store, a, row.(state := AttemptState.Aborted), ArcaState.Pending, store.invoices[row.invoice].cae)
  }

  /** What FECompConsultar says when it tells the truth about a coordinate. */
  function AnswerOf(held: Option<Cae>): Wsfe.Consultation {
    if held.Some? then Wsfe.Found(held) else Wsfe.NotFound
  }

  function SeenAt(store: Store, a: AttemptId): Seen
    requires HasAttempt(store, a)
  {
    Seen(store.attempts[a], store.invoices[store.attempts[a].invoice])
  }

  /** Neither row has been updated since the snapshot: if one has, PostgreSQL refuses the write. */
  predicate StillSeen(store: Store, a: AttemptId, seen: Seen) { HasAttempt(store, a) && SeenAt(store, a) == seen }

  // ----- steps -------------------------------------------------------------------------------

  predicate At(s: State, w: WorkerId) { w in s.workers }

  function Goto(s: State, w: WorkerId, stage: Stage): State
    requires At(s, w)
  {
    s.(workers := s.workers[w := s.workers[w].(stage := stage)])
  }

  function Acquire(s: State, w: WorkerId, key: int, stage: Stage): State {
    s.(workers := s.workers[w := Worker(key, stage)], locks := s.locks[key := w])
  }

  predicate Reads(s: State, w: WorkerId) {
    At(s, w) && s.workers[w].stage.Locked?
    && s.workers[w].stage.invoice in s.store.invoices && Ready(s.store.invoices[s.workers[w].stage.invoice])
  }

  predicate NumberFits(c: Config, s: State, w: WorkerId) {
    At(s, w) && s.workers[w].stage.Checked?
    && var coord := s.workers[w].stage.row.coord;
    coord.number == Last(c.base, s.log, coord.sequence) + 1
  }

  /** A row someone else has updated since the snapshot makes the commit fail. */
  predicate CanCommitAttempt(s: State, w: WorkerId, a: AttemptId) {
    At(s, w) && s.workers[w].stage.Staged? && a !in s.store.attempts
    && var i := s.workers[w].stage.invoice;
    i in s.store.invoices && s.store.invoices[i] == s.workers[w].stage.row
  }

  predicate CanCommitOutcome(s: State, w: WorkerId) {
    At(s, w) && s.workers[w].stage.Resolved?
    && var a := s.workers[w].stage.attempt;
    StillSeen(s.store, a, s.workers[w].stage.seen)
    && (s.workers[w].stage.outcome.Authorized? ==> IndexFree(s.store.attempts, a))
  }

  /** The search may have run on an older snapshot, so the attempt may be final by now. */
  predicate CanBeginRecovery(c: Config, s: State, w: WorkerId, a: AttemptId) {
    !At(s, w) && a in s.store.attempts
    && (s.store.attempts[a].Open() ==> Eligible(s.store.attempts[a], s.now))
    && c.key(s.store.attempts[a].coord.sequence) !in s.locks
  }

  predicate CanQuery(s: State, w: WorkerId) {
    At(s, w) && s.workers[w].stage.Recovering?
    && HasAttempt(s.store, s.workers[w].stage.attempt) && s.store.attempts[s.workers[w].stage.attempt].Open()
  }

  predicate CanCommitRecovery(s: State, w: WorkerId) {
    At(s, w) && s.workers[w].stage.Consulted?
    && var a := s.workers[w].stage.attempt;
    StillSeen(s.store, a, s.workers[w].stage.seen)
    && !s.workers[w].stage.answer.Refused?
    && (s.workers[w].stage.answer.Found? ==> IndexFree(s.store.attempts, a))
  }

  predicate CanReconcileButton(s: State, a: AttemptId) {
    HasAttempt(s.store, a) && s.store.attempts[a].Open()
    && (Consult(s.log, s.store.attempts[a].coord).Some? ==> IndexFree(s.store.attempts, a))
  }

  predicate CanButtonDraft(s: State, i: InvoiceId) {
    i in s.store.invoices && s.store.invoices[i].posted
    && !s.store.invoices[i].arca.Authorized? && !s.store.invoices[i].arca.Uncertain?
  }

  predicate Enabled(c: Config, s: State, e: Event) {
    match e
    case NewInvoice(i, _, _) => i !in s.store.invoices
    case Post(i) => i in s.store.invoices && !s.store.invoices[i].posted
    case ButtonDraft(i) => CanButtonDraft(s, i)
    case Renumber(i, _) => i in s.store.invoices
    case Begin(w, i, view) => !At(s, w) && i in s.store.invoices && c.key(view) !in s.locks
    case CheckReady(w) => Reads(s, w)
    case CheckSequence(w) => NumberFits(c, s, w)
    case CreateAttempt(w) => At(s, w) && s.workers[w].stage.Numbered?
    case CommitAttempt(w, a) => CanCommitAttempt(s, w, a)
    case BeginCall(w) => At(s, w) && s.workers[w].stage.Armed? && HasAttempt(s.store, s.workers[w].stage.attempt)
    case Send(w) => At(s, w) && s.workers[w].stage.Opened?
    case Return(w, _) => At(s, w) && (s.workers[w].stage.Opened? || s.workers[w].stage.Waiting?)
    case CommitOutcome(w) => CanCommitOutcome(s, w)
    case BeginRecovery(w, a) => CanBeginRecovery(c, s, w, a)
    case Query(w, answer) => CanQuery(s, w) && !answer.Refused?
    case CommitRecovery(w) => CanCommitRecovery(s, w)
    case ReconcileButton(a) => CanReconcileButton(s, a)
    case Leave(w) => At(s, w)
    case Land(a, _) => a in s.wire && a in s.store.attempts
    case Tick => true
  }

  function Posted(row: Invoice): Invoice {
    row.(posted := true, arca := if row.arca.NotRequired? then ArcaState.Pending else row.arca)
  }

  /** The attempt a worker writes from the snapshot it checked. */
  function AttemptFrom(stage: Stage): Attempt
    requires stage.Staged?
  {
    Attempt(stage.invoice, stage.row.company, stage.row.coord, Sent, stage.sentAt, None)
  }

  function DoCommitAttempt(s: State, w: WorkerId, a: AttemptId): State
    requires CanCommitAttempt(s, w, a)
  {
    var stage := s.workers[w].stage;
    Goto(s.(store := Write(s.store, a, AttemptFrom(stage), Processing, stage.row.cae)), w, Armed(a))
  }

  function DoCommitOutcome(s: State, w: WorkerId): State
    requires CanCommitOutcome(s, w)
  {
    var stage := s.workers[w].stage;
    Goto(s.(store := WriteOutcome(s.store, stage.attempt, stage.outcome)), w, Finished)
  }

  function DoCommitRecovery(s: State, w: WorkerId): State
    requires CanCommitRecovery(s, w)
  {
    var stage := s.workers[w].stage;
    Goto(s.(store := WriteReconciliation(s.store, stage.attempt, stage.answer)), w, Finished)
  }

  function DoSend(s: State, w: WorkerId): State
    requires At(s, w) && s.workers[w].stage.Opened?
  {
    var a := s.workers[w].stage.attempt;
    Goto(s.(wire := s.wire + {a}), w, Waiting(a, s.workers[w].stage.seen))
  }

  /** The first statement after the checkpoint fixes the snapshot of the transaction that will write the
      outcome. */
  function DoBeginCall(s: State, w: WorkerId): State
    requires At(s, w) && s.workers[w].stage.Armed? && HasAttempt(s.store, s.workers[w].stage.attempt)
  {
    var a := s.workers[w].stage.attempt;
    Goto(s, w, Opened(a, SeenAt(s.store, a)))
  }

  function DoReturn(s: State, w: WorkerId, result: Wsfe.CallResult): State
    requires At(s, w) && (s.workers[w].stage.Opened? || s.workers[w].stage.Waiting?)
  {
    var stage := s.workers[w].stage;
    Goto(s, w, Resolved(stage.attempt, stage.seen, Wsfe.OutcomeOf(result)))
  }

  function DoQuery(s: State, w: WorkerId, answer: Wsfe.Consultation): State
    requires CanQuery(s, w)
  {
    var a := s.workers[w].stage.attempt;
    Goto(s, w, Consulted(a, SeenAt(s.store, a), answer))
  }

  function DoLeave(s: State, w: WorkerId): State
    requires At(s, w)
  {
    s.(workers := s.workers - {w}, locks := s.locks - {s.workers[w].key})
  }

  function DoLand(s: State, a: AttemptId, verdict: Verdict): State
    requires a in s.store.attempts
  {
    match verdict
    case Accept(cae) =>
      s.(wire := s.wire - {a}, log := s.log + [Voucher(s.store.attempts[a].coord, cae, a)])
    case _ => s.(wire := s.wire - {a})
  }

  function Apply(c: Config, s: State, e: Event): State
    requires Enabled(c, s, e)
  {
    match e
    case NewInvoice(i, company, coord) =>
      s.(store := SetInvoice(s.store, i, Invoice(company, false, coord, ArcaState.NotRequired, None)))
    case Post(i) => s.(store := SetInvoice(s.store, i, Posted(s.store.invoices[i])))
    case ButtonDraft(i) => s.(store := SetInvoice(s.store, i, s.store.invoices[i].(posted := false)))
    case Renumber(i, coord) => s.(store := SetInvoice(s.store, i, s.store.invoices[i].(coord := coord)))
    case Begin(w, i, view) => Acquire(s, w, c.key(view), Locked(i))
    case CheckReady(w) =>
      Goto(s, w, Checked(s.workers[w].stage.invoice, s.store.invoices[s.workers[w].stage.invoice]))
    case CheckSequence(w) => Goto(s, w, Numbered(s.workers[w].stage.invoice, s.workers[w].stage.row))
    case CreateAttempt(w) => Goto(s, w, Staged(s.workers[w].stage.invoice, s.workers[w].stage.row, s.now))
    case CommitAttempt(w, a) => DoCommitAttempt(s, w, a)
    case BeginCall(w) => DoBeginCall(s, w)
    case Send(w) => DoSend(s, w)
    case Return(w, result) => DoReturn(s, w, result)
    case CommitOutcome(w) => DoCommitOutcome(s, w)
    case BeginRecovery(w, a) => Acquire(s, w, c.key(s.store.attempts[a].coord.sequence), Recovering(a))
    case Query(w, answer) => DoQuery(s, w, answer)
    case CommitRecovery(w) => DoCommitRecovery(s, w)
    case ReconcileButton(a) =>
      s.(store := WriteReconciliation(s.store, a, AnswerOf(Consult(s.log, s.store.attempts[a].coord))))
    case Leave(w) => DoLeave(s, w)
    case Land(a, verdict) => DoLand(s, a, verdict)
    case Tick => s.(now := s.now + 1)
  }

  // ----- the environment ---------------------------------------------------------------------

  /** A posted document number, or one a request may still be using. */
  predicate Claims(row: Invoice) { row.posted || row.arca.Processing? || row.arca.Uncertain? }

  /** Posted document numbers are unique, and one with an open request is not reassigned. */
  ghost predicate NumberUnused(s: State, i: InvoiceId)
    requires i in s.store.invoices
  {
    forall j :: j in s.store.invoices && j != i && Claims(s.store.invoices[j])
      ==> s.store.invoices[j].coord != s.store.invoices[i].coord
  }

  ghost predicate NumberUnusedIfPosted(s: State, i: InvoiceId)
    requires i in s.store.invoices
  {
    s.store.invoices[i].posted ==> NumberUnused(s, i)
  }

  /** No request for this invoice is open. */
  predicate NoRequestOpen(s: State, i: InvoiceId)
    requires i in s.store.invoices
  {
    !s.store.invoices[i].arca.Processing? && !s.store.invoices[i].arca.Uncertain?
  }

  /** ARCA is honest about the request, and a call reported as finished has finished. */
  ghost predicate CallOver(s: State, a: AttemptId, result: Wsfe.CallResult) {
    var outcome := Wsfe.OutcomeOf(result);
    && Wsfe.Honest(result, a in s.wire || Landed(s.log, a))
    && (outcome.Authorized? ==> a !in s.wire)
    && (outcome.Authorized? && outcome.cae.Some? ==>
          exists v :: v in s.log && v.attempt == a && v.cae == outcome.cae.value)
    && (outcome.Uncertain? ==> a !in s.wire)
  }

  /** The worker that sent the request is still there, holding its lock. */
  ghost predicate Attended(workers: map<WorkerId, Worker>, a: AttemptId) {
    exists w :: w in workers && workers[w].stage.Waiting? && workers[w].stage.attempt == a
  }

  /** A request still travelling whose worker is gone belongs to an attempt too young to be recovered. */
  ghost predicate WireFresh(s: State) {
    forall a :: a in s.wire && a in s.store.attempts && !Attended(s.workers, a) ==> !Stale(s.store.attempts[a], s.now)
  }

  /** What each single event is trusted for: that numbers are kept unique and new, that the row read under
      a lock belongs to a sequence the lock guards, that ARCA is honest, and that the button is idle. */
  ghost predicate Trusted(c: Config, s: State, e: Event)
    requires Enabled(c, s, e)
  {
    match e
    case Post(i) => NumberUnused(s, i)
    case Renumber(i, _) => NoRequestOpen(s, i) && NumberUnusedIfPosted(Apply(c, s, e), i)
    case CheckReady(w) => s.workers[w].key == c.key(s.store.invoices[s.workers[w].stage.invoice].coord.sequence)
    case Return(w, result) => CallOver(s, s.workers[w].stage.attempt, result)
    case Query(w, answer) =>
      answer == AnswerOf(Consult(s.log, s.store.attempts[s.workers[w].stage.attempt].coord))
    case ReconcileButton(a) => a !in s.wire && c.key(s.store.attempts[a].coord.sequence) !in s.locks
    case Land(a, Accept(cae)) => cae != "" && forall v :: v in s.log ==> v.cae != cae
    case _ => true
  }

  ghost predicate CalmStep(c: Config, s: State, e: Event) {
    Enabled(c, s, e) && Trusted(c, s, e) && WireFresh(Apply(c, s, e))
  }

  // ----- runs --------------------------------------------------------------------------------

  /** The one assumption a run may break, if any, or all of them. */
  datatype Lapse =
    | NoLapse
    | EarlyTimeout     // a call ends, or is misjudged, while its request is alive
    | SlowRequest      // a request outlives its worker and the stale window
    | StaleView        // the row read under a lock is of a sequence that lock does not guard
    | LateRenumbering  // a number changes while a request for it is open
    | DuplicateNumber  // two invoices are posted under one number
    | ButtonInFlight   // the reconcile button is pressed while a worker or request is alive
    | AnyNumbers       // users number as they like, and ARCA gives any CAE
    | AnyLapse         // nothing is trusted: every enabled step is allowed

  predicate Excused(lapse: Lapse, e: Event) {
    match lapse
    case EarlyTimeout => e.Return?
    case StaleView => e.CheckReady?
    case LateRenumbering => e.Renumber?
    case DuplicateNumber => e.Post?
    case ButtonInFlight => e.ReconcileButton?
    case AnyNumbers => e.Post? || e.Renumber? || e.Land?
    case AnyLapse => true
    case _ => false
  }

  /** The lapses in which only the trust in numbers is broken, if any. */
  predicate NumbersOnly(lapse: Lapse) {
    lapse.NoLapse? || lapse.LateRenumbering? || lapse.DuplicateNumber? || lapse.AnyNumbers?
  }

  ghost predicate Fresh(lapse: Lapse, s: State) { lapse.SlowRequest? || lapse.AnyLapse? || WireFresh(s) }

  ghost predicate LawfulStep(c: Config, lapse: Lapse, s: State, e: Event) {
    Enabled(c, s, e) && (Excused(lapse, e) || Trusted(c, s, e)) && Fresh(lapse, Apply(c, s, e))
  }

  ghost predicate Next(c: Config, lapse: Lapse, s: State, s': State) {
    exists e :: LawfulStep(c, lapse, s, e) && s' == Apply(c, s, e)
  }

  ghost predicate StepAt(c: Config, lapse: Lapse, run: seq<State>, k: nat)
    requires 0 < k < |run|
  {
    Next(c, lapse, run[k - 1], run[k])
  }

  /** The states a run goes through. */
  ghost predicate Run(c: Config, lapse: Lapse, run: seq<State>) {
    |run| > 0 && forall k {:trigger StepAt(c, lapse, run, k)} :: 0 < k < |run| ==> StepAt(c, lapse, run, k)
  }

  ghost predicate CalmRun(c: Config, run: seq<State>) { Run(c, NoLapse, run) }

  function Top(run: seq<State>): State
    requires |run| > 0
  {
    run[|run| - 1]
  }

  const Initial := State(Store(map[], map[]), map[], map[], {}, [], 0)
}

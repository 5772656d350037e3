/**
 Each event keeps the core of the invariant, whatever numbers users give their invoices: `CoreStep` trusts
 nothing about numbers or CAEs.  The events come in four kinds: a worker moves on without a write, a user
 changes an invoice, an attempt is created or resolved, ARCA answers.
 */
module ProtocolCore {
  import opened Base
  import opened Ledger
  import opened Protocol
  import opened ProtocolInvariant
  import Wsfe

  ghost predicate CoreStep(c: Config, s: State, e: Event) { LawfulStep(c, AnyNumbers, s, e) }

  /** Lapses in numbering are no more than that. */
  lemma StepIsCore(c: Config, lapse: Lapse, s: State, e: Event)
    requires NumbersOnly(lapse) && LawfulStep(c, lapse, s, e)
    ensures CoreStep(c, s, e)
  {
  }

  // ===== a worker moves on without a write =======================================================

  lemma GotoKeepsCore(c: Config, s: State, w: WorkerId, stage: Stage)
    requires CoreInv(c, s) && At(s, w) && CoreWorker(c, s.store, s.log, s.wire, s.workers[w].key, stage)
    ensures CoreInv(c, Goto(s, w, stage))
  {
    MoveLocks(s, w, stage);
  }

  lemma MoveLocks(s: State, w: WorkerId, stage: Stage)
    requires LocksOk(s.workers, s.locks) && At(s, w)
    ensures LocksOk(Goto(s, w, stage).workers, s.locks)
  {
  }

  lemma AcquireKeepsCore(c: Config, s: State, w: WorkerId, key: int, stage: Stage)
    requires CoreInv(c, s) && !At(s, w) && key !in s.locks
    requires CoreWorker(c, s.store, s.log, s.wire, key, stage)
    ensures CoreInv(c, Acquire(s, w, key, stage))
  {
  }

  /** An attempt the cron may take has no request on the wire: while its worker is there the lock is
      taken, and once it is gone the request is young. */
  lemma EligibleIsOffTheWire(c: Config, s: State, a: AttemptId)
    requires WireOk(s.store.attempts, s.log, s.wire) && WireFresh(s) && LocksOk(s.workers, s.locks)
    requires CoreWorkers(c, s.store, s.log, s.wire, s.workers)
    requires a in s.store.attempts && Eligible(s.store.attempts[a], s.now)
    requires c.key(s.store.attempts[a].coord.sequence) !in s.locks
    ensures a !in s.wire
  {
    if Attended(s.workers, a) {
      var w :| w in s.workers && s.workers[w].stage.Waiting? && s.workers[w].stage.attempt == a;
      assert CoreWorker(c, s.store, s.log, s.wire, s.workers[w].key, s.workers[w].stage);
    }
  }

  lemma BeginRecoveryKeepsCore(c: Config, s: State, w: WorkerId, a: AttemptId)
    requires CoreInv(c, s) && WireFresh(s) && CanBeginRecovery(c, s, w, a)
    ensures CoreInv(c, Acquire(s, w, c.key(s.store.attempts[a].coord.sequence), Recovering(a)))
  {
    if s.store.attempts[a].Open() {
      EligibleIsOffTheWire(c, s, a);
    }
    AcquireKeepsCore(c, s, w, c.key(s.store.attempts[a].coord.sequence), Recovering(a));
  }

  lemma CheckReadyKeepsCore(c: Config, s: State, w: WorkerId)
    requires CoreInv(c, s) && CoreStep(c, s, CheckReady(w))
    ensures CoreInv(c, Apply(c, s, CheckReady(w)))
  {
    var i := s.workers[w].stage.invoice;
    GotoKeepsCore(c, s, w, Checked(i, s.store.invoices[i]));
  }

  lemma BeginCallKeepsCore(c: Config, s: State, w: WorkerId)
    requires CoreInv(c, s) && Enabled(c, s, BeginCall(w))
    ensures CoreInv(c, DoBeginCall(s, w))
  {
    var a := s.workers[w].stage.attempt;
    GotoKeepsCore(c, s, w, Opened(a, SeenAt(s.store, a)));
  }

  lemma ReturnKeepsCore(c: Config, s: State, w: WorkerId, result: Wsfe.CallResult)
    requires CoreInv(c, s) && At(s, w) && (s.workers[w].stage.Opened? || s.workers[w].stage.Waiting?)
    requires CallOver(s, s.workers[w].stage.attempt, result)
    ensures CoreInv(c, DoReturn(s, w, result))
  {
    var a := s.workers[w].stage.attempt;
    Wsfe.OutcomeSoundIffHonest(result, a in s.wire || Landed(s.log, a));
    GotoKeepsCore(c, s, w, Resolved(a, s.workers[w].stage.seen, Wsfe.OutcomeOf(result)));
  }

  /** When ARCA holds nothing at an attempt's coordinate, it holds nothing for the attempt. */
  lemma AbsentHasNotLanded(attempts: map<AttemptId, Attempt>, log: seq<Voucher>, a: AttemptId)
    requires VouchersBacked(attempts, log) && a in attempts && Consult(log, attempts[a].coord).None?
    ensures !Landed(log, a)
  {
  }

  lemma QueryKeepsCore(c: Config, s: State, w: WorkerId, answer: Wsfe.Consultation)
    requires CoreInv(c, s) && CanQuery(s, w)
    requires answer == AnswerOf(Consult(s.log, s.store.attempts[s.workers[w].stage.attempt].coord))
    ensures CoreInv(c, DoQuery(s, w, answer))
  {
    var a := s.workers[w].stage.attempt;
    assert CoreWorker(c, s.store, s.log, s.wire, s.workers[w].key, s.workers[w].stage);
    if answer.NotFound? {
      AbsentHasNotLanded(s.store.attempts, s.log, a);
    }
    GotoKeepsCore(c, s, w, Consulted(a, SeenAt(s.store, a), answer));
  }

  lemma LeaveKeepsCore(c: Config, s: State, w: WorkerId)
    requires CoreInv(c, s) && At(s, w)
    ensures CoreInv(c, DoLeave(s, w))
  {
  }

  // ===== a user changes an invoice =================================================================

  /** What a user may do to a row: not its CAE, not its ARCA state except pending on first posting. */
  predicate UserEdit(row: Invoice, row': Invoice) {
    row'.cae == row.cae && (row'.arca == row.arca || (row.arca.NotRequired? && row'.arca.Pending?))
  }

  lemma UserEditStore(store: Store, i: InvoiceId, row': Invoice)
    requires CoreStore(store)
    requires if i in store.invoices then UserEdit(store.invoices[i], row') else row'.arca.NotRequired?
    ensures CoreStore(SetInvoice(store, i, row'))
  {
  }

  lemma UserEditKeepsCore(c: Config, s: State, i: InvoiceId, row': Invoice)
    requires CoreInv(c, s)
    requires if i in s.store.invoices then UserEdit(s.store.invoices[i], row') else row'.arca.NotRequired?
    ensures CoreInv(c, s.(store := SetInvoice(s.store, i, row')))
  {
    UserEditStore(s.store, i, row');
    forall w | w in s.workers
      ensures CoreWorker(c, SetInvoice(s.store, i, row'), s.log, s.wire, s.workers[w].key, s.workers[w].stage)
    {
      assert CoreWorker(c, s.store, s.log, s.wire, s.workers[w].key, s.workers[w].stage);
    }
  }

  predicate IsUserEvent(e: Event) { e.NewInvoice? || e.Post? || e.ButtonDraft? || e.Renumber? }

  /** The row a user leaves. */
  function EditedRow(s: State, e: Event): (r: (InvoiceId, Invoice))
    requires IsUserEvent(e) && (!e.NewInvoice? ==> e.invoice in s.store.invoices)
  {
    match e
    case NewInvoice(i, company, coord) => (i, Invoice(company, false, coord, ArcaState.NotRequired, None))
    case Post(i) => (i, Posted(s.store.invoices[i]))
    case ButtonDraft(i) => (i, s.store.invoices[i].(posted := false))
    case Renumber(i, coord) => (i, s.store.invoices[i].(coord := coord))
  }

  lemma UserEventIsAnEdit(c: Config, s: State, e: Event)
    requires Enabled(c, s, e) && IsUserEvent(e)
    ensures Apply(c, s, e) == s.(store := SetInvoice(s.store, EditedRow(s, e).0, EditedRow(s, e).1))
    ensures var (i, row') := EditedRow(s, e);
            if i in s.store.invoices then UserEdit(s.store.invoices[i], row') else row'.arca.NotRequired?
  {
  }

  lemma UserEventKeepsCore(c: Config, s: State, e: Event)
    requires CoreInv(c, s) && Enabled(c, s, e) && IsUserEvent(e)
    ensures CoreInv(c, Apply(c, s, e))
  {
    UserEventIsAnEdit(c, s, e);
    UserEditKeepsCore(c, s, EditedRow(s, e).0, EditedRow(s, e).1);
  }

  // ===== an attempt is written =====================================================================

  lemma WriteKeepsBacked(store: Store, a: AttemptId, row: Attempt, arca: ArcaState, cae: Option<Cae>)
    requires Backed(store) && row.invoice in store.invoices
    requires a in store.attempts ==> store.attempts[a].invoice == row.invoice
    requires Busy(arca) ==> row.Live()
    ensures Backed(Write(store, a, row, arca, cae))
  {
    var store' := Write(store, a, row, arca, cae);
    forall i | i in store'.invoices && Busy(store'.invoices[i].arca)
      ensures HasLive(store'.attempts, i)
    {
      if i == row.invoice {
        assert a in store'.attempts;
      } else {
        var b :| b in store.attempts && store.attempts[b].invoice == i && store.attempts[b].Live();
        assert b in store'.attempts;
      }
    }
  }

  /** The written row is its invoice's one live attempt, or there is none. */
  lemma WriteKeepsMirrors(store: Store, a: AttemptId, row: Attempt, arca: ArcaState, cae: Option<Cae>)
    requires RefsOk(store) && Mirrored(store) && CaeMirrored(store) && SingleLive(store.attempts)
    requires row.invoice in store.invoices
    requires forall b :: b in store.attempts && store.attempts[b].Live() && store.attempts[b].invoice == row.invoice
               ==> b == a
    requires row.Live() ==> arca == MirrorOf(row.state)
    requires row.state.Authorized? ==> cae == row.cae
    ensures var store' := Write(store, a, row, arca, cae);
            RefsOk(store') && Mirrored(store') && CaeMirrored(store') && SingleLive(store'.attempts)
  {
  }

  /** Every other worker holds another key, so an attempt of this key's sequence is not its own. */
  lemma OtherKeys(workers: map<WorkerId, Worker>, locks: map<int, WorkerId>, w: WorkerId, w': WorkerId)
    requires LocksOk(workers, locks) && w in workers && w' in workers && w != w'
    ensures workers[w].key != workers[w'].key
  {
  }

  /** A write under one key does not concern a worker with another. */
  lemma WriteSparesOthers(c: Config, s: State, a: AttemptId, row: Attempt, arca: ArcaState, cae: Option<Cae>,
                          key: int, stage: Stage)
    requires row.invoice in s.store.invoices && key != c.key(row.coord.sequence)
    requires a in s.store.attempts ==> s.store.attempts[a].coord == row.coord
    requires CoreWorker(c, s.store, s.log, s.wire, key, stage)
    ensures CoreWorker(c, Write(s.store, a, row, arca, cae), s.log, s.wire, key, stage)
  {
  }

  /** A worker writes an attempt its key guards, and moves on. */
  lemma WriteKeepsWorkers(c: Config, s: State, w: WorkerId, a: AttemptId, row: Attempt, arca: ArcaState,
                          cae: Option<Cae>, stage: Stage)
    requires LocksOk(s.workers, s.locks) && CoreWorkers(c, s.store, s.log, s.wire, s.workers)
    requires At(s, w) && row.invoice in s.store.invoices && s.workers[w].key == c.key(row.coord.sequence)
    requires a in s.store.attempts ==> s.store.attempts[a].coord == row.coord
    requires CoreWorker(c, Write(s.store, a, row, arca, cae), s.log, s.wire, s.workers[w].key, stage)
    ensures CoreWorkers(c, Write(s.store, a, row, arca, cae), s.log, s.wire, Goto(s, w, stage).workers)
  {
    forall w' | w' in s.workers && w' != w
      ensures CoreWorker(c, Write(s.store, a, row, arca, cae), s.log, s.wire, s.workers[w'].key, s.workers[w'].stage)
    {
      OtherKeys(s.workers, s.locks, w, w');
      WriteSparesOthers(c, s, a, row, arca, cae, s.workers[w'].key, s.workers[w'].stage);
    }
  }

  lemma CreateStore(store: Store, a: AttemptId, row: Attempt, cae: Option<Cae>)
    requires CoreStore(store) && a !in store.attempts && row.invoice in store.invoices
    requires row.state.Sent? && Ready(store.invoices[row.invoice])
    ensures CoreStore(Write(store, a, row, Processing, cae))
  {
    WriteKeepsBacked(store, a, row, Processing, cae);
    WriteKeepsMirrors(store, a, row, Processing, cae);
  }

  lemma CommitAttemptKeepsCore(c: Config, s: State, w: WorkerId, a: AttemptId)
    requires CoreInv(c, s) && CanCommitAttempt(s, w, a)
    ensures CoreInv(c, DoCommitAttempt(s, w, a))
  {
    var stage := s.workers[w].stage;
    assert CoreWorker(c, s.store, s.log, s.wire, s.workers[w].key, stage);
    CreateStore(s.store, a, AttemptFrom(stage), stage.row.cae);
    WriteKeepsWorkers(c, s, w, a, AttemptFrom(stage), Processing, stage.row.cae, Armed(a));
    MoveLocks(s, w, Armed(a));
  }

  // ===== an attempt is resolved ====================================================================

  /** A way an open attempt may end, seen from the store and from what ARCA holds. */
  ghost predicate EndsWell(log: seq<Voucher>, a: AttemptId, state: AttemptState, caeA: Option<Cae>, arca: ArcaState,
                           cae: Option<Cae>)
  {
    && (state.Authorized? ==> cae == caeA)
    && if state.Rejected? || state.Aborted? then !Busy(arca) && !Landed(log, a) else arca == MirrorOf(state)
  }

  lemma ResolveStore(store: Store, log: seq<Voucher>, a: AttemptId, state: AttemptState, caeA: Option<Cae>,
                     arca: ArcaState, cae: Option<Cae>)
    requires CoreStore(store) && a in store.attempts && store.attempts[a].Open()
    requires EndsWell(log, a, state, caeA, arca, cae)
    ensures CoreStore(Write(store, a, store.attempts[a].(state := state, cae := caeA), arca, cae))
  {
    var row := store.attempts[a].(state := state, cae := caeA);
    WriteKeepsBacked(store, a, row, arca, cae);
    WriteKeepsMirrors(store, a, row, arca, cae);
  }

  lemma ResolveKeepsCore(c: Config, s: State, w: WorkerId, a: AttemptId, state: AttemptState, caeA: Option<Cae>,
                         arca: ArcaState, cae: Option<Cae>)
    requires CoreInv(c, s) && a in s.store.attempts && s.store.attempts[a].Open() && a !in s.wire
    requires At(s, w) && s.workers[w].key == c.key(s.store.attempts[a].coord.sequence)
    requires EndsWell(s.log, a, state, caeA, arca, cae)
    ensures var row := s.store.attempts[a].(state := state, cae := caeA);
            CoreInv(c, Goto(s.(store := Write(s.store, a, row, arca, cae)), w, Finished))
  {
    var row := s.store.attempts[a].(state := state, cae := caeA);
    ResolveStore(s.store, s.log, a, state, caeA, arca, cae);
    WriteKeepsWorkers(c, s, w, a, row, arca, cae, Finished);
    MoveLocks(s, w, Finished);
  }

  lemma OutcomeKeepsCore(c: Config, s: State, w: WorkerId, a: AttemptId, seen: Seen, outcome: Wsfe.Outcome)
    requires CoreInv(c, s) && At(s, w) && HasAttempt(s.store, a)
    requires CoreWorker(c, s.store, s.log, s.wire, s.workers[w].key, Resolved(a, seen, outcome))
    ensures CoreInv(c, Goto(s.(store := WriteOutcome(s.store, a, outcome)), w, Finished))
  {
    var row, kept := s.store.attempts[a], s.store.invoices[s.store.attempts[a].invoice].cae;
    match outcome
    case Authorized(cae) => ResolveKeepsCore(c, s, w, a, AttemptState.Authorized, cae, ArcaState.Authorized, cae);
    case Rejected(_) => ResolveKeepsCore(c, s, w, a, AttemptState.Rejected, row.cae, ArcaState.Rejected, kept);
    case Aborted => ResolveKeepsCore(c, s, w, a, AttemptState.Aborted, row.cae, ArcaState.Rejected, kept);
    case Uncertain => ResolveKeepsCore(c, s, w, a, AttemptState.Uncertain, row.cae, ArcaState.Uncertain, kept);
  }

  lemma CommitOutcomeKeepsCore(c: Config, s: State, w: WorkerId)
    requires CoreInv(c, s) && CanCommitOutcome(s, w)
    ensures CoreInv(c, DoCommitOutcome(s, w))
  {
    var stage := s.workers[w].stage;
    assert CoreWorker(c, s.store, s.log, s.wire, s.workers[w].key, stage);
    OutcomeKeepsCore(c, s, w, stage.attempt, stage.seen, stage.outcome);
  }

  lemma ReconciliationKeepsCore(c: Config, s: State, w: WorkerId, a: AttemptId, answer: Wsfe.Consultation)
    requires CoreInv(c, s) && At(s, w) && Holds(c, s.store.attempts, s.workers[w].key, a)
    requires HasAttempt(s.store, a) && s.store.attempts[a].Open() && a !in s.wire
    requires !answer.Refused? && (answer.NotFound? ==> !Landed(s.log, a))
    ensures CoreInv(c, Goto(s.(store := WriteReconciliation(s.store, a, answer)), w, Finished))
  {
    var row, kept := s.store.attempts[a], s.store.invoices[s.store.attempts[a].invoice].cae;
    match answer
    case Found(cae) => ResolveKeepsCore(c, s, w, a, AttemptState.Authorized, cae, ArcaState.Authorized, cae);
    case NotFound => ResolveKeepsCore(c, s, w, a, AttemptState.Aborted, row.cae, ArcaState.Pending, kept);
  }

  lemma CommitRecoveryKeepsCore(c: Config, s: State, w: WorkerId)
    requires CoreInv(c, s) && CanCommitRecovery(s, w)
    ensures CoreInv(c, DoCommitRecovery(s, w))
  {
    var stage := s.workers[w].stage;
    assert CoreWorker(c, s.store, s.log, s.wire, s.workers[w].key, stage);
    ReconciliationKeepsCore(c, s, w, stage.attempt, stage.answer);
  }

  lemma ResolveIdleWorkers(c: Config, s: State, a: AttemptId, row: Attempt, arca: ArcaState, cae: Option<Cae>)
    requires LocksOk(s.workers, s.locks) && CoreWorkers(c, s.store, s.log, s.wire, s.workers)
    requires a in s.store.attempts && row.invoice in s.store.invoices
    requires row.coord == s.store.attempts[a].coord && c.key(row.coord.sequence) !in s.locks
    ensures CoreWorkers(c, Write(s.store, a, row, arca, cae), s.log, s.wire, s.workers)
  {
    forall w | w in s.workers
      ensures CoreWorker(c, Write(s.store, a, row, arca, cae), s.log, s.wire, s.workers[w].key, s.workers[w].stage)
    {
      WriteSparesOthers(c, s, a, row, arca, cae, s.workers[w].key, s.workers[w].stage);
    }
  }

  lemma ResolveIdleCore(c: Config, s: State, a: AttemptId, state: AttemptState, caeA: Option<Cae>,
                        arca: ArcaState, cae: Option<Cae>)
    requires CoreInv(c, s) && a in s.store.attempts && s.store.attempts[a].Open() && a !in s.wire
    requires c.key(s.store.attempts[a].coord.sequence) !in s.locks
    requires EndsWell(s.log, a, state, caeA, arca, cae)
    ensures CoreInv(c, s.(store := Write(s.store, a, s.store.attempts[a].(state := state, cae := caeA), arca, cae)))
  {
    ResolveStore(s.store, s.log, a, state, caeA, arca, cae);
    ResolveIdleWorkers(c, s, a, s.store.attempts[a].(state := state, cae := caeA), arca, cae);
  }

  lemma ReconcileButtonKeepsCore(c: Config, s: State, a: AttemptId)
    requires CoreInv(c, s) && CanReconcileButton(s, a)
    requires a !in s.wire && c.key(s.store.attempts[a].coord.sequence) !in s.locks
    ensures var answer := AnswerOf(Consult(s.log, s.store.attempts[a].coord));
            CoreInv(c, s.(store := WriteReconciliation(s.store, a, answer)))
  {
    var row, kept := s.store.attempts[a], s.store.invoices[s.store.attempts[a].invoice].cae;
    var held := Consult(s.log, row.coord);
    if held.Some? {
      ResolveIdleCore(c, s, a, AttemptState.Authorized, held, ArcaState.Authorized, held);
    } else {
      AbsentHasNotLanded(s.store.attempts, s.log, a);
      ResolveIdleCore(c, s, a, AttemptState.Aborted, row.cae, ArcaState.Pending, kept);
    }
  }

  // ===== the request leaves, ARCA answers =========================================================

  lemma SendKeepsCore(c: Config, s: State, w: WorkerId)
    requires CoreInv(c, s) && At(s, w) && s.workers[w].stage.Opened?
    ensures CoreInv(c, DoSend(s, w))
  {
    var a := s.workers[w].stage.attempt;
    assert CoreWorker(c, s.store, s.log, s.wire, s.workers[w].key, s.workers[w].stage);
    MoveLocks(s, w, Waiting(a, s.workers[w].stage.seen));
    forall w' | w' in s.workers && w' != w
      ensures CoreWorker(c, s.store, s.log, s.wire + {a}, s.workers[w'].key, s.workers[w'].stage)
    {
      OtherKeys(s.workers, s.locks, w, w');
      assert CoreWorker(c, s.store, s.log, s.wire, s.workers[w'].key, s.workers[w'].stage);
    }
  }

  lemma LandedAppend(log: seq<Voucher>, v: Voucher, a: AttemptId)
    ensures Landed(log + [v], a) <==> Landed(log, a) || v.attempt == a
  {
    if v.attempt == a {
      assert v in log + [v];
    }
    if Landed(log, a) {
      var u :| u in log && u.attempt == a;
      assert u in log + [v];
    }
  }

  lemma LandWorkerCore(c: Config, s: State, v: Voucher, key: int, stage: Stage)
    requires v.attempt in s.wire && CoreWorker(c, s.store, s.log, s.wire, key, stage)
    ensures CoreWorker(c, s.store, s.log + [v], s.wire - {v.attempt}, key, stage)
  {
    if stage.Armed? || stage.Opened? || stage.Resolved? || stage.Consulted? {
      LandedAppend(s.log, v, stage.attempt);
    }
  }

  lemma LandWire(s: State, v: Voucher)
    requires WireOk(s.store.attempts, s.log, s.wire)
    ensures WireOk(s.store.attempts, s.log + [v], s.wire - {v.attempt})
  {
    forall a | a in s.wire - {v.attempt}
      ensures !Landed(s.log + [v], a)
    {
      LandedAppend(s.log, v, a);
    }
  }

  lemma LandCoreLedger(s: State, v: Voucher)
    requires CoreLedger(s.store.attempts, s.log) && WireOk(s.store.attempts, s.log, s.wire)
    requires v.attempt in s.wire && v.coord == s.store.attempts[v.attempt].coord
    ensures CoreLedger(s.store.attempts, s.log + [v])
  {
  }

  lemma DropWorker(c: Config, s: State, a: AttemptId, key: int, stage: Stage)
    requires CoreWorker(c, s.store, s.log, s.wire, key, stage)
    ensures CoreWorker(c, s.store, s.log, s.wire - {a}, key, stage)
  {
  }

  lemma LandKeepsCore(c: Config, s: State, a: AttemptId, verdict: Verdict)
    requires CoreInv(c, s) && a in s.wire && a in s.store.attempts
    ensures CoreInv(c, DoLand(s, a, verdict))
  {
    if verdict.Accept? {
      var v := Voucher(s.store.attempts[a].coord, verdict.cae, a);
      LandCoreLedger(s, v);
      LandWire(s, v);
      forall w | w in s.workers
        ensures CoreWorker(c, s.store, s.log + [v], s.wire - {a}, s.workers[w].key, s.workers[w].stage)
      {
        LandWorkerCore(c, s, v, s.workers[w].key, s.workers[w].stage);
      }
    } else {
      forall w | w in s.workers
        ensures CoreWorker(c, s.store, s.log, s.wire - {a}, s.workers[w].key, s.workers[w].stage)
      {
        DropWorker(c, s, a, s.workers[w].key, s.workers[w].stage);
      }
    }
  }

  // ===== every event ===============================================================================

  predicate AuthorizationEvent(e: Event) {
    e.Begin? || e.CheckReady? || e.CheckSequence? || e.CreateAttempt? || e.CommitAttempt? || e.BeginCall?
    || e.Send? || e.Return? || e.CommitOutcome?
  }

  lemma AuthorizationKeepsCore(c: Config, s: State, e: Event)
    requires CoreInv(c, s) && CoreStep(c, s, e) && AuthorizationEvent(e)
    ensures CoreInv(c, Apply(c, s, e))
  {
    match e
    case Begin(w, i, view) => AcquireKeepsCore(c, s, w, c.key(view), Locked(i));
    case CheckReady(w) => CheckReadyKeepsCore(c, s, w);
    case CheckSequence(w) => GotoKeepsCore(c, s, w, Numbered(s.workers[w].stage.invoice, s.workers[w].stage.row));
    case CreateAttempt(w) => GotoKeepsCore(c, s, w, Staged(s.workers[w].stage.invoice, s.workers[w].stage.row, s.now));
    case CommitAttempt(w, a) => CommitAttemptKeepsCore(c, s, w, a);
    case BeginCall(w) => BeginCallKeepsCore(c, s, w);
    case Send(w) => SendKeepsCore(c, s, w);
    case Return(w, result) => ReturnKeepsCore(c, s, w, result);
    case CommitOutcome(w) => CommitOutcomeKeepsCore(c, s, w);
  }

  predicate RecoveryEvent(e: Event) { e.BeginRecovery? || e.Query? || e.CommitRecovery? || e.ReconcileButton? }

  lemma QueryStepKeepsCore(c: Config, s: State, e: Event)
    requires CoreInv(c, s) && CoreStep(c, s, e) && e.Query?
    ensures CoreInv(c, Apply(c, s, e))
  {
    QueryKeepsCore(c, s, e.worker, e.answer);
  }

  lemma ButtonStepKeepsCore(c: Config, s: State, e: Event)
    requires CoreInv(c, s) && CoreStep(c, s, e) && e.ReconcileButton?
    ensures CoreInv(c, Apply(c, s, e))
  {
    ReconcileButtonKeepsCore(c, s, e.attempt);
  }

  lemma RecoveryKeepsCore(c: Config, s: State, e: Event)
    requires CoreInv(c, s) && WireFresh(s) && CoreStep(c, s, e) && RecoveryEvent(e)
    ensures CoreInv(c, Apply(c, s, e))
  {
    match e
    case BeginRecovery(w, a) => BeginRecoveryKeepsCore(c, s, w, a);
    case Query(_, _) => QueryStepKeepsCore(c, s, e);
    case CommitRecovery(w) => CommitRecoveryKeepsCore(c, s, w);
    case ReconcileButton(_) => ButtonStepKeepsCore(c, s, e);
  }

  lemma OtherEventKeepsCore(c: Config, s: State, e: Event)
    requires CoreInv(c, s) && CoreStep(c, s, e) && (e.Leave? || e.Land? || e.Tick?)
    ensures CoreInv(c, Apply(c, s, e))
  {
    match e
    case Leave(w) => LeaveKeepsCore(c, s, w);
    case Land(a, verdict) => LandKeepsCore(c, s, a, verdict);
    case Tick =>
  }

  /** The core is inductive, with nothing trusted about numbers. */
  lemma StepKeepsCore(c: Config, s: State, e: Event)
    requires CoreInv(c, s) && WireFresh(s) && CoreStep(c, s, e)
    ensures CoreInv(c, Apply(c, s, e)) && WireFresh(Apply(c, s, e))
  {
    if AuthorizationEvent(e) {
      AuthorizationKeepsCore(c, s, e);
    } else if IsUserEvent(e) {
      UserEventKeepsCore(c, s, e);
    } else if RecoveryEvent(e) {
      RecoveryKeepsCore(c, s, e);
    } else {
      OtherEventKeepsCore(c, s, e);
    }
  }
}

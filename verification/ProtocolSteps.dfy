/**
 Each event of a calm run keeps the numbers in order too: the ledger gap-free, every open attempt next in
 its sequence, what ARCA says about a coordinate about its own attempt.
 */
module ProtocolSteps {
  import opened Base
  import opened Ledger
  import opened Protocol
  import opened ProtocolInvariant
  import opened ProtocolCore
  import Wsfe

  // ===== a worker moves on without a write =======================================================

  lemma GotoKeepsNumbers(c: Config, s: State, w: WorkerId, stage: Stage)
    requires NumberInv(c, s) && At(s, w) && NumberWorker(c, s.store.attempts, s.log, stage)
    ensures NumberInv(c, Goto(s, w, stage))
  {
  }

  lemma AcquireKeepsNumbers(c: Config, s: State, w: WorkerId, key: int, stage: Stage)
    requires NumberInv(c, s) && NumberWorker(c, s.store.attempts, s.log, stage)
    ensures NumberInv(c, Acquire(s, w, key, stage))
  {
  }

  /** A ready invoice is the only one whose number no open attempt holds. */
  lemma ReadyHasNoOpen(store: Store, i: InvoiceId)
    requires StoreOk(store) && i in store.invoices && Ready(store.invoices[i])
    ensures NoOpenAt(store.attempts, store.invoices[i].coord)
  {
  }

  lemma CheckReadyKeepsNumbers(c: Config, s: State, w: WorkerId)
    requires Inv(c, s) && Reads(s, w)
    ensures var i := s.workers[w].stage.invoice;
            NumberInv(c, Goto(s, w, Checked(i, s.store.invoices[i])))
  {
    var i := s.workers[w].stage.invoice;
    ReadyHasNoOpen(s.store, i);
    GotoKeepsNumbers(c, s, w, Checked(i, s.store.invoices[i]));
  }

  lemma CheckSequenceKeepsNumbers(c: Config, s: State, w: WorkerId)
    requires NumberInv(c, s) && NumberFits(c, s, w)
    ensures NumberInv(c, Goto(s, w, Numbered(s.workers[w].stage.invoice, s.workers[w].stage.row)))
  {
    assert NumberWorker(c, s.store.attempts, s.log, s.workers[w].stage);
    GotoKeepsNumbers(c, s, w, Numbered(s.workers[w].stage.invoice, s.workers[w].stage.row));
  }

  lemma CreateAttemptKeepsNumbers(c: Config, s: State, w: WorkerId)
    requires NumberInv(c, s) && At(s, w) && s.workers[w].stage.Numbered?
    ensures NumberInv(c, Goto(s, w, Staged(s.workers[w].stage.invoice, s.workers[w].stage.row, s.now)))
  {
    assert NumberWorker(c, s.store.attempts, s.log, s.workers[w].stage);
    GotoKeepsNumbers(c, s, w, Staged(s.workers[w].stage.invoice, s.workers[w].stage.row, s.now));
  }

  lemma ReturnKeepsNumbers(c: Config, s: State, w: WorkerId, result: Wsfe.CallResult)
    requires NumberInv(c, s) && At(s, w) && (s.workers[w].stage.Opened? || s.workers[w].stage.Waiting?)
    requires CallOver(s, s.workers[w].stage.attempt, result)
    ensures NumberInv(c, DoReturn(s, w, result))
  {
    var a := s.workers[w].stage.attempt;
    Wsfe.OutcomeSoundIffHonest(result, a in s.wire || Landed(s.log, a));
    GotoKeepsNumbers(c, s, w, Resolved(a, s.workers[w].stage.seen, Wsfe.OutcomeOf(result)));
  }

  lemma QueryKeepsNumbers(c: Config, s: State, w: WorkerId)
    requires NumberInv(c, s) && CanQuery(s, w)
    ensures var a := s.workers[w].stage.attempt;
            NumberInv(c, DoQuery(s, w, AnswerOf(Consult(s.log, s.store.attempts[a].coord))))
  {
    var a := s.workers[w].stage.attempt;
    GotoKeepsNumbers(c, s, w, Consulted(a, SeenAt(s.store, a), AnswerOf(Consult(s.log, s.store.attempts[a].coord))));
  }

  // ===== a user changes an invoice =================================================================

  ghost predicate FreeFor(invoices: map<InvoiceId, Invoice>, i: InvoiceId, row': Invoice) {
    Claims(row') ==> forall j :: j in invoices && j != i && Claims(invoices[j]) ==> invoices[j].coord != row'.coord
  }

  /** The number of an invoice with an open request stays. */
  predicate KeepsOpenCoord(invoices: map<InvoiceId, Invoice>, i: InvoiceId, row': Invoice) {
    i in invoices && (invoices[i].arca.Processing? || invoices[i].arca.Uncertain?) ==> row'.coord == invoices[i].coord
  }

  lemma UserEditKeepsNumbers(c: Config, s: State, i: InvoiceId, row': Invoice)
    requires Inv(c, s) && FreeFor(s.store.invoices, i, row')
    requires KeepsOpenCoord(s.store.invoices, i, row')
    ensures NumberInv(c, s.(store := SetInvoice(s.store, i, row')))
  {
  }

  lemma ButtonDraftFree(store: Store, i: InvoiceId)
    requires NumberStoreOk(store) && i in store.invoices && store.invoices[i].posted
    ensures FreeFor(store.invoices, i, store.invoices[i].(posted := false))
  {
  }

  ghost predicate NumberStoreOk(store: Store) { RefsOk(store) && NumberStore(store) }

  lemma RenumberFree(c: Config, s: State, i: InvoiceId, coord: Coordinate)
    requires i in s.store.invoices && NoRequestOpen(s, i)
    requires NumberUnusedIfPosted(s.(store := SetInvoice(s.store, i, s.store.invoices[i].(coord := coord))), i)
    ensures FreeFor(s.store.invoices, i, s.store.invoices[i].(coord := coord))
  {
    var row' := s.store.invoices[i].(coord := coord);
    var s' := s.(store := SetInvoice(s.store, i, row'));
    assert forall j :: j in s.store.invoices && j != i ==> s'.store.invoices[j] == s.store.invoices[j];
  }

  lemma UserEventIsFree(c: Config, s: State, e: Event)
    requires NumberInv(c, s) && CalmStep(c, s, e) && IsUserEvent(e)
    ensures var (i, row') := EditedRow(s, e);
            FreeFor(s.store.invoices, i, row') && KeepsOpenCoord(s.store.invoices, i, row')
  {
    if e.ButtonDraft? {
      ButtonDraftFree(s.store, e.invoice);
    } else if e.Renumber? {
      RenumberFree(c, s, e.invoice, e.coord);
    }
  }

  lemma UserEventKeepsNumbers(c: Config, s: State, e: Event)
    requires Inv(c, s) && CalmStep(c, s, e) && IsUserEvent(e)
    ensures NumberInv(c, Apply(c, s, e))
  {
    UserEventIsAnEdit(c, s, e);
    UserEventIsFree(c, s, e);
    UserEditKeepsNumbers(c, s, EditedRow(s, e).0, EditedRow(s, e).1);
  }

  // ===== an attempt is created =====================================================================

  lemma CreateLedger(c: Config, attempts: map<AttemptId, Attempt>, log: seq<Voucher>, a: AttemptId, row: Attempt)
    requires LedgerOk(c, attempts, log) && a !in attempts
    requires row.state.Sent? && IsNext(c, log, row.coord)
    ensures NumberLedger(c, attempts[a := row], log)
  {
    forall v | v in log
      ensures v.coord != row.coord
    {
      NumbersUpToLast(c.base, log, v);
    }
  }

  /** A write under one key does not concern what a worker with another key goes by. */
  lemma WriteSparesNumbers(c: Config, s: State, a: AttemptId, row: Attempt, key: int, stage: Stage)
    requires key != c.key(row.coord.sequence)
    requires a in s.store.attempts ==> s.store.attempts[a].coord == row.coord
    requires CoreWorker(c, s.store, s.log, s.wire, key, stage) && NumberWorker(c, s.store.attempts, s.log, stage)
    ensures NumberWorker(c, s.store.attempts[a := row], s.log, stage)
  {
  }

  lemma WriteKeepsNumberWorkers(c: Config, s: State, w: WorkerId, a: AttemptId, row: Attempt, stage: Stage)
    requires LocksOk(s.workers, s.locks) && CoreWorkers(c, s.store, s.log, s.wire, s.workers)
    requires NumberWorkers(c, s.store.attempts, s.log, s.workers)
    requires At(s, w) && s.workers[w].key == c.key(row.coord.sequence)
    requires a in s.store.attempts ==> s.store.attempts[a].coord == row.coord
    requires NumberWorker(c, s.store.attempts[a := row], s.log, stage)
    ensures NumberWorkers(c, s.store.attempts[a := row], s.log, Goto(s, w, stage).workers)
  {
    forall w' | w' in s.workers && w' != w
      ensures NumberWorker(c, s.store.attempts[a := row], s.log, s.workers[w'].stage)
    {
      OtherKeys(s.workers, s.locks, w, w');
      WriteSparesNumbers(c, s, a, row, s.workers[w'].key, s.workers[w'].stage);
    }
  }

  lemma CreateNumbers(store: Store, a: AttemptId, row: Attempt, cae: Option<Cae>)
    requires StoreOk(store) && row.invoice in store.invoices && row.coord == store.invoices[row.invoice].coord
    requires a !in store.attempts && Ready(store.invoices[row.invoice])
    ensures NumberStoreOk(Write(store, a, row, Processing, cae))
  {
  }

  lemma CommitAttemptKeepsNumbers(c: Config, s: State, w: WorkerId, a: AttemptId)
    requires Inv(c, s) && CanCommitAttempt(s, w, a)
    ensures NumberInv(c, DoCommitAttempt(s, w, a))
  {
    var stage := s.workers[w].stage;
    assert CoreWorker(c, s.store, s.log, s.wire, s.workers[w].key, stage);
    assert NumberWorker(c, s.store.attempts, s.log, stage);
    CreateNumbers(s.store, a, AttemptFrom(stage), stage.row.cae);
    CreateLedger(c, s.store.attempts, s.log, a, AttemptFrom(stage));
    WriteKeepsNumberWorkers(c, s, w, a, AttemptFrom(stage), Armed(a));
  }

  // ===== an attempt is resolved ====================================================================

  lemma ResolveNumbers(store: Store, log: seq<Voucher>, a: AttemptId, state: AttemptState, caeA: Option<Cae>,
                       arca: ArcaState, cae: Option<Cae>)
    requires StoreOk(store) && a in store.attempts && store.attempts[a].Open()
    requires EndsWell(log, a, state, caeA, arca, cae)
    ensures NumberStoreOk(Write(store, a, store.attempts[a].(state := state, cae := caeA), arca, cae))
  {
  }

  lemma ResolveLedger(c: Config, attempts: map<AttemptId, Attempt>, log: seq<Voucher>, a: AttemptId, row: Attempt)
    requires NumberLedger(c, attempts, log) && a in attempts && attempts[a].Open()
    requires row.coord == attempts[a].coord && (row.state.Authorized? ==> LandedWith(log, a, row.cae))
    ensures NumberLedger(c, attempts[a := row], log)
  {
  }

  lemma ResolveKeepsNumbers(c: Config, s: State, w: WorkerId, a: AttemptId, state: AttemptState, caeA: Option<Cae>,
                            arca: ArcaState, cae: Option<Cae>)
    requires Inv(c, s) && a in s.store.attempts && s.store.attempts[a].Open()
    requires At(s, w) && s.workers[w].key == c.key(s.store.attempts[a].coord.sequence)
    requires EndsWell(s.log, a, state, caeA, arca, cae) && (state.Authorized? ==> LandedWith(s.log, a, caeA))
    ensures var row := s.store.attempts[a].(state := state, cae := caeA);
            NumberInv(c, Goto(s.(store := Write(s.store, a, row, arca, cae)), w, Finished))
  {
    var row := s.store.attempts[a].(state := state, cae := caeA);
    ResolveNumbers(s.store, s.log, a, state, caeA, arca, cae);
    ResolveLedger(c, s.store.attempts, s.log, a, row);
    WriteKeepsNumberWorkers(c, s, w, a, row, Finished);
  }

  lemma OutcomeKeepsNumbers(c: Config, s: State, w: WorkerId, a: AttemptId, outcome: Wsfe.Outcome)
    requires Inv(c, s) && At(s, w) && HasAttempt(s.store, a) && s.store.attempts[a].Open()
    requires s.workers[w].key == c.key(s.store.attempts[a].coord.sequence)
    requires Wsfe.ReleasesNumber(outcome) ==> !Landed(s.log, a)
    requires outcome.Authorized? ==> LandedWith(s.log, a, outcome.cae)
    ensures NumberInv(c, Goto(s.(store := WriteOutcome(s.store, a, outcome)), w, Finished))
  {
    var row, kept := s.store.attempts[a], s.store.invoices[s.store.attempts[a].invoice].cae;
    match outcome
    case Authorized(cae) => ResolveKeepsNumbers(c, s, w, a, AttemptState.Authorized, cae, ArcaState.Authorized, cae);
    case Rejected(_) => ResolveKeepsNumbers(c, s, w, a, AttemptState.Rejected, row.cae, ArcaState.Rejected, kept);
    case Aborted => ResolveKeepsNumbers(c, s, w, a, AttemptState.Aborted, row.cae, ArcaState.Rejected, kept);
    case Uncertain => ResolveKeepsNumbers(c, s, w, a, AttemptState.Uncertain, row.cae, ArcaState.Uncertain, kept);
  }

  lemma CommitOutcomeKeepsNumbers(c: Config, s: State, w: WorkerId)
    requires Inv(c, s) && CanCommitOutcome(s, w)
    ensures NumberInv(c, DoCommitOutcome(s, w))
  {
    var stage := s.workers[w].stage;
    assert CoreWorker(c, s.store, s.log, s.wire, s.workers[w].key, stage);
    assert NumberWorker(c, s.store.attempts, s.log, stage);
    OutcomeKeepsNumbers(c, s, w, stage.attempt, stage.outcome);
  }

  /** An answer that agrees with the ledger about an attempt, or says there is nothing of it. */
  ghost predicate TellsOf(log: seq<Voucher>, a: AttemptId, answer: Wsfe.Consultation) {
    match answer
    case Found(cae) => LandedWith(log, a, cae)
    case NotFound => !Landed(log, a)
    case Refused(_) => false
  }

  /** What FECompConsultar says about an open attempt is about its own request. */
  lemma ConsultIsOwn(c: Config, s: State, a: AttemptId)
    requires LedgerOk(c, s.store.attempts, s.log)
    requires a in s.store.attempts && s.store.attempts[a].Open()
    ensures TellsOf(s.log, a, AnswerOf(Consult(s.log, s.store.attempts[a].coord)))
  {
    var found := Consult(s.log, s.store.attempts[a].coord);
    if found.Some? {
      var v :| v in s.log && v.coord == s.store.attempts[a].coord && v.cae == found.value;
      assert v.attempt == a;
    }
  }

  lemma CommitRecoveryKeepsNumbers(c: Config, s: State, w: WorkerId)
    requires Inv(c, s) && CanCommitRecovery(s, w)
    ensures NumberInv(c, DoCommitRecovery(s, w))
  {
    var a, answer := s.workers[w].stage.attempt, s.workers[w].stage.answer;
    assert CoreWorker(c, s.store, s.log, s.wire, s.workers[w].key, s.workers[w].stage);
    assert NumberWorker(c, s.store.attempts, s.log, s.workers[w].stage);
    ConsultIsOwn(c, s, a);
    var row, kept := s.store.attempts[a], s.store.invoices[s.store.attempts[a].invoice].cae;
    match answer
    case Found(cae) => ResolveKeepsNumbers(c, s, w, a, AttemptState.Authorized, cae, ArcaState.Authorized, cae);
    case NotFound => ResolveKeepsNumbers(c, s, w, a, AttemptState.Aborted, row.cae, ArcaState.Pending, kept);
  }

  lemma ResolveIdleNumbers(c: Config, s: State, a: AttemptId, state: AttemptState, caeA: Option<Cae>,
                           arca: ArcaState, cae: Option<Cae>)
    requires Inv(c, s) && a in s.store.attempts && s.store.attempts[a].Open()
    requires c.key(s.store.attempts[a].coord.sequence) !in s.locks
    requires EndsWell(s.log, a, state, caeA, arca, cae) && (state.Authorized? ==> LandedWith(s.log, a, caeA))
    ensures NumberInv(c, s.(store := Write(s.store, a, s.store.attempts[a].(state := state, cae := caeA), arca, cae)))
  {
    var row := s.store.attempts[a].(state := state, cae := caeA);
    ResolveNumbers(s.store, s.log, a, state, caeA, arca, cae);
    ResolveLedger(c, s.store.attempts, s.log, a, row);
    forall w | w in s.workers
      ensures NumberWorker(c, s.store.attempts[a := row], s.log, s.workers[w].stage)
    {
      WriteSparesNumbers(c, s, a, row, s.workers[w].key, s.workers[w].stage);
    }
  }

  lemma ReconcileButtonKeepsNumbers(c: Config, s: State, a: AttemptId)
    requires Inv(c, s) && CanReconcileButton(s, a) && c.key(s.store.attempts[a].coord.sequence) !in s.locks
    ensures var answer := AnswerOf(Consult(s.log, s.store.attempts[a].coord));
            NumberInv(c, s.(store := WriteReconciliation(s.store, a, answer)))
  {
    ConsultIsOwn(c, s, a);
    var row, kept := s.store.attempts[a], s.store.invoices[s.store.attempts[a].invoice].cae;
    var held := Consult(s.log, row.coord);
    if held.Some? {
      ResolveIdleNumbers(c, s, a, AttemptState.Authorized, held, ArcaState.Authorized, held);
    } else {
      ResolveIdleNumbers(c, s, a, AttemptState.Aborted, row.cae, ArcaState.Pending, kept);
    }
  }

  // ===== ARCA answers ==============================================================================

  /** Two open attempts at one coordinate are one attempt: this is what serializes the sequence. */
  lemma OpenAttemptsDiffer(store: Store, a: AttemptId, b: AttemptId)
    requires StoreOk(store) && a in store.attempts && b in store.attempts
    requires store.attempts[a].Open() && store.attempts[b].Open()
    requires store.attempts[a].coord == store.attempts[b].coord
    ensures a == b
  {
    var i, j := store.attempts[a].invoice, store.attempts[b].invoice;
    assert Claims(store.invoices[i]) && Claims(store.invoices[j]);
  }

  /** A request on the wire holds exactly the number ARCA expects. */
  lemma OnWireIsNext(c: Config, s: State, a: AttemptId)
    requires OpenIsNext(c, s.store.attempts, s.log) && WireOk(s.store.attempts, s.log, s.wire)
    requires a in s.wire
    ensures a in s.store.attempts && IsNext(c, s.log, s.store.attempts[a].coord)
  {
  }

  lemma LandedWithAppend(log: seq<Voucher>, v: Voucher, a: AttemptId, cae: Option<Cae>)
    requires LandedWith(log, a, cae)
    ensures LandedWith(log + [v], a, cae)
  {
    var u :| u in log && u.attempt == a && (cae.Some? ==> u.cae == cae.value);
    assert u in log + [v];
  }

  lemma {:induction false} ConsultAppend(log: seq<Voucher>, v: Voucher, coord: Coordinate)
    requires v.coord != coord
    ensures Consult(log + [v], coord) == Consult(log, coord)
  {
    if log == [] {
      assert [v][1..] == [];
    } else {
      assert (log + [v])[1..] == log[1..] + [v];
      ConsultAppend(log[1..], v, coord);
    }
  }

  lemma LandElsewhere(c: Config, log: seq<Voucher>, v: Voucher, coord: Coordinate)
    requires IsNext(c, log, v.coord) && IsNext(c, log, coord) && v.coord != coord
    ensures IsNext(c, log + [v], coord)
  {
    LastAppend(c.base, log, v, coord.sequence);
  }

  /** The landing neither changes what a worker numbered by nor what a reconciler was told. */
  lemma LandNumberWorker(c: Config, s: State, v: Voucher, key: int, stage: Stage)
    requires StoreOk(s.store) && WireOk(s.store.attempts, s.log, s.wire)
    requires v.attempt in s.wire && v.coord == s.store.attempts[v.attempt].coord
    requires IsNext(c, s.log, v.coord)
    requires CoreWorker(c, s.store, s.log, s.wire, key, stage) && NumberWorker(c, s.store.attempts, s.log, stage)
    ensures NumberWorker(c, s.store.attempts, s.log + [v], stage)
  {
    match stage
    case Numbered(i, row) => LandElsewhere(c, s.log, v, row.coord);
    case Staged(i, row, _) => LandElsewhere(c, s.log, v, row.coord);
    case Resolved(a, _, outcome) =>
      if outcome.Authorized? {
        LandedWithAppend(s.log, v, a, outcome.cae);
      }
    case Consulted(a, _, _) =>
      if v.coord == s.store.attempts[a].coord {
        OpenAttemptsDiffer(s.store, a, v.attempt);
        assert false;
      } else {
        ConsultAppend(s.log, v, s.store.attempts[a].coord);
      }
    case _ =>
  }

  lemma LandAuthorized(attempts: map<AttemptId, Attempt>, log: seq<Voucher>, v: Voucher)
    requires AuthorizedLanded(attempts, log)
    ensures AuthorizedLanded(attempts, log + [v])
  {
    forall a | a in attempts && attempts[a].state.Authorized?
      ensures LandedWith(log + [v], a, attempts[a].cae)
    {
      LandedWithAppend(log, v, a, attempts[a].cae);
    }
  }

  lemma LandOwnVoucher(store: Store, log: seq<Voucher>, v: Voucher)
    requires StoreOk(store) && OwnVoucher(store.attempts, log)
    requires v.attempt in store.attempts && store.attempts[v.attempt].Open()
    requires v.coord == store.attempts[v.attempt].coord
    ensures OwnVoucher(store.attempts, log + [v])
  {
    forall a, u | a in store.attempts && store.attempts[a].Open() && u in log + [v]
                  && u.coord == store.attempts[a].coord
      ensures u.attempt == a
    {
      if u == v {
        OpenAttemptsDiffer(store, a, v.attempt);
      }
    }
  }

  lemma LandOpenIsNext(c: Config, s: State, v: Voucher)
    requires StoreOk(s.store) && OpenIsNext(c, s.store.attempts, s.log)
    requires v.attempt in s.store.attempts && s.store.attempts[v.attempt].Open()
    requires v.coord == s.store.attempts[v.attempt].coord && IsNext(c, s.log, v.coord)
    ensures OpenIsNext(c, s.store.attempts, s.log + [v])
  {
    forall a | a in s.store.attempts && s.store.attempts[a].Open() && !Landed(s.log + [v], a)
      ensures IsNext(c, s.log + [v], s.store.attempts[a].coord)
    {
      LandedAppend(s.log, v, a);
      if s.store.attempts[a].coord == v.coord {
        OpenAttemptsDiffer(s.store, a, v.attempt);
        assert false;
      }
      LandElsewhere(c, s.log, v, s.store.attempts[a].coord);
    }
  }

  lemma LandNumberLedger(c: Config, s: State, v: Voucher)
    requires StoreOk(s.store) && NumberLedger(c, s.store.attempts, s.log)
    requires WireOk(s.store.attempts, s.log, s.wire)
    requires v.attempt in s.wire && v.coord == s.store.attempts[v.attempt].coord
    requires forall u :: u in s.log ==> u.cae != v.cae
    ensures NumberLedger(c, s.store.attempts, s.log + [v])
  {
    OnWireIsNext(c, s, v.attempt);
    GapFreeAppend(c.base, s.log, v);
    LandOpenIsNext(c, s, v);
    LandOwnVoucher(s.store, s.log, v);
    LandAuthorized(s.store.attempts, s.log, v);
  }

  lemma LandKeepsNumbers(c: Config, s: State, a: AttemptId, verdict: Verdict)
    requires Inv(c, s) && a in s.wire && a in s.store.attempts
    requires verdict.Accept? ==> forall v :: v in s.log ==> v.cae != verdict.cae
    ensures NumberInv(c, DoLand(s, a, verdict))
  {
    if verdict.Accept? {
      var v := Voucher(s.store.attempts[a].coord, verdict.cae, a);
      OnWireIsNext(c, s, a);
      LandNumberLedger(c, s, v);
      forall w | w in s.workers
        ensures NumberWorker(c, s.store.attempts, s.log + [v], s.workers[w].stage)
      {
        LandNumberWorker(c, s, v, s.workers[w].key, s.workers[w].stage);
      }
    }
  }

  // ===== every event ===============================================================================

  lemma AuthorizationKeepsNumbers(c: Config, s: State, e: Event)
    requires Inv(c, s) && CalmStep(c, s, e) && AuthorizationEvent(e)
    ensures NumberInv(c, Apply(c, s, e))
  {
    match e
    case Begin(w, i, view) => AcquireKeepsNumbers(c, s, w, c.key(view), Locked(i));
    case CheckReady(w) => CheckReadyKeepsNumbers(c, s, w);
    case CheckSequence(w) => CheckSequenceKeepsNumbers(c, s, w);
    case CreateAttempt(w) => CreateAttemptKeepsNumbers(c, s, w);
    case CommitAttempt(w, a) => CommitAttemptKeepsNumbers(c, s, w, a);
    case BeginCall(w) =>
      GotoKeepsNumbers(c, s, w, Opened(s.workers[w].stage.attempt, SeenAt(s.store, s.workers[w].stage.attempt)));
    case Send(w) => GotoKeepsNumbers(c, s, w, Waiting(s.workers[w].stage.attempt, s.workers[w].stage.seen));
    case Return(w, result) => ReturnKeepsNumbers(c, s, w, result);
    case CommitOutcome(w) => CommitOutcomeKeepsNumbers(c, s, w);
  }

  lemma RecoveryKeepsNumbers(c: Config, s: State, e: Event)
    requires Inv(c, s) && CalmStep(c, s, e) && RecoveryEvent(e)
    ensures NumberInv(c, Apply(c, s, e))
  {
    match e
    case BeginRecovery(w, a) =>
      AcquireKeepsNumbers(c, s, w, c.key(s.store.attempts[a].coord.sequence), Recovering(a));
    case Query(w, answer) => QueryKeepsNumbers(c, s, w);
    case CommitRecovery(w) => CommitRecoveryKeepsNumbers(c, s, w);
    case ReconcileButton(a) => ReconcileButtonKeepsNumbers(c, s, a);
  }

  lemma OtherEventKeepsNumbers(c: Config, s: State, e: Event)
    requires Inv(c, s) && CalmStep(c, s, e) && (e.Leave? || e.Land? || e.Tick?)
    ensures NumberInv(c, Apply(c, s, e))
  {
    match e
    case Leave(w) =>
    case Land(a, verdict) => LandKeepsNumbers(c, s, a, verdict);
    case Tick =>
  }

  /** The whole invariant is inductive. */
  lemma StepKeepsInv(c: Config, s: State, e: Event)
    requires Inv(c, s) && WireFresh(s) && CalmStep(c, s, e)
    ensures Inv(c, Apply(c, s, e)) && WireFresh(Apply(c, s, e))
  {
    StepIsCore(c, NoLapse, s, e);
    StepKeepsCore(c, s, e);
    if AuthorizationEvent(e) {
      AuthorizationKeepsNumbers(c, s, e);
    } else if IsUserEvent(e) {
      UserEventKeepsNumbers(c, s, e);
    } else if RecoveryEvent(e) {
      RecoveryKeepsNumbers(c, s, e);
    } else {
      OtherEventKeepsNumbers(c, s, e);
    }
  }
}

/**
 What holds of every run of the protocol, from an empty store.  Two levels of trust: theorems about records,
 invoices and locks hold whatever numbers users give and whatever CAEs ARCA gives (`NumbersOnly`); those
 about the numbers themselves need all of `Protocol.Trusted`.
 */
module ProtocolTheorems {
  import opened Base
  import opened Ledger
  import opened Protocol
  import opened ProtocolInvariant
  import opened ProtocolCore
  import opened ProtocolSteps
  import Wsfe

  // ----- runs ------------------------------------------------------------------------------------

  ghost predicate RunTo(c: Config, lapse: Lapse, run: seq<State>, s: State) {
    Run(c, lapse, run) && run[0] == Initial && Top(run) == s
  }

  /** What a run with this lapse can lead to, starting from nothing. */
  ghost predicate Reached(c: Config, lapse: Lapse, s: State) { exists run :: RunTo(c, lapse, run, s) }

  ghost predicate Reachable(c: Config, s: State) { Reached(c, NoLapse, s) }

  lemma NextKeepsCore(c: Config, lapse: Lapse, s: State, s': State)
    requires NumbersOnly(lapse) && CoreInv(c, s) && WireFresh(s) && Next(c, lapse, s, s')
    ensures CoreInv(c, s') && WireFresh(s')
  {
    var e :| LawfulStep(c, lapse, s, e) && s' == Apply(c, s, e);
    StepIsCore(c, lapse, s, e);
    StepKeepsCore(c, s, e);
  }

  lemma {:induction false} RunKeepsCore(c: Config, lapse: Lapse, run: seq<State>, k: nat)
    requires NumbersOnly(lapse) && Run(c, lapse, run) && k < |run|
    requires CoreInv(c, run[0]) && WireFresh(run[0])
    ensures CoreInv(c, run[k]) && WireFresh(run[k])
  {
    if k > 0 {
      RunKeepsCore(c, lapse, run, k - 1);
      assert StepAt(c, lapse, run, k);
      NextKeepsCore(c, lapse, run[k - 1], run[k]);
    }
  }

  lemma ReachedCore(c: Config, lapse: Lapse, s: State)
    requires NumbersOnly(lapse) && Reached(c, lapse, s)
    ensures CoreInv(c, s) && WireFresh(s)
  {
    var run :| RunTo(c, lapse, run, s);
    RunKeepsCore(c, lapse, run, |run| - 1);
  }

  lemma NextKeepsInv(c: Config, s: State, s': State)
    requires Inv(c, s) && WireFresh(s) && Next(c, NoLapse, s, s')
    ensures Inv(c, s') && WireFresh(s')
  {
    var e :| LawfulStep(c, NoLapse, s, e) && s' == Apply(c, s, e);
    StepKeepsInv(c, s, e);
  }

  lemma {:induction false} RunKeepsInv(c: Config, run: seq<State>, k: nat)
    requires CalmRun(c, run) && Inv(c, run[0]) && WireFresh(run[0]) && k < |run|
    ensures Inv(c, run[k]) && WireFresh(run[k])
  {
    if k > 0 {
      RunKeepsInv(c, run, k - 1);
      assert StepAt(c, NoLapse, run, k);
      NextKeepsInv(c, run[k - 1], run[k]);
    }
  }

  lemma ReachableInv(c: Config, s: State)
    requires Reachable(c, s)
    ensures Inv(c, s) && WireFresh(s)
  {
    var run :| RunTo(c, NoLapse, run, s);
    RunKeepsInv(c, run, |run| - 1);
  }

  // ----- ARCA's ledger and our records -------------------------------------------------------------

  /** No voucher is ever lost sight of: its attempt is committed and sent, uncertain or authorized. */
  lemma EveryVoucherIsOnRecord(c: Config, lapse: Lapse, s: State, v: Voucher)
    requires NumbersOnly(lapse) && Reached(c, lapse, s) && v in s.log
    ensures v.attempt in s.store.attempts
    ensures var a := s.store.attempts[v.attempt];
            a.coord == v.coord && (a.state.Sent? || a.state.Uncertain? || a.state.Authorized?)
  {
    ReachedCore(c, lapse, s);
  }

  /** ARCA never holds two vouchers for one invoice. */
  lemma OneVoucherPerInvoice(c: Config, lapse: Lapse, s: State, j: nat, k: nat)
    requires NumbersOnly(lapse) && Reached(c, lapse, s) && j < k < |s.log|
    ensures s.log[j].attempt in s.store.attempts && s.log[k].attempt in s.store.attempts
    ensures s.store.attempts[s.log[j].attempt].invoice != s.store.attempts[s.log[k].attempt].invoice
  {
    ReachedCore(c, lapse, s);
    assert s.log[j] in s.log && s.log[k] in s.log;
  }

  /** Each sequence at ARCA runs from its base without gap or repetition. */
  lemma LedgerIsGapFree(c: Config, s: State, coord: Coordinate)
    requires Reachable(c, s)
    ensures c.base(coord.sequence) < coord.number <= Last(c.base, s.log, coord.sequence)
            <==> exists k :: 0 <= k < |s.log| && s.log[k].coord == coord
    ensures forall j, k :: 0 <= j < k < |s.log| ==> s.log[j].coord != s.log[k].coord
  {
    ReachableInv(c, s);
    GapFreeHoldsEveryNumber(c.base, s.log, coord);
    forall j, k | 0 <= j < k < |s.log|
      ensures s.log[j].coord != s.log[k].coord
    {
      GapFreeHoldsItOnce(c.base, s.log, j, k);
    }
  }

  /** The number a worker is about to use, or has used without ARCA answering yet. */
  function NumberInUse(s: State, stage: Stage): Option<Coordinate> {
    match stage
    case Numbered(_, row) => Some(row.coord)
    case Staged(_, row, _) => Some(row.coord)
    case Armed(a) => if a in s.store.attempts then Some(s.store.attempts[a].coord) else None
    case Opened(a, _) => if a in s.store.attempts then Some(s.store.attempts[a].coord) else None
    case _ => None
  }

  /** From FECompUltimoAutorizado until the request lands, nothing moves the sequence under it. */
  lemma PrecheckStaysTrue(c: Config, s: State, w: WorkerId)
    requires Reachable(c, s) && At(s, w)
    ensures s.workers[w].stage.Armed? || s.workers[w].stage.Opened? ==> NumberInUse(s, s.workers[w].stage).Some?
    ensures s.workers[w].stage.Numbered? || s.workers[w].stage.Staged? ==>
              NumberInUse(s, s.workers[w].stage) == Some(s.workers[w].stage.row.coord)
    ensures NumberInUse(s, s.workers[w].stage).Some?
            ==> IsNext(c, s.log, NumberInUse(s, s.workers[w].stage).value)
  {
    ReachableInv(c, s);
    assert CoreWorker(c, s.store, s.log, s.wire, s.workers[w].key, s.workers[w].stage);
  }

  /** What ARCA processes next is exactly its last number plus one, though it would take any; two
      requests of one sequence are never on the wire together. */
  lemma ArcaOnlySeesTheNextNumber(c: Config, s: State, a: AttemptId)
    requires Reachable(c, s) && a in s.wire
    ensures a in s.store.attempts && IsNext(c, s.log, s.store.attempts[a].coord)
    ensures forall b :: b in s.wire && b in s.store.attempts
                        && s.store.attempts[b].coord.sequence == s.store.attempts[a].coord.sequence
                        ==> b == a
  {
    ReachableInv(c, s);
    OnWireIsNext(c, s, a);
    forall b | b in s.wire && b in s.store.attempts
               && s.store.attempts[b].coord.sequence == s.store.attempts[a].coord.sequence
      ensures b == a
    {
      OnWireIsNext(c, s, b);
      OpenAttemptsDiffer(s.store, a, b);
    }
  }

  // ----- invoices and attempts -----------------------------------------------------------------------

  /** An invoice has an open attempt exactly while it is processing or uncertain, and only one. */
  lemma OpenAttemptIffProcessingOrUncertain(c: Config, lapse: Lapse, s: State, i: InvoiceId)
    requires NumbersOnly(lapse) && Reached(c, lapse, s) && i in s.store.invoices
    ensures s.store.invoices[i].arca.Processing? || s.store.invoices[i].arca.Uncertain?
            <==> exists a :: a in s.store.attempts && s.store.attempts[a].invoice == i && s.store.attempts[a].Open()
    ensures forall a, b :: a in s.store.attempts && b in s.store.attempts
                           && s.store.attempts[a].invoice == i && s.store.attempts[b].invoice == i
                           && s.store.attempts[a].Open() && s.store.attempts[b].Open()
                           ==> a == b
  {
    ReachedCore(c, lapse, s);
    if s.store.invoices[i].arca.Processing? || s.store.invoices[i].arca.Uncertain? {
      var a :| a in s.store.attempts && s.store.attempts[a].invoice == i && s.store.attempts[a].Live();
      assert s.store.attempts[a].Open();
    }
  }

  /** The state of an invoice with an authorized attempt: what its CAE and voucher are. */
  lemma AuthorizedHasItsVoucher(c: Config, s: State, i: InvoiceId)
    requires Reachable(c, s) && i in s.store.invoices && s.store.invoices[i].arca.Authorized?
    ensures exists a, v :: a in s.store.attempts && s.store.attempts[a].invoice == i
              && s.store.attempts[a].state.Authorized? && s.store.attempts[a].cae == s.store.invoices[i].cae
              && v in s.log && v.attempt == a && v.coord == s.store.attempts[a].coord
              && (s.store.invoices[i].cae.Some? ==> v.cae == s.store.invoices[i].cae.value)
  {
    ReachableInv(c, s);
    var a :| a in s.store.attempts && s.store.attempts[a].invoice == i && s.store.attempts[a].Live();
    assert s.store.attempts[a].state.Authorized?;
    var v :| v in s.log && v.attempt == a
      && (s.store.attempts[a].cae.Some? ==> v.cae == s.store.attempts[a].cae.value);
  }

  predicate AuthorizedWith(store: Store, i: InvoiceId, cae: Option<Cae>) {
    i in store.invoices && store.invoices[i].arca.Authorized? && store.invoices[i].cae == cae
  }

  /** A write that resolves an open attempt is never about an authorized invoice. */
  lemma ResolveSparesAuthorized(store: Store, a: AttemptId, i: InvoiceId, cae: Option<Cae>,
                                outcome: Wsfe.Outcome, answer: Wsfe.Consultation)
    requires CoreStore(store) && HasAttempt(store, a) && store.attempts[a].Open() && AuthorizedWith(store, i, cae)
    requires !answer.Refused?
    ensures AuthorizedWith(WriteOutcome(store, a, outcome), i, cae)
    ensures AuthorizedWith(WriteReconciliation(store, a, answer), i, cae)
  {
    assert store.attempts[a].invoice != i;
  }

  lemma CommitAttemptSparesAuthorized(c: Config, s: State, w: WorkerId, a: AttemptId, i: InvoiceId, cae: Option<Cae>)
    requires CoreWorkers(c, s.store, s.log, s.wire, s.workers) && Enabled(c, s, CommitAttempt(w, a))
    requires AuthorizedWith(s.store, i, cae)
    ensures AuthorizedWith(Apply(c, s, CommitAttempt(w, a)).store, i, cae)
  {
    assert CoreWorker(c, s.store, s.log, s.wire, s.workers[w].key, s.workers[w].stage);
  }

  /** The attempt whose outcome a worker is about to commit is open. */
  lemma CommitsOpenAttempt(c: Config, s: State, w: WorkerId)
    requires CoreWorkers(c, s.store, s.log, s.wire, s.workers) && At(s, w)
    requires s.workers[w].stage.Resolved? || s.workers[w].stage.Consulted?
    ensures s.workers[w].stage.attempt in s.store.attempts
            && s.store.attempts[s.workers[w].stage.attempt].Open()
  {
    assert CoreWorker(c, s.store, s.log, s.wire, s.workers[w].key, s.workers[w].stage);
  }

  lemma CommitOutcomeSparesAuthorized(c: Config, s: State, w: WorkerId, i: InvoiceId, cae: Option<Cae>)
    requires CoreInv(c, s) && Enabled(c, s, CommitOutcome(w)) && AuthorizedWith(s.store, i, cae)
    ensures AuthorizedWith(Apply(c, s, CommitOutcome(w)).store, i, cae)
  {
    CommitsOpenAttempt(c, s, w);
    ResolveSparesAuthorized(s.store, s.workers[w].stage.attempt, i, cae, s.workers[w].stage.outcome, Wsfe.NotFound);
  }

  lemma CommitRecoverySparesAuthorized(c: Config, s: State, w: WorkerId, i: InvoiceId, cae: Option<Cae>)
    requires CoreInv(c, s) && Enabled(c, s, CommitRecovery(w)) && AuthorizedWith(s.store, i, cae)
    ensures AuthorizedWith(Apply(c, s, CommitRecovery(w)).store, i, cae)
  {
    CommitsOpenAttempt(c, s, w);
    ResolveSparesAuthorized(s.store, s.workers[w].stage.attempt, i, cae, Wsfe.Uncertain, s.workers[w].stage.answer);
  }

  lemma ReconcileButtonSparesAuthorized(c: Config, s: State, a: AttemptId, i: InvoiceId, cae: Option<Cae>)
    requires CoreStore(s.store) && Enabled(c, s, ReconcileButton(a)) && AuthorizedWith(s.store, i, cae)
    ensures AuthorizedWith(Apply(c, s, ReconcileButton(a)).store, i, cae)
  {
    ResolveSparesAuthorized(s.store, a, i, cae, Wsfe.Uncertain, AnswerOf(Consult(s.log, s.store.attempts[a].coord)));
  }

  predicate SettlesAttempt(e: Event) {
    e.CommitAttempt? || e.CommitOutcome? || e.CommitRecovery? || e.ReconcileButton?
  }

  lemma SettlingSparesAuthorized(c: Config, s: State, e: Event, i: InvoiceId, cae: Option<Cae>)
    requires CoreInv(c, s) && Enabled(c, s, e) && SettlesAttempt(e) && AuthorizedWith(s.store, i, cae)
    ensures AuthorizedWith(Apply(c, s, e).store, i, cae)
  {
    match e
    case CommitAttempt(w, a) => CommitAttemptSparesAuthorized(c, s, w, a, i, cae);
    case CommitOutcome(w) => CommitOutcomeSparesAuthorized(c, s, w, i, cae);
    case CommitRecovery(w) => CommitRecoverySparesAuthorized(c, s, w, i, cae);
    case ReconcileButton(a) => ReconcileButtonSparesAuthorized(c, s, a, i, cae);
  }

  lemma OtherStepsSpareAuthorized(c: Config, s: State, e: Event, i: InvoiceId, cae: Option<Cae>)
    requires Enabled(c, s, e) && !SettlesAttempt(e) && AuthorizedWith(s.store, i, cae)
    ensures AuthorizedWith(Apply(c, s, e).store, i, cae)
  {
  }

  predicate PostedInvoice(store: Store, i: InvoiceId) { i in store.invoices && store.invoices[i].posted }

  /** ARCA has authorized the invoice, or may have. */
  predicate MayExist(store: Store, i: InvoiceId) {
    i in store.invoices
    && (store.invoices[i].arca == ArcaState.Authorized || store.invoices[i].arca == ArcaState.Uncertain)
  }

  /** No step at all, trusted or not, takes an invoice that may exist at ARCA back to draft ... */
  lemma StepKeepsPosted(c: Config, s: State, e: Event, i: InvoiceId)
    requires Enabled(c, s, e) && PostedInvoice(s.store, i) && MayExist(s.store, i)
    ensures PostedInvoice(Apply(c, s, e).store, i)
  {
    match e
    case _ =>
  }

  /** ... and that is the only thing that keeps a posted invoice from it. */
  lemma DraftPossibleIff(c: Config, s: State, i: InvoiceId)
    requires PostedInvoice(s.store, i)
    ensures (exists e :: Enabled(c, s, e) && !PostedInvoice(Apply(c, s, e).store, i)) <==> !MayExist(s.store, i)
  {
    if MayExist(s.store, i) {
      forall e | Enabled(c, s, e)
        ensures PostedInvoice(Apply(c, s, e).store, i)
      {
        StepKeepsPosted(c, s, e, i);
      }
    } else {
      assert Enabled(c, s, ButtonDraft(i));
      assert !PostedInvoice(Apply(c, s, ButtonDraft(i)).store, i);
    }
  }

  /** Over any run whatever, an invoice stays posted while ARCA may have its voucher. */
  lemma {:induction false} PostedWhileItMayExist(c: Config, lapse: Lapse, run: seq<State>, i: InvoiceId, j: nat, k: nat)
    requires Run(c, lapse, run) && j <= k < |run| && PostedInvoice(run[j].store, i)
    requires forall m :: j <= m < k ==> MayExist(run[m].store, i)
    ensures PostedInvoice(run[k].store, i)
  {
    if j < k {
      PostedWhileItMayExist(c, lapse, run, i, j, k - 1);
      assert StepAt(c, lapse, run, k);
      var e :| LawfulStep(c, lapse, run[k - 1], e) && run[k] == Apply(c, run[k - 1], e);
      StepKeepsPosted(c, run[k - 1], e, i);
    }
  }

  lemma NextKeepsAuthorized(c: Config, lapse: Lapse, s: State, s': State, i: InvoiceId, cae: Option<Cae>)
    requires CoreInv(c, s) && Next(c, lapse, s, s') && AuthorizedWith(s.store, i, cae)
    ensures AuthorizedWith(s'.store, i, cae)
    ensures PostedInvoice(s.store, i) ==> PostedInvoice(s'.store, i)
  {
    var e :| LawfulStep(c, lapse, s, e) && s' == Apply(c, s, e);
    if SettlesAttempt(e) {
      SettlingSparesAuthorized(c, s, e, i, cae);
    } else {
      OtherStepsSpareAuthorized(c, s, e, i, cae);
    }
    if PostedInvoice(s.store, i) {
      StepKeepsPosted(c, s, e, i);
    }
  }

  /** Once authorized, an invoice keeps that state and its CAE, and stays posted, whatever happens next,
      whatever number it or another is given. */
  lemma {:induction false} AuthorizedForever(c: Config, lapse: Lapse, run: seq<State>, i: InvoiceId,
                                             cae: Option<Cae>, j: nat, k: nat)
    requires NumbersOnly(lapse) && Run(c, lapse, run) && Reached(c, lapse, run[0]) && j <= k < |run|
    requires AuthorizedWith(run[j].store, i, cae)
    ensures AuthorizedWith(run[k].store, i, cae)
    ensures PostedInvoice(run[j].store, i) ==> PostedInvoice(run[k].store, i)
  {
    if j < k {
      AuthorizedForever(c, lapse, run, i, cae, j, k - 1);
      ReachedCore(c, lapse, run[0]);
      RunKeepsCore(c, lapse, run, k - 1);
      assert StepAt(c, lapse, run, k);
      NextKeepsAuthorized(c, lapse, run[k - 1], run[k], i, cae);
    }
  }

  // ----- locks -----------------------------------------------------------------------------------------

  /** Locks need no trust at all: any step that can be taken keeps the table exact. */
  lemma StepKeepsLocks(c: Config, s: State, e: Event)
    requires LocksOk(s.workers, s.locks) && Enabled(c, s, e)
    ensures LocksOk(Apply(c, s, e).workers, Apply(c, s, e).locks)
  {
    match e
    case _ =>
  }

  lemma {:induction false} RunKeepsLocks(c: Config, lapse: Lapse, run: seq<State>, k: nat)
    requires Run(c, lapse, run) && run[0] == Initial && k < |run|
    ensures LocksOk(run[k].workers, run[k].locks)
  {
    if k > 0 {
      RunKeepsLocks(c, lapse, run, k - 1);
      assert StepAt(c, lapse, run, k);
      var e :| LawfulStep(c, lapse, run[k - 1], e) && run[k] == Apply(c, run[k - 1], e);
      StepKeepsLocks(c, run[k - 1], e);
    }
  }

  /** Whatever the lock-key function, and whatever ARCA, users and time do, one worker at most is inside a
      key's block, and the lock table holds nothing else: no exit, crash included, leaves a lock behind. */
  lemma OneWorkerPerKey(c: Config, lapse: Lapse, run: seq<State>, k: nat)
    requires Run(c, lapse, run) && run[0] == Initial && k < |run|
    ensures var s := run[k];
            && (forall w, w' :: w in s.workers && w' in s.workers && s.workers[w].key == s.workers[w'].key ==> w == w')
            && (forall key :: key in s.locks <==> exists w :: w in s.workers && s.workers[w].key == key)
  {
    RunKeepsLocks(c, lapse, run, k);
    var s := run[k];
    forall key
      ensures key in s.locks <==> exists w :: w in s.workers && s.workers[w].key == key
    {
      if key in s.locks {
        assert s.locks[key] in s.workers;
      }
    }
  }

  /** The attempts whose sequence a key guards. */
  function Guarded(c: Config, store: Store, key: int): map<AttemptId, Attempt> {
    map a | a in store.attempts && c.key(store.attempts[a].coord.sequence) == key :: store.attempts[a]
  }

  /** Inside its block a worker writes attempts at three points only. */
  predicate Writes(before: Stage, after: Stage) {
    (before.Staged? && after.Armed?) || (!before.Finished? && after.Finished?)
  }

  /** The attempt a commit writes, which its worker's lock covers. */
  lemma WritersHoldTheKey(c: Config, s: State, w: WorkerId)
    requires CoreWorkers(c, s.store, s.log, s.wire, s.workers) && At(s, w)
    ensures s.workers[w].stage.Staged? ==> s.workers[w].key == c.key(s.workers[w].stage.row.coord.sequence)
    ensures s.workers[w].stage.Resolved? || s.workers[w].stage.Consulted? ==>
              Holds(c, s.store.attempts, s.workers[w].key, s.workers[w].stage.attempt)
  {
    assert CoreWorker(c, s.store, s.log, s.wire, s.workers[w].key, s.workers[w].stage);
  }

  lemma WriteElsewhere(c: Config, store: Store, a: AttemptId, row: Attempt, arca: ArcaState, cae: Option<Cae>, key: int)
    requires row.invoice in store.invoices && c.key(row.coord.sequence) != key
    requires a in store.attempts ==> c.key(store.attempts[a].coord.sequence) != key
    ensures Guarded(c, Write(store, a, row, arca, cae), key) == Guarded(c, store, key)
  {
  }

  lemma SettlingElsewhere(c: Config, store: Store, a: AttemptId, outcome: Wsfe.Outcome, answer: Wsfe.Consultation,
                          key: int)
    requires HasAttempt(store, a) && c.key(store.attempts[a].coord.sequence) != key && !answer.Refused?
    ensures Guarded(c, WriteOutcome(store, a, outcome), key) == Guarded(c, store, key)
    ensures Guarded(c, WriteReconciliation(store, a, answer), key) == Guarded(c, store, key)
  {
  }

  /** A commit by another worker, who holds another key, is about another key's attempts. */
  lemma OthersWriteElsewhere(c: Config, s: State, e: Event, w: WorkerId, other: WorkerId)
    requires LocksOk(s.workers, s.locks) && CoreWorkers(c, s.store, s.log, s.wire, s.workers)
    requires Enabled(c, s, e) && At(s, w) && At(s, other) && other != w
    requires e == CommitOutcome(other) || e == CommitRecovery(other) || (e.CommitAttempt? && e.worker == other)
    ensures Guarded(c, Apply(c, s, e).store, s.workers[w].key) == Guarded(c, s.store, s.workers[w].key)
  {
    OtherKeys(s.workers, s.locks, w, other);
    WritersHoldTheKey(c, s, other);
    var stage, key := s.workers[other].stage, s.workers[w].key;
    match e
    case CommitAttempt(_, a) => WriteElsewhere(c, s.store, a, AttemptFrom(stage), Processing, stage.row.cae, key);
    case CommitOutcome(_) => SettlingElsewhere(c, s.store, stage.attempt, stage.outcome, Wsfe.NotFound, key);
    case CommitRecovery(_) => SettlingElsewhere(c, s.store, stage.attempt, Wsfe.Uncertain, stage.answer, key);
  }

  lemma ButtonWritesElsewhere(c: Config, s: State, a: AttemptId, w: WorkerId)
    requires LocksOk(s.workers, s.locks) && CoreStep(c, s, ReconcileButton(a)) && At(s, w)
    ensures Guarded(c, Apply(c, s, ReconcileButton(a)).store, s.workers[w].key) == Guarded(c, s.store, s.workers[w].key)
  {
    var answer := AnswerOf(Consult(s.log, s.store.attempts[a].coord));
    SettlingElsewhere(c, s.store, a, Wsfe.Uncertain, answer, s.workers[w].key);
  }

  lemma OtherStepsKeepAttempts(c: Config, s: State, e: Event)
    requires Enabled(c, s, e) && !SettlesAttempt(e)
    ensures Apply(c, s, e).store.attempts == s.store.attempts
  {
  }

  /** A commit moves its worker from one stage that writes to the next. */
  lemma CommitsAreWrites(c: Config, s: State, e: Event, w: WorkerId)
    requires Enabled(c, s, e) && At(s, w)
    requires e == CommitOutcome(w) || e == CommitRecovery(w) || (e.CommitAttempt? && e.worker == w)
    ensures At(Apply(c, s, e), w) && Writes(s.workers[w].stage, Apply(c, s, e).workers[w].stage)
  {
  }

  lemma OnlyTheHolderWrites(c: Config, s: State, e: Event, w: WorkerId)
    requires LocksOk(s.workers, s.locks) && CoreWorkers(c, s.store, s.log, s.wire, s.workers)
    requires CoreStep(c, s, e) && At(s, w) && At(Apply(c, s, e), w)
    requires !Writes(s.workers[w].stage, Apply(c, s, e).workers[w].stage)
    ensures Guarded(c, Apply(c, s, e).store, s.workers[w].key) == Guarded(c, s.store, s.workers[w].key)
  {
    if e.CommitAttempt? || e.CommitOutcome? || e.CommitRecovery? {
      if e.worker == w {
        CommitsAreWrites(c, s, e, w);
      } else {
        OthersWriteElsewhere(c, s, e, w, e.worker);
      }
    } else if e.ReconcileButton? {
      ButtonWritesElsewhere(c, s, e.attempt, w);
    } else {
      OtherStepsKeepAttempts(c, s, e);
    }
  }

  /** The worker is inside before and after the step to `m`, and writes nothing in it. */
  predicate StaysInside(run: seq<State>, w: WorkerId, m: nat)
    requires 0 < m < |run|
  {
    At(run[m - 1], w) && At(run[m], w) && !Writes(run[m - 1].workers[w].stage, run[m].workers[w].stage)
  }

  /** While a worker is inside, nobody else creates or resolves an attempt of its key: until its own next
      commit, it finds them as they were when it took the lock. */
  lemma {:induction false} AloneInside(c: Config, lapse: Lapse, run: seq<State>, w: WorkerId, j: nat, k: nat)
    requires NumbersOnly(lapse) && Run(c, lapse, run) && Reached(c, lapse, run[0]) && j <= k < |run| && At(run[j], w)
    requires forall m {:trigger StaysInside(run, w, m)} :: j < m <= k ==> StaysInside(run, w, m)
    ensures At(run[k], w) && run[k].workers[w].key == run[j].workers[w].key
    ensures Guarded(c, run[k].store, run[j].workers[w].key) == Guarded(c, run[j].store, run[j].workers[w].key)
    ensures forall a :: a in run[j].store.attempts
                        && c.key(run[j].store.attempts[a].coord.sequence) == run[j].workers[w].key ==>
              a in run[k].store.attempts && run[k].store.attempts[a] == run[j].store.attempts[a]
  {
    if j < k {
      AloneInside(c, lapse, run, w, j, k - 1);
      ReachedCore(c, lapse, run[0]);
      RunKeepsCore(c, lapse, run, k - 1);
      assert StaysInside(run, w, k);
      assert StepAt(c, lapse, run, k);
      AloneForAStep(c, lapse, run[k - 1], run[k], w);
    }
    SameGuarded(c, run[j].store, run[k].store, run[j].workers[w].key);
  }

  lemma SameGuarded(c: Config, before: Store, after: Store, key: int)
    requires Guarded(c, after, key) == Guarded(c, before, key)
    ensures forall a :: a in before.attempts && c.key(before.attempts[a].coord.sequence) == key ==>
              a in after.attempts && after.attempts[a] == before.attempts[a]
  {
    forall a | a in before.attempts && c.key(before.attempts[a].coord.sequence) == key
      ensures a in after.attempts && after.attempts[a] == before.attempts[a]
    {
      assert a in Guarded(c, before, key);
      assert a in Guarded(c, after, key);
    }
  }

  lemma AloneForAStep(c: Config, lapse: Lapse, s: State, s': State, w: WorkerId)
    requires LocksOk(s.workers, s.locks) && CoreWorkers(c, s.store, s.log, s.wire, s.workers)
    requires NumbersOnly(lapse) && Next(c, lapse, s, s') && At(s, w) && At(s', w)
    requires !Writes(s.workers[w].stage, s'.workers[w].stage)
    ensures Guarded(c, s'.store, s.workers[w].key) == Guarded(c, s.store, s.workers[w].key)
    ensures s'.workers[w].key == s.workers[w].key
  {
    var e :| LawfulStep(c, lapse, s, e) && s' == Apply(c, s, e);
    StepIsCore(c, lapse, s, e);
    OnlyTheHolderWrites(c, s, e, w);
    KeysStay(c, s, e, w);
  }

  lemma KeysStay(c: Config, s: State, e: Event, w: WorkerId)
    requires Enabled(c, s, e) && At(s, w) && At(Apply(c, s, e), w)
    ensures Apply(c, s, e).workers[w].key == s.workers[w].key
  {
  }

  lemma IndexFreeForLanded(c: Config, attempts: map<AttemptId, Attempt>, log: seq<Voucher>, a: AttemptId)
    requires LedgerOk(c, attempts, log) && a in attempts && attempts[a].Open() && Landed(log, a)
    ensures IndexFree(attempts, a)
  {
    forall b | b in attempts && b != a && attempts[b].state.Authorized?
      ensures attempts[b].coord != attempts[a].coord
    {
      var v :| v in log && v.attempt == b && (attempts[b].cae.Some? ==> v.cae == attempts[b].cae.value);
      assert v.coord == attempts[b].coord;
    }
  }

  lemma ReadyToRecord(c: Config, s: State, key: int, stage: Stage)
    requires StoreOk(s.store) && LedgerOk(c, s.store.attempts, s.log)
    requires CoreWorker(c, s.store, s.log, s.wire, key, stage) && NumberWorker(c, s.store.attempts, s.log, stage)
    requires stage.Resolved? || stage.Consulted?
    ensures HasAttempt(s.store, stage.attempt) && s.store.attempts[stage.attempt] == stage.seen.attempt
    ensures (stage.Resolved? && stage.outcome.Authorized?) || (stage.Consulted? && stage.answer.Found?) ==>
              IndexFree(s.store.attempts, stage.attempt)
    ensures stage.Consulted? ==> !stage.answer.Refused?
  {
    if stage.Resolved? && stage.outcome.Authorized? {
      IndexFreeForLanded(c, s.store.attempts, s.log, stage.attempt);
    } else if stage.Consulted? && stage.answer.Found? {
      ConsultIsOwn(c, s, stage.attempt);
      IndexFreeForLanded(c, s.store.attempts, s.log, stage.attempt);
    }
  }

  /** The row of the invoice whose attempt a worker is about to record is as its snapshot has it. */
  predicate InvoiceAsSeen(s: State, stage: Stage)
    requires stage.Resolved? || stage.Consulted?
  {
    HasAttempt(s.store, stage.attempt)
    && s.store.invoices[s.store.attempts[stage.attempt].invoice] == stage.seen.invoice
  }

  /** The unique index never stops a worker or a reconciler from recording what ARCA did: what can stop
      them is a change of the invoice's row since the snapshot, and nothing else. */
  lemma IndexNeverBlocks(c: Config, s: State, w: WorkerId)
    requires Reachable(c, s) && At(s, w)
    ensures s.workers[w].stage.Resolved? ==> (CanCommitOutcome(s, w) <==> InvoiceAsSeen(s, s.workers[w].stage))
    ensures s.workers[w].stage.Consulted? ==> (CanCommitRecovery(s, w) <==> InvoiceAsSeen(s, s.workers[w].stage))
  {
    ReachableInv(c, s);
    assert CoreWorker(c, s.store, s.log, s.wire, s.workers[w].key, s.workers[w].stage);
    if s.workers[w].stage.Resolved? || s.workers[w].stage.Consulted? {
      ReadyToRecord(c, s, s.workers[w].key, s.workers[w].stage);
    }
  }

  lemma SameCoordinateSameAttempt(base: Sequence -> nat, log: seq<Voucher>, u: Voucher, v: Voucher)
    requires GapFree(base, log) && u in log && v in log && u.coord == v.coord
    ensures u == v
  {
    var j :| 0 <= j < |log| && log[j] == u;
    var k :| 0 <= k < |log| && log[k] == v;
    if j < k {
      GapFreeHoldsItOnce(base, log, j, k);
    } else if k < j {
      GapFreeHoldsItOnce(base, log, k, j);
    }
  }

  /** Not even two companies that share a CUIT, which the index does not cover, authorize one number twice. */
  lemma OneAuthorizedPerCoordinate(c: Config, s: State, a: AttemptId, b: AttemptId)
    requires Reachable(c, s) && a in s.store.attempts && b in s.store.attempts
    requires s.store.attempts[a].state.Authorized? && s.store.attempts[b].state.Authorized?
    requires s.store.attempts[a].coord == s.store.attempts[b].coord
    ensures a == b
  {
    ReachableInv(c, s);
    var v :| v in s.log && v.attempt == a && (s.store.attempts[a].cae.Some? ==> v.cae == s.store.attempts[a].cae.value);
    var u :| u in s.log && u.attempt == b && (s.store.attempts[b].cae.Some? ==> u.cae == s.store.attempts[b].cae.value);
    SameCoordinateSameAttempt(c.base, s.log, u, v);
  }

  // ----- the QR ----------------------------------------------------------------------------------------

  /** The fields of the QR that name the voucher (RG 4892/2020). */
  datatype Qr = Qr(cuit: nat, ptoVta: nat, tipoCmp: nat, nroCmp: nat, codAut: Cae)

  function QrPayload(row: Invoice): (qr: Option<Qr>)
    ensures qr.Some? <==> row.arca == ArcaState.Authorized && row.cae.Some? && row.cae.value != ""
  {
    if row.arca.Authorized? && row.cae.Some? && row.cae.value != "" then
      var q := row.coord.sequence;
      Some(Qr(q.issuer, q.pos, q.docType, row.coord.number, row.cae.value))
    else None
  }

  predicate Names(qr: Qr, v: Voucher) {
    var q := v.coord.sequence;
    q.issuer == qr.cuit && q.pos == qr.ptoVta && q.docType == qr.tipoCmp
    && v.coord.number == qr.nroCmp && v.cae == qr.codAut
  }

  /** The QR names exactly one voucher at ARCA, unless the invoice was renumbered since it was sent;
      then it names none. */
  lemma QrNamesTheVoucher(c: Config, s: State, i: InvoiceId, a: AttemptId)
    requires Reachable(c, s) && i in s.store.invoices && QrPayload(s.store.invoices[i]).Some?
    requires a in s.store.attempts && s.store.attempts[a].invoice == i && s.store.attempts[a].state.Authorized?
    ensures var qr := QrPayload(s.store.invoices[i]).value;
            (exists v :: v in s.log && Names(qr, v)) <==> s.store.invoices[i].coord == s.store.attempts[a].coord
    ensures var qr := QrPayload(s.store.invoices[i]).value;
            forall j, k :: 0 <= j < |s.log| && 0 <= k < |s.log| && Names(qr, s.log[j]) && Names(qr, s.log[k])
              ==> j == k
  {
    var own := OwnVoucher(c, s, i, a);
    OnlyItsCae(c, s, own);
  }

  /** The voucher behind an authorized attempt, whose CAE the invoice carries. */
  lemma OwnVoucher(c: Config, s: State, i: InvoiceId, a: AttemptId) returns (own: Voucher)
    requires Reachable(c, s) && i in s.store.invoices
    requires a in s.store.attempts && s.store.attempts[a].invoice == i && s.store.attempts[a].state.Authorized?
    ensures own in s.log && own.attempt == a && own.coord == s.store.attempts[a].coord
    ensures s.store.invoices[i].cae.Some? ==> own.cae == s.store.invoices[i].cae.value
  {
    ReachableInv(c, s);
    own :| own in s.log && own.attempt == a
      && (s.store.attempts[a].cae.Some? ==> own.cae == s.store.attempts[a].cae.value);
    assert s.store.invoices[i].cae == s.store.attempts[a].cae;
  }

  /** No two vouchers share a CAE. */
  lemma OnlyItsCae(c: Config, s: State, own: Voucher)
    requires Reachable(c, s) && own in s.log
    ensures exists n :: 0 <= n < |s.log| && s.log[n] == own
                        && forall m :: 0 <= m < |s.log| && s.log[m].cae == own.cae ==> m == n
  {
    ReachableInv(c, s);
    var n :| 0 <= n < |s.log| && s.log[n] == own;
    assert forall m :: 0 <= m < |s.log| && s.log[m].cae == own.cae ==> m == n;
  }

  // ----- consultations -------------------------------------------------------------------------------

  /** An honest answer that is not a refusal is the one a reconciler's step is trusted for. */
  lemma HonestConsultationIsTrusted(c: Config, s: State, w: WorkerId, errors: Option<seq<Wsfe.RawEntry>>,
                                    resultGet: Option<Option<string>>)
    requires CanQuery(s, w) && !Wsfe.ConsultOutcome(errors, resultGet).Refused?
    ensures var held := Consult(s.log, s.store.attempts[s.workers[w].stage.attempt].coord);
            Wsfe.HonestConsultation(errors, resultGet, held)
            <==> Trusted(c, s, Query(w, Wsfe.ConsultOutcome(errors, resultGet)))
  {
    var held := Consult(s.log, s.store.attempts[s.workers[w].stage.attempt].coord);
    Wsfe.ConsultationTrueIffHonest(errors, resultGet, held);
  }
}

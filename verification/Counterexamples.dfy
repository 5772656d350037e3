/**
 The assumptions the protocol makes about workers, users and time are each needed: a run in which only
 that one is broken, and what is lost at its end.  ARCA takes nothing but the next number in all of them.
 */
module Counterexamples {
  import opened Base
  import opened Ledger
  import opened Protocol
  import opened Moves
  import Wsfe

  /** A voucher at ARCA that no open or authorized attempt accounts for. */
  ghost predicate LostVoucher(s: State) {
    exists v :: v in s.log && !(v.attempt in s.store.attempts && s.store.attempts[v.attempt].Live())
  }

  /** An authorized invoice whose CAE belongs to the only voucher of its number, created for another. */
  ghost predicate WrongVoucher(s: State) {
    exists i, v :: i in s.store.invoices && s.store.invoices[i].arca.Authorized? && s.log == [v]
      && s.store.invoices[i].coord == v.coord && s.store.invoices[i].cae == Some(v.cae)
      && v.attempt in s.store.attempts && s.store.attempts[v.attempt].invoice != i
  }

  ghost predicate EndsIn(lapse: Lapse, run: seq<State>, s: State) {
    Run(Plain, lapse, run) && run[0] == Initial && Top(run) == s && GapFree(Plain.base, s.log)
  }

  const Sales := Sequence(30, 1, 6)
  const Other := Sequence(30, 2, 6)
  const First := Coordinate(Sales, 1)
  const Plain := Config((q: Sequence) => q.pos, (q: Sequence) => 0)

  function FirstInvoice(arca: ArcaState): Invoice { Invoice(7, true, First, arca, None) }

  function FirstAttempt(invoice: InvoiceId, state: AttemptState): Attempt { Attempt(invoice, 7, First, state, 0, None) }

  /** What a worker sees of an attempt it has just recorded. */
  function FirstSeen(invoice: InvoiceId): Seen { Seen(FirstAttempt(invoice, Sent), FirstInvoice(Processing)) }

  lemma GapFreeOne(v: Voucher)
    requires v.coord == First
    ensures GapFree(Plain.base, [v])
  {
    assert [v][..0] == [];
  }

  /** A worker takes the lock of `view` and passes every check. */
  lemma TakeNumber(lapse: Lapse, run: seq<State>, w: WorkerId, i: InvoiceId, view: Sequence)
    returns (run': seq<State>)
    requires Run(Plain, lapse, run) && Fresh(lapse, Top(run))
    requires !At(Top(run), w) && i in Top(run).store.invoices && view.pos !in Top(run).locks
    requires Top(run).store.invoices[i] == FirstInvoice(ArcaState.Pending) && Top(run).log == []
    requires view == Sales || lapse.StaleView?
    ensures Run(Plain, lapse, run') && run <= run' && Fresh(lapse, Top(run'))
    ensures Top(run') == Acquire(Top(run), w, view.pos, Numbered(i, FirstInvoice(ArcaState.Pending)))
  {
    run' := TakeLock(Plain, lapse, run, w, i, view);
    run' := ReadReady(Plain, lapse, run', w);
    run' := NumberNext(Plain, lapse, run', w);
    assert Top(run').workers == Top(run).workers[w := Worker(view.pos, Numbered(i, FirstInvoice(ArcaState.Pending)))];
  }

  function Sending(s: State, w: WorkerId, i: InvoiceId, view: Sequence, a: AttemptId): State {
    s.(store := Store(s.store.invoices[i := FirstInvoice(Processing)], s.store.attempts[a := FirstAttempt(i, Sent)]),
       wire := s.wire + {a},
       workers := s.workers[w := Worker(view.pos, Waiting(a, FirstSeen(i)))],
       locks := s.locks[view.pos := w])
  }

  /** ... then records attempt `a` ... */
  lemma RecordRequest(lapse: Lapse, run: seq<State>, w: WorkerId, i: InvoiceId, view: Sequence, a: AttemptId)
    returns (run': seq<State>)
    requires Run(Plain, lapse, run) && Fresh(lapse, Top(run))
    requires At(Top(run), w) && Top(run).workers[w] == Worker(view.pos, Numbered(i, FirstInvoice(ArcaState.Pending)))
    requires i in Top(run).store.invoices && Top(run).store.invoices[i] == FirstInvoice(ArcaState.Pending)
    requires Top(run).now == 0 && a !in Top(run).store.attempts && a !in Top(run).wire
    ensures Run(Plain, lapse, run') && run <= run' && Fresh(lapse, Top(run'))
    ensures Top(run') == Recorded(Top(run), w, i, view, a)
  {
    run' := StageAttempt(Plain, lapse, run, w);
    run' := PersistAttempt(Plain, lapse, run', w, a);
    assert Top(run').workers == Recorded(Top(run), w, i, view, a).workers;
  }

  function Recorded(s: State, w: WorkerId, i: InvoiceId, view: Sequence, a: AttemptId): State {
    s.(store := Store(s.store.invoices[i := FirstInvoice(Processing)], s.store.attempts[a := FirstAttempt(i, Sent)]),
       workers := s.workers[w := Worker(view.pos, Armed(a))])
  }

  /** ... and sends it. */
  lemma SendRecorded(lapse: Lapse, run: seq<State>, w: WorkerId, i: InvoiceId, view: Sequence, a: AttemptId)
    returns (run': seq<State>)
    requires Run(Plain, lapse, run) && Fresh(lapse, Top(run))
    requires At(Top(run), w) && Top(run).workers[w] == Worker(view.pos, Armed(a))
    requires a in Top(run).store.attempts && Top(run).store.attempts[a] == FirstAttempt(i, Sent)
    requires i in Top(run).store.invoices && Top(run).store.invoices[i] == FirstInvoice(Processing)
    ensures Run(Plain, lapse, run') && run <= run' && Fresh(lapse, Top(run'))
    ensures Top(run') == Top(run).(wire := Top(run).wire + {a},
                                   workers := Top(run).workers[w := Worker(view.pos, Waiting(a, FirstSeen(i)))])
  {
    run' := OpenCall(Plain, lapse, run, w);
    run' := SendOff(Plain, lapse, run', w);
    assert Top(run').workers == Top(run).workers[w := Worker(view.pos, Waiting(a, FirstSeen(i)))];
  }

  lemma SendRequest(lapse: Lapse, run: seq<State>, w: WorkerId, i: InvoiceId, view: Sequence, a: AttemptId)
    returns (run': seq<State>)
    requires Run(Plain, lapse, run) && Fresh(lapse, Top(run))
    requires !At(Top(run), w) && i in Top(run).store.invoices && view.pos !in Top(run).locks
    requires Top(run).store.invoices[i] == FirstInvoice(ArcaState.Pending) && Top(run).log == [] && Top(run).now == 0
    requires view == Sales || lapse.StaleView?
    requires a !in Top(run).store.attempts && a !in Top(run).wire
    ensures Run(Plain, lapse, run') && run <= run' && Fresh(lapse, Top(run'))
    ensures Top(run') == Sending(Top(run), w, i, view, a)
  {
    run' := TakeNumber(lapse, run, w, i, view);
    run' := RecordRequest(lapse, run', w, i, view, a);
    run' := SendRecorded(lapse, run', w, i, view, a);
    assert Top(run').workers == Sending(Top(run), w, i, view, a).workers;
  }

  function Waits(view: Sequence): State {
    State(Store(map[0 := FirstInvoice(Processing)], map[0 := FirstAttempt(0, Sent)]),
          map[0 := Worker(view.pos, Waiting(0, FirstSeen(0)))], map[view.pos := 0], {0}, [], 0)
  }

  /** Invoice 0, numbered 1, has been sent by worker 0, which now waits. */
  lemma FirstRequest(lapse: Lapse, view: Sequence) returns (run: seq<State>)
    requires view == Sales || (view == Other && lapse.StaleView?)
    ensures Run(Plain, lapse, run) && run[0] == Initial && Top(run) == Waits(view) && Fresh(lapse, Top(run))
  {
    run := [Initial];
    run := CreatePosted(Plain, lapse, run, 0, 7, First);
    run := SendRequest(lapse, run, 0, 0, view, 0);
    assert Top(run).workers == map[0 := Worker(view.pos, Waiting(0, FirstSeen(0)))];
  }

  /** The cron reconciles an attempt for which ARCA has nothing, its lock being free. */
  lemma RecoverAbsent(lapse: Lapse, run: seq<State>, w: WorkerId, a: AttemptId) returns (run': seq<State>)
    requires Run(Plain, lapse, run) && Fresh(lapse, Top(run))
    requires CanBeginRecovery(Plain, Top(run), w, a) && HasAttempt(Top(run).store, a)
    requires Top(run).store.attempts[a].Open() && Top(run).log == []
    ensures Run(Plain, lapse, run') && run <= run' && Fresh(lapse, Top(run'))
    ensures Top(run').store == WriteReconciliation(Top(run).store, a, Wsfe.NotFound)
    ensures Top(run').wire == Top(run).wire && Top(run').log == [] && Top(run').now == Top(run).now
  {
    run' := TakeRecoveryLock(Plain, lapse, run, w, a);
    run' := AskArca(Plain, lapse, run', w);
    run' := RecordRecovery(Plain, lapse, run', w);
  }

  /** ARCA creates the first voucher for an attempt already given up. */
  lemma LateVoucher(lapse: Lapse, run: seq<State>) returns (run': seq<State>)
    requires Run(Plain, lapse, run) && run[0] == Initial && Fresh(lapse, Top(run))
    requires 0 in Top(run).wire && Top(run).log == []
    requires 0 in Top(run).store.attempts && Top(run).store.attempts[0] == FirstAttempt(0, Aborted)
    ensures run <= run' && EndsIn(lapse, run', Top(run')) && LostVoucher(Top(run'))
  {
    run' := Process(Plain, lapse, run, 0, Accept("70"));
    var v := Voucher(First, "70", 0);
    assert Top(run').log == [v];
    assert v in Top(run').log;
    GapFreeOne(v);
  }

  /** A call that timed out while ARCA was still working on it: reconciled as absent, then created. */
  lemma EarlyTimeoutLosesAVoucher()
    ensures exists run, s :: EndsIn(EarlyTimeout, run, s) && LostVoucher(s)
  {
    var run := FirstRequest(EarlyTimeout, Sales);
    run := Conclude(Plain, EarlyTimeout, run, 0, Wsfe.Raised(Wsfe.ReadTimeout));
    run := RecordOutcome(Plain, EarlyTimeout, run, 0);
    run := Exit(Plain, EarlyTimeout, run, 0);
    run := RecoverAbsent(EarlyTimeout, run, 1, 0);
    run := LateVoucher(EarlyTimeout, run);
  }

  /** A crash, and a request that reaches ARCA after its attempt was reconciled as stale. */
  lemma SlowRequestLosesAVoucher()
    ensures exists run, s :: EndsIn(SlowRequest, run, s) && LostVoucher(s)
  {
    var run := FirstRequest(SlowRequest, Sales);
    run := Exit(Plain, SlowRequest, run, 0);
    run := Wait(Plain, SlowRequest, run, STALE_ATTEMPT_MINUTES + 1);
    run := RecoverAbsent(SlowRequest, run, 1, 0);
    run := LateVoucher(SlowRequest, run);
  }

  /** The reconcile button, pressed while the request is on its way. */
  lemma ButtonInFlightLosesAVoucher()
    ensures exists run, s :: EndsIn(ButtonInFlight, run, s) && LostVoucher(s)
  {
    var run := FirstRequest(ButtonInFlight, Sales);
    run := PressButton(Plain, ButtonInFlight, run, 0);
    run := LateVoucher(ButtonInFlight, run);
  }

  /** Invoice 1 takes the number of a request that is still alive: ARCA answers one, both are asked about. */
  lemma SecondInvoiceIsMisled(lapse: Lapse, run: seq<State>) returns (run': seq<State>)
    requires Run(Plain, lapse, run) && run[0] == Initial && Fresh(lapse, Top(run)) && lapse != EarlyTimeout
    requires Top(run).wire == {0} && Top(run).log == [] && Top(run).now == 0
    requires Top(run).workers == map[] && Top(run).locks == map[]
    requires Top(run).store.attempts == map[0 := FirstAttempt(0, Sent)]
    requires Top(run).store.invoices.Keys == {0, 1} && Top(run).store.invoices[1] == FirstInvoice(ArcaState.Pending)
    ensures run <= run' && EndsIn(lapse, run', Top(run')) && WrongVoucher(Top(run'))
  {
    run' := SendRequest(lapse, run, 1, 1, Sales, 1);
    run' := Process(Plain, lapse, run', 0, Accept("70"));
    run' := Process(Plain, lapse, run', 1, Die);
    run' := LoseAnswer(lapse, run');
    run' := RecoverPresent(lapse, run');
    GapFreeOne(Voucher(First, "70", 0));
  }

  /** Worker 1's call times out after its request died. */
  lemma LoseAnswer(lapse: Lapse, run: seq<State>) returns (run': seq<State>)
    requires Run(Plain, lapse, run) && Top(run).wire == {}
    requires Top(run).workers == map[1 := Worker(1, Waiting(1, FirstSeen(1)))] && Top(run).locks == map[1 := 1]
    requires 1 in Top(run).store.attempts && Top(run).store.attempts[1] == FirstAttempt(1, Sent)
    requires 1 in Top(run).store.invoices && Top(run).store.invoices[1] == FirstInvoice(Processing)
    ensures Run(Plain, lapse, run') && run <= run'
    ensures Top(run').store == WriteOutcome(Top(run).store, 1, Wsfe.Uncertain)
    ensures Top(run').wire == {} && Top(run').log == Top(run).log && Top(run').now == Top(run).now
    ensures Top(run').workers == map[] && Top(run').locks == map[]
  {
    run' := Conclude(Plain, lapse, run, 1, Wsfe.Raised(Wsfe.ReadTimeout));
    run' := RecordOutcome(Plain, lapse, run', 1);
    run' := Exit(Plain, lapse, run', 1);
  }

  /** The cron asks ARCA about attempt 1 ... */
  lemma AskAboutSecond(lapse: Lapse, run: seq<State>) returns (run': seq<State>)
    requires Run(Plain, lapse, run) && Top(run).wire == {}
    requires Top(run).workers == map[] && Top(run).locks == map[]
    requires HasAttempt(Top(run).store, 1) && Top(run).store.attempts[1] == FirstAttempt(1, AttemptState.Uncertain)
    requires Top(run).log == [Voucher(First, "70", 0)]
    ensures Run(Plain, lapse, run') && run <= run' && Fresh(lapse, Top(run'))
    ensures Top(run').store == Top(run).store && Top(run').log == Top(run).log && Top(run').now == Top(run).now
    ensures Top(run').workers == map[1 := Worker(1, Consulted(1, SeenAt(Top(run).store, 1), Wsfe.Found(Some("70"))))]
  {
    run' := TakeRecoveryLock(Plain, lapse, run, 1, 1);
    run' := AskArca(Plain, lapse, run', 1);
  }

  /** ... and is shown the voucher of attempt 0. */
  lemma RecoverPresent(lapse: Lapse, run: seq<State>) returns (run': seq<State>)
    requires Run(Plain, lapse, run) && Top(run).wire == {}
    requires Top(run).workers == map[] && Top(run).locks == map[]
    requires Top(run).store.attempts == map[0 := FirstAttempt(0, Sent), 1 := FirstAttempt(1, AttemptState.Uncertain)]
    requires 1 in Top(run).store.invoices && Top(run).store.invoices[1].coord == First
    requires Top(run).log == [Voucher(First, "70", 0)]
    ensures Run(Plain, lapse, run') && run <= run' && WrongVoucher(Top(run'))
    ensures Top(run').log == Top(run).log
  {
    run' := AskAboutSecond(lapse, run);
    run' := RecordRecovery(Plain, lapse, run', 1);
    assert Top(run').store.invoices[1].cae == Some("70");
  }

  /** `button_draft` lets a processing invoice be reopened; renumbered, it frees a number in use. */
  lemma LateRenumberingMisleads()
    ensures exists run, s :: EndsIn(LateRenumbering, run, s) && WrongVoucher(s)
  {
    var run := FirstRequest(LateRenumbering, Sales);
    run := Exit(Plain, LateRenumbering, run, 0);
    run := SetToDraft(Plain, LateRenumbering, run, 0);
    run := RenumberLate(Plain, run, 0, Coordinate(Sales, 2));
    run := CreatePosted(Plain, LateRenumbering, run, 1, 7, First);
    run := SecondInvoiceIsMisled(LateRenumbering, run);
  }

  /** Two invoices posted under one number. */
  lemma DuplicateNumberMisleads()
    ensures exists run, s :: EndsIn(DuplicateNumber, run, s) && WrongVoucher(s)
  {
    var run := FirstRequest(DuplicateNumber, Sales);
    run := Exit(Plain, DuplicateNumber, run, 0);
    run := CreatePosted(Plain, DuplicateNumber, run, 1, 7, First);
    run := SecondInvoiceIsMisled(DuplicateNumber, run);
  }

  /** A lock key computed from an older version of the invoice leaves its sequence unguarded: while the
      worker waits on a long call, the reconciler finds the lock free, settles the attempt as absent, and
      then the request lands. */
  lemma StaleViewLosesAVoucher()
    ensures exists run, s :: EndsIn(StaleView, run, s) && LostVoucher(s)
  {
    var run := FirstRequest(StaleView, Other);
    assert 0 in Top(run).workers && Top(run).workers[0].stage.Waiting?;
    run := Wait(Plain, StaleView, run, STALE_ATTEMPT_MINUTES + 1);
    run := RecoverAbsent(StaleView, run, 1, 0);
    run := LateVoucher(StaleView, run);
  }

  // ----- an outcome that cannot be recorded -----------------------------------------------------

  /** ARCA has authorized, its worker knows, and the record is refused: the attempt is still `sent`. */
  ghost predicate Unrecorded(s: State, w: WorkerId, a: AttemptId) {
    && At(s, w) && s.workers[w].stage.Resolved? && s.workers[w].stage.attempt == a
    && s.workers[w].stage.outcome.Authorized? && !CanCommitOutcome(s, w)
    && a in s.store.attempts && s.store.attempts[a].state.Sent? && Landed(s.log, a)
  }

  const Approved := Wsfe.Answered(Some(Wsfe.Response(None, Some([Wsfe.Detail(Some("A"), Some("70"), None)]))))

  /** With nothing untrusted happening at all, a user who sets the invoice to draft during the call keeps
      its outcome from being recorded. */
  lemma DraftDuringTheCallStopsTheRecord()
    ensures exists run, s :: EndsIn(NoLapse, run, s) && Unrecorded(s, 0, 0)
  {
    var run := FirstRequest(NoLapse, Sales);
    run := SetToDraft(Plain, NoLapse, run, 0);
    run := Process(Plain, NoLapse, run, 0, Accept("70"));
    var v := Voucher(First, "70", 0);
    assert Top(run).log == [v];
    assert v in Top(run).log;
    assert Wsfe.OutcomeOf(Approved) == Wsfe.Authorized(Some("70")) by {
      assert Wsfe.Entries(None) == [];
    }
    run := Conclude(Plain, NoLapse, run, 0, Approved);
    GapFreeOne(v);
    assert Unrecorded(Top(run), 0, 0);
    assert EndsIn(NoLapse, run, Top(run));
  }
}

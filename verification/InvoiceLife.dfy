/**
 What an invoice shows of its request: the state each outcome and each reconciliation leaves it in, and
 that none of them leaves it where nobody can go on.
 */
module InvoiceLife {
  import opened Base
  import opened Ledger
  import opened Protocol
  import opened ProtocolTheorems
  import Wsfe

  /** Nothing but the state and the CAE of the two rows differs. */
  predicate SameButState(before: Seen, after: Seen) {
    && after.attempt == before.attempt.(state := after.attempt.state, cae := after.attempt.cae)
    && after.invoice == before.invoice.(arca := after.invoice.arca, cae := after.invoice.cae)
  }

  predicate SameCae(before: Seen, after: Seen) {
    after.attempt.cae == before.attempt.cae && after.invoice.cae == before.invoice.cae
  }

  /** How an attempt and its invoice read once an outcome is recorded: after a refusal or an abort the invoice
      is rejected, and so may be requested again; an unknown end shows on both. */
  predicate Shows(before: Seen, outcome: Wsfe.Outcome, after: Seen) {
    && SameButState(before, after)
    && (outcome.Authorized? ==>
          after.attempt.state == AttemptState.Authorized && after.invoice.arca == ArcaState.Authorized
          && after.attempt.cae == after.invoice.cae == outcome.cae)
    && (!outcome.Authorized? ==> SameCae(before, after))
    && (outcome.Rejected? ==>
          after.attempt.state == AttemptState.Rejected && after.invoice.arca == ArcaState.Rejected)
    && (outcome.Aborted? ==> after.attempt.state == AttemptState.Aborted && after.invoice.arca == ArcaState.Rejected)
    && (outcome.Uncertain? ==>
          after.attempt.state == AttemptState.Uncertain && after.invoice.arca == ArcaState.Uncertain)
  }

  /** No row but the attempt's own and its invoice's differs. */
  predicate OthersKept(before: Store, after: Store, a: AttemptId)
    requires HasAttempt(before, a)
  {
    && after.attempts.Keys == before.attempts.Keys && after.invoices.Keys == before.invoices.Keys
    && (forall b | b in before.attempts && b != a :: after.attempts[b] == before.attempts[b])
    && (forall i | i in before.invoices && i != before.attempts[a].invoice :: after.invoices[i] == before.invoices[i])
  }

  /** Recording an outcome, from the two rows and the rest of the store. */
  lemma OutcomeShows(store: Store, a: AttemptId, outcome: Wsfe.Outcome)
    requires HasAttempt(store, a)
    ensures var after := WriteOutcome(store, a, outcome);
            OthersKept(store, after, a) && HasAttempt(after, a)
            && Shows(SeenAt(store, a), outcome, SeenAt(after, a))
  {
  }

  /** Recording a consultation: a voucher found is an authorization, one not found leaves the attempt aborted
      and the invoice pending. */
  lemma ReconciliationShows(store: Store, a: AttemptId, answer: Wsfe.Consultation)
    requires HasAttempt(store, a) && !answer.Refused?
    ensures var after := WriteReconciliation(store, a, answer);
            OthersKept(store, after, a) && HasAttempt(after, a)
    ensures var before, after := SeenAt(store, a), SeenAt(WriteReconciliation(store, a, answer), a);
            && SameButState(before, after)
            && (answer.Found? ==> Shows(before, Wsfe.Authorized(answer.cae), after))
            && (answer.NotFound? ==>
                  after.attempt.state == AttemptState.Aborted && after.invoice.arca == ArcaState.Pending
                  && SameCae(before, after))
  {
  }

  /** What a user's step makes of an invoice: posting makes a new one pending and leaves the state of any other,
      drafting and renumbering leave every state. */
  predicate TouchedBy(e: Event, i: InvoiceId, before: Invoice, after: Invoice) {
    if e == Post(i) then
      after == before.(posted := true, arca := if before.arca == ArcaState.NotRequired then ArcaState.Pending
                                               else before.arca)
    else if e == ButtonDraft(i) then after == before.(posted := false)
    else if e.Renumber? && e.invoice == i then after == before.(coord := e.coord)
    else after == before
  }

  /** Users change no CAE, no attempt, no other invoice and nothing outside the store; a new invoice is a draft
      that nothing has been asked about. */
  lemma UsersSpareTheOutcome(c: Config, s: State, e: Event)
    requires Enabled(c, s, e) && (e.NewInvoice? || e.Post? || e.ButtonDraft? || e.Renumber?)
    ensures var s' := Apply(c, s, e);
            && s' == s.(store := s'.store) && s'.store.attempts == s.store.attempts
            && s'.store.invoices.Keys == s.store.invoices.Keys + {e.invoice}
            && (forall i :: i in s.store.invoices ==>
                  TouchedBy(e, i, s.store.invoices[i], s'.store.invoices[i]))
            && (e.NewInvoice? ==>
                  s'.store.invoices[e.invoice] == Invoice(e.company, false, e.coord, ArcaState.NotRequired, None))
  {
  }

  // ----- over runs -------------------------------------------------------------------------------

  ghost predicate PostedAreRegistered(store: Store) {
    forall i :: i in store.invoices && store.invoices[i].posted ==> !store.invoices[i].arca.NotRequired?
  }

  lemma StepKeepsRegistered(c: Config, s: State, e: Event)
    requires Enabled(c, s, e) && PostedAreRegistered(s.store)
    ensures PostedAreRegistered(Apply(c, s, e).store)
  {
    match e
    case _ =>
  }

  lemma {:induction false} RunKeepsRegistered(c: Config, lapse: Lapse, run: seq<State>, k: nat)
    requires Run(c, lapse, run) && run[0] == Initial && k < |run|
    ensures PostedAreRegistered(run[k].store)
  {
    if k > 0 {
      RunKeepsRegistered(c, lapse, run, k - 1);
      assert StepAt(c, lapse, run, k);
      var e :| LawfulStep(c, lapse, run[k - 1], e) && run[k] == Apply(c, run[k - 1], e);
      StepKeepsRegistered(c, run[k - 1], e);
    }
  }

  /** The partial unique index: no company has two authorized attempts for one coordinate. */
  ghost predicate IndexHolds(attempts: map<AttemptId, Attempt>) {
    forall a, b :: a in attempts && b in attempts && attempts[a].state.Authorized? && attempts[b].state.Authorized?
      && attempts[a].company == attempts[b].company && attempts[a].coord == attempts[b].coord
      ==> a == b
  }

  lemma SettlingKeepsIndex(store: Store, a: AttemptId, outcome: Wsfe.Outcome, answer: Wsfe.Consultation)
    requires HasAttempt(store, a) && !answer.Refused? && IndexHolds(store.attempts)
    ensures (outcome.Authorized? ==> IndexFree(store.attempts, a)) ==>
              IndexHolds(WriteOutcome(store, a, outcome).attempts)
    ensures (answer.Found? ==> IndexFree(store.attempts, a)) ==>
              IndexHolds(WriteReconciliation(store, a, answer).attempts)
  {
  }

  lemma NewAttemptKeepsIndex(attempts: map<AttemptId, Attempt>, a: AttemptId, row: Attempt)
    requires IndexHolds(attempts) && !row.state.Authorized?
    ensures IndexHolds(attempts[a := row])
  {
  }

  lemma CommitKeepsIndex(c: Config, s: State, e: Event)
    requires Enabled(c, s, e) && (e.CommitOutcome? || e.CommitRecovery?) && IndexHolds(s.store.attempts)
    ensures IndexHolds(Apply(c, s, e).store.attempts)
  {
    var stage := s.workers[e.worker].stage;
    if e.CommitOutcome? {
      SettlingKeepsIndex(s.store, stage.attempt, stage.outcome, Wsfe.NotFound);
    } else {
      SettlingKeepsIndex(s.store, stage.attempt, Wsfe.Uncertain, stage.answer);
    }
  }

  lemma StepKeepsIndex(c: Config, s: State, e: Event)
    requires Enabled(c, s, e) && IndexHolds(s.store.attempts)
    ensures IndexHolds(Apply(c, s, e).store.attempts)
  {
    if e.CommitAttempt? {
      NewAttemptKeepsIndex(s.store.attempts, e.attempt, AttemptFrom(s.workers[e.worker].stage));
    } else if e.CommitOutcome? || e.CommitRecovery? {
      CommitKeepsIndex(c, s, e);
    } else if e.ReconcileButton? {
      var answer := AnswerOf(Consult(s.log, s.store.attempts[e.attempt].coord));
      SettlingKeepsIndex(s.store, e.attempt, Wsfe.Uncertain, answer);
    } else {
      OtherStepsKeepAttempts(c, s, e);
    }
  }

  /** Over any run at all, whatever ARCA and users do. */
  lemma {:induction false} RunKeepsIndex(c: Config, lapse: Lapse, run: seq<State>, k: nat)
    requires Run(c, lapse, run) && run[0] == Initial && k < |run|
    ensures IndexHolds(run[k].store.attempts)
  {
    if k > 0 {
      RunKeepsIndex(c, lapse, run, k - 1);
      assert StepAt(c, lapse, run, k);
      var e :| LawfulStep(c, lapse, run[k - 1], e) && run[k] == Apply(c, run[k - 1], e);
      StepKeepsIndex(c, run[k - 1], e);
    }
  }

  /** No posted invoice is ever stuck: it can be requested, or it is authorized, or it has the one open attempt
      that the reconciler will settle; and it is in one of these cases only. */
  lemma NoInvoiceIsStuck(c: Config, lapse: Lapse, s: State, i: InvoiceId)
    requires NumbersOnly(lapse) && Reached(c, lapse, s) && PostedInvoice(s.store, i)
    ensures var arca := s.store.invoices[i].arca;
            var open := exists a :: a in s.store.attempts && s.store.attempts[a].invoice == i
                                    && s.store.attempts[a].Open();
            && (arca == ArcaState.Pending || arca == ArcaState.Rejected || arca == ArcaState.Authorized || open)
            && (open ==> !Ready(s.store.invoices[i]) && arca != ArcaState.Authorized)
            && (Ready(s.store.invoices[i]) <==> arca == ArcaState.Pending || arca == ArcaState.Rejected)
  {
    var run :| RunTo(c, lapse, run, s);
    RunKeepsRegistered(c, lapse, run, |run| - 1);
    OpenAttemptIffProcessingOrUncertain(c, lapse, s, i);
  }
}

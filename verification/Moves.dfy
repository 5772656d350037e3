/**
 One lemma per event: when it may extend a run, and the state it leads to.  The code that acts in
 order (Workflow.dfy) and the runs that go wrong (Counterexamples.dfy) are both made of these.
 */
module Moves {
  import opened Base
  import opened Ledger
  import opened Protocol
  import Wsfe

  lemma Extend(c: Config, lapse: Lapse, run: seq<State>, e: Event)
    requires Run(c, lapse, run) && LawfulStep(c, lapse, Top(run), e)
    ensures Run(c, lapse, run + [Apply(c, Top(run), e)])
  {
    var run' := run + [Apply(c, Top(run), e)];
    forall k | 0 < k < |run'|
      ensures StepAt(c, lapse, run', k)
    {
      if k < |run| {
        assert StepAt(c, lapse, run, k);
      } else {
        assert Next(c, lapse, run'[k - 1], run'[k]);
      }
    }
  }

  /** Where one worker at most moves and nothing new is sent, requests stay fresh. */
  lemma StaysFresh(s: State, s': State, w: WorkerId)
    requires WireFresh(s) && s'.wire <= s.wire && s'.now == s.now
    requires forall a :: a in s'.wire && a in s'.store.attempts ==>
               a in s.store.attempts && s'.store.attempts[a].sentAt == s.store.attempts[a].sentAt
    requires forall other :: other in s.workers && other != w ==>
               other in s'.workers && s'.workers[other] == s.workers[other]
    requires At(s, w) && s.workers[w].stage.Waiting? ==>
               var a := s.workers[w].stage.attempt;
               a !in s'.wire || (a in s.store.attempts && !Stale(s.store.attempts[a], s.now))
    ensures WireFresh(s')
  {
    forall a | a in s'.wire && a in s'.store.attempts && !Attended(s'.workers, a)
      ensures !Stale(s'.store.attempts[a], s'.now)
    {
      if Attended(s.workers, a) {
        var other :| other in s.workers && s.workers[other].stage.Waiting? && s.workers[other].stage.attempt == a;
      }
    }
  }

  /** A worker that is not waiting has moved. */
  lemma FreshMove(lapse: Lapse, s: State, s': State, w: WorkerId)
    requires Fresh(lapse, s) && s'.wire == s.wire && s'.now == s.now
    requires forall a :: a in s'.wire && a in s'.store.attempts ==>
               a in s.store.attempts && s'.store.attempts[a].sentAt == s.store.attempts[a].sentAt
    requires forall other :: other in s.workers && other != w ==>
               other in s'.workers && s'.workers[other] == s.workers[other]
    requires At(s, w) ==> !s.workers[w].stage.Waiting?
    ensures Fresh(lapse, s')
  {
    if WireFresh(s) {
      StaysFresh(s, s', w);
    }
  }

  lemma CreatePosted(c: Config, lapse: Lapse, run: seq<State>, i: InvoiceId, company: nat, coord: Coordinate)
    returns (run': seq<State>)
    requires Run(c, lapse, run) && Fresh(lapse, Top(run)) && i !in Top(run).store.invoices
    requires lapse.DuplicateNumber?
             || forall j :: j in Top(run).store.invoices && Claims(Top(run).store.invoices[j])
                  ==> Top(run).store.invoices[j].coord != coord
    ensures Run(c, lapse, run') && run <= run' && Fresh(lapse, Top(run'))
    ensures var s := Top(run);
            Top(run') == s.(store := SetInvoice(s.store, i, Invoice(company, true, coord, ArcaState.Pending, None)))
  {
    var s := Top(run);
    var drafted := s.(store := SetInvoice(s.store, i, Invoice(company, false, coord, ArcaState.NotRequired, None)));
    assert Apply(c, s, NewInvoice(i, company, coord)) == drafted;
    Extend(c, lapse, run, NewInvoice(i, company, coord));
    var posted := Posted(drafted.store.invoices[i]);
    assert Apply(c, drafted, Post(i)) == drafted.(store := SetInvoice(drafted.store, i, posted));
    Extend(c, lapse, run + [drafted], Post(i));
    run' := run + [drafted] + [Apply(c, drafted, Post(i))];
    assert drafted.store.invoices[i := posted] == s.store.invoices[i := posted];
  }

  lemma TakeLock(c: Config, lapse: Lapse, run: seq<State>, w: WorkerId, i: InvoiceId, view: Sequence)
    returns (run': seq<State>)
    requires Run(c, lapse, run) && Fresh(lapse, Top(run))
    requires !At(Top(run), w) && i in Top(run).store.invoices && c.key(view) !in Top(run).locks
    ensures Run(c, lapse, run') && run <= run' && Fresh(lapse, Top(run'))
    ensures Top(run') == Acquire(Top(run), w, c.key(view), Locked(i))
  {
    var e := Begin(w, i, view);
    assert Enabled(c, Top(run), e);
    FreshMove(lapse, Top(run), Apply(c, Top(run), e), w);
    Extend(c, lapse, run, e);
    run' := run + [Apply(c, Top(run), e)];
  }

  lemma ReadReady(c: Config, lapse: Lapse, run: seq<State>, w: WorkerId) returns (run': seq<State>)
    requires Run(c, lapse, run) && Fresh(lapse, Top(run))
    requires Reads(Top(run), w)
    requires var worker := Top(run).workers[w];
             worker.key == c.key(Top(run).store.invoices[worker.stage.invoice].coord.sequence) || lapse.StaleView?
    ensures Run(c, lapse, run') && run <= run' && Fresh(lapse, Top(run'))
    ensures var i := Top(run).workers[w].stage.invoice;
            Top(run') == Goto(Top(run), w, Checked(i, Top(run).store.invoices[i]))
  {
    FreshMove(lapse, Top(run), Apply(c, Top(run), CheckReady(w)), w);
    Extend(c, lapse, run, CheckReady(w));
    run' := run + [Apply(c, Top(run), CheckReady(w))];
  }

  lemma NumberNext(c: Config, lapse: Lapse, run: seq<State>, w: WorkerId) returns (run': seq<State>)
    requires Run(c, lapse, run) && Fresh(lapse, Top(run))
    requires NumberFits(c, Top(run), w)
    ensures Run(c, lapse, run') && run <= run' && Fresh(lapse, Top(run'))
    ensures var stage := Top(run).workers[w].stage;
            Top(run') == Goto(Top(run), w, Numbered(stage.invoice, stage.row))
  {
    FreshMove(lapse, Top(run), Apply(c, Top(run), CheckSequence(w)), w);
    Extend(c, lapse, run, CheckSequence(w));
    run' := run + [Apply(c, Top(run), CheckSequence(w))];
  }

  lemma StageAttempt(c: Config, lapse: Lapse, run: seq<State>, w: WorkerId) returns (run': seq<State>)
    requires Run(c, lapse, run) && Fresh(lapse, Top(run))
    requires At(Top(run), w) && Top(run).workers[w].stage.Numbered?
    ensures Run(c, lapse, run') && run <= run' && Fresh(lapse, Top(run'))
    ensures var stage := Top(run).workers[w].stage;
            Top(run') == Goto(Top(run), w, Staged(stage.invoice, stage.row, Top(run).now))
  {
    FreshMove(lapse, Top(run), Apply(c, Top(run), CreateAttempt(w)), w);
    Extend(c, lapse, run, CreateAttempt(w));
    run' := run + [Apply(c, Top(run), CreateAttempt(w))];
  }

  lemma PersistAttempt(c: Config, lapse: Lapse, run: seq<State>, w: WorkerId, a: AttemptId) returns (run': seq<State>)
    requires Run(c, lapse, run) && Fresh(lapse, Top(run))
    requires CanCommitAttempt(Top(run), w, a) && a !in Top(run).wire
    ensures Run(c, lapse, run') && run <= run' && Fresh(lapse, Top(run'))
    ensures Top(run') == DoCommitAttempt(Top(run), w, a)
  {
    FreshMove(lapse, Top(run), Apply(c, Top(run), CommitAttempt(w, a)), w);
    Extend(c, lapse, run, CommitAttempt(w, a));
    run' := run + [Apply(c, Top(run), CommitAttempt(w, a))];
  }

  lemma OpenCall(c: Config, lapse: Lapse, run: seq<State>, w: WorkerId) returns (run': seq<State>)
    requires Run(c, lapse, run) && Fresh(lapse, Top(run))
    requires At(Top(run), w) && Top(run).workers[w].stage.Armed?
    requires HasAttempt(Top(run).store, Top(run).workers[w].stage.attempt)
    ensures Run(c, lapse, run') && run <= run' && Fresh(lapse, Top(run'))
    ensures Top(run') == DoBeginCall(Top(run), w)
  {
    FreshMove(lapse, Top(run), DoBeginCall(Top(run), w), w);
    Extend(c, lapse, run, BeginCall(w));
    run' := run + [Apply(c, Top(run), BeginCall(w))];
  }

  lemma SendOff(c: Config, lapse: Lapse, run: seq<State>, w: WorkerId) returns (run': seq<State>)
    requires Run(c, lapse, run) && Fresh(lapse, Top(run))
    requires At(Top(run), w) && Top(run).workers[w].stage.Opened?
    ensures Run(c, lapse, run') && run <= run' && Fresh(lapse, Top(run'))
    ensures Top(run') == DoSend(Top(run), w)
  {
    var s, s' := Top(run), DoSend(Top(run), w);
    FreshMove(lapse, s, s'.(wire := s.wire), w);
    assert Attended(s'.workers, s.workers[w].stage.attempt) by {
      assert w in s'.workers && s'.workers[w].stage.Waiting?;
    }
    Extend(c, lapse, run, Send(w));
    run' := run + [Apply(c, Top(run), Send(w))];
  }

  lemma Process(c: Config, lapse: Lapse, run: seq<State>, a: AttemptId, verdict: Verdict) returns (run': seq<State>)
    requires Run(c, lapse, run) && Fresh(lapse, Top(run))
    requires a in Top(run).wire && a in Top(run).store.attempts
    requires verdict.Accept? ==> verdict.cae != "" && forall v :: v in Top(run).log ==> v.cae != verdict.cae
    ensures Run(c, lapse, run') && run <= run' && Fresh(lapse, Top(run'))
    ensures Top(run') == DoLand(Top(run), a, verdict)
  {
    Extend(c, lapse, run, Land(a, verdict));
    run' := run + [Apply(c, Top(run), Land(a, verdict))];
  }

  /** The call ends; one that ends early has to be young still, for it is no longer attended. */
  lemma Conclude(c: Config, lapse: Lapse, run: seq<State>, w: WorkerId, result: Wsfe.CallResult)
    returns (run': seq<State>)
    requires Run(c, lapse, run) && Fresh(lapse, Top(run))
    requires At(Top(run), w) && (Top(run).workers[w].stage.Opened? || Top(run).workers[w].stage.Waiting?)
    requires var a := Top(run).workers[w].stage.attempt;
             CallOver(Top(run), a, result)
             || (lapse.EarlyTimeout? && a in Top(run).store.attempts
                 && !Stale(Top(run).store.attempts[a], Top(run).now))
    ensures Run(c, lapse, run') && run <= run' && Fresh(lapse, Top(run'))
    ensures Top(run') == DoReturn(Top(run), w, result)
  {
    var s := Top(run);
    var a := s.workers[w].stage.attempt;
    if CallOver(s, a, result) {
      Wsfe.OutcomeSoundIffHonest(result, a in s.wire || Landed(s.log, a));
    }
    if WireFresh(s) {
      StaysFresh(s, DoReturn(s, w, result), w);
    }
    Extend(c, lapse, run, Return(w, result));
    run' := run + [Apply(c, Top(run), Return(w, result))];
  }

  lemma RecordOutcome(c: Config, lapse: Lapse, run: seq<State>, w: WorkerId) returns (run': seq<State>)
    requires Run(c, lapse, run) && Fresh(lapse, Top(run))
    requires CanCommitOutcome(Top(run), w)
    ensures Run(c, lapse, run') && run <= run' && Fresh(lapse, Top(run'))
    ensures Top(run') == DoCommitOutcome(Top(run), w)
  {
    FreshMove(lapse, Top(run), DoCommitOutcome(Top(run), w), w);
    assert Enabled(c, Top(run), CommitOutcome(w));
    Extend(c, lapse, run, CommitOutcome(w));
    run' := run + [Apply(c, Top(run), CommitOutcome(w))];
  }

  lemma Exit(c: Config, lapse: Lapse, run: seq<State>, w: WorkerId) returns (run': seq<State>)
    requires Run(c, lapse, run) && Fresh(lapse, Top(run)) && At(Top(run), w)
    requires Top(run).workers[w].stage.Waiting? ==>
               var a := Top(run).workers[w].stage.attempt;
               a !in Top(run).wire || (a in Top(run).store.attempts && !Stale(Top(run).store.attempts[a], Top(run).now))
    ensures Run(c, lapse, run') && run <= run' && Fresh(lapse, Top(run'))
    ensures Top(run') == DoLeave(Top(run), w)
  {
    if WireFresh(Top(run)) {
      StaysFresh(Top(run), DoLeave(Top(run), w), w);
    }
    Extend(c, lapse, run, Leave(w));
    run' := run + [Apply(c, Top(run), Leave(w))];
  }

  lemma TakeRecoveryLock(c: Config, lapse: Lapse, run: seq<State>, w: WorkerId, a: AttemptId)
    returns (run': seq<State>)
    requires Run(c, lapse, run) && Fresh(lapse, Top(run))
    requires CanBeginRecovery(c, Top(run), w, a)
    ensures Run(c, lapse, run') && run <= run' && Fresh(lapse, Top(run'))
    ensures Top(run') == Acquire(Top(run), w, c.key(Top(run).store.attempts[a].coord.sequence), Recovering(a))
  {
    FreshMove(lapse, Top(run), Apply(c, Top(run), BeginRecovery(w, a)), w);
    Extend(c, lapse, run, BeginRecovery(w, a));
    run' := run + [Apply(c, Top(run), BeginRecovery(w, a))];
  }

  lemma AskArca(c: Config, lapse: Lapse, run: seq<State>, w: WorkerId) returns (run': seq<State>)
    requires Run(c, lapse, run) && Fresh(lapse, Top(run))
    requires CanQuery(Top(run), w)
    ensures Run(c, lapse, run') && run <= run' && Fresh(lapse, Top(run'))
    ensures var s := Top(run);
            Top(run') == DoQuery(s, w, AnswerOf(Consult(s.log, s.store.attempts[s.workers[w].stage.attempt].coord)))
  {
    var s := Top(run);
    var e := Query(w, AnswerOf(Consult(s.log, s.store.attempts[s.workers[w].stage.attempt].coord)));
    FreshMove(lapse, s, DoQuery(s, w, e.answer), w);
    Extend(c, lapse, run, e);
    run' := run + [Apply(c, s, e)];
  }

  lemma RecordRecovery(c: Config, lapse: Lapse, run: seq<State>, w: WorkerId) returns (run': seq<State>)
    requires Run(c, lapse, run) && Fresh(lapse, Top(run))
    requires CanCommitRecovery(Top(run), w)
    ensures Run(c, lapse, run') && run <= run' && Fresh(lapse, Top(run'))
    ensures Top(run') == DoCommitRecovery(Top(run), w)
  {
    FreshMove(lapse, Top(run), DoCommitRecovery(Top(run), w), w);
    assert Enabled(c, Top(run), CommitRecovery(w));
    Extend(c, lapse, run, CommitRecovery(w));
    run' := run + [Apply(c, Top(run), CommitRecovery(w))];
  }

  lemma PressButton(c: Config, lapse: Lapse, run: seq<State>, a: AttemptId) returns (run': seq<State>)
    requires Run(c, lapse, run) && Fresh(lapse, Top(run))
    requires CanReconcileButton(Top(run), a)
    requires lapse.ButtonInFlight?
             || (a !in Top(run).wire && c.key(Top(run).store.attempts[a].coord.sequence) !in Top(run).locks)
    ensures Run(c, lapse, run') && run <= run' && Fresh(lapse, Top(run'))
    ensures var s := Top(run);
            var answer := AnswerOf(Consult(s.log, s.store.attempts[a].coord));
            Top(run') == s.(store := WriteReconciliation(s.store, a, answer))
  {
    Extend(c, lapse, run, ReconcileButton(a));
    run' := run + [Apply(c, Top(run), ReconcileButton(a))];
  }

  lemma SetToDraft(c: Config, lapse: Lapse, run: seq<State>, i: InvoiceId) returns (run': seq<State>)
    requires Run(c, lapse, run) && Fresh(lapse, Top(run))
    requires CanButtonDraft(Top(run), i)
    ensures Run(c, lapse, run') && run <= run' && Fresh(lapse, Top(run'))
    ensures var s := Top(run);
            Top(run') == s.(store := SetInvoice(s.store, i, s.store.invoices[i].(posted := false)))
  {
    Extend(c, lapse, run, ButtonDraft(i));
    run' := run + [Apply(c, Top(run), ButtonDraft(i))];
  }

  lemma RenumberLate(c: Config, run: seq<State>, i: InvoiceId, coord: Coordinate) returns (run': seq<State>)
    requires Run(c, LateRenumbering, run) && WireFresh(Top(run))
    requires i in Top(run).store.invoices
    ensures Run(c, LateRenumbering, run') && run <= run' && WireFresh(Top(run'))
    ensures var s := Top(run);
            Top(run') == s.(store := SetInvoice(s.store, i, s.store.invoices[i].(coord := coord)))
  {
    Extend(c, LateRenumbering, run, Renumber(i, coord));
    run' := run + [Apply(c, Top(run), Renumber(i, coord))];
  }

  /** No request whose worker is gone is still travelling when it becomes stale. */
  ghost predicate FreshAt(wire: set<AttemptId>, attempts: map<AttemptId, Attempt>, workers: map<WorkerId, Worker>,
                          now: nat)
  {
    forall a :: a in wire && a in attempts && !Attended(workers, a) ==> !Stale(attempts[a], now)
  }

  lemma {:induction false} Wait(c: Config, lapse: Lapse, run: seq<State>, minutes: nat) returns (run': seq<State>)
    requires Run(c, lapse, run)
    requires lapse.SlowRequest?
             || FreshAt(Top(run).wire, Top(run).store.attempts, Top(run).workers, Top(run).now + minutes)
    ensures Run(c, lapse, run') && run <= run' && Fresh(lapse, Top(run'))
    ensures Top(run') == Top(run).(now := Top(run).now + minutes)
    decreases minutes
  {
    run' := run;
    if minutes > 0 {
      Extend(c, lapse, run, Tick);
      run' := Wait(c, lapse, run + [Apply(c, Top(run), Tick)], minutes - 1);
    }
  }
}

/**
 What recovery does to the store: one attempt, one pass, and pass after pass.
 */
module Recovery {
  import opened Base
  import opened Ledger
  import opened Ordering
  import opened Protocol
  import opened ProtocolInvariant
  import opened InvoiceLife

  const CRON_LIMIT: nat := 50

  /** One attempt reconciled: only if it is still open, its sequence is free and ARCA answers. */
  function RecoverOne(c: Config, store: Store, log: seq<Voucher>, locks: set<int>, a: AttemptId, answers: bool): Store {
    if HasAttempt(store, a) && store.attempts[a].Open() && answers
       && c.key(store.attempts[a].coord.sequence) !in locks
    then WriteReconciliation(store, a, AnswerOf(Consult(log, store.attempts[a].coord)))
    else store
  }

  function RecoverAll(c: Config, store: Store, log: seq<Voucher>, locks: set<int>, ids: seq<AttemptId>,
                      answering: set<AttemptId>): Store
    decreases |ids|
  {
    if ids == [] then store
    else RecoverAll(c, RecoverOne(c, store, log, locks, ids[0], ids[0] in answering), log, locks, ids[1..], answering)
  }

  lemma RecoverOneFrame(c: Config, store: Store, log: seq<Voucher>, locks: set<int>, a: AttemptId, answers: bool,
                        b: AttemptId)
    requires b != a
    ensures var store' := RecoverOne(c, store, log, locks, a, answers);
            (b in store'.attempts <==> b in store.attempts)
            && (b in store.attempts ==> store'.attempts[b] == store.attempts[b])
  {
  }

  /** The attempts from position `k` on are as the pass found them. */
  ghost predicate AwaitingTurn(before: Store, store: Store, ids: seq<AttemptId>, k: nat) {
    forall j :: k <= j < |ids| ==>
      ids[j] in before.attempts && ids[j] in store.attempts && store.attempts[ids[j]] == before.attempts[ids[j]]
  }

  lemma AwaitingTurnStep(c: Config, before: Store, store: Store, log: seq<Voucher>, locks: set<int>,
                    ids: seq<AttemptId>, k: nat, answers: bool)
    requires AwaitingTurn(before, store, ids, k) && Increasing(ids) && k < |ids|
    ensures AwaitingTurn(before, RecoverOne(c, store, log, locks, ids[k], answers), ids, k + 1)
  {
    forall j | k + 1 <= j < |ids| {
      RecoverOneFrame(c, store, log, locks, ids[k], answers, ids[j]);
    }
  }

  /** The search of the reconciler: the oldest `limit` attempts it may take. */
  function OpenAttempts(store: Store, now: nat): set<AttemptId> {
    set a | a in store.attempts && Eligible(store.attempts[a], now)
  }

  function Oldest(store: Store, now: nat, limit: nat): (ids: seq<AttemptId>)
    ensures |ids| <= limit && Increasing(ids)
    ensures forall a :: a in ids ==> a in store.attempts && Eligible(store.attempts[a], now)
  {
    var all := Ascending(OpenAttempts(store, now));
    if |all| <= limit then all
    else
      assert forall a :: a in all[..limit] ==> a in all;
      all[..limit]
  }

  /** What a pass leaves for later is younger than everything it takes, and it leaves nothing while its
      limit is not reached. */
  lemma OldestFirst(store: Store, now: nat, limit: nat, a: AttemptId)
    requires a in store.attempts && Eligible(store.attempts[a], now) && a !in Oldest(store, now, limit)
    ensures var ids := Oldest(store, now, limit);
            |ids| == limit && forall b :: b in ids ==> b < a
  {
    var all := Ascending(OpenAttempts(store, now));
    assert a in all;
    var k :| 0 <= k < |all| && all[k] == a;
    InPrefix(all, limit, k);
  }

  lemma InPrefix(all: seq<AttemptId>, limit: nat, k: nat)
    requires k < |all|
    ensures k < limit <= |all| ==> all[k] in all[..limit]
  {
    if k < limit <= |all| {
      assert all[..limit][k] == all[k];
    }
  }

  /** How recovery ends an attempt: authorized with ARCA's CAE if the ledger holds its number, else aborted. */
  ghost predicate RecoveredFrom(before: Attempt, after: Attempt, log: seq<Voucher>) {
    && after == before.(state := after.state, cae := after.cae)
    && if exists v :: v in log && v.coord == before.coord
       then after.state.Authorized? && exists v :: v in log && v.coord == before.coord && after.cae == Some(v.cae)
       else after.state.Aborted? && after.cae == before.cae
  }

  /** The invoice goes with its settled attempt: authorized with the same CAE, or pending again. */
  predicate InvoiceFollows(store: Store, a: AttemptId) {
    HasAttempt(store, a)
    && var row, invoice := store.attempts[a], store.invoices[store.attempts[a].invoice];
    if row.state.Authorized? then invoice.arca.Authorized? && invoice.cae == row.cae else invoice.arca.Pending?
  }

  lemma RecoverOneSettles(c: Config, store: Store, log: seq<Voucher>, locks: set<int>, a: AttemptId)
    requires HasAttempt(store, a) && store.attempts[a].Open() && c.key(store.attempts[a].coord.sequence) !in locks
    ensures var store' := RecoverOne(c, store, log, locks, a, true);
            && OthersKept(store, store', a)
            && RecoveredFrom(store.attempts[a], store'.attempts[a], log) && InvoiceFollows(store', a)
  {
    var answer := AnswerOf(Consult(log, store.attempts[a].coord));
    ReconciliationShows(store, a, answer);
  }

  /** An attempt ARCA does not answer about, that is final, or whose sequence is busy: nothing is written. */
  predicate Spared(c: Config, store: Store, locks: set<int>, a: AttemptId, answers: bool)
    requires a in store.attempts
  {
    !answers || !store.attempts[a].Open() || c.key(store.attempts[a].coord.sequence) in locks
  }

  lemma RecoverOneSpares(c: Config, store: Store, log: seq<Voucher>, locks: set<int>, a: AttemptId, answers: bool)
    requires a in store.attempts && Spared(c, store, locks, a, answers)
    ensures RecoverOne(c, store, log, locks, a, answers) == store
  {
  }

  lemma RecoverOneKeepsSingleLive(c: Config, store: Store, log: seq<Voucher>, locks: set<int>, a: AttemptId,
                                  answers: bool)
    requires RefsOk(store) && SingleLive(store.attempts) && a in store.attempts
    ensures var store' := RecoverOne(c, store, log, locks, a, answers);
            RefsOk(store') && SingleLive(store'.attempts)
            && store'.attempts.Keys == store.attempts.Keys && store'.invoices.Keys == store.invoices.Keys
  {
    if Spared(c, store, locks, a, answers) {
      RecoverOneSpares(c, store, log, locks, a, answers);
    } else {
      RecoverOneSettles(c, store, log, locks, a);
    }
  }

  /** What a pass makes of each attempt, whichever ARCA answers about and whichever sequences are busy: it
      settles the open ones it takes, gets an answer about and can lock, and leaves every other as it is. */
  lemma {:induction false} RecoverAllAttempts(c: Config, store: Store, log: seq<Voucher>, locks: set<int>,
                                              ids: seq<AttemptId>, answering: set<AttemptId>, a: AttemptId)
    requires Increasing(ids) && HasAttempt(store, a)
    ensures var after := RecoverAll(c, store, log, locks, ids, answering);
            HasAttempt(after, a)
            && (a in ids && !Spared(c, store, locks, a, a in answering) ==>
                  RecoveredFrom(store.attempts[a], after.attempts[a], log))
            && (a !in ids || Spared(c, store, locks, a, a in answering) ==> after.attempts[a] == store.attempts[a])
    decreases |ids|
  {
    if ids != [] {
      TailMembers(ids, a);
      var store' := RecoverOne(c, store, log, locks, ids[0], ids[0] in answering);
      if ids[0] != a {
        RecoverOneFrame(c, store, log, locks, ids[0], ids[0] in answering, a);
      } else if !Spared(c, store, locks, a, a in answering) {
        RecoverOneSettles(c, store, log, locks, a);
      }
      RecoverAllAttempts(c, store', log, locks, ids[1..], answering, a);
    }
  }

  /** None of this invoice's attempts is settled by the pass. */
  ghost predicate NoneSettled(c: Config, store: Store, locks: set<int>, ids: seq<AttemptId>, answering: set<AttemptId>,
                              i: InvoiceId)
  {
    forall a :: a in ids && a in store.attempts && store.attempts[a].invoice == i ==>
      Spared(c, store, locks, a, a in answering)
  }

  /** An invoice none of whose attempts is settled stays as it is ... */
  lemma {:induction false} RecoverAllSparesInvoice(c: Config, store: Store, log: seq<Voucher>, locks: set<int>,
                                                   ids: seq<AttemptId>, answering: set<AttemptId>, i: InvoiceId)
    requires Increasing(ids) && i in store.invoices && NoneSettled(c, store, locks, ids, answering, i)
    ensures var after := RecoverAll(c, store, log, locks, ids, answering);
            i in after.invoices && after.invoices[i] == store.invoices[i]
    decreases |ids|
  {
    if ids != [] {
      var store' := RecoverOne(c, store, log, locks, ids[0], ids[0] in answering);
      assert ids[0] in ids;
      forall a | a in ids[1..]
        ensures a in ids && a != ids[0]
        ensures a in store'.attempts ==> a in store.attempts && store'.attempts[a] == store.attempts[a]
      {
        TailMembers(ids, a);
        RecoverOneFrame(c, store, log, locks, ids[0], ids[0] in answering, a);
      }
      RecoverAllSparesInvoice(c, store', log, locks, ids[1..], answering, i);
    }
  }

  /** ... and one that has a settled attempt goes with it. */
  lemma {:induction false} RecoverAllFollows(c: Config, store: Store, log: seq<Voucher>, locks: set<int>,
                                             ids: seq<AttemptId>, answering: set<AttemptId>, a: AttemptId)
    requires Increasing(ids) && RefsOk(store) && SingleLive(store.attempts)
    requires forall b :: b in ids ==> b in store.attempts
    requires a in ids && !Spared(c, store, locks, a, a in answering)
    ensures InvoiceFollows(RecoverAll(c, store, log, locks, ids, answering), a)
    decreases |ids|
  {
    TailMembers(ids, a);
    var rest, store' := ids[1..], RecoverOne(c, store, log, locks, ids[0], ids[0] in answering);
    assert ids[0] in ids && forall b :: b in rest ==> b in ids;
    RecoverOneKeepsSingleLive(c, store, log, locks, ids[0], ids[0] in answering);
    if ids[0] == a {
      RecoverOneSettles(c, store, log, locks, a);
      NoOtherOpen(c, store, store', locks, rest, answering, a);
      RecoverAllSparesInvoice(c, store', log, locks, rest, answering, store.attempts[a].invoice);
      RecoverAllAttempts(c, store', log, locks, rest, answering, a);
    } else {
      RecoverOneFrame(c, store, log, locks, ids[0], ids[0] in answering, a);
      RecoverAllFollows(c, store', log, locks, rest, answering, a);
    }
  }

  lemma NoOtherOpen(c: Config, store: Store, store': Store, locks: set<int>, rest: seq<AttemptId>,
                    answering: set<AttemptId>, a: AttemptId)
    requires SingleLive(store.attempts) && a in store.attempts && store.attempts[a].Open() && a !in rest
    requires forall b :: b in store'.attempts && b != a ==>
               b in store.attempts && store'.attempts[b] == store.attempts[b]
    ensures NoneSettled(c, store', locks, rest, answering, store.attempts[a].invoice)
  {
  }

  lemma {:induction false} RecoverAllKeepsKeys(c: Config, store: Store, log: seq<Voucher>, locks: set<int>,
                                               ids: seq<AttemptId>, answering: set<AttemptId>)
    ensures var after := RecoverAll(c, store, log, locks, ids, answering);
            after.attempts.Keys == store.attempts.Keys && after.invoices.Keys == store.invoices.Keys
    decreases |ids|
  {
    if ids != [] {
      var store' := RecoverOne(c, store, log, locks, ids[0], ids[0] in answering);
      RecoverAllKeepsKeys(c, store', log, locks, ids[1..], answering);
    }
  }

  ghost predicate KeysFree(c: Config, store: Store, locks: set<int>, ids: set<AttemptId>) {
    forall a :: a in ids && a in store.attempts ==> c.key(store.attempts[a].coord.sequence) !in locks
  }

  /** The invoices of these attempts. */
  predicate InvoiceOfOne(store: Store, ids: seq<AttemptId>, i: InvoiceId) {
    exists k | 0 <= k < |ids| :: ids[k] in store.attempts && store.attempts[ids[k]].invoice == i
  }

  /** A pass has settled these attempts with their invoices, and changed no other. */
  ghost predicate PassDone(store: Store, store': Store, log: seq<Voucher>, ids: seq<AttemptId>) {
    && store'.attempts.Keys == store.attempts.Keys && store'.invoices.Keys == store.invoices.Keys
    && (forall a :: a in store.attempts ==>
          if a in ids then RecoveredFrom(store.attempts[a], store'.attempts[a], log) && InvoiceFollows(store', a)
          else store'.attempts[a] == store.attempts[a])
    && forall i :: i in store.invoices && !InvoiceOfOne(store, ids, i) ==> store'.invoices[i] == store.invoices[i]
  }

  /** Open attempts, each of another invoice. */
  ghost predicate Settleable(c: Config, store: Store, locks: set<int>, ids: seq<AttemptId>) {
    && RefsOk(store) && Increasing(ids) && SingleLive(store.attempts)
    && forall a :: a in ids ==>
         a in store.attempts && store.attempts[a].Open() && c.key(store.attempts[a].coord.sequence) !in locks
  }

  /** A pass over open attempts, with ARCA answering and their sequences free, settles each and no other. */
  lemma RecoverAllSettles(c: Config, store: Store, log: seq<Voucher>, locks: set<int>, ids: seq<AttemptId>,
                          answering: set<AttemptId>)
    requires Settleable(c, store, locks, ids) && forall a :: a in ids ==> a in answering
    ensures PassDone(store, RecoverAll(c, store, log, locks, ids, answering), log, ids)
  {
    RecoverAllKeepsKeys(c, store, log, locks, ids, answering);
    forall a | a in store.attempts {
      RecoverAllAttempts(c, store, log, locks, ids, answering, a);
    }
    forall a | a in ids {
      RecoverAllFollows(c, store, log, locks, ids, answering, a);
    }
    forall i | i in store.invoices && !InvoiceOfOne(store, ids, i) {
      RecoverAllSparesInvoice(c, store, log, locks, ids, answering, i);
    }
  }

  /** A pass with some answers missing and some sequences busy. */
  ghost predicate PassAnswered(c: Config, before: Store, after: Store, log: seq<Voucher>, locks: set<int>,
                               ids: seq<AttemptId>, answering: set<AttemptId>)
  {
    forall a :: a in before.attempts ==>
      a in after.attempts
      && if a in ids && a in answering && c.key(before.attempts[a].coord.sequence) !in locks
         then RecoveredFrom(before.attempts[a], after.attempts[a], log) && InvoiceFollows(after, a)
         else after.attempts[a] == before.attempts[a]
  }

  lemma PassSettles(c: Config, store: Store, log: seq<Voucher>, locks: set<int>, ids: seq<AttemptId>,
                    answering: set<AttemptId>)
    requires RefsOk(store) && SingleLive(store.attempts) && Increasing(ids)
    requires forall a :: a in ids ==> a in store.attempts && store.attempts[a].Open()
    ensures PassAnswered(c, store, RecoverAll(c, store, log, locks, ids, answering), log, locks, ids, answering)
  {
    forall a | a in store.attempts {
      RecoverAllAttempts(c, store, log, locks, ids, answering, a);
    }
    forall a | a in ids && !Spared(c, store, locks, a, a in answering) {
      RecoverAllFollows(c, store, log, locks, ids, answering, a);
    }
  }

  /** What one scheduled pass does to each attempt, from the attempt alone: it is left as it is if ARCA does not
      answer about it, if its sequence is busy, if it is final, and for five minutes after it was sent; the
      others are settled, when there are no more of them than a pass may take. */
  lemma PassByAttempt(c: Config, store: Store, log: seq<Voucher>, locks: set<int>, now: nat, answering: set<AttemptId>,
                      a: AttemptId)
    requires RefsOk(store) && a in store.attempts
    ensures var row := store.attempts[a];
            var after := RecoverAll(c, store, log, locks, Oldest(store, now, CRON_LIMIT), answering);
            && a in after.attempts
            && (a !in answering || c.key(row.coord.sequence) in locks ==> after.attempts[a] == row)
            && (row.state != Sent && row.state != AttemptState.Uncertain ==> after.attempts[a] == row)
            && (row.state == Sent && now <= row.sentAt + 5 ==> after.attempts[a] == row)
            && (a in answering && c.key(row.coord.sequence) !in locks && |OpenAttempts(store, now)| <= 50
                && (row.state == AttemptState.Uncertain || (row.state == Sent && now > row.sentAt + 5)) ==>
                  RecoveredFrom(row, after.attempts[a], log))
  {
    RecoverAllAttempts(c, store, log, locks, Oldest(store, now, CRON_LIMIT), answering, a);
    if a in OpenAttempts(store, now) && a !in Oldest(store, now, CRON_LIMIT) {
      assert a in Ascending(OpenAttempts(store, now));
      assert |OpenAttempts(store, now)| > CRON_LIMIT;
    }
  }

  function Unsettled(store: Store): set<AttemptId> {
    set a | a in store.attempts && store.attempts[a].Open()
  }

  function LeftAfter(n: nat, settled: nat): nat { if n <= settled then 0 else n - settled }

  lemma Removing(before: set<nat>, after: set<nat>, ids: seq<nat>)
    requires Increasing(ids) && forall a :: a in ids ==> a in before
    requires forall a :: a in after <==> a in before && a !in ids
    ensures |after| == |before| - |ids|
  {
    var taken := set a | a in before && a in ids;
    IncreasingSize(ids, taken);
    assert after == before - taken;
  }

  /** One pass takes the attempts it may take down by its limit, whatever else is open, ... */
  lemma PassShrinks(store: Store, store': Store, log: seq<Voucher>, now: nat)
    requires PassDone(store, store', log, Oldest(store, now, CRON_LIMIT))
    ensures |OpenAttempts(store', now)| == LeftAfter(|OpenAttempts(store, now)|, CRON_LIMIT)
  {
    var ids := Oldest(store, now, CRON_LIMIT);
    PassLeaves(store, store', log, ids, now);
    Removing(OpenAttempts(store, now), OpenAttempts(store', now), ids);
  }

  /** ... and all that are open by as many as it took. */
  lemma PassSettlesAsMany(store: Store, store': Store, log: seq<Voucher>, now: nat)
    requires PassDone(store, store', log, Oldest(store, now, CRON_LIMIT))
    ensures |Unsettled(store')| == |Unsettled(store)| - |Oldest(store, now, CRON_LIMIT)|
  {
    var ids := Oldest(store, now, CRON_LIMIT);
    PassLeaves(store, store', log, ids, now);
    Removing(Unsettled(store), Unsettled(store'), ids);
  }

  lemma PassLeaves(store: Store, store': Store, log: seq<Voucher>, ids: seq<AttemptId>, now: nat)
    requires PassDone(store, store', log, ids)
    ensures forall a :: a in Unsettled(store') <==> a in Unsettled(store) && a !in ids
    ensures forall a :: a in OpenAttempts(store', now) <==> a in OpenAttempts(store, now) && a !in ids
  {
  }

  // ----- pass after pass ------------------------------------------------------------------------

  /** Each attempt is untouched or rightly settled, with its invoice. */
  ghost predicate Progressed(before: Store, after: Store, log: seq<Voucher>) {
    && after.attempts.Keys == before.attempts.Keys
    && forall a :: a in before.attempts ==>
         after.attempts[a] == before.attempts[a]
         || (before.attempts[a].Open() && RecoveredFrom(before.attempts[a], after.attempts[a], log)
             && InvoiceFollows(after, a))
  }

  lemma ProgressAdds(first: Store, before: Store, after: Store, log: seq<Voucher>, now: nat)
    requires SingleLive(first.attempts) && Progressed(first, before, log)
    requires PassDone(before, after, log, Oldest(before, now, CRON_LIMIT))
    ensures Progressed(first, after, log)
  {
    var ids := Oldest(before, now, CRON_LIMIT);
    forall a | a in first.attempts && after.attempts[a] != first.attempts[a]
      ensures first.attempts[a].Open() && RecoveredFrom(first.attempts[a], after.attempts[a], log)
      ensures InvoiceFollows(after, a)
    {
      if a !in ids {
        assert !InvoiceOfOne(before, ids, before.attempts[a].invoice) by {
          SettledIsNotAmong(first, before, log, ids, a);
        }
      }
    }
  }

  /** An invoice whose attempt is settled has no other that is still open. */
  lemma SettledIsNotAmong(first: Store, before: Store, log: seq<Voucher>, ids: seq<AttemptId>, a: AttemptId)
    requires SingleLive(first.attempts) && Progressed(first, before, log)
    requires a in first.attempts && before.attempts[a] != first.attempts[a]
    requires forall b :: b in ids ==> b in before.attempts && before.attempts[b].Open()
    ensures !InvoiceOfOne(before, ids, before.attempts[a].invoice)
  {
    forall k | 0 <= k < |ids|
      ensures before.attempts[ids[k]].invoice != before.attempts[a].invoice
    {
      assert ids[k] in ids;
      assert before.attempts[ids[k]] == first.attempts[ids[k]];
    }
  }

  /** Passes in one moment have settled that many of the attempts that could be taken, and no other. */
  ghost predicate AdvancedBy(first: Store, store: Store, log: seq<Voucher>, now: nat, settled: nat) {
    && Progressed(first, store, log)
    && OpenAttempts(store, now) <= OpenAttempts(first, now)
    && |OpenAttempts(store, now)| == LeftAfter(|OpenAttempts(first, now)|, settled)
    && forall a :: a in store.attempts && a !in OpenAttempts(first, now) ==> store.attempts[a] == first.attempts[a]
  }

  lemma PassAdvances(c: Config, first: Store, before: Store, after: Store, log: seq<Voucher>, now: nat, locks: set<int>,
                     settled: nat)
    requires SingleLive(first.attempts) && AdvancedBy(first, before, log, now, settled)
    requires PassDone(before, after, log, Oldest(before, now, CRON_LIMIT))
    requires KeysFree(c, before, locks, OpenAttempts(before, now))
    ensures AdvancedBy(first, after, log, now, settled + CRON_LIMIT)
    ensures KeysFree(c, after, locks, OpenAttempts(after, now))
  {
    ProgressAdds(first, before, after, log, now);
    PassShrinks(before, after, log, now);
    PassLeaves(before, after, log, Oldest(before, now, CRON_LIMIT), now);
  }

  lemma PassKeepsKeysFree(c: Config, before: Store, after: Store, log: seq<Voucher>, locks: set<int>,
                          ids: seq<AttemptId>)
    requires PassDone(before, after, log, ids) && KeysFree(c, before, locks, Unsettled(before))
    ensures KeysFree(c, after, locks, Unsettled(after))
  {
  }

  /** Whatever could be taken at the start is settled, or that many attempts have been settled before it. */
  ghost predicate CloserBy(first: Store, start: nat, store: Store, settled: nat) {
    forall a :: a in OpenAttempts(first, start) && a in store.attempts && store.attempts[a].Open() ==>
      |Unsettled(store)| + settled <= |Unsettled(first)|
  }

  lemma PassBringsCloser(first: Store, start: nat, before: Store, after: Store, log: seq<Voucher>, now: nat,
                         settled: nat)
    requires start <= now && Progressed(first, before, log) && CloserBy(first, start, before, settled)
    requires PassDone(before, after, log, Oldest(before, now, CRON_LIMIT))
    ensures CloserBy(first, start, after, settled + CRON_LIMIT)
  {
    PassSettlesAsMany(before, after, log, now);
    forall a | a in OpenAttempts(first, start) && a in after.attempts && after.attempts[a].Open()
      ensures |Unsettled(after)| + settled + CRON_LIMIT <= |Unsettled(first)|
    {
      StillRipe(first, before, after, log, start, now, a);
      OldestFirst(before, now, CRON_LIMIT, a);
    }
  }

  /** An attempt still open after a pass was open before it, as at the start, and not among those taken. */
  lemma StillRipe(first: Store, before: Store, after: Store, log: seq<Voucher>, start: nat, now: nat, a: AttemptId)
    requires start <= now && Progressed(first, before, log)
    requires PassDone(before, after, log, Oldest(before, now, CRON_LIMIT))
    requires a in OpenAttempts(first, start) && a in after.attempts && after.attempts[a].Open()
    ensures a in before.attempts && before.attempts[a].Open() && Eligible(before.attempts[a], now)
    ensures a !in Oldest(before, now, CRON_LIMIT)
  {
  }

  lemma AllSettledInTheEnd(first: Store, start: nat, store: Store, log: seq<Voucher>, settled: nat)
    requires Progressed(first, store, log) && CloserBy(first, start, store, settled)
    ensures |Unsettled(first)| <= settled ==>
              forall a :: a in OpenAttempts(first, start) ==>
                a in store.attempts && RecoveredFrom(first.attempts[a], store.attempts[a], log)
                && InvoiceFollows(store, a)
  {
    if |Unsettled(first)| <= settled {
      forall a | a in OpenAttempts(first, start)
        ensures a in store.attempts && RecoveredFrom(first.attempts[a], store.attempts[a], log)
        ensures a in store.attempts ==> InvoiceFollows(store, a)
      {
        OpenCounts(store, a);
      }
    }
  }

  lemma OpenCounts(store: Store, a: AttemptId)
    ensures a in store.attempts && store.attempts[a].Open() ==> |Unsettled(store)| > 0
  {
    if a in store.attempts && store.attempts[a].Open() {
      assert a in Unsettled(store);
    }
  }

  lemma PausesFit(k: nat, passes: nat, pause: nat)
    requires k < passes
    ensures (k + 1) * pause == k * pause + pause <= passes * pause
  {
  }

  /** What a pass leaves for the next one. */
  lemma AfterAPass(c: Config, first: Store, start: nat, before: Store, after: Store, log: seq<Voucher>, locks: set<int>,
                   now: nat, settled: nat)
    requires SingleLive(first.attempts)
    requires start <= now && Progressed(first, before, log) && CloserBy(first, start, before, settled)
    requires KeysFree(c, before, locks, Unsettled(before))
    requires PassDone(before, after, log, Oldest(before, now, CRON_LIMIT))
    ensures Progressed(first, after, log) && CloserBy(first, start, after, settled + CRON_LIMIT)
    ensures KeysFree(c, after, locks, Unsettled(after))
  {
    PassBringsCloser(first, start, before, after, log, now, settled);
    PassKeepsKeysFree(c, before, after, log, locks, Oldest(before, now, CRON_LIMIT));
    ProgressAdds(first, before, after, log, now);
  }

  lemma RipeAreUnsettled(c: Config, store: Store, locks: set<int>, now: nat)
    requires KeysFree(c, store, locks, Unsettled(store))
    ensures KeysFree(c, store, locks, OpenAttempts(store, now))
  {
  }

  predicate TimesKept(before: map<AttemptId, Attempt>, after: map<AttemptId, Attempt>) {
    after.Keys == before.Keys && forall a | a in before :: after[a].sentAt == before[a].sentAt
  }

  lemma SameTimes(before: Store, after: Store, log: seq<Voucher>, ids: seq<AttemptId>)
    requires PassDone(before, after, log, ids)
    ensures TimesKept(before.attempts, after.attempts)
  {
  }
}

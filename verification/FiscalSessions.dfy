/**
 Fiscal blocks side by side.  A session takes its advisory lock, then opens its work connection, whose
 transactions each read one snapshot, and closes it before the lock goes.  What that order is for: under
 its lock a session misses nothing that earlier holders of the key committed.
 */
module FiscalSessions {
  import opened Base

  type Cell = nat
  type Rows = map<Cell, int>
  type SessionId = nat

  /** One commit, with the key its session held; a commit from outside any block has none. */
  datatype Entry = Entry(key: Option<int>, rows: Rows)

  /** A transaction of the work connection: `snapshot` is how much of the history it sees, once its first
      statement has fixed it. */
  datatype Work = Unopened | Open(snapshot: Option<nat>, pending: Rows) | Closed

  datatype Session = Session(key: int, work: Work)

  datatype State = State(history: seq<Entry>, sessions: map<SessionId, Session>, locks: map<int, SessionId>)

  datatype Event =
    | TakeLock(id: SessionId, key: int)
    | OpenWork(id: SessionId)
    | FirstStatement(id: SessionId)
    | Write(id: SessionId, cell: Cell, value: int)
    | Checkpoint(id: SessionId)
    | Discard(id: SessionId)
    | CloseWork(id: SessionId, commits: bool)
    | ReleaseLock(id: SessionId)
    | Crash(id: SessionId)
    | OtherCommit(rows: Rows)

  predicate Working(s: State, id: SessionId) { id in s.sessions && s.sessions[id].work.Open? }

  predicate Reading(s: State, id: SessionId) { Working(s, id) && s.sessions[id].work.snapshot.Some? }

  /** PostgreSQL refuses to update a row that was updated since the snapshot. */
  predicate NoConflict(s: State, id: SessionId)
    requires Working(s, id)
  {
    var work := s.sessions[id].work;
    work.snapshot.Some? ==>
      forall i | work.snapshot.value <= i < |s.history| ::
        forall cell | cell in work.pending :: cell !in s.history[i].rows
  }

  predicate Enabled(s: State, e: Event) {
    match e
    case TakeLock(id, key) => id !in s.sessions && key !in s.locks
    case OpenWork(id) => id in s.sessions && s.sessions[id].work.Unopened?
    case FirstStatement(id) => Working(s, id) && s.sessions[id].work.snapshot.None?
    case Write(id, _, _) => Reading(s, id)
    case Checkpoint(id) => Working(s, id) && NoConflict(s, id)
    case Discard(id) => Working(s, id)
    case CloseWork(id, commits) => Working(s, id) && (commits ==> NoConflict(s, id))
    case ReleaseLock(id) => id in s.sessions && !s.sessions[id].work.Open?
    case Crash(id) => id in s.sessions
    case OtherCommit(_) => true
  }

  function Turn(s: State, id: SessionId, work: Work): State
    requires id in s.sessions
  {
    s.(sessions := s.sessions[id := s.sessions[id].(work := work)])
  }

  function Committed(s: State, id: SessionId): State
    requires Working(s, id)
  {
    s.(history := s.history + [Entry(Some(s.sessions[id].key), s.sessions[id].work.pending)])
  }

  function Gone(s: State, id: SessionId): State
    requires id in s.sessions
  {
    s.(sessions := s.sessions - {id}, locks := s.locks - {s.sessions[id].key})
  }

  function Apply(s: State, e: Event): State
    requires Enabled(s, e)
  {
    match e
    case TakeLock(id, key) => s.(sessions := s.sessions[id := Session(key, Unopened)], locks := s.locks[key := id])
    case OpenWork(id) => Turn(s, id, Open(None, map[]))
    case FirstStatement(id) => Turn(s, id, s.sessions[id].work.(snapshot := Some(|s.history|)))
    case Write(id, cell, value) =>
      Turn(s, id, s.sessions[id].work.(pending := s.sessions[id].work.pending[cell := value]))
    case Checkpoint(id) => Turn(Committed(s, id), id, Open(None, map[]))
    case Discard(id) => Turn(s, id, Open(None, map[]))
    case CloseWork(id, commits) => Turn(if commits then Committed(s, id) else s, id, Closed)
    case ReleaseLock(id) => Gone(s, id)
    case Crash(id) => Gone(s, id)
    case OtherCommit(rows) => s.(history := s.history + [Entry(None, rows)])
  }

  const Initial := State([], map[], map[])

  ghost predicate Next(s: State, s': State) { exists e :: Enabled(s, e) && s' == Apply(s, e) }

  ghost predicate NextAt(run: seq<State>, k: nat)
    requires 0 < k < |run|
  {
    Next(run[k - 1], run[k])
  }

  ghost predicate Run(run: seq<State>) {
    |run| > 0 && run[0] == Initial && forall k {:trigger NextAt(run, k)} :: 0 < k < |run| ==> NextAt(run, k)
  }

  // ----- invariant ------------------------------------------------------------------------------

  ghost predicate LocksOk(s: State) {
    && (forall id :: id in s.sessions ==> s.sessions[id].key in s.locks && s.locks[s.sessions[id].key] == id)
    && (forall key :: key in s.locks ==> s.locks[key] in s.sessions && s.sessions[s.locks[key]].key == key)
  }

  /** Nothing was committed under a session's key since its transaction's snapshot. */
  ghost predicate UpToDate(history: seq<Entry>, session: Session) {
    session.work.Open? && session.work.snapshot.Some? ==>
      session.work.snapshot.value <= |history|
      && forall i :: session.work.snapshot.value <= i < |history| ==> history[i].key != Some(session.key)
  }

  ghost predicate Inv(s: State) {
    LocksOk(s) && forall id :: id in s.sessions ==> UpToDate(s.history, s.sessions[id])
  }

  lemma StepKeepsLocks(s: State, e: Event)
    requires LocksOk(s) && Enabled(s, e)
    ensures LocksOk(Apply(s, e))
  {
    match e
    case _ =>
  }

  lemma StepKeepsUpToDate(s: State, e: Event, id: SessionId)
    requires Inv(s) && Enabled(s, e) && id in Apply(s, e).sessions
    ensures UpToDate(Apply(s, e).history, Apply(s, e).sessions[id])
  {
    if id in s.sessions {
      assert UpToDate(s.history, s.sessions[id]);
    }
  }

  lemma {:induction false} RunHasInv(run: seq<State>, k: nat)
    requires Run(run) && k < |run|
    ensures Inv(run[k])
  {
    if k > 0 {
      RunHasInv(run, k - 1);
      assert NextAt(run, k);
      var e :| Enabled(run[k - 1], e) && run[k] == Apply(run[k - 1], e);
      StepKeepsLocks(run[k - 1], e);
      forall id | id in run[k].sessions
        ensures UpToDate(run[k].history, run[k].sessions[id])
      {
        StepKeepsUpToDate(run[k - 1], e, id);
      }
    }
  }

  // ----- what a holder reads --------------------------------------------------------------------

  /** The committed value of a cell: the last one written. */
  function ValueAt(history: seq<Entry>, cell: Cell): Option<int> {
    if history == [] then None
    else
      var last := history[|history| - 1];
      if cell in last.rows then Some(last.rows[cell]) else ValueAt(history[..|history| - 1], cell)
  }

  lemma {:induction false} UnwrittenSince(history: seq<Entry>, cell: Cell, from: nat)
    requires from <= |history| && forall i :: from <= i < |history| ==> cell !in history[i].rows
    ensures ValueAt(history, cell) == ValueAt(history[..from], cell)
  {
    if from < |history| {
      var front := history[..|history| - 1];
      UnwrittenSince(front, cell, from);
      assert front[..from] == history[..from];
    } else {
      assert history[..from] == history;
    }
  }

  /** The value of a cell comes from its last write, which is none earlier than a given one. */
  lemma {:induction false} ValueIsAsNewAs(history: seq<Entry>, cell: Cell, i: nat) returns (m: nat)
    requires i < |history| && cell in history[i].rows
    ensures i <= m < |history| && cell in history[m].rows
    ensures ValueAt(history, cell) == Some(history[m].rows[cell])
  {
    m := |history| - 1;
    if cell !in history[m].rows {
      m := ValueIsAsNewAs(history[..m], cell, i);
    }
  }

  /** What a step is to make durable: a checkpoint and a committing close the pending writes of their session, a
      commit from outside its own, any other step nothing. */
  function MadeDurable(s: State, e: Event): Rows
    requires Enabled(s, e)
  {
    match e
    case Checkpoint(id) => s.sessions[id].work.pending
    case CloseWork(id, commits) => if commits then s.sessions[id].work.pending else map[]
    case OtherCommit(rows) => rows
    case _ => map[]
  }

  /** And that is what the committed values change by: a discard, a rollback or a crash changes none. */
  lemma WhatAStepCommits(s: State, e: Event, cell: Cell)
    requires Enabled(s, e)
    ensures ValueAt(Apply(s, e).history, cell)
         == if cell in MadeDurable(s, e) then Some(MadeDurable(s, e)[cell]) else ValueAt(s.history, cell)
  {
    var after := Apply(s, e).history;
    if after != s.history {
      assert after[..|after| - 1] == s.history;
    }
  }

  /** Everything earlier holders of the key committed is in the snapshot a holder reads. */
  lemma HolderMissesNothing(run: seq<State>, k: nat, id: SessionId, i: nat)
    requires Run(run) && k < |run| && Reading(run[k], id)
    requires i < |run[k].history| && run[k].history[i].key == Some(run[k].sessions[id].key)
    ensures i < run[k].sessions[id].work.snapshot.value <= |run[k].history|
  {
    RunHasInv(run, k);
    assert UpToDate(run[k].history, run[k].sessions[id]);
  }

  /** So of any cell an earlier holder wrote, an invoice's row as much as an attempt's, a holder reads that
      value or one committed after it: whoever committed it, and however old the snapshot. */
  lemma HolderReadsNoOlder(run: seq<State>, k: nat, id: SessionId, i: nat, cell: Cell)
    requires Run(run) && k < |run| && Reading(run[k], id)
    requires i < |run[k].history| && run[k].history[i].key == Some(run[k].sessions[id].key)
    requires cell in run[k].history[i].rows
    ensures var s := run[k];
            var snapshot := s.sessions[id].work.snapshot.value;
            snapshot <= |s.history|
            && exists m :: i <= m < snapshot && cell in s.history[m].rows
                           && ValueAt(s.history[..snapshot], cell) == Some(s.history[m].rows[cell])
  {
    HolderMissesNothing(run, k, id, i);
    var seen := run[k].history[..run[k].sessions[id].work.snapshot.value];
    assert seen[i] == run[k].history[i];
    var m := ValueIsAsNewAs(seen, cell, i);
    assert seen[m] == run[k].history[m];
  }

  /** Some row a session has written was committed by someone without its key, since its snapshot. */
  ghost predicate Overtaken(s: State, id: SessionId)
    requires Reading(s, id)
  {
    exists i, cell :: s.sessions[id].work.snapshot.value <= i < |s.history|
                      && cell in s.sessions[id].work.pending && cell in s.history[i].rows
                      && s.history[i].key != Some(s.sessions[id].key)
  }

  /** A holder's commit is refused exactly when it has been overtaken from outside its key: never by
      another holder. */
  lemma HolderConflictsIffOvertaken(run: seq<State>, k: nat, id: SessionId)
    requires Run(run) && k < |run| && Reading(run[k], id)
    ensures !Enabled(run[k], Checkpoint(id)) <==> Overtaken(run[k], id)
    ensures !Enabled(run[k], CloseWork(id, true)) <==> Overtaken(run[k], id)
  {
    RunHasInv(run, k);
    assert UpToDate(run[k].history, run[k].sessions[id]);
  }

  // ----- rows written under the key alone -------------------------------------------------------

  /** A cell that is only ever written under one key, as an attempt is. */
  ghost predicate Guarded(history: seq<Entry>, cell: Cell, key: int) {
    forall i :: 0 <= i < |history| && cell in history[i].rows ==> history[i].key == Some(key)
  }

  /** Of such a cell a holder reads exactly the committed value ... */
  lemma GuardedReadIsCurrent(run: seq<State>, k: nat, id: SessionId, cell: Cell)
    requires Run(run) && k < |run| && Reading(run[k], id)
    requires Guarded(run[k].history, cell, run[k].sessions[id].key)
    ensures var s := run[k];
            s.sessions[id].work.snapshot.value <= |s.history|
            && ValueAt(s.history[..s.sessions[id].work.snapshot.value], cell) == ValueAt(s.history, cell)
  {
    RunHasInv(run, k);
    var s := run[k];
    assert UpToDate(s.history, s.sessions[id]);
    UnwrittenSince(s.history, cell, s.sessions[id].work.snapshot.value);
  }

  /** ... and a commit of such cells is never refused. */
  lemma GuardedCommitSucceeds(run: seq<State>, k: nat, id: SessionId)
    requires Run(run) && k < |run| && Working(run[k], id)
    requires forall cell :: cell in run[k].sessions[id].work.pending ==>
               Guarded(run[k].history, cell, run[k].sessions[id].key)
    ensures Enabled(run[k], Checkpoint(id)) && Enabled(run[k], CloseWork(id, true))
  {
    if Reading(run[k], id) {
      HolderConflictsIffOvertaken(run, k, id);
    }
  }
}

/**
 The transactions the protocol owns: a dedicated work connection it may commit at will, and a second
 connection that does nothing but hold the advisory lock.

 A block's body is a list of operations, so that what a block leaves behind is stated for every body
 and every way of leaving it.  `Block` says it on values; the classes below it are the connections.
 */
module FiscalTransaction {
  type Cell = nat
  type Rows = map<Cell, int>

  datatype Op =
    | Write(cell: Cell, value: int)
    | Checkpoint
    | Discard
    /** A fiscal block inside this one, as for the access ticket; `caught` says its failure is handled. */
    | Nested(key: int, body: seq<Op>, caught: bool)
    /** An exception that leaves the block, or the death of the process. */
    | Raise

  datatype Exit = Completed | Failed | SequenceBusy

  /** What PostgreSQL holds: the committed rows, and the advisory keys some transaction holds. */
  datatype Db = Db(rows: Rows, locks: set<int>)

  datatype Progress = Progress(db: Db, pending: Rows, exit: Exit)

  /** A block: refused if the key is held; otherwise its body, then commit or rollback, and the lock is gone. */
  function Block(db: Db, key: int, body: seq<Op>): (Db, Exit)
    decreases body, 1
  {
    if key in db.locks then (db, SequenceBusy)
    else
      var end := Ops(db.(locks := db.locks + {key}), map[], body);
      var rows := if end.exit.Completed? then end.db.rows + end.pending else end.db.rows;
      (Db(rows, end.db.locks - {key}), end.exit)
  }

  /** The operations of a body in order, until one raises. */
  function Ops(db: Db, pending: Rows, body: seq<Op>): Progress
    decreases body, 0
  {
    if body == [] then Progress(db, pending, Completed)
    else match body[0]
      case Write(cell, value) => Ops(db, pending[cell := value], body[1..])
      case Checkpoint => Ops(db.(rows := db.rows + pending), map[], body[1..])
      case Discard => Ops(db, map[], body[1..])
      case Nested(key, inner, caught) =>
        var (db', exit) := Block(db, key, inner);
        if exit.Completed? || caught then Ops(db', pending, body[1..]) else Progress(db', pending, Failed)
      case Raise => Progress(db, pending, Failed)
  }

  // ----- locks ---------------------------------------------------------------------------------

  /** No operation of a body, checkpoints included, frees or keeps a lock ... */
  lemma {:induction false} OpsKeepLocks(db: Db, pending: Rows, body: seq<Op>)
    ensures Ops(db, pending, body).db.locks == db.locks
    decreases body, 0
  {
    if body != [] {
      match body[0]
      case Write(cell, value) => OpsKeepLocks(db, pending[cell := value], body[1..]);
      case Checkpoint => OpsKeepLocks(db.(rows := db.rows + pending), map[], body[1..]);
      case Discard => OpsKeepLocks(db, map[], body[1..]);
      case Nested(key, inner, caught) =>
        BlockFreesItsLock(db, key, inner);
        OpsKeepLocks(Block(db, key, inner).0, pending, body[1..]);
      case Raise =>
    }
  }

  /** ... and every end of a block, normal, failed or refused, leaves the lock table as it was. */
  lemma {:induction false} BlockFreesItsLock(db: Db, key: int, body: seq<Op>)
    ensures Block(db, key, body).0.locks == db.locks
    decreases body, 1
  {
    OpsKeepLocks(db.(locks := db.locks + {key}), map[], body);
  }

  /** A held key refuses the block at once and nothing is written: the two locks never wait for each
      other, even when the numbering and the ticket key collide. */
  lemma HeldKeyRefuses(db: Db, key: int, body: seq<Op>, inner: seq<Op>, rest: seq<Op>, caught: bool)
    ensures Block(db, key, body).1.SequenceBusy? <==> key in db.locks
    ensures key in db.locks ==> Block(db, key, body).0 == db
    ensures key !in db.locks ==>
              Block(db, key, [Nested(key, inner, caught)] + rest)
              == if caught then Block(db, key, rest) else (db, Failed)
  {
    OpsExit(db.(locks := db.locks + {key}), map[], body);
    var taken := db.(locks := db.locks + {key});
    var nested := [Nested(key, inner, caught)] + rest;
    assert nested[1..] == rest;
    if key !in db.locks {
      assert Block(taken, key, inner) == (taken, SequenceBusy);
      assert taken.locks - {key} == db.locks;
    }
  }

  lemma {:induction false} OpsExit(db: Db, pending: Rows, body: seq<Op>)
    ensures !Ops(db, pending, body).exit.SequenceBusy?
    decreases |body|
  {
    if body != [] {
      match body[0]
      case Write(cell, value) => OpsExit(db, pending[cell := value], body[1..]);
      case Checkpoint => OpsExit(db.(rows := db.rows + pending), map[], body[1..]);
      case Discard => OpsExit(db, map[], body[1..]);
      case Nested(key, inner, caught) => OpsExit(Block(db, key, inner).0, pending, body[1..]);
      case Raise =>
    }
  }

  // ----- durability ----------------------------------------------------------------------------

  predicate OnlyWrites(body: seq<Op>) { forall k | 0 <= k < |body| :: body[k].Write? }

  /** The rows a list of writes leaves, each cell with its last value. */
  function Written(body: seq<Op>): Rows
    requires OnlyWrites(body)
  {
    if body == [] then map[]
    else Written(body[..|body| - 1])[body[|body| - 1].cell := body[|body| - 1].value]
  }

  lemma {:induction false} OpsSplit(db: Db, pending: Rows, a: seq<Op>, b: seq<Op>)
    ensures var mid := Ops(db, pending, a);
            Ops(db, pending, a + b) == if mid.exit.Completed? then Ops(mid.db, mid.pending, b) else mid
    decreases |a|
  {
    if a == [] {
      assert a + b == b;
    } else {
      assert (a + b)[1..] == a[1..] + b;
      match a[0]
      case Write(cell, value) => OpsSplit(db, pending[cell := value], a[1..], b);
      case Checkpoint => OpsSplit(db.(rows := db.rows + pending), map[], a[1..], b);
      case Discard => OpsSplit(db, map[], a[1..], b);
      case Nested(key, inner, caught) => OpsSplit(Block(db, key, inner).0, pending, a[1..], b);
      case Raise =>
    }
  }

  lemma {:induction false} OpsOfWrites(db: Db, pending: Rows, writes: seq<Op>)
    requires OnlyWrites(writes)
    ensures Ops(db, pending, writes) == Progress(db, pending + Written(writes), Completed)
    decreases |writes|
  {
    if writes == [] {
      assert pending + Written(writes) == pending;
    } else {
      var n := |writes| - 1;
      var before, last := writes[..n], writes[n];
      OpsOfWrites(db, pending, before);
      assert writes == before + [last];
      OpsSplit(db, pending, before, [last]);
      assert [last][1..] == [];
      var mid := pending + Written(before);
      assert Ops(db, mid, [last]) == Ops(db, mid[last.cell := last.value], []);
      assert mid[last.cell := last.value] == pending + Written(writes);
    }
  }

  predicate NoCheckpoint(body: seq<Op>) { forall k | 0 <= k < |body| :: !body[k].Checkpoint? }

  /** What of a stretch without checkpoints can outlast it: the blocks nested in it, and where it raises. */
  function Lasting(body: seq<Op>): seq<Op> {
    if body == [] then []
    else (if body[0].Nested? || body[0].Raise? then [body[0]] else []) + Lasting(body[1..])
  }

  /** A stretch without checkpoints does to the database what its nested blocks do, whatever it writes and
      discards itself, and ends the same way. */
  lemma {:induction false} OpsLast(db: Db, pending: Rows, other: Rows, tail: seq<Op>)
    requires NoCheckpoint(tail)
    ensures var full, lasting := Ops(db, pending, tail), Ops(db, other, Lasting(tail));
            full.db == lasting.db && full.exit == lasting.exit && lasting.pending == other
    decreases |tail|
  {
    if tail != [] {
      var op, rest := tail[0], tail[1..];
      assert NoCheckpoint(rest);
      match op
      case Write(cell, value) =>
        assert Lasting(tail) == Lasting(rest);
        OpsLast(db, pending[cell := value], other, rest);
      case Discard =>
        assert Lasting(tail) == Lasting(rest);
        OpsLast(db, map[], other, rest);
      case Nested(key, inner, caught) =>
        assert Lasting(tail)[1..] == Lasting(rest);
        OpsLast(Block(db, key, inner).0, pending, other, rest);
      case Raise =>
    }
  }

  /** The same, with the raise that ends the block after it. */
  lemma OpsLastThenRaise(db: Db, pending: Rows, tail: seq<Op>, rest: seq<Op>)
    requires NoCheckpoint(tail)
    ensures var full, lasting := Ops(db, pending, tail + ([Raise] + rest)), Ops(db, map[], Lasting(tail) + [Raise]);
            full.db == lasting.db && full.exit == lasting.exit == Failed
  {
    OpsSplit(db, pending, tail, [Raise] + rest);
    OpsSplit(db, map[], Lasting(tail), [Raise]);
    OpsLast(db, pending, map[], tail);
    OpsExit(db, pending, tail);
  }

  /** A block that fails or dies after a checkpoint leaves what was checkpointed and what blocks nested
      since then committed: of its own later writes nothing. */
  lemma FailureKeepsTheCheckpoint(db: Db, key: int, before: seq<Op>, tail: seq<Op>, rest: seq<Op>)
    requires NoCheckpoint(tail)
    ensures Block(db, key, before + [Checkpoint] + tail + [Raise] + rest)
         == Block(db, key, before + [Checkpoint] + Lasting(tail) + [Raise])
  {
    var start := db.(locks := db.locks + {key});
    var mid := Ops(start, map[], before);
    var saved := mid.db.(rows := mid.db.rows + mid.pending);
    assert before + [Checkpoint] + tail + [Raise] + rest == before + [Checkpoint] + (tail + ([Raise] + rest));
    assert before + [Checkpoint] + Lasting(tail) + [Raise] == before + [Checkpoint] + (Lasting(tail) + [Raise]);
    OpsCheckpoint(start, before, tail + ([Raise] + rest));
    OpsCheckpoint(start, before, Lasting(tail) + [Raise]);
    OpsLastThenRaise(saved, map[], tail, rest);
  }

  /** Without any checkpoint, a failing block leaves what its nested blocks committed and nothing else. */
  lemma FailureKeepsNothing(db: Db, key: int, tail: seq<Op>, rest: seq<Op>)
    requires NoCheckpoint(tail)
    ensures Block(db, key, tail + [Raise] + rest) == Block(db, key, Lasting(tail) + [Raise])
  {
    assert tail + [Raise] + rest == tail + ([Raise] + rest);
    OpsLastThenRaise(db.(locks := db.locks + {key}), map[], tail, rest);
  }

  lemma {:induction false} WritesDoNotLast(writes: seq<Op>)
    requires OnlyWrites(writes)
    ensures NoCheckpoint(writes) && Lasting(writes) == []
  {
    if writes != [] {
      WritesDoNotLast(writes[1..]);
    }
  }

  /** With nothing nested since, that is exactly what ending at the checkpoint would have left. */
  lemma FailureAfterWrites(db: Db, key: int, before: seq<Op>, writes: seq<Op>, rest: seq<Op>)
    requires key !in db.locks && OnlyWrites(writes)
    requires Block(db, key, before).1.Completed?
    ensures Block(db, key, before + [Checkpoint] + writes + [Raise] + rest) == (Block(db, key, before).0, Failed)
  {
    WritesDoNotLast(writes);
    FailureKeepsTheCheckpoint(db, key, before, writes, rest);
    assert before + [Checkpoint] + [] + [Raise] == before + [Checkpoint] + [Raise];
    OpsCheckpoint(db.(locks := db.locks + {key}), before, [Raise]);
  }

  /** A block that returns makes its later writes durable too, over what the checkpoints already were. */
  lemma CompletionKeepsEverything(db: Db, key: int, before: seq<Op>, writes: seq<Op>)
    requires key !in db.locks && OnlyWrites(writes)
    requires Block(db, key, before).1.Completed?
    ensures var done := Block(db, key, before).0;
            Block(db, key, before + writes) == (done.(rows := done.rows + Written(writes)), Completed)
  {
    var start := db.(locks := db.locks + {key});
    var mid := Ops(start, map[], before);
    OpsSplit(start, map[], before, writes);
    OpsOfWrites(mid.db, mid.pending, writes);
    assert mid.db.rows + (mid.pending + Written(writes)) == (mid.db.rows + mid.pending) + Written(writes);
  }

  lemma OpsCheckpoint(db: Db, before: seq<Op>, rest: seq<Op>)
    ensures var mid := Ops(db, map[], before);
            Ops(db, map[], before + [Checkpoint] + rest)
            == if mid.exit.Completed? then Ops(mid.db.(rows := mid.db.rows + mid.pending), map[], rest) else mid
  {
    assert before + [Checkpoint] + rest == before + ([Checkpoint] + rest);
    OpsSplit(db, map[], before, [Checkpoint] + rest);
    assert ([Checkpoint] + rest)[1..] == rest;
  }

  /** What a discard throws away: the block's own writes since the last checkpoint and nothing else. */
  lemma DiscardDropsPending(db: Db, key: int, before: seq<Op>, tail: seq<Op>, rest: seq<Op>)
    requires NoCheckpoint(tail)
    ensures Block(db, key, before + [Checkpoint] + tail + [Discard] + rest)
         == Block(db, key, before + [Checkpoint] + Lasting(tail) + [Discard] + rest)
  {
    var start := db.(locks := db.locks + {key});
    var mid := Ops(start, map[], before);
    var saved := mid.db.(rows := mid.db.rows + mid.pending);
    assert before + [Checkpoint] + tail + [Discard] + rest == before + [Checkpoint] + (tail + ([Discard] + rest));
    assert before + [Checkpoint] + Lasting(tail) + [Discard] + rest
        == before + [Checkpoint] + (Lasting(tail) + ([Discard] + rest));
    OpsCheckpoint(start, before, tail + ([Discard] + rest));
    OpsCheckpoint(start, before, Lasting(tail) + ([Discard] + rest));
    DiscardAfter(saved, tail, rest);
  }

  lemma DiscardAfter(db: Db, tail: seq<Op>, rest: seq<Op>)
    requires NoCheckpoint(tail)
    ensures var full := Ops(db, map[], tail + ([Discard] + rest));
            var lasting := Ops(db, map[], Lasting(tail) + ([Discard] + rest));
            full.db == lasting.db && full.exit == lasting.exit
            && (full.exit.Completed? ==> full.pending == lasting.pending)
  {
    OpsSplit(db, map[], tail, [Discard] + rest);
    OpsSplit(db, map[], Lasting(tail), [Discard] + rest);
    OpsLast(db, map[], map[], tail);
    assert ([Discard] + rest)[1..] == rest;
  }

  /** What a nested block commits survives the failure of the block around it, which keeps of itself only
      what it had checkpointed; whether the nested block's own failure was handled or not. */
  lemma NestedCommitSurvives(db: Db, key: int, before: seq<Op>, earlier: seq<Op>, nestedKey: int, inner: seq<Op>,
                             caught: bool, later: seq<Op>, rest: seq<Op>)
    requires key !in db.locks && OnlyWrites(earlier) && OnlyWrites(later)
    requires Block(db, key, before).1.Completed?
    ensures var outer := Block(db, key, before).0.(locks := db.locks + {key});
            var tail := earlier + [Nested(nestedKey, inner, caught)] + later;
            Block(db, key, before + [Checkpoint] + tail + [Raise] + rest).0.rows
            == Block(outer, nestedKey, inner).0.rows
  {
    var nested := Nested(nestedKey, inner, caught);
    LastingOfNested(earlier, nested, later);
    FailureKeepsTheCheckpoint(db, key, before, earlier + [nested] + later, rest);
    NestedThenRaise(db, key, before, nested);
  }

  /** A nested block, and then the end of the block around it. */
  lemma NestedThenRaise(db: Db, key: int, before: seq<Op>, nested: Op)
    requires key !in db.locks && Block(db, key, before).1.Completed? && nested.Nested?
    ensures var outer := Block(db, key, before).0.(locks := db.locks + {key});
            Block(db, key, before + [Checkpoint] + [nested] + [Raise]).0.rows
            == Block(outer, nested.key, nested.body).0.rows
  {
    var start := db.(locks := db.locks + {key});
    assert before + [Checkpoint] + [nested] + [Raise] == before + [Checkpoint] + ([nested] + [Raise]);
    OpsCheckpoint(start, before, [nested] + [Raise]);
    OpsKeepLocks(start, map[], before);
    assert ([nested] + [Raise])[1..] == [Raise];
  }

  lemma LastingOfNested(earlier: seq<Op>, nested: Op, later: seq<Op>)
    requires OnlyWrites(earlier) && nested.Nested? && OnlyWrites(later)
    ensures NoCheckpoint(earlier + [nested] + later) && Lasting(earlier + [nested] + later) == [nested]
    decreases |earlier|
  {
    var body := earlier + [nested] + later;
    WritesDoNotLast(earlier);
    WritesDoNotLast(later);
    if earlier == [] {
      assert body[1..] == later;
    } else {
      assert body[1..] == earlier[1..] + [nested] + later;
      LastingOfNested(earlier[1..], nested, later);
    }
  }

  // ----- connections ---------------------------------------------------------------------------

  class Database {
    var rows: Rows
    var locks: set<int>

    constructor (rows: Rows)
      ensures View() == Db(rows, {})
    {
      this.rows, locks := rows, {};
    }

    function View(): Db
      reads this
    {
      Db(rows, locks)
    }
  }

  /** One connection and the transaction open on it. */
  class Cursor {
    const db: Database
    var pending: Rows
    var held: set<int>
    var lockTimeoutArmed: bool

    constructor (db: Database)
      ensures this.db == db && pending == map[] && held == {} && !lockTimeoutArmed
    {
      this.db := db;
      pending, held, lockTimeoutArmed := map[], {}, false;
    }

    /** pg_try_advisory_xact_lock: answers at once, never waits. */
    method TryAdvisoryLock(key: int) returns (taken: bool)
      modifies this`held, db`locks
      ensures taken <==> key !in old(db.locks)
      ensures held == if taken then old(held) + {key} else old(held)
      ensures db.locks == if taken then old(db.locks) + {key} else old(db.locks)
    {
      taken := key !in db.locks;
      if taken {
        db.locks := db.locks + {key};
        held := held + {key};
      }
    }

    /** Every statement of the protocol runs with `lock_timeout` armed. */
    method Execute(cell: Cell, value: int)
      requires lockTimeoutArmed
      modifies this`pending
      ensures pending == old(pending)[cell := value]
    {
      pending := pending[cell := value];
    }

    /** COMMIT: the rows are durable, and what was scoped to the transaction is gone with it. */
    method Commit()
      modifies this, db
      ensures db.rows == old(db.rows) + old(pending) && db.locks == old(db.locks) - old(held)
      ensures pending == map[] && held == {} && !lockTimeoutArmed
    {
      db.rows := db.rows + pending;
      EndTransaction();
    }

    /** ROLLBACK, which is also all that closing a cursor does. */
    method Rollback()
      modifies this, db`locks
      ensures db.locks == old(db.locks) - old(held)
      ensures pending == map[] && held == {} && !lockTimeoutArmed
    {
      EndTransaction();
    }

    method EndTransaction()
      modifies this, db`locks
      ensures db.locks == old(db.locks) - old(held)
      ensures pending == map[] && held == {} && !lockTimeoutArmed
    {
      db.locks := db.locks - held;
      pending, held, lockTimeoutArmed := map[], {}, false;
    }
  }

  /** `FiscalTransaction`: a transaction the protocol may commit at will. */
  class FiscalTransaction {
    const cr: Cursor

    constructor (cr: Cursor)
      ensures this.cr == cr
    {
      this.cr := cr;
    }

    method ArmLockTimeout()
      modifies cr`lockTimeoutArmed
      ensures cr.lockTimeoutArmed
    {
      cr.lockTimeoutArmed := true;
    }

    /** Make everything written so far durable; the timeout is scoped to the transaction that ended. */
    method Checkpoint()
      requires cr.held == {}
      modifies cr, cr.db
      ensures cr.db.rows == old(cr.db.rows) + old(cr.pending) && cr.db.locks == old(cr.db.locks)
      ensures cr.pending == map[] && cr.held == {} && cr.lockTimeoutArmed
    {
      cr.Commit();
      ArmLockTimeout();
    }

    /** Throw away uncommitted work without touching what was committed. */
    method Discard()
      requires cr.held == {}
      modifies cr, cr.db`locks
      ensures cr.db.locks == old(cr.db.locks)
      ensures cr.pending == map[] && cr.held == {} && cr.lockTimeoutArmed
    {
      cr.Rollback();
      ArmLockTimeout();
    }

    /** The operations the protocol performs on its work connection. */
    method RunBody(body: seq<Op>) returns (exit: Exit)
      requires cr.held == {} && cr.lockTimeoutArmed
      modifies cr, cr.db
      ensures cr.held == {}
      ensures Progress(cr.db.View(), cr.pending, exit) == Ops(old(cr.db.View()), old(cr.pending), body)
      decreases body, 0
    {
      var k := 0;
      while k < |body|
        invariant 0 <= k <= |body|
        invariant cr.held == {} && cr.lockTimeoutArmed
        invariant Ops(cr.db.View(), cr.pending, body[k..]) == Ops(old(cr.db.View()), old(cr.pending), body)
      {
        assert body[k..][0] == body[k] && body[k..][1..] == body[k + 1..];
        match body[k] {
          case Write(cell, value) =>
            cr.Execute(cell, value);
          case Checkpoint =>
            Checkpoint();
          case Discard =>
            Discard();
          case Nested(key, inner, caught) =>
            var nested := RunBlock(cr.db, cr, key, inner);
            if !nested.Completed? && !caught {
              return Failed;
            }
          case Raise =>
            return Failed;
        }
        k := k + 1;
      }
      exit := Completed;
    }
  }

  /**
   `fiscal_transaction`.  The caller's cursor is not in the frame: its pending writes are neither
   committed nor discarded.
   */
  method RunBlock(db: Database, caller: Cursor, key: int, body: seq<Op>) returns (exit: Exit)
    requires caller.db == db
    modifies db
    ensures (db.View(), exit) == Block(old(db.View()), key, body)
    ensures caller.pending == old(caller.pending) && caller.lockTimeoutArmed == old(caller.lockTimeoutArmed)
    decreases body, 1
  {
    var lockCr := new Cursor(db);
    var taken := lockCr.TryAdvisoryLock(key);
    if !taken {
      lockCr.Rollback();
      assert db.locks == old(db.locks);
      return SequenceBusy;
    }
    var workCr := new Cursor(db);
    var fiscal := new FiscalTransaction(workCr);
    fiscal.ArmLockTimeout();
    exit := fiscal.RunBody(body);
    ghost var locks := db.locks;
    if exit.Completed? {
      workCr.Commit();
    } else {
      workCr.Rollback();
    }
    lockCr.Rollback();
    assert db.locks == locks - {key};
  }
}

/**
 ARCA's side of the numbering: the log of vouchers it created, in order, and the two questions it
 answers about it.  Nothing here makes ARCA refuse a wrong number (its validation 10016): that the
 numbers arrive in order is proved of the system that sends them.
 */
module Ledger {
  import opened Base

  type Cae = string
  type AttemptId = nat

  datatype Sequence = Sequence(issuer: nat, pos: nat, docType: nat)
  datatype Coordinate = Coordinate(sequence: Sequence, number: nat)

  /** A voucher ARCA created, with the attempt whose request it answered. */
  datatype Voucher = Voucher(coord: Coordinate, cae: Cae, attempt: AttemptId)

  /** FECompUltimoAutorizado: `base` is the last number issued before this system took over. */
  function Last(base: Sequence -> nat, log: seq<Voucher>, q: Sequence): (n: nat)
    ensures base(q) <= n
  {
    if log == [] then base(q)
    else
      var before := Last(base, log[..|log| - 1], q);
      var c := log[|log| - 1].coord;
      if c.sequence == q && c.number > before then c.number else before
  }

  ghost predicate Landed(log: seq<Voucher>, a: AttemptId) {
    exists v :: v in log && v.attempt == a
  }

  /** FECompConsultar: the CAE of the voucher at a coordinate, if ARCA holds one. */
  function Consult(log: seq<Voucher>, c: Coordinate): (cae: Option<Cae>)
    ensures cae.None? <==> forall v :: v in log ==> v.coord != c
    ensures cae.Some? ==> exists v :: v in log && v.coord == c && v.cae == cae.value
  {
    if log == [] then None
    else if log[0].coord == c then
      assert log[0] in log;
      Some(log[0].cae)
    else
      assert log == [log[0]] + log[1..];
      Consult(log[1..], c)
  }

  /** Every voucher took exactly the number after the last one of its sequence. */
  ghost predicate GapFree(base: Sequence -> nat, log: seq<Voucher>) {
    forall k :: 0 <= k < |log| ==> log[k].coord.number == Last(base, log[..k], log[k].coord.sequence) + 1
  }

  lemma LastAppend(base: Sequence -> nat, log: seq<Voucher>, v: Voucher, q: Sequence)
    ensures Last(base, log + [v], q)
         == if v.coord.sequence == q && v.coord.number > Last(base, log, q)
            then v.coord.number else Last(base, log, q)
  {
    assert (log + [v])[..|log|] == log;
  }

  lemma {:induction false} NumbersUpToLast(base: Sequence -> nat, log: seq<Voucher>, v: Voucher)
    requires v in log
    ensures v.coord.number <= Last(base, log, v.coord.sequence)
  {
    var n := |log| - 1;
    if log[n] != v {
      assert log == log[..n] + [log[n]];
      NumbersUpToLast(base, log[..n], v);
    }
  }

  /** FECompUltimoAutorizado is the greatest number ARCA holds in the sequence, or the base if none is greater. */
  lemma {:induction false} LastIsTheGreatest(base: Sequence -> nat, log: seq<Voucher>, q: Sequence)
    ensures var last := Last(base, log, q);
            && base(q) <= last
            && (forall v :: v in log && v.coord.sequence == q ==> v.coord.number <= last)
            && (last == base(q) || exists v :: v in log && v.coord.sequence == q && v.coord.number == last)
  {
    forall v | v in log && v.coord.sequence == q {
      NumbersUpToLast(base, log, v);
    }
    if log != [] {
      var front, v := log[..|log| - 1], log[|log| - 1];
      assert log == front + [v];
      LastIsTheGreatest(base, front, q);
      assert v in log;
      if Last(base, log, q) == Last(base, front, q) != base(q) {
        var held :| held in front && held.coord.sequence == q && held.coord.number == Last(base, front, q);
        assert held in log;
      }
    }
  }

  lemma GapFreeAppend(base: Sequence -> nat, log: seq<Voucher>, v: Voucher)
    requires GapFree(base, log)
    requires v.coord.number == Last(base, log, v.coord.sequence) + 1
    ensures GapFree(base, log + [v])
  {
    var log' := log + [v];
    forall k | 0 <= k < |log'|
      ensures log'[k].coord.number == Last(base, log'[..k], log'[k].coord.sequence) + 1
    {
      if k < |log| {
        assert log'[..k] == log[..k];
      } else {
        assert log'[..k] == log;
      }
    }
  }

  lemma GapFreePrefix(base: Sequence -> nat, log: seq<Voucher>, n: nat)
    requires GapFree(base, log) && n <= |log|
    ensures GapFree(base, log[..n])
  {
    forall k | 0 <= k < n
      ensures log[..n][k].coord.number == Last(base, log[..n][..k], log[..n][k].coord.sequence) + 1
    {
      assert log[..n][..k] == log[..k];
    }
  }

  /** A gap-free ledger holds each number after the base up to the last one, ... */
  lemma {:induction false} GapFreeHoldsEveryNumber(base: Sequence -> nat, log: seq<Voucher>, c: Coordinate)
    requires GapFree(base, log)
    ensures base(c.sequence) < c.number <= Last(base, log, c.sequence)
            <==> exists v :: v in log && v.coord == c
  {
    if log != [] {
      var n := |log| - 1;
      var before, v := log[..n], log[n];
      assert log == before + [v];
      GapFreePrefix(base, log, n);
      GapFreeHoldsEveryNumber(base, before, c);
      LastAppend(base, before, v, c.sequence);
      if v.coord == c {
        assert v in log;
      }
    }
  }

  /** ... and holds it once. */
  lemma {:induction false} GapFreeHoldsItOnce(base: Sequence -> nat, log: seq<Voucher>, j: nat, k: nat)
    requires GapFree(base, log)
    requires j < k < |log|
    ensures log[j].coord != log[k].coord
  {
    NumbersUpToLast(base, log[..k], log[..k][j]);
  }
}

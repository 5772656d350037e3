/**
 The order in which the scheduled pass takes pending invoices, `invoice_date asc, name asc`, against
 the order ARCA needs, number by number in each sequence.
 */
module PendingOrder {
  import opened Ledger

  // ----- names ---------------------------------------------------------------------------------

  function Power10(width: nat): nat { if width == 0 then 1 else 10 * Power10(width - 1) }

  const DIGITS := "0123456789"

  /** A number written with `width` digits, zero padded. */
  function Padded(width: nat, n: nat): (text: string)
    requires n < Power10(width)
    ensures |text| == width
  {
    if width == 0 then "" else Padded(width - 1, n / 10) + [DIGITS[n % 10]]
  }

  /** String order, character by character. */
  predicate LexLess(a: string, b: string) {
    if b == "" then false
    else if a == "" then true
    else a[0] < b[0] || (a[0] == b[0] && LexLess(a[1..], b[1..]))
  }

  lemma {:induction false} LexAfterPrefix(p: string, a: string, b: string)
    ensures LexLess(p + a, p + b) <==> LexLess(a, b)
    decreases |p|
  {
    if p == "" {
      assert p + a == a && p + b == b;
    } else {
      assert (p + a)[1..] == p[1..] + a && (p + b)[1..] == p[1..] + b;
      LexAfterPrefix(p[1..], a, b);
    }
  }

  lemma {:induction false} LexLastDigit(a: string, x: char, b: string, y: char)
    requires |a| == |b|
    ensures LexLess(a + [x], b + [y]) <==> LexLess(a, b) || (a == b && x < y)
    decreases |a|
  {
    if a == "" {
      assert a + [x] == [x] && b + [y] == [y];
      assert [x][1..] == "" && [y][1..] == "";
    } else {
      assert (a + [x])[1..] == a[1..] + [x] && (b + [y])[1..] == b[1..] + [y];
      LexLastDigit(a[1..], x, b[1..], y);
      assert a == b <==> a[0] == b[0] && a[1..] == b[1..];
    }
  }

  /** Zero padding makes the order of the texts the order of the numbers. */
  lemma {:induction false} PaddedOrder(width: nat, m: nat, n: nat)
    requires m < Power10(width) && n < Power10(width)
    ensures LexLess(Padded(width, m), Padded(width, n)) <==> m < n
    ensures Padded(width, m) == Padded(width, n) <==> m == n
    decreases width
  {
    if width > 0 {
      PaddedOrder(width - 1, m / 10, n / 10);
      var a, b := Padded(width - 1, m / 10), Padded(width - 1, n / 10);
      var x, y := DIGITS[m % 10], DIGITS[n % 10];
      LexLastDigit(a, x, b, y);
      assert x < y <==> m % 10 < n % 10;
      assert a + [x] == b + [y] ==> a == b && x == y by {
        if a + [x] == b + [y] {
          assert (a + [x])[..width - 1] == a && (b + [y])[..width - 1] == b;
        }
      }
    }
  }

  lemma {:induction false} LexIsAnOrder(a: string, b: string, c: string)
    ensures !LexLess(a, a)
    ensures LexLess(a, b) && LexLess(b, c) ==> LexLess(a, c)
    decreases |a| + |b| + |c|
  {
    if a != "" {
      LexIsAnOrder(a[1..], if b == "" then "" else b[1..], if c == "" then "" else c[1..]);
    }
  }

  // ----- ORDER BY invoice_date, name ------------------------------------------------------------

  datatype Rank = Rank(date: nat, name: string)

  predicate Before(a: Rank, b: Rank) { a.date < b.date || (a.date == b.date && LexLess(a.name, b.name)) }

  lemma BeforeIsAnOrder(a: Rank, b: Rank, c: Rank)
    ensures !Before(a, a)
    ensures Before(a, b) && Before(b, c) ==> Before(a, c)
  {
    LexIsAnOrder(a.name, b.name, c.name);
  }

  predicate Sorted(ranks: seq<Rank>) { forall i, j | 0 <= i < j < |ranks| :: !Before(ranks[j], ranks[i]) }

  /** Where a rank goes among sorted ones: after all it is not before. */
  method Place(ranks: seq<Rank>, rank: Rank) returns (k: nat)
    requires Sorted(ranks)
    ensures k <= |ranks| && Sorted(ranks[..k] + [rank] + ranks[k..])
  {
    k := 0;
    while k < |ranks| && !Before(rank, ranks[k])
      invariant k <= |ranks|
      invariant forall j :: 0 <= j < k ==> !Before(rank, ranks[j])
    {
      k := k + 1;
    }
    forall j | k <= j < |ranks|
      ensures !Before(ranks[j], rank)
    {
      BeforeIsAnOrder(ranks[j], rank, ranks[k]);
    }
  }

  // ----- the selection ---------------------------------------------------------------------------

  datatype Doc = Doc(date: nat, coord: Coordinate)

  const NUMBER_WIDTH: nat := 8

  predicate Nameable(d: Doc) { d.coord.number < Power10(NUMBER_WIDTH) }

  function Name(prefix: Sequence -> string, d: Doc): string
    requires Nameable(d)
  {
    prefix(d.coord.sequence) + Padded(NUMBER_WIDTH, d.coord.number)
  }

  /** ORDER BY invoice_date, name. */
  ghost predicate Ordered(prefix: Sequence -> string, docs: seq<Doc>)
    requires forall d :: d in docs ==> Nameable(d)
  {
    forall i, j :: 0 <= i < j < |docs| ==>
      docs[i].date < docs[j].date
      || (docs[i].date == docs[j].date && !LexLess(Name(prefix, docs[j]), Name(prefix, docs[i])))
  }

  /** Each sequence's numbers follow the last one without gap or repetition, and dates never go back. */
  ghost predicate FollowsOn(last: Sequence -> nat, docs: seq<Doc>) {
    && (forall j :: 0 <= j < |docs| ==> docs[j].coord.number > last(docs[j].coord.sequence))
    && (forall j :: 0 <= j < |docs| ==> docs[j].coord.number == last(docs[j].coord.sequence) + 1
                                        || Has(docs, docs[j].coord.sequence, docs[j].coord.number - 1))
    && (forall i, j :: 0 <= i < |docs| && 0 <= j < |docs| && i != j ==> docs[i].coord != docs[j].coord)
    && (forall i, j :: 0 <= i < |docs| && 0 <= j < |docs| && docs[i].coord.sequence == docs[j].coord.sequence
                       && docs[i].coord.number < docs[j].coord.number
                       ==> docs[i].date <= docs[j].date)
  }

  ghost predicate Has(docs: seq<Doc>, q: Sequence, number: int) {
    exists i :: 0 <= i < |docs| && docs[i].coord.sequence == q && docs[i].coord.number == number
  }

  function CountOf(coords: seq<Coordinate>, q: Sequence): nat {
    if coords == [] then 0
    else CountOf(coords[..|coords| - 1], q) + (if coords[|coords| - 1].sequence == q then 1 else 0)
  }

  /** The order ARCA needs: each number is the next one once those before it are taken. */
  ghost predicate InTurn(last: Sequence -> nat, coords: seq<Coordinate>) {
    forall k :: 0 <= k < |coords| ==>
      coords[k].number == last(coords[k].sequence) + 1 + CountOf(coords[..k], coords[k].sequence)
  }

  function Coords(docs: seq<Doc>): seq<Coordinate> { seq(|docs|, i requires 0 <= i < |docs| => docs[i].coord) }

  /** Within a sequence the selection goes up. */
  lemma SelectionGoesUp(prefix: Sequence -> string, last: Sequence -> nat, docs: seq<Doc>, i: nat, j: nat)
    requires forall d :: d in docs ==> Nameable(d)
    requires Ordered(prefix, docs) && FollowsOn(last, docs)
    requires i < j < |docs| && docs[i].coord.sequence == docs[j].coord.sequence
    ensures docs[i].coord.number < docs[j].coord.number
  {
    var m, n := docs[i].coord.number, docs[j].coord.number;
    assert docs[i].coord != docs[j].coord;
    assert docs[i] in docs && docs[j] in docs;
    if n < m {
      assert docs[j].date <= docs[i].date;
      PaddedOrder(NUMBER_WIDTH, n, m);
      LexAfterPrefix(prefix(docs[i].coord.sequence), Padded(NUMBER_WIDTH, n), Padded(NUMBER_WIDTH, m));
      assert false;
    }
  }

  /** The first `k` selected hold, of each sequence, exactly the numbers up to a count. */
  lemma {:induction false} SelectedAreTheFirst(prefix: Sequence -> string, last: Sequence -> nat, docs: seq<Doc>,
                                               k: nat, q: Sequence, number: nat)
    requires forall d :: d in docs ==> Nameable(d)
    requires Ordered(prefix, docs) && FollowsOn(last, docs) && k <= |docs|
    ensures last(q) < number <= last(q) + CountOf(Coords(docs)[..k], q)
            <==> exists i :: 0 <= i < k && docs[i].coord == Coordinate(q, number)
    decreases k, 0
  {
    if k > 0 {
      var coords := Coords(docs);
      assert coords[..k][..k - 1] == coords[..k - 1];
      SelectedAreTheFirst(prefix, last, docs, k - 1, q, number);
      if docs[k - 1].coord.sequence == q {
        NextSelected(prefix, last, docs, k - 1);
      }
    }
  }

  lemma {:induction false} NextSelected(prefix: Sequence -> string, last: Sequence -> nat, docs: seq<Doc>, k: nat)
    requires forall d :: d in docs ==> Nameable(d)
    requires Ordered(prefix, docs) && FollowsOn(last, docs) && k < |docs|
    ensures docs[k].coord.number
         == last(docs[k].coord.sequence) + 1 + CountOf(Coords(docs)[..k], docs[k].coord.sequence)
    decreases k, 1
  {
    var q, n := docs[k].coord.sequence, docs[k].coord.number;
    var taken := CountOf(Coords(docs)[..k], q);
    SelectedAreTheFirst(prefix, last, docs, k, q, n);
    assert n > last(q) + taken;
    if n > last(q) + 1 {
      assert Has(docs, q, n - 1);
      var i :| 0 <= i < |docs| && docs[i].coord.sequence == q && docs[i].coord.number == n - 1;
      if i > k {
        SelectionGoesUp(prefix, last, docs, k, i);
      }
      SelectedAreTheFirst(prefix, last, docs, k, q, n - 1);
    }
  }

  /** The pass takes every sequence in the order ARCA needs, wherever its limit cuts the selection. */
  lemma SelectionIsInTurn(prefix: Sequence -> string, last: Sequence -> nat, docs: seq<Doc>, limit: nat)
    requires forall d :: d in docs ==> Nameable(d)
    requires Ordered(prefix, docs) && FollowsOn(last, docs) && limit <= |docs|
    ensures InTurn(last, Coords(docs[..limit]))
  {
    var coords := Coords(docs[..limit]);
    forall k | 0 <= k < |coords|
      ensures coords[k].number == last(coords[k].sequence) + 1 + CountOf(coords[..k], coords[k].sequence)
    {
      assert coords[..k] == Coords(docs)[..k];
      NextSelected(prefix, last, docs, k);
    }
  }
}

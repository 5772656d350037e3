/**
 The amounts of a request: rounding to cents, the VAT lines totalled per aliquot, and the breakdown
 checked against what the customer was invoiced. Amounts are exact.
 */
module FiscalAmounts {
  import opened Base
  import opened Ordering

  // ----- rounding -------------------------------------------------------------------------------

  function Abs(x: real): real { if x < 0.0 then -x else x }

  function Money(cents: int): real { cents as real / 100.0 }

  predicate IsMoney(x: real) { x == Money((x * 100.0).Floor) }

  /** `float_round(x, precision_digits=2)`: the nearest cent, a tie going away from zero. */
  function Cents(x: real): int {
    if x >= 0.0 then (x * 100.0 + 0.5).Floor else -(-x * 100.0 + 0.5).Floor
  }

  function Round2(x: real): real { Money(Cents(x)) }

  lemma RoundIsNearest(x: real, cents: int)
    ensures Abs(Round2(x) - x) <= Abs(Money(cents) - x)
    ensures Abs(Round2(x) - x) == Abs(Money(cents) - x) && cents != Cents(x) ==> Abs(Money(cents)) < Abs(Round2(x))
  {
  }

  lemma RoundError(x: real)
    ensures -0.005 <= Round2(x) - x <= 0.005
  {
  }

  lemma CentsOfMoney(cents: int)
    ensures Cents(Money(cents)) == cents
    ensures IsMoney(Money(cents))
  {
  }

  // ----- VAT per aliquot ------------------------------------------------------------------------

  datatype VatLine = VatLine(id: nat, base: real, tax: real)
  datatype AlicIva = AlicIva(id: nat, baseImp: real, importe: real)
  datatype VatResult = Aggregated(entries: seq<AlicIva>) | NotAnAliquot(id: nat)

  const VAT_ALIQUOT_IDS: set<nat> := {3, 4, 5, 6, 8, 9}

  predicate AllAccepted(lines: seq<VatLine>) { forall k | 0 <= k < |lines| :: lines[k].id in VAT_ALIQUOT_IDS }

  function Ids(lines: seq<VatLine>): set<nat> { set line | line in lines :: line.id }

  /** The two amounts of a line. */
  datatype Part = Base | Tax

  function Amount(line: VatLine, part: Part): real { if part.Base? then line.base else line.tax }

  function Sent(entry: AlicIva, part: Part): real { if part.Base? then entry.baseImp else entry.importe }

  function SumOf(lines: seq<VatLine>, id: nat, part: Part): real {
    if lines == [] then 0.0
    else
      var line := lines[|lines| - 1];
      SumOf(lines[..|lines| - 1], id, part) + if line.id == id then Amount(line, part) else 0.0
  }

  function Rounded(lines: seq<VatLine>, id: nat): AlicIva {
    AlicIva(id, Round2(SumOf(lines, id, Base)), Round2(SumOf(lines, id, Tax)))
  }

  /** What the AlicIva group has to hold: one entry per aliquot that occurs, in ascending order. */
  function Aggregation(lines: seq<VatLine>): seq<AlicIva> {
    var ids := Ascending(Ids(lines));
    seq(|ids|, k requires 0 <= k < |ids| => Rounded(lines, ids[k]))
  }

  ghost predicate Totals(aggregated: map<nat, AlicIva>, lines: seq<VatLine>) {
    && aggregated.Keys == Ids(lines)
    && forall id :: id in aggregated ==> aggregated[id] == AlicIva(id, SumOf(lines, id, Base), SumOf(lines, id, Tax))
  }

  lemma IdsGrow(lines: seq<VatLine>, line: VatLine)
    ensures Ids(lines + [line]) == Ids(lines) + {line.id}
  {
    assert (lines + [line])[|lines|] == line;
    forall id | id in Ids(lines)
      ensures id in Ids(lines + [line])
    {
      var l :| l in lines && l.id == id;
      assert l in lines + [line];
    }
  }

  lemma AbsentIsZero(lines: seq<VatLine>, id: nat, part: Part)
    requires id !in Ids(lines)
    ensures SumOf(lines, id, part) == 0.0
  {
    if lines != [] {
      var front, line := lines[..|lines| - 1], lines[|lines| - 1];
      assert lines == front + [line];
      IdsGrow(front, line);
      AbsentIsZero(front, id, part);
    }
  }

  /** What `setdefault` finds or starts. */
  function EntryOf(aggregated: map<nat, AlicIva>, id: nat): AlicIva {
    if id in aggregated then aggregated[id] else AlicIva(id, 0.0, 0.0)
  }

  lemma TotalsGrow(aggregated: map<nat, AlicIva>, lines: seq<VatLine>, line: VatLine)
    requires Totals(aggregated, lines)
    ensures var entry := EntryOf(aggregated, line.id);
            Totals(aggregated[line.id := AlicIva(line.id, entry.baseImp + line.base, entry.importe + line.tax)],
                   lines + [line])
  {
    IdsGrow(lines, line);
    assert (lines + [line])[..|lines|] == lines;
    if line.id !in aggregated {
      AbsentIsZero(lines, line.id, Base);
      AbsentIsZero(lines, line.id, Tax);
    }
  }

  /** The first loop of `_aggregate_vat`: totals per aliquot, stopped by a line outside the accepted ones. */
  method SumPerAliquot(lines: seq<VatLine>) returns (aggregated: map<nat, AlicIva>, refused: Option<nat>)
    ensures refused.None? <==> AllAccepted(lines)
    ensures refused.None? ==> Totals(aggregated, lines)
    ensures refused.Some? ==> FirstRefused(lines, refused.value)
  {
    aggregated := map[];
    for i := 0 to |lines|
      invariant AllAccepted(lines[..i])
      invariant Totals(aggregated, lines[..i])
    {
      var line := lines[i];
      if line.id !in VAT_ALIQUOT_IDS {
        return aggregated, Some(line.id);
      }
      TotalsGrow(aggregated, lines[..i], line);
      assert lines[..i + 1] == lines[..i] + [line];
      var entry := EntryOf(aggregated, line.id);
      aggregated := aggregated[line.id := AlicIva(line.id, entry.baseImp + line.base, entry.importe + line.tax)];
    }
    assert lines[..|lines|] == lines;
    refused := None;
  }

  ghost predicate FirstRefused(lines: seq<VatLine>, id: nat) {
    exists k :: 0 <= k < |lines| && lines[k].id == id && id !in VAT_ALIQUOT_IDS && AllAccepted(lines[..k])
  }

  /** The second loop: every entry rounded, in whatever order the entries come. */
  method RoundEntries(sums: map<nat, AlicIva>) returns (rounded: map<nat, AlicIva>)
    ensures rounded.Keys == sums.Keys
    ensures forall id :: id in sums ==>
              rounded[id] == AlicIva(sums[id].id, Round2(sums[id].baseImp), Round2(sums[id].importe))
  {
    rounded := sums;
    var left := sums.Keys;
    while left != {}
      invariant left <= rounded.Keys == sums.Keys
      invariant forall id :: id in left ==> rounded[id] == sums[id]
      invariant forall id :: id in sums && id !in left ==>
                  rounded[id] == AlicIva(sums[id].id, Round2(sums[id].baseImp), Round2(sums[id].importe))
      decreases |left|
    {
      var id :| id in left;
      var entry := rounded[id];
      rounded := rounded[id := AlicIva(entry.id, Round2(entry.baseImp), Round2(entry.importe))];
      left := left - {id};
    }
  }

  /** `[aggregated[key] for key in sorted(aggregated)]`. */
  function InOrder(aggregated: map<nat, AlicIva>): seq<AlicIva> {
    var keys := Ascending(aggregated.Keys);
    seq(|keys|, k requires 0 <= k < |keys| => assert keys[k] in keys; aggregated[keys[k]])
  }

  lemma InOrderIsAggregation(lines: seq<VatLine>, sums: map<nat, AlicIva>, rounded: map<nat, AlicIva>)
    requires Totals(sums, lines) && rounded.Keys == sums.Keys
    requires forall id :: id in sums ==>
               rounded[id] == AlicIva(sums[id].id, Round2(sums[id].baseImp), Round2(sums[id].importe))
    ensures InOrder(rounded) == Aggregation(lines)
  {
    var keys := Ascending(rounded.Keys);
    forall k | 0 <= k < |keys|
      ensures InOrder(rounded)[k] == Rounded(lines, keys[k])
    {
      assert keys[k] in keys;
    }
  }

  /** The lines that are refused are those of any other aliquot than these six. */
  lemma TheSixAliquots(lines: seq<VatLine>)
    ensures AllAccepted(lines) <==> forall line :: line in lines ==> line.id in {3, 4, 5, 6, 8, 9}
  {
    forall k | 0 <= k < |lines|
      ensures lines[k] in lines
    {
    }
  }

  /** `_aggregate_vat`. */
  method AggregateVat(lines: seq<VatLine>) returns (r: VatResult)
    ensures r.Aggregated? <==> AllAccepted(lines)
    ensures r.Aggregated? ==> r.entries == Aggregation(lines)
    ensures r.NotAnAliquot? ==> FirstRefused(lines, r.id)
  {
    var sums, refused := SumPerAliquot(lines);
    if refused.Some? {
      return NotAnAliquot(refused.value);
    }
    var aggregated := RoundEntries(sums);
    InOrderIsAggregation(lines, sums, aggregated);
    r := Aggregated(InOrder(aggregated));
  }

  lemma AtMostSix(lines: seq<VatLine>)
    requires AllAccepted(lines)
    ensures |Aggregation(lines)| <= 6
  {
    assert Ids(lines) <= VAT_ALIQUOT_IDS;
    SubsetSize(Ids(lines), VAT_ALIQUOT_IDS);
  }

  /** Validation 10022: an aliquot at most once; all of them accepted, sorted and in cents, and none
      that the lines use is missing. */
  lemma EachAliquotOnceInOrder(lines: seq<VatLine>)
    requires AllAccepted(lines)
    ensures var r := Aggregation(lines);
            && |r| <= 6
            && (forall i, j :: 0 <= i < j < |r| ==> r[i].id < r[j].id)
            && (forall i :: 0 <= i < |r| ==>
                  r[i].id in VAT_ALIQUOT_IDS && IsMoney(r[i].baseImp) && IsMoney(r[i].importe))
            && forall k :: 0 <= k < |lines| ==> lines[k].id in (set i | 0 <= i < |r| :: r[i].id)
  {
    var ids, r := Ascending(Ids(lines)), Aggregation(lines);
    AtMostSix(lines);
    assert Ids(lines) <= VAT_ALIQUOT_IDS;
    forall i | 0 <= i < |ids|
      ensures ids[i] in VAT_ALIQUOT_IDS && IsMoney(r[i].baseImp) && IsMoney(r[i].importe)
    {
      assert ids[i] in ids;
      CentsOfMoney(Cents(SumOf(lines, ids[i], Base)));
      CentsOfMoney(Cents(SumOf(lines, ids[i], Tax)));
    }
    forall k | 0 <= k < |lines|
      ensures lines[k].id in (set i | 0 <= i < |r| :: r[i].id)
    {
      assert lines[k] in lines;
      assert lines[k].id in ids;
      var i :| 0 <= i < |ids| && ids[i] == lines[k].id;
      assert r[i].id == lines[k].id;
    }
  }

  lemma SubsetSize(a: set<nat>, b: set<nat>)
    requires a <= b
    ensures |a| <= |b|
  {
    assert b == a + (b - a);
  }

  // ----- order of the lines ---------------------------------------------------------------------

  lemma {:induction false} SumOfSplit(a: seq<VatLine>, b: seq<VatLine>, id: nat, part: Part)
    ensures SumOf(a + b, id, part) == SumOf(a, id, part) + SumOf(b, id, part)
    decreases |b|
  {
    if b == [] {
      assert a + b == a;
    } else {
      SumOfSplit(a, b[..|b| - 1], id, part);
      assert (a + b)[..|a + b| - 1] == a + b[..|b| - 1];
    }
  }

  /** A line can be taken out of anywhere. */
  lemma TakeOut(before: seq<VatLine>, line: VatLine, after: seq<VatLine>, id: nat, part: Part)
    ensures SumOf(before + [line] + after, id, part) == SumOf(before + after, id, part) + SumOf([line], id, part)
  {
    SumOfSplit(before, after, id, part);
    SumOfSplit(before, [line], id, part);
    SumOfSplit(before + [line], after, id, part);
  }

  lemma SameWithoutIt(front: seq<VatLine>, before: seq<VatLine>, line: VatLine, after: seq<VatLine>)
    requires multiset(front + [line]) == multiset(before + [line] + after)
    ensures multiset(front) == multiset(before + after)
  {
    var a, b := multiset(front), multiset(before + after);
    assert a + multiset{line} == b + multiset{line};
    forall x
      ensures a[x] == b[x]
    {
      assert (a + multiset{line})[x] == (b + multiset{line})[x];
    }
  }

  lemma {:induction false} SumsIgnoreOrder(a: seq<VatLine>, b: seq<VatLine>, id: nat, part: Part)
    requires multiset(a) == multiset(b)
    ensures SumOf(a, id, part) == SumOf(b, id, part)
    decreases |a|
  {
    if a == [] {
      assert |b| == |multiset(b)| == 0;
    } else {
      var front, line := a[..|a| - 1], a[|a| - 1];
      assert a == front + [line];
      assert line in multiset(b);
      var k :| 0 <= k < |b| && b[k] == line;
      var before, after := b[..k], b[k + 1..];
      assert b == before + [line] + after;
      SameWithoutIt(front, before, line, after);
      SumsIgnoreOrder(front, before + after, id, part);
      TakeOut(before, line, after, id, part);
      SumOfSplit(front, [line], id, part);
    }
  }

  /** The group sent does not depend on the order of the invoice's lines. */
  lemma OrderDoesNotMatter(a: seq<VatLine>, b: seq<VatLine>)
    requires multiset(a) == multiset(b)
    ensures AllAccepted(a) <==> AllAccepted(b)
    ensures Aggregation(a) == Aggregation(b)
  {
    assert forall line :: line in a <==> line in multiset(a);
    assert forall line :: line in b <==> line in multiset(b);
    assert Ids(a) == Ids(b);
    assert forall k :: 0 <= k < |a| ==> a[k] in b;
    assert forall k :: 0 <= k < |b| ==> b[k] in a;
    forall id, part
      ensures SumOf(a, id, part) == SumOf(b, id, part)
    {
      SumsIgnoreOrder(a, b, id, part);
    }
  }

  // ----- conservation ---------------------------------------------------------------------------

  function Total(lines: seq<VatLine>, part: Part): real {
    if lines == [] then 0.0 else Total(lines[..|lines| - 1], part) + Amount(lines[|lines| - 1], part)
  }

  function TotalSent(entries: seq<AlicIva>, part: Part): real {
    if entries == [] then 0.0 else TotalSent(entries[..|entries| - 1], part) + Sent(entries[|entries| - 1], part)
  }

  /** The total of the lines whose aliquot is among the given ones. */
  function TotalAmong(lines: seq<VatLine>, ids: seq<nat>, part: Part): real {
    if lines == [] then 0.0
    else
      var line := lines[|lines| - 1];
      TotalAmong(lines[..|lines| - 1], ids, part) + if line.id in ids then Amount(line, part) else 0.0
  }

  lemma {:induction false} AmongOneMore(lines: seq<VatLine>, ids: seq<nat>, id: nat, part: Part)
    requires id !in ids
    ensures TotalAmong(lines, ids + [id], part) == TotalAmong(lines, ids, part) + SumOf(lines, id, part)
  {
    if lines != [] {
      AmongOneMore(lines[..|lines| - 1], ids, id, part);
    }
  }

  lemma {:induction false} AmongNone(lines: seq<VatLine>, part: Part)
    ensures TotalAmong(lines, [], part) == 0.0
  {
    if lines != [] {
      AmongNone(lines[..|lines| - 1], part);
    }
  }

  lemma {:induction false} AmongAll(lines: seq<VatLine>, ids: seq<nat>, part: Part)
    requires forall line :: line in lines ==> line.id in ids
    ensures TotalAmong(lines, ids, part) == Total(lines, part)
  {
    if lines != [] {
      AmongAll(lines[..|lines| - 1], ids, part);
    }
  }

  /** Apart by no more than n times half a cent. */
  predicate Within(x: real, y: real, n: nat) { -(n as real) <= 200.0 * (x - y) <= n as real }

  lemma WithinOneMore(x: real, y: real, n: nat, dx: real, dy: real)
    requires Within(x, y, n) && -0.005 <= dx - dy <= 0.005
    ensures Within(x + dx, y + dy, n + 1)
  {
    assert 200.0 * (x + dx - (y + dy)) == 200.0 * (x - y) + 200.0 * (dx - dy);
  }

  /** Half a cent at most per aliquot so far. */
  lemma {:induction false} PrefixIsClose(lines: seq<VatLine>, ids: seq<nat>, r: seq<AlicIva>, n: nat, part: Part)
    requires n <= |ids| == |r| && Increasing(ids) && forall k :: 0 <= k < |ids| ==> r[k] == Rounded(lines, ids[k])
    ensures Within(TotalSent(r[..n], part), TotalAmong(lines, ids[..n], part), n)
  {
    if n == 0 {
      AmongNone(lines, part);
    } else {
      PrefixIsClose(lines, ids, r, n - 1, part);
      OneMoreEntry(lines, ids, r, n, part);
      WithinOneMore(TotalSent(r[..n - 1], part), TotalAmong(lines, ids[..n - 1], part), n - 1,
                    Sent(r[n - 1], part), SumOf(lines, ids[n - 1], part));
    }
  }

  lemma OneMoreEntry(lines: seq<VatLine>, ids: seq<nat>, r: seq<AlicIva>, n: nat, part: Part)
    requires 0 < n <= |ids| == |r| && Increasing(ids) && r[n - 1] == Rounded(lines, ids[n - 1])
    ensures TotalSent(r[..n], part) == TotalSent(r[..n - 1], part) + Sent(r[n - 1], part)
    ensures TotalAmong(lines, ids[..n], part) == TotalAmong(lines, ids[..n - 1], part) + SumOf(lines, ids[n - 1], part)
    ensures -0.005 <= Sent(r[n - 1], part) - SumOf(lines, ids[n - 1], part) <= 0.005
  {
    assert r[..n][..n - 1] == r[..n - 1];
    assert ids[..n] == ids[..n - 1] + [ids[n - 1]];
    AmongOneMore(lines, ids[..n - 1], ids[n - 1], part);
    RoundError(SumOf(lines, ids[n - 1], part));
  }

  /** Nothing is lost: each total differs from the lines' by the rounding of each entry only. */
  lemma AggregationConserves(lines: seq<VatLine>, part: Part)
    ensures Within(TotalSent(Aggregation(lines), part), Total(lines, part), |Aggregation(lines)|)
  {
    var ids, r := Ascending(Ids(lines)), Aggregation(lines);
    PrefixIsClose(lines, ids, r, |ids|, part);
    assert r[..|ids|] == r && ids[..|ids|] == ids;
    assert forall line :: line in lines ==> line.id in Ids(lines);
    AmongAll(lines, ids, part);
  }

  // ----- the breakdown --------------------------------------------------------------------------

  /** l10n_ar's own amounts, unrounded. */
  datatype Breakdown = Breakdown(untaxed: real, taxable: real, exempt: real, vat: real, otherTaxes: real)

  datatype Payload = Payload(
    impTotConc: real, impNeto: real, impOpEx: real, impIVA: real, impTrib: real, impTotal: real, iva: seq<AlicIva>)

  datatype AmountsResult = Amounts(payload: Payload) | TotalMismatch | VatRefused(id: nat)

  const CLASS_C_DOCUMENT_TYPES: set<nat> := {11, 12, 13, 15, 211, 212, 213}
  const AMOUNT_ABSOLUTE_TOLERANCE := 0.01
  const AMOUNT_RELATIVE_TOLERANCE := 0.0001

  /** `_check_total`. */
  predicate TotalAccepted(amountTotal: real, computed: real) {
    var invoiceTotal := Round2(Abs(amountTotal));
    var difference := Abs(invoiceTotal - computed);
    var relative := if invoiceTotal != 0.0 then difference / invoiceTotal else difference;
    !(difference > AMOUNT_ABSOLUTE_TOLERANCE && relative > AMOUNT_RELATIVE_TOLERANCE)
  }

  function Max(a: real, b: real): real { if a < b then b else a }

  /** Validation 10048: one centavo, or one part in ten thousand, whichever is more. */
  lemma TotalAcceptedIffWithinTolerance(amountTotal: real, computed: real)
    ensures var invoiced := Round2(Abs(amountTotal));
            TotalAccepted(amountTotal, computed) <==> Abs(invoiced - computed) <= Max(0.01, 0.0001 * invoiced)
  {
    var invoiced := Round2(Abs(amountTotal));
    var difference := Abs(invoiced - computed);
    assert invoiced >= 0.0;
    if invoiced != 0.0 {
      RatioAbove(difference, invoiced, 0.0001);
    }
  }

  lemma RatioAbove(a: real, b: real, c: real)
    requires b > 0.0
    ensures a / b > c <==> a > c * b
  {
  }

  /** What the amounts mean before rounding: class C does not break VAT out. */
  function Declared(docType: nat, b: Breakdown): Breakdown {
    if docType in CLASS_C_DOCUMENT_TYPES then Breakdown(0.0, b.taxable, 0.0, 0.0, b.otherTaxes) else b
  }

  function Sum(b: Breakdown): real { b.untaxed + b.taxable + b.exempt + b.vat + b.otherTaxes }

  function RoundParts(b: Breakdown): Breakdown {
    Breakdown(Round2(b.untaxed), Round2(b.taxable), Round2(b.exempt), Round2(b.vat), Round2(b.otherTaxes))
  }

  function Parts(p: Payload): Breakdown { Breakdown(p.impTotConc, p.impNeto, p.impOpEx, p.impIVA, p.impTrib) }

  /** Rounding the sum of the rounded parts changes nothing, and the five roundings together move the
      total by two and a half cents at most. */
  lemma RoundedPartsAddUp(b: Breakdown)
    ensures Round2(Sum(RoundParts(b))) == Sum(RoundParts(b))
    ensures Abs(Sum(RoundParts(b)) - Sum(b)) <= 0.025
  {
    RoundError(b.untaxed);
    RoundError(b.taxable);
    RoundError(b.exempt);
    RoundError(b.vat);
    RoundError(b.otherTaxes);
    var cents := Cents(b.untaxed) + Cents(b.taxable) + Cents(b.exempt) + Cents(b.vat) + Cents(b.otherTaxes);
    assert Sum(RoundParts(b)) == Money(cents);
    CentsOfMoney(cents);
  }

  function VatSent(docType: nat, lines: seq<VatLine>): seq<VatLine> {
    if docType in CLASS_C_DOCUMENT_TYPES then [] else lines
  }

  /** `_amounts`: the total is checked before the VAT lines are looked at. */
  method RequestAmounts(docType: nat, b: Breakdown, lines: seq<VatLine>, amountTotal: real) returns (r: AmountsResult)
    ensures var d := Declared(docType, b);
            && (r.TotalMismatch? <==> !TotalAccepted(amountTotal, Sum(RoundParts(d))))
            && (r.Amounts? ==>
                  && Parts(r.payload) == RoundParts(d)
                  && r.payload.impTotal == Sum(Parts(r.payload))
                  && Abs(r.payload.impTotal - Sum(d)) <= 0.025
                  && TotalAccepted(amountTotal, r.payload.impTotal))
    ensures r.VatRefused? ==> FirstRefused(VatSent(docType, lines), r.id)
    ensures r.Amounts? ==> AllAccepted(VatSent(docType, lines)) && r.payload.iva == Aggregation(VatSent(docType, lines))
    ensures r.Amounts? && docType in {11, 12, 13, 15, 211, 212, 213} ==>
              && r.payload.impNeto == Round2(b.taxable) && r.payload.impTrib == Round2(b.otherTaxes)
              && r.payload.impTotConc == r.payload.impOpEx == r.payload.impIVA == 0.0 && r.payload.iva == []
    ensures r.Amounts? && docType !in {11, 12, 13, 15, 211, 212, 213} ==>
              && r.payload.impTotConc == Round2(b.untaxed) && r.payload.impNeto == Round2(b.taxable)
              && r.payload.impOpEx == Round2(b.exempt) && r.payload.impIVA == Round2(b.vat)
              && r.payload.impTrib == Round2(b.otherTaxes) && r.payload.iva == Aggregation(lines)
  {
    assert Ids([]) == {};
    var values: Breakdown, vatLines: seq<VatLine>;
    if docType in CLASS_C_DOCUMENT_TYPES {
      values, vatLines := Breakdown(0.0, b.taxable, 0.0, 0.0, b.otherTaxes), [];
    } else {
      values, vatLines := b, lines;
    }
    RoundedPartsAddUp(values);
    values := RoundParts(values);
    var total := Round2(Sum(values));
    if !TotalAccepted(amountTotal, total) {
      return TotalMismatch;
    }
    var vat := AggregateVat(vatLines);
    match vat {
      case NotAnAliquot(id) => r := VatRefused(id);
      case Aggregated(entries) =>
        r := Amounts(Payload(values.untaxed, values.taxable, values.exempt, values.vat, values.otherTaxes,
                             total, entries));
    }
  }

  /** Class C: the two parts that are declared, and no VAT anywhere. */
  lemma ClassCHasNoVat(docType: nat, b: Breakdown, lines: seq<VatLine>)
    requires docType in {11, 12, 13, 15, 211, 212, 213}
    ensures var parts := RoundParts(Declared(docType, b));
            && Sum(parts) == Round2(b.taxable) + Round2(b.otherTaxes) && parts.vat == 0.0
            && Abs(Sum(parts) - (b.taxable + b.otherTaxes)) <= 0.01
            && Aggregation(VatSent(docType, lines)) == []
  {
    CentsOfMoney(0);
    RoundError(b.taxable);
    RoundError(b.otherTaxes);
    assert Ids([]) == {};
  }

  /** When the lines add up to the VAT of the breakdown, the group and ImpIVA agree within 3.5 cents. */
  lemma VatGroupMatchesImpIVA(lines: seq<VatLine>, vat: real)
    requires AllAccepted(lines) && Total(lines, Tax) == vat
    ensures Abs(TotalSent(Aggregation(lines), Tax) - Round2(vat)) <= 0.035
  {
    AggregationConserves(lines, Tax);
    AtMostSix(lines);
    SixRoundingsAndOne(TotalSent(Aggregation(lines), Tax), vat, |Aggregation(lines)|);
  }

  lemma SixRoundingsAndOne(x: real, y: real, n: nat)
    requires Within(x, y, n) && n <= 6
    ensures Abs(x - Round2(y)) <= 0.035
  {
    RoundError(y);
    assert n as real <= 6.0;
  }
}

/** The tax summary engine of src/lib/tax.ts: GST liability under the registration
    thresholds of section 22 of the CGST Act, 2017; a simulated TDS withholding
    (section 194J of the Income-tax Act, 1961, as the code simplifies it); the
    new-regime slab tax; the 50% presumptive regime of section 44ADA; and the
    recommendation between the two regimes. Money is an exact `real`. */
module Tax {
  import opened Common

  // ---------------------------------------------------------------- GST

  datatype GstParams = GstParams(
    grossReceipts: real,
    domesticReceipts: real,
    exportReceipts: real,
    specialCategoryState: bool,   // an absent flag is `false`
    isRegistered: bool)

  datatype GstResult = GstResult(thresholdExceeded: bool, gstOwed: real, notes: seq<string>)

  const GstRate: real := 0.18
  const ZeroRatedNote: string := "Exports are zero-rated under GST."

  /** The turnover at which registration becomes compulsory: ₹10L in a
      special-category state, ₹20L elsewhere. */
  function GstThreshold(specialCategoryState: bool): real
  {
    if specialCategoryState then 1000000.0 else 2000000.0
  }

  function OptionalRegistrationNote(specialCategoryState: bool): string
  {
    "GST registration optional until ₹" + (if specialCategoryState then "10" else "20") + "L turnover."
  }

  /** What `calculateGST` returns. */
  function Gst(p: GstParams): (r: GstResult)
    ensures r.thresholdExceeded <==> p.grossReceipts >= GstThreshold(p.specialCategoryState) || p.isRegistered
    ensures r.gstOwed == if r.thresholdExceeded then GstRate * Max(0.0, p.domesticReceipts) else 0.0
    ensures r.gstOwed >= 0.0
    ensures OptionalRegistrationNote(p.specialCategoryState) in r.notes <==> !r.thresholdExceeded
    ensures ZeroRatedNote in r.notes <==> p.exportReceipts > 0.0
    ensures |r.notes| <= 2
  {
    var exceeded := p.grossReceipts >= GstThreshold(p.specialCategoryState) || p.isRegistered;
    var optional := if exceeded then [] else [OptionalRegistrationNote(p.specialCategoryState)];
    var exports := if p.exportReceipts > 0.0 then [ZeroRatedNote] else [];
    assert OptionalRegistrationNote(p.specialCategoryState)[0] != ZeroRatedNote[0];
    GstResult(exceeded, if exceeded then Max(0.0, p.domesticReceipts) * GstRate else 0.0, optional + exports)
  }

  /** `calculateGST` as written: it collects its notes by pushing onto an array. */
  method CalculateGST(p: GstParams) returns (r: GstResult)
    ensures r == Gst(p)
  {
    var threshold := GstThreshold(p.specialCategoryState);
    var thresholdExceeded := p.grossReceipts >= threshold || p.isRegistered;
    var notes: seq<string> := [];
    if !thresholdExceeded {
      notes := notes + [OptionalRegistrationNote(p.specialCategoryState)];
    }
    var taxableBase := Max(0.0, p.domesticReceipts);
    var gstOwed := if thresholdExceeded then taxableBase * GstRate else 0.0;
    if p.exportReceipts > 0.0 {
      notes := notes + [ZeroRatedNote];
    }
    r := GstResult(thresholdExceeded, gstOwed, notes);
  }

  /** Export receipts are zero-rated: they never change liability or the threshold test. */
  lemma GstIgnoresExports(p: GstParams, exportReceipts: real)
    ensures Gst(p.(exportReceipts := exportReceipts)).thresholdExceeded == Gst(p).thresholdExceeded
    ensures Gst(p.(exportReceipts := exportReceipts)).gstOwed == Gst(p).gstOwed
  {
  }

  /** Liability never decreases as domestic receipts grow. */
  lemma GstOwedMonotone(p: GstParams, domesticReceipts: real)
    requires p.domesticReceipts <= domesticReceipts
    ensures Gst(p).gstOwed <= Gst(p.(domesticReceipts := domesticReceipts)).gstOwed
  {
  }

  lemma GstBelowThresholdExample()
    ensures var r := Gst(GstParams(1900000.0, 1900000.0, 0.0, false, false));
            !r.thresholdExceeded && r.gstOwed == 0.0
  {
  }

  // ---------------------------------------------------------------- TDS

  datatype Payment = Payment(clientId: string, amount: real)

  datatype TdsResult = TdsResult(tdsWithheld: real, clientsDeducting: seq<string>, notes: seq<string>)

  const TdsThreshold: real := 30000.0
  const TdsRate: real := 0.1
  const TdsNotes: seq<string> := [
    "Clients may deduct 10% TDS u/s 194J when annual payment exceeds ₹30,000.",
    "TDS is adjustable/refundable during filing."
  ]

  /** The `byClient` record after the payments have been added in order. */
  function ByClient(ps: seq<Payment>): map<string, real>
  {
    if ps == [] then map[]
    else
      var m := ByClient(ps[..|ps| - 1]);
      var p := ps[|ps| - 1];
      m[p.clientId := (if p.clientId in m then m[p.clientId] else 0.0) + p.amount]
  }

  /** The order in which the keys of `byClient` were first inserted. */
  function KeyOrder(ps: seq<Payment>): seq<string>
  {
    if ps == [] then []
    else
      var keys := KeyOrder(ps[..|ps| - 1]);
      var id := ps[|ps| - 1].clientId;
      if id in keys then keys else keys + [id]
  }

  /** The keys whose summed amount is over the threshold, in key order. */
  function Deducting(keys: seq<string>, byClient: map<string, real>): seq<string>
  {
    if keys == [] then []
    else
      var rest := Deducting(keys[1..], byClient);
      if keys[0] in byClient && byClient[keys[0]] > TdsThreshold then [keys[0]] + rest else rest
  }

  /** What `calculateTDS` returns. */
  function Tds(ps: seq<Payment>): TdsResult
  {
    var byClient := ByClient(ps);
    var ids := Deducting(KeyOrder(ps), byClient);
    TdsResult(SumOf(ids, (id: string) => (if id in byClient then byClient[id] else 0.0) * TdsRate), ids, TdsNotes)
  }

  /** Reference definition: everything one client was paid, summed. */
  function PaidTo(ps: seq<Payment>, id: string): real
  {
    SumOf(ps, (p: Payment) => if p.clientId == id then p.amount else 0.0)
  }

  predicate PaysTo(ps: seq<Payment>, id: string)
  {
    exists i :: 0 <= i < |ps| && ps[i].clientId == id
  }

  lemma {:induction false} ByClientSums(ps: seq<Payment>)
    ensures forall id :: id in ByClient(ps) <==> PaysTo(ps, id)
    ensures forall id :: id in ByClient(ps) ==> ByClient(ps)[id] == PaidTo(ps, id)
    decreases |ps|
  {
    if ps != [] {
      var init := ps[..|ps| - 1];
      ByClientSums(init);
      forall id
        ensures id in ByClient(ps) <==> PaysTo(ps, id)
        ensures id in ByClient(ps) ==> ByClient(ps)[id] == PaidTo(ps, id)
      {
        if PaysTo(init, id) {
          var i :| 0 <= i < |init| && init[i].clientId == id;
          assert ps[i].clientId == id;
        } else {
          NothingPaid(init, id);
        }
        if PaysTo(ps, id) && ps[|ps| - 1].clientId != id {
          var i :| 0 <= i < |ps| && ps[i].clientId == id;
          assert init[i].clientId == id;
        }
      }
    }
  }

  lemma {:induction false} NothingPaid(ps: seq<Payment>, id: string)
    requires !PaysTo(ps, id)
    ensures PaidTo(ps, id) == 0.0
    decreases |ps|
  {
    if ps != [] {
      var init := ps[..|ps| - 1];
      assert forall i :: 0 <= i < |init| ==> init[i] == ps[i];
      NothingPaid(init, id);
    }
  }

  lemma {:induction false} KeyOrderIsDistinctKeys(ps: seq<Payment>)
    ensures forall id :: id in KeyOrder(ps) <==> PaysTo(ps, id)
    ensures forall i, j :: 0 <= i < j < |KeyOrder(ps)| ==> KeyOrder(ps)[i] != KeyOrder(ps)[j]
    decreases |ps|
  {
    if ps != [] {
      var init := ps[..|ps| - 1];
      KeyOrderIsDistinctKeys(init);
      forall id
        ensures id in KeyOrder(ps) <==> PaysTo(ps, id)
      {
        if PaysTo(init, id) {
          var i :| 0 <= i < |init| && init[i].clientId == id;
          assert ps[i].clientId == id;
        }
        if PaysTo(ps, id) && ps[|ps| - 1].clientId != id {
          var i :| 0 <= i < |ps| && ps[i].clientId == id;
          assert init[i].clientId == id;
        }
      }
    }
  }

  lemma {:induction false} DeductingFilters(keys: seq<string>, byClient: map<string, real>)
    ensures forall id :: id in Deducting(keys, byClient) <==>
      id in keys && id in byClient && byClient[id] > TdsThreshold
    ensures (forall i, j :: 0 <= i < j < |keys| ==> keys[i] != keys[j]) ==>
      forall i, j :: 0 <= i < j < |Deducting(keys, byClient)| ==>
        Deducting(keys, byClient)[i] != Deducting(keys, byClient)[j]
    decreases |keys|
  {
    if keys != [] {
      DeductingFilters(keys[1..], byClient);
      if forall i, j :: 0 <= i < j < |keys| ==> keys[i] != keys[j] {
        assert forall i, j :: 0 <= i < j < |keys[1..]| ==> keys[1..][i] != keys[1..][j] by {
          forall i, j | 0 <= i < j < |keys[1..]| ensures keys[1..][i] != keys[1..][j] {
            assert keys[1..][i] == keys[i + 1] && keys[1..][j] == keys[j + 1];
          }
        }
        assert keys[0] !in keys[1..];
      }
    }
  }

  /** A client is listed, exactly once, iff it was paid and its payments sum to more
      than ₹30,000 (strictly); the withholding is 10% of those sums; the notes are fixed. */
  lemma TdsDeductingClients(ps: seq<Payment>)
    ensures forall id :: id in Tds(ps).clientsDeducting <==> PaysTo(ps, id) && PaidTo(ps, id) > TdsThreshold
    ensures forall i, j :: 0 <= i < j < |Tds(ps).clientsDeducting| ==>
      Tds(ps).clientsDeducting[i] != Tds(ps).clientsDeducting[j]
    ensures Tds(ps).tdsWithheld == SumOf(Tds(ps).clientsDeducting, (id: string) => PaidTo(ps, id) * TdsRate)
    ensures Tds(ps).notes == TdsNotes
  {
    ByClientSums(ps);
    KeyOrderIsDistinctKeys(ps);
    var byClient := ByClient(ps);
    DeductingFilters(KeyOrder(ps), byClient);
    var ids := Tds(ps).clientsDeducting;
    SumOfCongruent(ids, (id: string) => (if id in byClient then byClient[id] else 0.0) * TdsRate, (id: string) => PaidTo(ps, id) * TdsRate);
  }

  lemma {:induction false} SumOfCongruent(ids: seq<string>, f: string -> real, g: string -> real)
    requires forall i :: 0 <= i < |ids| ==> f(ids[i]) == g(ids[i])
    ensures SumOf(ids, f) == SumOf(ids, g)
    decreases |ids|
  {
    if ids != [] {
      SumOfCongruent(ids[..|ids| - 1], f, g);
    }
  }

  /** Two payments from A (20,000 + 15,000) and one of 40,000 from B: both deduct, 7,500 withheld. */
  lemma TdsExample()
    ensures var r := Tds([Payment("A", 20000.0), Payment("A", 15000.0), Payment("B", 40000.0)]);
            r.clientsDeducting == ["A", "B"] && r.tdsWithheld == 7500.0
  {
    var ps := [Payment("A", 20000.0), Payment("A", 15000.0), Payment("B", 40000.0)];
    var one, two := ps[..1], ps[..2];
    assert one[..0] == [] && two[..1] == one && ps[..|ps| - 1] == two;
    assert ByClient(one) == map["A" := 20000.0];
    assert ByClient(two) == map["A" := 35000.0];
    assert ByClient(ps) == map["A" := 35000.0, "B" := 40000.0];
    assert KeyOrder(one) == ["A"];
    assert KeyOrder(two) == ["A"];
    assert KeyOrder(ps) == ["A", "B"];
    var ids := ["A", "B"];
    assert Deducting(ids[1..], ByClient(ps)) == ["B"];
    assert Deducting(ids, ByClient(ps)) == ids;
    var m := ByClient(ps);
    var f := (id: string) => (if id in m then m[id] else 0.0) * TdsRate;
    assert ids[..1] == ["A"] && ids[..1][..0] == [];
    assert SumOf(ids[..1], f) == 3500.0;
    assert SumOf(ids, f) == 7500.0;
  }

  /** `calculateTDS` as written: a loop that builds the `byClient` record in place (a map
      together with its key insertion order), then the library filter, map and reduce. */
  method CalculateTDS(ps: seq<Payment>) returns (r: TdsResult)
    ensures r == Tds(ps)
  {
    var byClient: map<string, real> := map[];
    var keys: seq<string> := [];
    for i := 0 to |ps|
      invariant byClient == ByClient(ps[..i])
      invariant keys == KeyOrder(ps[..i])
    {
      assert ps[..i + 1][..i] == ps[..i];
      var p := ps[i];
      if p.clientId !in keys {
        keys := keys + [p.clientId];
      }
      byClient := byClient[p.clientId := (if p.clientId in byClient then byClient[p.clientId] else 0.0) + p.amount];
    }
    assert ps[..|ps|] == ps;
    var clientsDeducting := Deducting(keys, byClient);
    var tdsWithheld := SumOf(clientsDeducting, (id: string) => (if id in byClient then byClient[id] else 0.0) * TdsRate);
    r := TdsResult(tdsWithheld, clientsDeducting, TdsNotes);
  }

  // ---------------------------------------------------------------- income tax

  /** A slab's upper limit; the last slab's `Number.POSITIVE_INFINITY` is `Unbounded`. */
  datatype Limit = UpTo(value: real) | Unbounded

  datatype Slab = Slab(limit: Limit, rate: real)

  const ExemptUpTo: real := 1275000.0
  const StandardDeduction: real := 75000.0

  /** The inline slab table of `calculateIncomeTaxNewRegime`. */
  const NewRegimeSlabs: seq<Slab> := [
    Slab(UpTo(400000.0), 0.0),
    Slab(UpTo(800000.0), 0.05),
    Slab(UpTo(1200000.0), 0.10),
    Slab(UpTo(1600000.0), 0.15),
    Slab(UpTo(2000000.0), 0.20),
    Slab(UpTo(2400000.0), 0.25),
    Slab(Unbounded, 0.30)
  ]

  /** A slab table whose limits ascend from `from`, ending in one unbounded slab,
      with non-negative rates. */
  predicate Ladder(slabs: seq<Slab>, from: real)
  {
    |slabs| > 0 && slabs[0].rate >= 0.0 &&
    match slabs[0].limit
    case Unbounded => |slabs| == 1
    case UpTo(v) => from <= v && Ladder(slabs[1..], v)
  }

  /** `Math.max(0, Math.min(remaining, s.limit - lastLimit))`; an infinite limit leaves
      `remaining` as the minimum. */
  function Band(limit: Limit, remaining: real, lastLimit: real): real
  {
    match limit
    case UpTo(v) => Max(0.0, Min(remaining, v - lastLimit))
    case Unbounded => Max(0.0, remaining)
  }

  /** The slab loop: the tax it accumulates from the given slabs on, stopping as soon as
      nothing remains. (After the unbounded slab nothing ever remains.) */
  function SlabLoop(slabs: seq<Slab>, remaining: real, lastLimit: real): real
  {
    if slabs == [] then 0.0
    else
      var band := Band(slabs[0].limit, remaining, lastLimit);
      var tax := band * slabs[0].rate;
      if remaining - band <= 0.0 then tax
      else tax + SlabLoop(slabs[1..], remaining - band, slabs[0].limit.value)
  }

  /** Reference definition: the part of income `x` that falls in the band from `from`
      up to `limit`. */
  function Portion(x: real, from: real, limit: Limit): real
  {
    match limit
    case UpTo(v) => Max(0.0, Min(x, v) - from)
    case Unbounded => Max(0.0, x - from)
  }

  function NextFrom(limit: Limit, from: real): real
  {
    match limit
    case UpTo(v) => v
    case Unbounded => from
  }

  /** The parts of `x` in each band of the table. */
  function Portions(slabs: seq<Slab>, x: real, from: real): seq<real>
  {
    if slabs == [] then []
    else [Portion(x, from, slabs[0].limit)] + Portions(slabs[1..], x, NextFrom(slabs[0].limit, from))
  }

  /** Reference definition of slab tax: each band's part of `x` taxed at its rate. */
  function BandedTax(slabs: seq<Slab>, x: real, from: real): real
  {
    if slabs == [] then 0.0
    else slabs[0].rate * Portion(x, from, slabs[0].limit) + BandedTax(slabs[1..], x, NextFrom(slabs[0].limit, from))
  }

  function Id(r: real): real { r }

  /** The bands partition the base: every part is non-negative and the parts add up to
      what lies above `from`. */
  lemma {:induction false} PortionsPartition(slabs: seq<Slab>, x: real, from: real)
    requires Ladder(slabs, from)
    ensures |Portions(slabs, x, from)| == |slabs|
    ensures forall i :: 0 <= i < |slabs| ==> Portions(slabs, x, from)[i] >= 0.0
    ensures SumOf(Portions(slabs, x, from), Id) == Max(0.0, x - from)
    decreases |slabs|
  {
    var ps := Portions(slabs, x, from);
    var rest := Portions(slabs[1..], x, NextFrom(slabs[0].limit, from));
    SumOfPrepend(ps[0], rest, Id);
    assert ps == [ps[0]] + rest;
    match slabs[0].limit
    case Unbounded =>
      assert rest == [];
    case UpTo(v) =>
      PortionsPartition(slabs[1..], x, v);
  }

  lemma {:induction false} BandedTaxVanishesBelow(slabs: seq<Slab>, x: real, from: real)
    requires Ladder(slabs, from) && x <= from
    ensures BandedTax(slabs, x, from) == 0.0
    decreases |slabs|
  {
    match slabs[0].limit
    case Unbounded =>
    case UpTo(v) =>
      BandedTaxVanishesBelow(slabs[1..], x, v);
  }

  /** The loop computes the banded tax: its band widths are the portions. */
  lemma {:induction false} SlabLoopIsBandedTax(slabs: seq<Slab>, x: real, from: real)
    requires Ladder(slabs, from) && x >= from
    ensures SlabLoop(slabs, x - from, from) == BandedTax(slabs, x, from)
    decreases |slabs|
  {
    match slabs[0].limit
    case Unbounded =>
    case UpTo(v) =>
      if x <= v {
        BandedTaxVanishesBelow(slabs[1..], x, v);
      } else {
        SlabLoopIsBandedTax(slabs[1..], x, v);
      }
  }

  lemma {:induction false} BandedTaxNonNegative(slabs: seq<Slab>, x: real, from: real)
    requires Ladder(slabs, from)
    ensures BandedTax(slabs, x, from) >= 0.0
    decreases |slabs|
  {
    match slabs[0].limit
    case Unbounded =>
    case UpTo(v) =>
      BandedTaxNonNegative(slabs[1..], x, v);
  }

  lemma {:induction false} BandedTaxMonotone(slabs: seq<Slab>, x: real, y: real, from: real)
    requires Ladder(slabs, from) && x <= y
    ensures BandedTax(slabs, x, from) <= BandedTax(slabs, y, from)
    decreases |slabs|
  {
    assert Portion(x, from, slabs[0].limit) <= Portion(y, from, slabs[0].limit);
    match slabs[0].limit
    case Unbounded =>
    case UpTo(v) =>
      BandedTaxMonotone(slabs[1..], x, y, v);
  }

  lemma NewRegimeSlabsLadder()
    ensures Ladder(NewRegimeSlabs, 0.0)
  {
    var s := NewRegimeSlabs;
    assert s[1..][1..][1..][1..][1..][1..] == [Slab(Unbounded, 0.30)];
  }

  /** What `calculateIncomeTaxNewRegime` returns: nothing up to ₹12.75L; above that the
      slab tax on the income less the ₹75,000 standard deduction. */
  function IncomeTax(taxableIncome: real): (tax: real)
    ensures tax >= 0.0
    ensures taxableIncome <= ExemptUpTo ==> tax == 0.0
    ensures taxableIncome > ExemptUpTo ==> tax == BandedTax(NewRegimeSlabs, taxableIncome - StandardDeduction, 0.0)
  {
    if taxableIncome <= ExemptUpTo then 0.0
    else
      var slabBase := Max(0.0, taxableIncome - StandardDeduction);
      NewRegimeSlabsLadder();
      SlabLoopIsBandedTax(NewRegimeSlabs, slabBase, 0.0);
      BandedTaxNonNegative(NewRegimeSlabs, slabBase, 0.0);
      Max(0.0, SlabLoop(NewRegimeSlabs, slabBase, 0.0))
  }

  /** Above the exemption, the seven bands split the slab base exactly. */
  lemma SlabBaseSplitsIntoBands(taxableIncome: real)
    requires taxableIncome > ExemptUpTo
    ensures var parts := Portions(NewRegimeSlabs, taxableIncome - StandardDeduction, 0.0);
            |parts| == 7 && (forall i :: 0 <= i < 7 ==> parts[i] >= 0.0) &&
            SumOf(parts, Id) == taxableIncome - StandardDeduction
  {
    NewRegimeSlabsLadder();
    PortionsPartition(NewRegimeSlabs, taxableIncome - StandardDeduction, 0.0);
  }

  /** More income never means less tax. */
  lemma IncomeTaxMonotone(x: real, y: real)
    requires x <= y
    ensures IncomeTax(x) <= IncomeTax(y)
  {
    if x > ExemptUpTo {
      NewRegimeSlabsLadder();
      BandedTaxMonotone(NewRegimeSlabs, x - StandardDeduction, y - StandardDeduction, 0.0);
    }
  }

  /** The deliberate cliff: one rupee over ₹12.75L costs more than ₹60,000. */
  lemma IncomeTaxCliff()
    ensures IncomeTax(1275000.0) == 0.0
    ensures IncomeTax(1275001.0) == 60000.15
  {
    var s := NewRegimeSlabs;
    var x := 1275001.0 - StandardDeduction;
    assert BandedTax(s[1..][1..][1..][1..][1..][1..], x, 2400000.0) == 0.0;
    assert BandedTax(s[1..][1..][1..][1..][1..], x, 2000000.0) == 0.0;
    assert BandedTax(s[1..][1..][1..][1..], x, 1600000.0) == 0.0;
    assert BandedTax(s[1..][1..][1..], x, 1200000.0) == 0.15;
    assert BandedTax(s[1..][1..], x, 800000.0) == 40000.15;
    assert BandedTax(s[1..], x, 400000.0) == 60000.15;
  }

  /** The slab loop as written, over any slab table: it updates `remaining`, `lastLimit`
      and `tax` band by band and breaks once nothing remains. */
  method AccumulateSlabs(slabs: seq<Slab>, slabBase: real) returns (tax: real)
    ensures tax == SlabLoop(slabs, slabBase, 0.0)
  {
    var remaining := slabBase;
    var lastLimit := 0.0;
    tax := 0.0;
    var i := 0;
    while i < |slabs|
      invariant 0 <= i <= |slabs|
      invariant tax + SlabLoop(slabs[i..], remaining, lastLimit) == SlabLoop(slabs, slabBase, 0.0)
    {
      var s := slabs[i];
      var band := Band(s.limit, remaining, lastLimit);
      assert slabs[i..][0] == s && slabs[i..][1..] == slabs[i + 1..];
      ghost var rest := if remaining - band <= 0.0 then 0.0 else SlabLoop(slabs[i + 1..], remaining - band, s.limit.value);
      assert SlabLoop(slabs[i..], remaining, lastLimit) == band * s.rate + rest;
      tax := tax + band * s.rate;
      remaining := remaining - band;
      if remaining <= 0.0 {
        break;
      }
      lastLimit := s.limit.value;
      i := i + 1;
    }
  }

  /** `calculateIncomeTaxNewRegime` as written: the exemption test, the standard
      deduction, the slab loop over the inline table, and a final clamp at zero. */
  method CalculateIncomeTaxNewRegime(taxableIncome: real) returns (tax: real)
    ensures tax == IncomeTax(taxableIncome)
  {
    if taxableIncome <= ExemptUpTo {
      return 0.0;
    }
    var slabBase := Max(0.0, taxableIncome - StandardDeduction);
    tax := AccumulateSlabs(NewRegimeSlabs, slabBase);
    tax := Max(0.0, tax);
  }

  // ---------------------------------------------------------------- presumptive regime

  /** Section 44ADA: half of gross receipts is deemed profit, whatever the expenses. */
  function Presumptive44ADA(grossReceipts: real): (presumptiveTaxableIncome: real)
    ensures presumptiveTaxableIncome + presumptiveTaxableIncome == grossReceipts
  {
    grossReceipts * 0.5
  }

  const PresumptiveLimit: real := 5000000.0

  // ---------------------------------------------------------------- summary

  datatype TaxInput = TaxInput(
    grossReceipts: real,
    domesticReceipts: real,
    exportReceipts: real,
    totalExpenses: real,
    paymentsByClient: seq<Payment>,
    specialCategoryState: bool,
    isGSTRegistered: bool)

  datatype IncomeTaxResult = IncomeTaxResult(taxableIncome: real, incomeTax: real, effectiveRate: real)

  datatype PresumptiveResult = PresumptiveResult(taxableIncome: real, incomeTax: real, effectiveRate: real, eligible: bool)

  datatype Regime = Regular | Presumptive

  datatype TaxSummary = TaxSummary(
    gst: GstResult,
    tds: TdsResult,
    regular: IncomeTaxResult,
    presumptive: PresumptiveResult,
    recommended: Regime)

  /** Tax as a share of gross receipts, 0 when there are none. */
  function EffectiveRate(tax: real, grossReceipts: real): (rate: real)
    ensures grossReceipts > 0.0 ==> rate * grossReceipts == tax
    ensures grossReceipts <= 0.0 ==> rate == 0.0
  {
    if grossReceipts > 0.0 then tax / grossReceipts else 0.0
  }

  /** What `getTaxSummary` returns. */
  function GetTaxSummary(p: TaxInput): (s: TaxSummary)
    ensures s.gst == Gst(GstParams(p.grossReceipts, p.domesticReceipts, p.exportReceipts, p.specialCategoryState, p.isGSTRegistered))
    ensures s.tds == Tds(p.paymentsByClient)
    ensures s.regular.taxableIncome >= 0.0 && s.regular.taxableIncome >= p.grossReceipts - p.totalExpenses
    ensures s.regular.taxableIncome == 0.0 || s.regular.taxableIncome == p.grossReceipts - p.totalExpenses
    ensures s.regular.incomeTax == IncomeTax(s.regular.taxableIncome)
    ensures s.presumptive.taxableIncome + s.presumptive.taxableIncome == p.grossReceipts
    ensures s.presumptive.incomeTax == IncomeTax(s.presumptive.taxableIncome)
    ensures p.grossReceipts > 0.0 ==> s.regular.effectiveRate * p.grossReceipts == s.regular.incomeTax
    ensures p.grossReceipts > 0.0 ==> s.presumptive.effectiveRate * p.grossReceipts == s.presumptive.incomeTax
    ensures p.grossReceipts <= 0.0 ==> s.regular.effectiveRate == 0.0 && s.presumptive.effectiveRate == 0.0
    ensures s.presumptive.eligible <==> p.grossReceipts <= PresumptiveLimit
    ensures s.recommended == Presumptive <==> s.presumptive.eligible && s.presumptive.incomeTax < s.regular.incomeTax
  {
    var gst := Gst(GstParams(p.grossReceipts, p.domesticReceipts, p.exportReceipts, p.specialCategoryState, p.isGSTRegistered));
    var tds := Tds(p.paymentsByClient);
    var regularTaxableIncome := Max(0.0, p.grossReceipts - p.totalExpenses);
    var regularIncomeTax := IncomeTax(regularTaxableIncome);
    var regular := IncomeTaxResult(regularTaxableIncome, regularIncomeTax, EffectiveRate(regularIncomeTax, p.grossReceipts));
    var eligible := p.grossReceipts <= PresumptiveLimit;
    var presumptiveTaxableIncome := Presumptive44ADA(p.grossReceipts);
    var presumptiveTax := IncomeTax(presumptiveTaxableIncome);
    var presumptive := PresumptiveResult(presumptiveTaxableIncome, presumptiveTax, EffectiveRate(presumptiveTax, p.grossReceipts), eligible);
    var recommended := if eligible && presumptive.incomeTax < regular.incomeTax then Presumptive else Regular;
    TaxSummary(gst, tds, regular, presumptive, recommended)
  }

  /** When expenses are at most half of gross receipts, the presumptive regime never
      costs more than the regular one, so the regular regime is recommended only on a tie
      or when receipts exceed ₹50L. */
  lemma PresumptiveNoWorseWhenExpensesSmall(p: TaxInput)
    requires p.totalExpenses + p.totalExpenses <= p.grossReceipts
    ensures GetTaxSummary(p).presumptive.incomeTax <= GetTaxSummary(p).regular.incomeTax
  {
    var s := GetTaxSummary(p);
    IncomeTaxMonotone(s.presumptive.taxableIncome, s.regular.taxableIncome);
  }

  /** ₹40L of receipts against ₹1L of expenses: ₹7,27,500 under the regular regime,
      ₹1,85,000 under the presumptive one, which is recommended. */
  lemma FortyLakhRecommendsPresumptive(payments: seq<Payment>)
    ensures var s := GetTaxSummary(TaxInput(4000000.0, 4000000.0, 0.0, 100000.0, payments, false, false));
            s.regular.incomeTax == 727500.0 && s.presumptive.incomeTax == 185000.0 &&
            s.recommended == Presumptive
  {
    var s := NewRegimeSlabs;
    var x := 3900000.0 - StandardDeduction;
    assert BandedTax(s[1..][1..][1..][1..][1..][1..], x, 2400000.0) == 427500.0;
    assert BandedTax(s[1..][1..][1..][1..][1..], x, 2000000.0) == 527500.0;
    assert BandedTax(s[1..][1..][1..][1..], x, 1600000.0) == 607500.0;
    assert BandedTax(s[1..][1..][1..], x, 1200000.0) == 667500.0;
    assert BandedTax(s[1..][1..], x, 800000.0) == 707500.0;
    assert BandedTax(s[1..], x, 400000.0) == 727500.0;
    var y := 2000000.0 - StandardDeduction;
    assert BandedTax(s[1..][1..][1..][1..][1..][1..], y, 2400000.0) == 0.0;
    assert BandedTax(s[1..][1..][1..][1..][1..], y, 2000000.0) == 0.0;
    assert BandedTax(s[1..][1..][1..][1..], y, 1600000.0) == 65000.0;
    assert BandedTax(s[1..][1..][1..], y, 1200000.0) == 125000.0;
    assert BandedTax(s[1..][1..], y, 800000.0) == 165000.0;
    assert BandedTax(s[1..], y, 400000.0) == 185000.0;
  }
}

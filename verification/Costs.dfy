/** Authoritative prices: hourly or one flat charge per caregiver, each segment rounded to a cent. */
module Costs {
  import opened Prelude
  import opened Sorting
  import opened Intervals
  import opened Domain

  /** Whole cents, halves up. */
  function Cents(amount: Money): nat {
    (amount * 100.0 + 0.5).Floor
  }

  function RoundToCent(amount: Money): Money {
    Cents(amount) as real / 100.0
  }

  /** The caregiver a segment pays, if it pays one. */
  function Payee(sc: Scenario, s: Segment): Option<Caregiver> {
    if s.source.ByCaregiver? then Find(sc, s.person) else None
  }

  predicate UsesFlatRate(sc: Scenario, s: Segment) {
    Payee(sc, s).Some? && Payee(sc, s).value.price.Flat?
  }

  function Hours(w: Window): Money {
    (w.end - w.start) as real / 3600.0
  }

  /** The unrounded price of one segment when the caregivers in `charged` got their flat rate. */
  function SegmentPrice(sc: Scenario, s: Segment, charged: set<string>): Money {
    match Payee(sc, s)
    case None => 0.0
    case Some(c) =>
      match c.price
      case Flat(rate) => if c.id in charged then 0.0 else rate
      case Hourly(rate) => Product(rate, Hours(s.window))
      case Unpriced => 0.0
  }

  function Product(x: Money, y: Money): Money {
    x * y
  }

  function ChargedAfter(sc: Scenario, s: Segment, charged: set<string>): set<string> {
    if UsesFlatRate(sc, s) then charged + {Payee(sc, s).value.id} else charged
  }

  function Priced(sc: Scenario, segments: seq<Segment>, charged: set<string>): seq<Segment> {
    if segments == [] then []
    else
      var s := segments[0];
      [s.(cost := RoundToCent(SegmentPrice(sc, s, charged)))]
      + Priced(sc, segments[1..], ChargedAfter(sc, s, charged))
  }

  function TotalCents(sc: Scenario, segments: seq<Segment>, charged: set<string>): nat {
    if segments == [] then 0
    else
      Cents(SegmentPrice(sc, segments[0], charged))
      + TotalCents(sc, segments[1..], ChargedAfter(sc, segments[0], charged))
  }

  function TotalCost(sc: Scenario, segments: seq<Segment>): Money {
    TotalCents(sc, segments, {}) as real / 100.0
  }

  function SumOfCosts(segments: seq<Segment>): Money {
    if segments == [] then 0.0 else segments[0].cost + SumOfCosts(segments[1..])
  }

  /** The same loop over the unrounded prices. */
  function ExactTotal(sc: Scenario, segments: seq<Segment>, charged: set<string>): Money {
    if segments == [] then 0.0
    else
      SegmentPrice(sc, segments[0], charged)
      + ExactTotal(sc, segments[1..], ChargedAfter(sc, segments[0], charged))
  }

  /** How many segments carry a charge. */
  function ChargedSegments(sc: Scenario, segments: seq<Segment>, charged: set<string>): nat {
    if segments == [] then 0
    else
      (if SegmentPrice(sc, segments[0], charged) > 0.0 then 1 else 0)
      + ChargedSegments(sc, segments[1..], ChargedAfter(sc, segments[0], charged))
  }

  lemma HalfAboveWhole(n: nat)
    ensures (n as real + 0.5).Floor == n
  {
  }

  lemma CentsOfWhole(n: nat, amount: Money)
    requires amount == n as real / 100.0
    ensures RoundToCent(amount) == amount
  {
    assert amount * 100.0 == n as real;
    HalfAboveWhole(n);
  }

  /** The branch that prices one segment and remembers a flat charge. */
  method PriceSegment(sc: Scenario, s: Segment, charged: set<string>)
    returns (cost: Money, charged': set<string>)
    ensures cost == RoundToCent(SegmentPrice(sc, s, charged)) && charged' == ChargedAfter(sc, s, charged)
  {
    cost, charged' := 0.0, charged;
    var payee := Payee(sc, s);
    if payee.Some? {
      match payee.value.price {
        case Flat(rate) =>
          if payee.value.id !in charged {
            cost := rate;
            charged' := charged + {payee.value.id};
          }
        case Hourly(rate) =>
          cost := Product(rate, Hours(s.window));
        case Unpriced =>
      }
    }
    assert cost == SegmentPrice(sc, s, charged);
    cost := RoundToCent(cost);
  }

  /** The loop that prices every segment and adds the prices up. */
  method RecomputeCosts(sc: Scenario, segments: seq<Segment>)
    returns (priced: seq<Segment>, total: Money)
    ensures priced == Priced(sc, segments, {})
    ensures total == TotalCost(sc, segments)
    ensures total == SumOfCosts(priced)
  {
    total := 0.0;
    priced := [];
    var charged: set<string> := {};
    ghost var cents: nat := 0;
    for i := 0 to |segments|
      invariant priced + Priced(sc, segments[i..], charged) == Priced(sc, segments, {})
      invariant cents + TotalCents(sc, segments[i..], charged) == TotalCents(sc, segments, {})
      invariant total == cents as real / 100.0
    {
      assert segments[i..][0] == segments[i] && segments[i..][1..] == segments[i+1..];
      cents := cents + Cents(SegmentPrice(sc, segments[i], charged));
      var cost;
      cost, charged := PriceSegment(sc, segments[i], charged);
      total := total + cost;
      priced := priced + [segments[i].(cost := cost)];
    }
    assert segments[|segments|..] == [];
    CentsOfWhole(cents, total);
    total := RoundToCent(total);
    TotalIsTheSum(sc, segments, {});
  }

  lemma {:induction false} TotalIsTheSum(sc: Scenario, segments: seq<Segment>, charged: set<string>)
    ensures TotalCents(sc, segments, charged) as real / 100.0
         == SumOfCosts(Priced(sc, segments, charged))
  {
    if segments != [] {
      TotalIsTheSum(sc, segments[1..], ChargedAfter(sc, segments[0], charged));
    }
  }

  lemma TwoSegmentsCommute(sc: Scenario, x: Segment, y: Segment, rest: seq<Segment>, charged: set<string>)
    ensures TotalCents(sc, [x, y] + rest, charged) == TotalCents(sc, [y, x] + rest, charged)
  {
    assert ([x, y] + rest)[1..] == [y] + rest && ([y] + rest)[1..] == rest;
    assert ([y, x] + rest)[1..] == [x] + rest && ([x] + rest)[1..] == rest;
    var afterX, afterY := ChargedAfter(sc, x, charged), ChargedAfter(sc, y, charged);
    assert ChargedAfter(sc, y, afterX) == ChargedAfter(sc, x, afterY);
    if UsesFlatRate(sc, x) && UsesFlatRate(sc, y) && Payee(sc, x).value.id == Payee(sc, y).value.id {
      FindMeaning(sc, x.person);
      FindMeaning(sc, y.person);
      assert Payee(sc, x) == Payee(sc, y);
    }
  }

  lemma {:induction false} SegmentToTheFront(
    sc: Scenario, before: seq<Segment>, x: Segment, after: seq<Segment>, charged: set<string>)
    ensures TotalCents(sc, before + [x] + after, charged) == TotalCents(sc, [x] + before + after, charged)
  {
    hide Cents, SegmentPrice, ChargedAfter;
    if before == [] {
      assert before + [x] + after == [x] + before + after;
    } else {
      var y, rest := before[0], before[1..];
      SegmentToTheFront(sc, rest, x, after, ChargedAfter(sc, y, charged));
      assert (before + [x] + after)[1..] == rest + [x] + after;
      assert ([y, x] + (rest + after))[1..] == [x] + rest + after;
      assert TotalCents(sc, before + [x] + after, charged) == TotalCents(sc, [y, x] + (rest + after), charged);
      TwoSegmentsCommute(sc, x, y, rest + after, charged);
      assert [x] + before + after == [x, y] + (rest + after);
    }
  }

  /** Reordering the segments moves flat charges between them but never changes the total. */
  lemma {:induction false} TotalIgnoresOrder(
    sc: Scenario, a: seq<Segment>, b: seq<Segment>, charged: set<string>)
    requires multiset(a) == multiset(b)
    ensures TotalCents(sc, a, charged) == TotalCents(sc, b, charged)
    decreases |a|
  {
    if a == [] {
      assert b == [] by {
        assert |multiset(a)| == |a| && |multiset(b)| == |b|;
      }
    } else {
      var before, after := SplitAround(a, b);
      SegmentToTheFront(sc, before, a[0], after, charged);
      TotalIgnoresOrder(sc, a[1..], before + after, ChargedAfter(sc, a[0], charged));
      assert [a[0]] + before + after == [a[0]] + (before + after);
    }
  }

  predicate FlatUseOf(sc: Scenario, s: Segment, id: string) {
    UsesFlatRate(sc, s) && s.person == id
  }

  ghost predicate UsedBefore(sc: Scenario, segments: seq<Segment>, i: nat, id: string)
    requires i <= |segments|
  {
    exists j :: 0 <= j < i && FlatUseOf(sc, segments[j], id)
  }

  lemma UsedBeforeStep(sc: Scenario, segments: seq<Segment>, i: nat, id: string)
    requires 0 < i <= |segments|
    ensures UsedBefore(sc, segments, i, id)
      <==> FlatUseOf(sc, segments[0], id) || UsedBefore(sc, segments[1..], i - 1, id)
  {
    if UsedBefore(sc, segments[1..], i - 1, id) {
      var j :| 0 <= j < i - 1 && FlatUseOf(sc, segments[1..][j], id);
      assert FlatUseOf(sc, segments[j + 1], id);
    }
    if UsedBefore(sc, segments, i, id) && !FlatUseOf(sc, segments[0], id) {
      var j :| 0 <= j < i && FlatUseOf(sc, segments[j], id);
      assert FlatUseOf(sc, segments[1..][j - 1], id);
    }
  }

  /** A flat-rate caregiver is paid on the first segment that uses them and on no other. */
  lemma {:induction false} FlatRateChargedOnce(
    sc: Scenario, segments: seq<Segment>, charged: set<string>, i: nat)
    requires i < |segments| && UsesFlatRate(sc, segments[i])
    ensures |Priced(sc, segments, charged)| == |segments|
    ensures Priced(sc, segments, charged)[i].cost ==
      if segments[i].person in charged || UsedBefore(sc, segments, i, segments[i].person) then 0.0
      else RoundToCent(Payee(sc, segments[i]).value.price.rate)
  {
    PricedLength(sc, segments, charged);
    FindMeaning(sc, segments[i].person);
    FindMeaning(sc, segments[0].person);
    if i > 0 {
      FlatRateChargedOnce(sc, segments[1..], ChargedAfter(sc, segments[0], charged), i - 1);
      UsedBeforeStep(sc, segments, i, segments[i].person);
    }
  }

  lemma {:induction false} PricedLength(sc: Scenario, segments: seq<Segment>, charged: set<string>)
    ensures |Priced(sc, segments, charged)| == |segments|
    ensures forall i :: 0 <= i < |segments| ==>
      Priced(sc, segments, charged)[i] == segments[i].(cost := Priced(sc, segments, charged)[i].cost)
  {
    if segments != [] {
      PricedLength(sc, segments[1..], ChargedAfter(sc, segments[0], charged));
    }
  }

  /** Rounding moves the total by at most half a cent for every segment that carries a charge. */
  lemma {:induction false} RoundingIsBounded(sc: Scenario, segments: seq<Segment>, charged: set<string>)
    ensures var slack := ChargedSegments(sc, segments, charged) as real * 0.005;
      var exact := ExactTotal(sc, segments, charged);
      exact - slack <= TotalCents(sc, segments, charged) as real / 100.0 <= exact + slack
  {
    if segments != [] {
      RoundingIsBounded(sc, segments[1..], ChargedAfter(sc, segments[0], charged));
      var x := SegmentPrice(sc, segments[0], charged);
      assert x - 0.005 <= RoundToCent(x) <= x + 0.005;
      assert x == 0.0 ==> RoundToCent(x) == 0.0;
    }
  }

  /** Money is only ever spent on a caregiver. */
  lemma {:induction false} CostNeedsCaregiver(sc: Scenario, segments: seq<Segment>, charged: set<string>)
    ensures TotalCents(sc, segments, charged) > 0 ==>
      exists s :: s in segments && s.source.ByCaregiver? && Find(sc, s.person).Some?
  {
    if segments != [] {
      CostNeedsCaregiver(sc, segments[1..], ChargedAfter(sc, segments[0], charged));
      assert segments[0] in segments;
    }
  }

  // ---------------------------------------------------------------- what each segment costs

  /** A whole number of cents that is nearest to the exact amount, halves up. */
  predicate NearestCent(cost: Money, exact: real) {
    (cost * 100.0).Floor as real == cost * 100.0 && cost - 0.005 <= exact < cost + 0.005
  }

  lemma RoundingIsNearest(amount: Money)
    ensures NearestCent(RoundToCent(amount), amount)
  {
    var n := Cents(amount);
    assert RoundToCent(amount) * 100.0 == n as real;
    assert n as real <= amount * 100.0 + 0.5 < n as real + 1.0;
  }

  /** An hourly rate for the hours of the window, a flat rate the first time only, and else nothing. */
  predicate PricedAt(price: Price, w: Window, first: bool, cost: Money) {
    match price
    case Hourly(rate) => NearestCent(cost, rate * ((w.end - w.start) as real) / 3600.0)
    case Flat(rate) => if first then NearestCent(cost, rate) else cost == 0.0
    case Unpriced => cost == 0.0
  }

  /** No earlier segment is this caregiver's. */
  predicate IsFirstUse(segments: seq<Segment>, i: nat)
    requires i < |segments|
  {
    forall j :: 0 <= j < i ==> segments[j].source.ByParent? || segments[j].person != segments[i].person
  }

  /** What is charged for one segment of a list: the price of the caregiver it pays, and nothing for parents
      and for people nobody knows. */
  lemma PriceOfASegment(sc: Scenario, segments: seq<Segment>, i: nat)
    requires i < |segments|
    ensures |Priced(sc, segments, {})| == |segments|
    ensures var s, cost := segments[i], Priced(sc, segments, {})[i].cost;
      if s.source.ByCaregiver? && Find(sc, s.person).Some?
      then PricedAt(Find(sc, s.person).value.price, s.window, IsFirstUse(segments, i), cost)
      else cost == 0.0
  {
    var s := segments[i];
    PricedLength(sc, segments, {});
    if UsesFlatRate(sc, s) {
      FlatPrice(sc, segments, i);
    } else {
      OtherPrices(sc, segments, {}, i);
      OtherPrice(sc, s);
    }
    hide Priced, SegmentPrice, NearestCent, Find, RoundToCent, IsFirstUse;
  }

  lemma FlatPrice(sc: Scenario, segments: seq<Segment>, i: nat)
    requires i < |segments| && UsesFlatRate(sc, segments[i])
    ensures |Priced(sc, segments, {})| == |segments|
    ensures PricedAt(Payee(sc, segments[i]).value.price, segments[i].window, IsFirstUse(segments, i),
                     Priced(sc, segments, {})[i].cost)
  {
    FlatRateChargedOnce(sc, segments, {}, i);
    RoundingIsNearest(Payee(sc, segments[i]).value.price.rate);
    hide Priced, NearestCent, Find, RoundToCent;
    forall j | 0 <= j < i && segments[j].source.ByCaregiver? && segments[j].person == segments[i].person
      ensures FlatUseOf(sc, segments[j], segments[i].person)
    {
    }
  }

  lemma OtherPrice(sc: Scenario, s: Segment)
    requires !UsesFlatRate(sc, s)
    ensures var cost := RoundToCent(SegmentPrice(sc, s, {}));
      if Payee(sc, s).Some? then PricedAt(Payee(sc, s).value.price, s.window, true, cost) else cost == 0.0
    ensures var cost := RoundToCent(SegmentPrice(sc, s, {}));
      Payee(sc, s).Some? ==> PricedAt(Payee(sc, s).value.price, s.window, false, cost)
  {
    RoundingIsNearest(SegmentPrice(sc, s, {}));
    if Payee(sc, s).Some? && Payee(sc, s).value.price.Hourly? {
      HourlyPrice(sc, s);
      HourlyIsPricedAt(Payee(sc, s).value.price.rate, s.window, SegmentPrice(sc, s, {}));
    } else {
      hide NearestCent, Find;
      assert Cents(0.0) == 0;
    }
  }

  lemma HourlyIsPricedAt(rate: Money, w: Window, exact: Money)
    requires exact == rate * ((w.end - w.start) as real) / 3600.0
    ensures forall first :: PricedAt(Hourly(rate), w, first, RoundToCent(exact))
  {
    RoundingIsNearest(exact);
    hide RoundToCent;
  }

  lemma HourlyPrice(sc: Scenario, s: Segment)
    ensures Payee(sc, s).Some? && Payee(sc, s).value.price.Hourly? ==>
      SegmentPrice(sc, s, {}) == Payee(sc, s).value.price.rate * ((s.window.end - s.window.start) as real) / 3600.0
  {
  }

  lemma {:induction false} OtherPrices(sc: Scenario, segments: seq<Segment>, charged: set<string>, i: nat)
    requires i < |segments| && !UsesFlatRate(sc, segments[i])
    ensures |Priced(sc, segments, charged)| == |segments|
    ensures Priced(sc, segments, charged)[i].cost == RoundToCent(SegmentPrice(sc, segments[i], {}))
  {
    PricedLength(sc, segments, charged);
    if i > 0 {
      OtherPrices(sc, segments[1..], ChargedAfter(sc, segments[0], charged), i - 1);
    }
  }
}

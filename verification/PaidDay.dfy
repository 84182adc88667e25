/** One concrete day: a sitter with a flat price above the spending limit, and a parent. Which plans the
    validator accepts for it, before and after the sitter declines the first half. */
module PaidDay {
  import opened Prelude
  import opened Intervals
  import opened Domain
  import opened ValidationRules
  import opened Costs
  import opened PlanValidator
  import opened MatrixCompleteness
  import opened PlannableDays
  import opened PlanInvalidation

  const ALL_DAY: Window := Window(0, 7200)
  const MORNING: Window := Window(0, 3600)
  const EVENING: Window := Window(3600, 7200)

  function Sitter(hours: Window): Caregiver {
    Caregiver("sitter", true, [hours], Flat(10.0), 0, true, false, "home", 0, false)
  }

  function DayWith(hours: Window): Scenario {
    Scenario(ALL_DAY, [], ["parent"], [], [Sitter(hours)], LENIENT, "home", [], 5, [])
  }

  function SitterFor(w: Window): Segment {
    Segment("by-sitter", w, "sitter", ByCaregiver, Care, "home", None, None, 0.0)
  }

  function ParentFor(w: Window): Segment {
    Segment("by-parent", w, "parent", ByParent, Care, "home", None, None, 0.0)
  }

  function PlanOf(segments: seq<Segment>): Plan {
    Plan(Proposed("p"), segments, [], 0.0, [], NotValidated, [])
  }

  /** The sitter declines the first half of the day. */
  const SITTER_DECLINES := Decline(Named("decline"), "sitter", MORNING)

  // ---------------------------------------------------------------- single segments

  lemma PeopleOfTheDay(hours: Window)
    ensures Find(DayWith(hours), "sitter") == Some(Sitter(hours)) && Find(DayWith(hours), "parent").None?
  {
    var sc := DayWith(hours);
    assert UniquePeople(sc);
    UniqueFind(sc, Sitter(hours));
    FindMeaning(sc, "parent");
  }

  lemma SitterPasses(hours: Window, w: Window)
    requires Within(w, hours) && Within(w, ALL_DAY)
    ensures SegmentOk(DayWith(hours), SitterFor(w), []) && RequiredBuffer(DayWith(hours), SitterFor(w)) == 0
  {
    PeopleOfTheDay(hours);
    hide Find, Reachable, Driver;
    assert hours in Sitter(hours).availability;
  }

  lemma ParentPasses(hours: Window, w: Window)
    requires Within(w, ALL_DAY)
    ensures SegmentOk(DayWith(hours), ParentFor(w), [])
  {
    PeopleOfTheDay(hours);
    hide Find, Reachable, Driver;
  }

  // ---------------------------------------------------------------- whole plans

  lemma CarveFromOne(w: Window, block: Window)
    ensures CarveAll([w], block) == Carve(w, block)
  {
    var ws: seq<Window> := [w];
    assert CarveAll(ws[..|ws|-1], block) == [];
    assert CarveAll(ws, block) == CarveAll(ws[..|ws|-1], block) + Carve(ws[|ws|-1], block);
  }

  lemma DeclinedMorning()
    ensures AfterDecline(DayWith(ALL_DAY), SITTER_DECLINES) == DayWith(EVENING)
  {
    assert Carve(ALL_DAY, MORNING) == [EVENING];
    CarveFromOne(ALL_DAY, MORNING);
  }

  lemma SitterCostsTen()
    ensures TotalCost(DayWith(ALL_DAY), [SitterFor(ALL_DAY)]) == 10.0
    ensures var priced := Priced(DayWith(ALL_DAY), [SitterFor(ALL_DAY)], {});
      |priced| == 1 && priced[0] == SitterFor(ALL_DAY).(cost := priced[0].cost)
  {
    var sc, s := DayWith(ALL_DAY), SitterFor(ALL_DAY);
    PeopleOfTheDay(ALL_DAY);
    hide Find;
    assert [s][1..] == [];
    assert SegmentPrice(sc, s, {}) == 10.0;
    TenIsAThousandCents();
    hide Cents, SegmentPrice;
    assert TotalCents(sc, [], ChargedAfter(sc, s, {})) == 0;
    assert TotalCents(sc, [s], {}) == 1000;
  }

  lemma TenIsAThousandCents()
    ensures Cents(10.0) == 1000 && Cents(0.0) == 0
  {
  }

  lemma SitterAllDay()
    ensures var v := Validation(DayWith(ALL_DAY), PlanOf([SitterFor(ALL_DAY)]));
      && v.valid && v.requiresApproval && v.plan.reasons == [CostAboveLimit] && v.plan.state.Valid?
      && v.plan.changes == [] && v.plan.assumptions == [] && |v.plan.segments| == 1
      && v.plan.segments[0] == SitterFor(ALL_DAY).(cost := v.plan.segments[0].cost)
  {
    var sc, s := DayWith(ALL_DAY), SitterFor(ALL_DAY);
    OneInOrder(s);
    SitterPasses(ALL_DAY, ALL_DAY);
    OnePartIsSafe(sc, s);
    ValidMeansSafe(sc, PlanOf([s]));
    SitterCostsTen();
    hide SafeDay, Findings, InOrder, Find, SegmentOk, TotalCost, Priced;
  }

  /** The parent costs nothing and needs nobody's permission. */
  lemma ParentAllDay(hours: Window)
    ensures var v := RepairValidation(DayWith(hours), PlanOf([ParentFor(ALL_DAY)]), []);
      && v.valid && !v.requiresApproval && v.plan.reasons == [] && v.plan.state.Valid? && v.cost == 0.0
  {
    var sc, s := DayWith(hours), ParentFor(ALL_DAY);
    OneInOrder(s);
    ParentPasses(hours, ALL_DAY);
    OnePartIsSafe(sc, s);
    ValidMeansSafe(sc, PlanOf([s]));
    ParentCostsNothing(hours);
    hide SafeDay, Findings, InOrder, Find, SegmentOk, TotalCost;
  }

  lemma ParentCostsNothing(hours: Window)
    ensures TotalCost(DayWith(hours), [ParentFor(ALL_DAY)]) == 0.0
    ensures var priced := Priced(DayWith(hours), [ParentFor(ALL_DAY)], {});
      |priced| == 1 && priced[0].source.ByParent?
  {
    var sc, s := DayWith(hours), ParentFor(ALL_DAY);
    assert [s][1..] == [];
    TenIsAThousandCents();
    assert SegmentPrice(sc, s, {}) == 0.0;
    hide SegmentPrice, ChargedAfter, Cents;
    assert TotalCents(sc, [], ChargedAfter(sc, s, {})) == 0;
    assert TotalCents(sc, [s], {}) == 0;
  }

  /** The sitter may take over from the parent for the half that was not declined. */
  lemma SitterInTheEvening()
    ensures RepairValidation(DayWith(EVENING), PlanOf([ParentFor(MORNING), SitterFor(EVENING)]), []).valid
  {
    var sc, a, b := DayWith(EVENING), ParentFor(MORNING), SitterFor(EVENING);
    TwoInOrder(a, b);
    ParentPasses(EVENING, MORNING);
    SitterPasses(EVENING, EVENING);
    TwoPartsAreSafe(sc, a, b);
    hide SafeDay, InOrder, Find, SegmentOk;
    ValidRepairMeansSafe(sc, PlanOf([a, b]), []);
  }
}

/** The "Budget & Timeline" step editor: a single-choice budget card grid, a timeline select,
    one checkbox group, a priority slider and four text fields, reported under `budget`. */
module BudgetStep {
  import opened Wrappers
  import opened Assoc
  import opened Forms

  /** The key every report is filed under. */
  const Section := "budget"

  /** The record a freshly mounted editor holds; the slider starts at 5. */
  function Initial(): Record
  {
    [("budgetRange", Str("")), ("timeline", Str("")), ("investmentTypes", Strs([])),
     ("priority", Nums([5])), ("roi", Str("")), ("constraints", Str("")),
     ("decisionMakers", Str("")), ("nextSteps", Str(""))]
  }

  /** A freshly mounted editor's record has no key twice and a list under the checkbox group. */
  lemma InitialValid()
    ensures UniqueKeys(Initial()) && HoldsList(Initial(), "investmentTypes")
  {
    var r := Initial();
    var keys := ["budgetRange", "timeline", "investmentTypes", "priority", "roi", "constraints", "decisionMakers", "nextSteps"];
    assert forall i :: 0 <= i < |r| ==> r[i].0 == keys[i];
    assert forall i, j :: 0 <= i < j < |keys| ==> keys[i] != keys[j];
  }

  /** The ids of the budget cards, in display order. */
  const BudgetCards: seq<string> :=
    ["under-50k", "50k-100k", "100k-250k", "250k-500k", "500k-1m", "over-1m"]

  class Editor {
    /** The component's `data` state. */
    var data: Record

    ghost predicate Valid()
      reads this
    {
      UniqueKeys(data) && HoldsList(data, "investmentTypes")
    }

    constructor ()
      ensures Valid() && data == Initial()
    {
      InitialValid();
      data := Initial();
    }

    /** `handleInvestmentChange`: the id is appended or filtered out, only that list
        changes, and the whole new record is reported. */
    method HandleInvestmentChange(investmentId: string, checked: bool) returns (report: Option<Update>)
      requires Valid()
      modifies this
      ensures Valid()
      ensures investmentId == "" ==> data == old(data) && report == None
      ensures investmentId != "" ==>
        Get(data, "investmentTypes") == Some(Strs(Toggle(ListAt(old(data), "investmentTypes"), investmentId, checked)))
      ensures investmentId != "" ==> forall f :: f != "investmentTypes" ==> Get(data, f) == Get(old(data), f)
      ensures investmentId != "" ==> Keys(data) == Keys(old(data))
      ensures investmentId != "" ==> report == Some(Update(Section, data))
    {
      if investmentId == "" {
        return None;
      }
      var updated := Strs(Toggle(ListAt(data, "investmentTypes"), investmentId, checked));
      SetKeys(data, "investmentTypes", updated);
      SetUnique(data, "investmentTypes", updated);
      data := Set(data, "investmentTypes", updated);
      report := Some(Update(Section, data));
    }

    /** `handleChange`: the slider or a text field; the checkbox list, if named, only ever
        receives a list. */
    method HandleChange(field: string, value: Value) returns (report: Option<Update>)
      requires Valid() && (field == "investmentTypes" ==> value.Strs?)
      modifies this
      ensures Valid()
      ensures field == "" ==> data == old(data) && report == None
      ensures field != "" ==> Get(data, field) == Some(value)
      ensures field != "" ==> forall f :: f != field ==> Get(data, f) == Get(old(data), f)
      ensures field != "" ==> Keys(data) == if field in Keys(old(data)) then Keys(old(data)) else Keys(old(data)) + [field]
      ensures field != "" ==> report == Some(Update(Section, data))
    {
      if field == "" {
        return None;
      }
      SetKeys(data, field, value);
      SetUnique(data, field, value);
      data := Set(data, field, value);
      report := Some(Update(Section, data));
    }

    /** Clicking a budget card: `budgetRange` becomes that card's id, replacing any earlier
        choice, so at most one card is ever selected. */
    method HandleBudgetCardClick(cardId: string) returns (report: Option<Update>)
      requires Valid()
      modifies this
      ensures Valid()
      ensures Get(data, "budgetRange") == Some(Str(cardId))
      ensures forall f :: f != "budgetRange" ==> Get(data, f) == Get(old(data), f)
      ensures report == Some(Update(Section, data))
    {
      report := HandleChange("budgetRange", Str(cardId));
    }
  }
}

/** The "Current Challenges" step editor: one checkbox group, an urgency slider and two
    text fields, reported to the wizard under `challenges`. */
module ChallengesStep {
  import opened Wrappers
  import opened Assoc
  import opened Forms

  /** The key every report is filed under. */
  const Section := "challenges"

  /** The record a freshly mounted editor holds; the slider starts at 5. */
  function Initial(): Record
  {
    [("selectedChallenges", Strs([])), ("urgency", Nums([5])),
     ("description", Str("")), ("impact", Str(""))]
  }

  /** A freshly mounted editor's record has no key twice and a list under the checkbox group. */
  lemma InitialValid()
    ensures UniqueKeys(Initial()) && HoldsList(Initial(), "selectedChallenges")
  {
    var r := Initial();
    var keys := ["selectedChallenges", "urgency", "description", "impact"];
    assert forall i :: 0 <= i < |r| ==> r[i].0 == keys[i];
    assert forall i, j :: 0 <= i < j < |keys| ==> keys[i] != keys[j];
  }

  class Editor {
    /** The component's `data` state. */
    var data: Record

    ghost predicate Valid()
      reads this
    {
      UniqueKeys(data) && HoldsList(data, "selectedChallenges")
    }

    constructor ()
      ensures Valid() && data == Initial()
    {
      InitialValid();
      data := Initial();
    }

    /** `handleChallengeChange`: the id is appended or filtered out, only that list
        changes, and the whole new record is reported. */
    method HandleChallengeChange(challengeId: string, checked: bool) returns (report: Option<Update>)
      requires Valid()
      modifies this
      ensures Valid()
      ensures challengeId == "" ==> data == old(data) && report == None
      ensures challengeId != "" ==>
        Get(data, "selectedChallenges") == Some(Strs(Toggle(ListAt(old(data), "selectedChallenges"), challengeId, checked)))
      ensures challengeId != "" ==> forall f :: f != "selectedChallenges" ==> Get(data, f) == Get(old(data), f)
      ensures challengeId != "" ==> Keys(data) == Keys(old(data))
      ensures challengeId != "" ==> report == Some(Update(Section, data))
    {
      if challengeId == "" {
        return None;
      }
      var updated := Strs(Toggle(ListAt(data, "selectedChallenges"), challengeId, checked));
      SetKeys(data, "selectedChallenges", updated);
      SetUnique(data, "selectedChallenges", updated);
      data := Set(data, "selectedChallenges", updated);
      report := Some(Update(Section, data));
    }

    /** `handleChange`: the slider or a text field; the checkbox list, if named, only ever
        receives a list. */
    method HandleChange(field: string, value: Value) returns (report: Option<Update>)
      requires Valid() && (field == "selectedChallenges" ==> value.Strs?)
      modifies this
      ensures Valid()
      ensures field == "" ==> data == old(data) && report == None
      ensures field != "" ==> Get(data, field) == Some(value)
      ensures field != "" ==> forall f :: f != field ==> Get(data, f) == Get(old(data), f)
      ensures field != "" ==> Keys(data) == if field in Keys(old(data)) then Keys(old(data)) else Keys(old(data)) + [field]
      ensures field != "" ==> report == Some(Update(Section, data))
    {
      if field == "" {
        return None;
      }
      SetKeys(data, field, value);
      SetUnique(data, field, value);
      data := Set(data, field, value);
      report := Some(Update(Section, data));
    }
  }
}

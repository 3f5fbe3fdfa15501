/** The "AI Requirements" step editor: two checkbox groups (AI capabilities,
    integration types) and four text fields, reported to the wizard under `requirements`. */
module RequirementsStep {
  import opened Wrappers
  import opened Assoc
  import opened Forms

  /** The key every report is filed under. */
  const Section := "requirements"

  /** The record a freshly mounted editor holds. */
  function Initial(): Record
  {
    [("capabilities", Strs([])), ("integrations", Strs([])),
     ("scalability", Str("")), ("performance", Str("")),
     ("customization", Str("")), ("specificNeeds", Str(""))]
  }

  /** A freshly mounted editor's record has no key twice and a list under each checkbox group. */
  lemma InitialValid()
    ensures UniqueKeys(Initial()) && HoldsList(Initial(), "capabilities") && HoldsList(Initial(), "integrations")
  {
    var r := Initial();
    var keys := ["capabilities", "integrations", "scalability", "performance", "customization", "specificNeeds"];
    assert forall i :: 0 <= i < |r| ==> r[i].0 == keys[i];
    assert forall i, j :: 0 <= i < j < |keys| ==> keys[i] != keys[j];
  }

  predicate IsListField(f: string)
  {
    f == "capabilities" || f == "integrations"
  }

  class Editor {
    /** The component's `data` state. */
    var data: Record

    ghost predicate Valid()
      reads this
    {
      UniqueKeys(data) && HoldsList(data, "capabilities") && HoldsList(data, "integrations")
    }

    constructor ()
      ensures Valid() && data == Initial()
    {
      InitialValid();
      data := Initial();
    }

    /** A checkbox of group `list` changed: the id is appended or filtered out, only that
        field changes, and the whole new record is reported. */
    method ToggleIn(list: string, id: string, checked: bool) returns (report: Option<Update>)
      requires Valid() && IsListField(list)
      modifies this
      ensures Valid()
      ensures id == "" ==> data == old(data) && report == None
      ensures id != "" ==> Get(data, list) == Some(Strs(Toggle(ListAt(old(data), list), id, checked)))
      ensures id != "" ==> forall f :: f != list ==> Get(data, f) == Get(old(data), f)
      ensures id != "" ==> Keys(data) == Keys(old(data))
      ensures id != "" ==> report == Some(Update(Section, data))
    {
      if id == "" {
        return None;
      }
      var updated := Strs(Toggle(ListAt(data, list), id, checked));
      SetKeys(data, list, updated);
      SetUnique(data, list, updated);
      ghost var before := data;
      data := Set(data, list, updated);
      assert HoldsList(data, "capabilities") by { assert HoldsList(before, "capabilities"); }
      assert HoldsList(data, "integrations") by { assert HoldsList(before, "integrations"); }
      report := Some(Update(Section, data));
    }

    /** `handleCapabilityChange`. */
    method HandleCapabilityChange(capabilityId: string, checked: bool) returns (report: Option<Update>)
      requires Valid()
      modifies this
      ensures Valid()
      ensures capabilityId == "" ==> data == old(data) && report == None
      ensures capabilityId != "" ==>
        Get(data, "capabilities") == Some(Strs(Toggle(ListAt(old(data), "capabilities"), capabilityId, checked)))
      ensures capabilityId != "" ==> forall f :: f != "capabilities" ==> Get(data, f) == Get(old(data), f)
      ensures capabilityId != "" ==> Keys(data) == Keys(old(data))
      ensures capabilityId != "" ==> report == Some(Update(Section, data))
    {
      report := ToggleIn("capabilities", capabilityId, checked);
    }

    /** `handleIntegrationChange`. */
    method HandleIntegrationChange(integrationId: string, checked: bool) returns (report: Option<Update>)
      requires Valid()
      modifies this
      ensures Valid()
      ensures integrationId == "" ==> data == old(data) && report == None
      ensures integrationId != "" ==>
        Get(data, "integrations") == Some(Strs(Toggle(ListAt(old(data), "integrations"), integrationId, checked)))
      ensures integrationId != "" ==> forall f :: f != "integrations" ==> Get(data, f) == Get(old(data), f)
      ensures integrationId != "" ==> Keys(data) == Keys(old(data))
      ensures integrationId != "" ==> report == Some(Update(Section, data))
    {
      report := ToggleIn("integrations", integrationId, checked);
    }

    /** `handleChange` for one of the text fields. */
    method HandleChange(field: string, value: string) returns (report: Option<Update>)
      requires Valid() && !IsListField(field)
      modifies this
      ensures Valid()
      ensures field == "" ==> data == old(data) && report == None
      ensures field != "" ==> Get(data, field) == Some(Str(value))
      ensures field != "" ==> forall f :: f != field ==> Get(data, f) == Get(old(data), f)
      ensures field != "" ==> Keys(data) == if field in Keys(old(data)) then Keys(old(data)) else Keys(old(data)) + [field]
      ensures field != "" ==> report == Some(Update(Section, data))
    {
      if field == "" {
        return None;
      }
      SetKeys(data, field, Str(value));
      SetUnique(data, field, Str(value));
      data := Set(data, field, Str(value));
      report := Some(Update(Section, data));
    }
  }
}

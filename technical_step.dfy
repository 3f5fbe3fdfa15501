/** The "Technical Environment" step editor: two checkbox groups (cloud providers,
    databases) and seven text fields, reported to the wizard under `technical`. */
module TechnicalStep {
  import opened Wrappers
  import opened Assoc
  import opened Forms

  /** The key every report is filed under. */
  const Section := "technical"

  /** The record a freshly mounted editor holds. */
  function Initial(): Record
  {
    [("cloudProviders", Strs([])), ("databases", Strs([])),
     ("programmingLanguages", Str("")), ("frameworks", Str("")), ("dataVolume", Str("")),
     ("securityRequirements", Str("")), ("complianceNeeds", Str("")),
     ("existingAI", Str("")), ("integrationChallenges", Str(""))]
  }

  /** A freshly mounted editor's record has no key twice and a list under each checkbox group. */
  lemma InitialValid()
    ensures UniqueKeys(Initial()) && HoldsList(Initial(), "cloudProviders") && HoldsList(Initial(), "databases")
  {
    var r := Initial();
    var keys := ["cloudProviders", "databases", "programmingLanguages", "frameworks", "dataVolume", "securityRequirements", "complianceNeeds", "existingAI", "integrationChallenges"];
    assert forall i :: 0 <= i < |r| ==> r[i].0 == keys[i];
    assert forall i, j :: 0 <= i < j < |keys| ==> keys[i] != keys[j];
  }

  predicate IsListField(f: string)
  {
    f == "cloudProviders" || f == "databases"
  }

  class Editor {
    /** The component's `data` state. */
    var data: Record

    ghost predicate Valid()
      reads this
    {
      UniqueKeys(data) && HoldsList(data, "cloudProviders") && HoldsList(data, "databases")
    }

    constructor ()
      ensures Valid() && data == Initial()
    {
      InitialValid();
      data := Initial();
    }

    /** A checkbox of group `list` changed: the id is appended or filtered out, only that
        field changes, and the whole new record is reported. */
    method ToggleIn(list: string, id: string, checked: bool) returns (report: Option<Update>)
      requires Valid() && IsListField(list)
      modifies this
      ensures Valid()
      ensures id == "" ==> data == old(data) && report == None
      ensures id != "" ==> Get(data, list) == Some(Strs(Toggle(ListAt(old(data), list), id, checked)))
      ensures id != "" ==> forall f :: f != list ==> Get(data, f) == Get(old(data), f)
      ensures id != "" ==> Keys(data) == Keys(old(data))
      ensures id != "" ==> report == Some(Update(Section, data))
    {
      if id == "" {
        return None;
      }
      var updated := Strs(Toggle(ListAt(data, list), id, checked));
      SetKeys(data, list, updated);
      SetUnique(data, list, updated);
      ghost var before := data;
      data := Set(data, list, updated);
      assert HoldsList(data, "cloudProviders") by { assert HoldsList(before, "cloudProviders"); }
      assert HoldsList(data, "databases") by { assert HoldsList(before, "databases"); }
      report := Some(Update(Section, data));
    }

    /** `handleCloudChange`. */
    method HandleCloudChange(providerId: string, checked: bool) returns (report: Option<Update>)
      requires Valid()
      modifies this
      ensures Valid()
      ensures providerId == "" ==> data == old(data) && report == None
      ensures providerId != "" ==>
        Get(data, "cloudProviders") == Some(Strs(Toggle(ListAt(old(data), "cloudProviders"), providerId, checked)))
      ensures providerId != "" ==> forall f :: f != "cloudProviders" ==> Get(data, f) == Get(old(data), f)
      ensures providerId != "" ==> Keys(data) == Keys(old(data))
      ensures providerId != "" ==> report == Some(Update(Section, data))
    {
      report := ToggleIn("cloudProviders", providerId, checked);
    }

    /** `handleDatabaseChange`. */
    method HandleDatabaseChange(databaseId: string, checked: bool) returns (report: Option<Update>)
      requires Valid()
      modifies this
      ensures Valid()
      ensures databaseId == "" ==> data == old(data) && report == None
      ensures databaseId != "" ==>
        Get(data, "databases") == Some(Strs(Toggle(ListAt(old(data), "databases"), databaseId, checked)))
      ensures databaseId != "" ==> forall f :: f != "databases" ==> Get(data, f) == Get(old(data), f)
      ensures databaseId != "" ==> Keys(data) == Keys(old(data))
      ensures databaseId != "" ==> report == Some(Update(Section, data))
    {
      report := ToggleIn("databases", databaseId, checked);
    }

    /** `handleChange` for one of the text fields. */
    method HandleChange(field: string, value: string) returns (report: Option<Update>)
      requires Valid() && !IsListField(field)
      modifies this
      ensures Valid()
      ensures field == "" ==> data == old(data) && report == None
      ensures field != "" ==> Get(data, field) == Some(Str(value))
      ensures field != "" ==> forall f :: f != field ==> Get(data, f) == Get(old(data), f)
      ensures field != "" ==> Keys(data) == if field in Keys(old(data)) then Keys(old(data)) else Keys(old(data)) + [field]
      ensures field != "" ==> report == Some(Update(Section, data))
    {
      if field == "" {
        return None;
      }
      SetKeys(data, field, Str(value));
      SetUnique(data, field, Str(value));
      data := Set(data, field, Str(value));
      report := Some(Update(Section, data));
    }
  }
}

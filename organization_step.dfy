/** The "Organization Overview" step editor: six text fields, reported to the wizard under
    `organization`. */
module OrganizationStep {
  import opened Wrappers
  import opened Assoc
  import opened Forms

  /** The key every report is filed under. */
  const Section := "organization"

  /** The record a freshly mounted editor holds. */
  function Initial(): Record
  {
    [("companyName", Str("")), ("industry", Str("")), ("companySize", Str("")),
     ("role", Str("")), ("department", Str("")), ("description", Str(""))]
  }

  /** A freshly mounted editor's record has no key twice. */
  lemma InitialValid()
    ensures UniqueKeys(Initial())
  {
    var r := Initial();
    var keys := ["companyName", "industry", "companySize", "role", "department", "description"];
    assert forall i :: 0 <= i < |r| ==> r[i].0 == keys[i];
    assert forall i, j :: 0 <= i < j < |keys| ==> keys[i] != keys[j];
  }

  class Editor {
    /** The component's `data` state. */
    var data: Record

    ghost predicate Valid()
      reads this
    {
      UniqueKeys(data)
    }

    constructor ()
      ensures Valid() && data == Initial()
    {
      InitialValid();
      data := Initial();
    }

    /** `handleChange`: ignored for an empty field name or an `undefined` value (`None`);
        the empty string is a value like any other. */
    method HandleChange(field: string, value: Option<string>) returns (report: Option<Update>)
      requires Valid()
      modifies this
      ensures Valid()
      ensures field == "" || value.None? ==> data == old(data) && report == None
      ensures field != "" && value.Some? ==> Get(data, field) == Some(Str(value.value))
      ensures field != "" && value.Some? ==> forall f :: f != field ==> Get(data, f) == Get(old(data), f)
      ensures field != "" && value.Some? ==>
        Keys(data) == if field in Keys(old(data)) then Keys(old(data)) else Keys(old(data)) + [field]
      ensures field != "" && value.Some? ==> report == Some(Update(Section, data))
    {
      report := None;
      if field != "" && value.Some? {
        SetKeys(data, field, Str(value.value));
        SetUnique(data, field, Str(value.value));
        data := Set(data, field, Str(value.value));
        report := Some(Update(Section, data));
      }
    }
  }
}

/** The five-step assessment wizard of the landing page: its step table, the validator
    with its "X is required" messages, navigation, the shallow merge of step reports and
    the two-phase submission. */
module Wizard {
  import opened Wrappers
  import opened Assoc
  import opened Text
  import opened Forms
  import OrganizationStep
  import ChallengesStep
  import RequirementsStep
  import TechnicalStep
  import BudgetStep

  datatype StepConfig = StepConfig(id: string, title: string, description: string, required: seq<string>)

  /** The fixed step table; `id` is the section key the step's editor reports under. */
  const Steps: seq<StepConfig> := [
    StepConfig("organization", "Organization Overview", "Tell us about your company",
               ["companyName", "industry", "companySize", "role"]),
    StepConfig("challenges", "Current Challenges", "What problems are you facing?",
               ["selectedChallenges"]),
    StepConfig("requirements", "AI Requirements", "What do you need from AI?",
               ["capabilities", "integrations"]),
    StepConfig("technical", "Technical Environment", "Your current tech stack",
               ["cloudProviders", "databases"]),
    StepConfig("budget", "Budget & Timeline", "Investment and timeline expectations",
               ["budgetRange", "timeline"])
  ]

  /** The editor components the wizard can mount. */
  datatype StepEditor = Organization | Challenges | Requirements | Technical | Budget

  /** `renderStep`: the editor mounted for a step index, the organization editor for any
      index outside the table. */
  function EditorFor(index: int): StepEditor
  {
    if index == 0 then Organization
    else if index == 1 then Challenges
    else if index == 2 then Requirements
    else if index == 3 then Technical
    else if index == 4 then Budget
    else Organization
  }

  /** The key an editor files its reports under. */
  function SectionOf(e: StepEditor): string
  {
    match e
    case Organization => OrganizationStep.Section
    case Challenges => ChallengesStep.Section
    case Requirements => RequirementsStep.Section
    case Technical => TechnicalStep.Section
    case Budget => BudgetStep.Section
  }

  /** The record an editor holds right after it is mounted. */
  function InitialOf(e: StepEditor): Record
  {
    match e
    case Organization => OrganizationStep.Initial()
    case Challenges => ChallengesStep.Initial()
    case Requirements => RequirementsStep.Initial()
    case Technical => TechnicalStep.Initial()
    case Budget => BudgetStep.Initial()
  }

  // ---------------------------------------------------------------------------------
  // Error messages

  /** `field.replace(/([A-Z])/g, " $1")`: a space before every capital letter. */
  function SpaceCapitals(field: string): string
  {
    if |field| == 0 then ""
    else (if IsUpper(field[0]) then [' ', field[0]] else [field[0]]) + SpaceCapitals(field[1..])
  }

  /** `.replace(/^./, (str) => str.toUpperCase())`. */
  function CapitalizeFirst(s: string): string
  {
    if |s| == 0 then s else [UpperChar(s[0])] + s[1..]
  }

  /** The display label of a field name: `companyName` reads "Company Name". */
  function Label(field: string): string
  {
    CapitalizeFirst(SpaceCapitals(field))
  }

  /** The validation message for a missing field. */
  function Message(field: string): string
  {
    Label(field) + " is required"
  }

  function RemoveSpaces(s: string): (r: string)
    ensures ' ' !in r
  {
    if |s| == 0 then ""
    else (if s[0] == ' ' then "" else [s[0]]) + RemoveSpaces(s[1..])
  }

  /** Reads a field name back from its label. */
  function Unlabel(text: string): string
  {
    if |text| == 0 then "" else [LowerChar(text[0])] + RemoveSpaces(text[1..])
  }

  lemma {:induction false} RemoveSpaceCapitals(t: string)
    requires ' ' !in t
    ensures RemoveSpaces(SpaceCapitals(t)) == t
  {
    if |t| > 0 {
      RemoveSpaceCapitals(t[1..]);
      var head := if IsUpper(t[0]) then [' ', t[0]] else [t[0]];
      RemoveSpacesAppend(head, SpaceCapitals(t[1..]));
      if IsUpper(t[0]) {
        assert RemoveSpaces(head) == [t[0]] by {
          assert head[1..] == [t[0]];
        }
      }
      assert t == [t[0]] + t[1..];
    }
  }

  lemma {:induction false} RemoveSpacesAppend(a: string, b: string)
    ensures RemoveSpaces(a + b) == RemoveSpaces(a) + RemoveSpaces(b)
  {
    if |a| == 0 {
      assert a + b == b;
    } else {
      var head := if a[0] == ' ' then "" else [a[0]];
      assert (a + b)[0] == a[0];
      assert (a + b)[1..] == a[1..] + b;
      RemoveSpacesAppend(a[1..], b);
      calc {
        RemoveSpaces(a + b);
        head + RemoveSpaces(a[1..] + b);
        head + (RemoveSpaces(a[1..]) + RemoveSpaces(b));
        (head + RemoveSpaces(a[1..])) + RemoveSpaces(b);
        RemoveSpaces(a) + RemoveSpaces(b);
      }
    }
  }

  /** A camel-case field name (lower-case first letter, no spaces) is recovered from its
      label, so distinct such fields get distinct messages. */
  lemma LabelRoundTrip(field: string)
    requires |field| > 0 && IsLower(field[0]) && ' ' !in field
    ensures Unlabel(Label(field)) == field
  {
    assert SpaceCapitals(field) == [field[0]] + SpaceCapitals(field[1..]);
    assert ' ' !in field[1..] by {
      forall i | 0 <= i < |field[1..]| ensures field[1..][i] != ' ' {
        assert field[1..][i] == field[i + 1];
      }
    }
    RemoveSpaceCapitals(field[1..]);
    assert field == [field[0]] + field[1..];
  }

  lemma {:induction false} SpaceCapitalsAppend(a: string, b: string)
    ensures SpaceCapitals(a + b) == SpaceCapitals(a) + SpaceCapitals(b)
  {
    if |a| == 0 {
      assert a + b == b;
    } else {
      assert (a + b)[0] == a[0];
      assert (a + b)[1..] == a[1..] + b;
      SpaceCapitalsAppend(a[1..], b);
    }
  }

  lemma {:induction false} SpaceCapitalsNoUpper(t: string)
    requires forall i :: 0 <= i < |t| ==> !IsUpper(t[i])
    ensures SpaceCapitals(t) == t
  {
    if |t| > 0 {
      SpaceCapitalsNoUpper(t[1..]);
      assert t == [t[0]] + t[1..];
    }
  }

  /** A field name made of a lower-case word and a capitalised word gets one space
      between the two. */
  lemma SpaceCapitalsTwoWords(w: string, c: char, rest: string)
    requires forall i :: 0 <= i < |w| ==> !IsUpper(w[i])
    requires forall i :: 0 <= i < |rest| ==> !IsUpper(rest[i])
    requires IsUpper(c)
    ensures SpaceCapitals(w + [c] + rest) == w + [' ', c] + rest
  {
    assert SpaceCapitals([c]) == [' ', c] by {
      assert [c][1..] == [];
    }
    calc {
      SpaceCapitals(w + [c] + rest);
      { SpaceCapitalsAppend(w + [c], rest); }
      SpaceCapitals(w + [c]) + SpaceCapitals(rest);
      { SpaceCapitalsAppend(w, [c]); }
      SpaceCapitals(w) + [' ', c] + SpaceCapitals(rest);
      { SpaceCapitalsNoUpper(w); SpaceCapitalsNoUpper(rest); }
      w + [' ', c] + rest;
    }
  }

  /** The message of a two-word camel-case field name: "companyName", with w = "company",
      c = 'N' and rest = "ame", reads "Company Name is required". */
  lemma TwoWordMessage(w: string, c: char, rest: string)
    requires |w| > 0
    requires forall i :: 0 <= i < |w| ==> !IsUpper(w[i])
    requires forall i :: 0 <= i < |rest| ==> !IsUpper(rest[i])
    requires IsUpper(c)
    ensures Message(w + [c] + rest) == [UpperChar(w[0])] + w[1..] + " " + [c] + rest + " is required"
  {
    SpaceCapitalsTwoWords(w, c, rest);
    var spaced := w + [' ', c] + rest;
    assert spaced[0] == w[0] && spaced[1..] == w[1..] + " " + [c] + rest;
  }

  // ---------------------------------------------------------------------------------
  // Validation

  /** The record holds a truthy value under `field`. */
  predicate HoldsTruthy(rec: Record, field: string)
  {
    Get(rec, field).Some? && Truthy(Get(rec, field).value)
  }

  /** `HoldsTruthy` for a fixed field, as a predicate on records. */
  function TruthyUnder(field: string): Record -> bool
  {
    rec => HoldsTruthy(rec, field)
  }

  /** The key of the first entry of `fd` whose record satisfies `holds`. */
  function FirstKey(fd: FormData, holds: Record -> bool): Option<string>
  {
    if |fd| == 0 then None
    else if holds(fd[0].1) then Some(fd[0].0)
    else FirstKey(fd[1..], holds)
  }

  lemma {:induction false} FirstKeyFirst(fd: FormData, holds: Record -> bool)
    ensures FirstKey(fd, holds).Some? ==>
              exists i :: 0 <= i < |fd| && fd[i].0 == FirstKey(fd, holds).value && holds(fd[i].1) &&
                          forall j :: 0 <= j < i ==> !holds(fd[j].1)
  {
    if |fd| > 0 && !holds(fd[0].1) {
      var r := FirstKey(fd[1..], holds);
      FirstKeyFirst(fd[1..], holds);
      if r.Some? {
        var i :| 0 <= i < |fd[1..]| && fd[1..][i].0 == r.value && holds(fd[1..][i].1) &&
                 forall j :: 0 <= j < i ==> !holds(fd[1..][j].1);
        assert fd[i + 1] == fd[1..][i];
        forall j | 0 <= j < i + 1 ensures !holds(fd[j].1) {
          if j > 0 { assert fd[j] == fd[1..][j - 1]; }
        }
      }
    } else if |fd| > 0 {
      assert fd[0].0 == FirstKey(fd, holds).value;
    }
  }

  lemma {:induction false} FirstKeyNone(fd: FormData, holds: Record -> bool)
    ensures FirstKey(fd, holds).None? ==> forall i :: 0 <= i < |fd| ==> !holds(fd[i].1)
  {
    if |fd| > 0 && !holds(fd[0].1) {
      FirstKeyNone(fd[1..], holds);
      if FirstKey(fd[1..], holds).None? {
        forall i | 0 <= i < |fd| ensures !holds(fd[i].1) {
          if i > 0 { assert fd[i] == fd[1..][i - 1]; }
        }
      }
    }
  }

  /** `Object.keys(formData).find(...)`: the key of the first section, of any step, whose
      record holds a truthy value under `field`. */
  function FindSection(fd: FormData, field: string): Option<string>
  {
    FirstKey(fd, TruthyUnder(field))
  }

  /** `find` returns the key of the first section holding the field truthily. */
  lemma FindSectionFirst(fd: FormData, field: string)
    ensures FindSection(fd, field).Some? ==>
              exists i :: 0 <= i < |fd| && fd[i].0 == FindSection(fd, field).value && HoldsTruthy(fd[i].1, field) &&
                          forall j :: 0 <= j < i ==> !HoldsTruthy(fd[j].1, field)
  {
    FirstKeyFirst(fd, TruthyUnder(field));
  }

  /** `find` returns nothing only when no section holds the field truthily. */
  lemma FindSectionNone(fd: FormData, field: string)
    ensures FindSection(fd, field).None? ==> forall i :: 0 <= i < |fd| ==> !HoldsTruthy(fd[i].1, field)
  {
    FirstKeyNone(fd, TruthyUnder(field));
  }

  /** A required field is missing when no section holds it truthily, or when the value
      found is falsy or an empty list. */
  predicate Missing(fd: FormData, field: string)
  {
    match FindSection(fd, field)
    case None => true
    case Some(k) =>
      match Get(fd, k)
      case None => true
      case Some(rec) =>
        match Get(rec, field)
        case None => true
        case Some(v) => !Truthy(v) || IsEmptyList(v)
  }

  /** `Missing` against a fixed form, as a predicate on field names. */
  function MissingIn(fd: FormData): string -> bool
  {
    f => Missing(fd, f)
  }

  /** One message per field of `required` that `missing` flags, in the order of `required`. */
  function Collect(required: seq<string>, missing: string -> bool): seq<string>
  {
    if |required| == 0 then []
    else
      var last := required[|required| - 1];
      Collect(required[..|required| - 1], missing) + (if missing(last) then [Message(last)] else [])
  }

  /** The messages `validateCurrentStep` collects, one per missing field, in the order of
      the `required` list. */
  function ErrorsFor(fd: FormData, required: seq<string>): seq<string>
  {
    Collect(required, MissingIn(fd))
  }

  /** The `forEach` loop of `validateCurrentStep`. */
  method CollectErrors(fd: FormData, required: seq<string>) returns (errors: seq<string>)
    ensures errors == ErrorsFor(fd, required)
  {
    errors := [];
    var i := 0;
    while i < |required|
      invariant 0 <= i <= |required|
      invariant errors == ErrorsFor(fd, required[..i])
    {
      var field := required[i];
      assert required[..i + 1][..i] == required[..i];
      if Missing(fd, field) {
        errors := errors + [Message(field)];
      }
      i := i + 1;
    }
    assert required[..|required|] == required;
  }

  lemma CollectStep(required: seq<string>, missing: string -> bool)
    requires |required| > 0
    ensures Collect(required, missing) == [] <==>
              Collect(required[..|required| - 1], missing) == [] && !missing(required[|required| - 1])
  {
    var init, last := required[..|required| - 1], required[|required| - 1];
    assert |Collect(required, missing)| == |Collect(init, missing)| + (if missing(last) then 1 else 0);
  }

  lemma {:induction false} CollectEmptyNoneFlagged(required: seq<string>, missing: string -> bool)
    ensures Collect(required, missing) == [] ==> forall i :: 0 <= i < |required| ==> !missing(required[i])
  {
    if |required| > 0 && Collect(required, missing) == [] {
      var n := |required| - 1;
      var init := required[..n];
      CollectStep(required, missing);
      CollectEmptyNoneFlagged(init, missing);
      forall i | 0 <= i < |required| ensures !missing(required[i]) {
        if i < n { assert init[i] == required[i]; }
      }
    }
  }

  lemma {:induction false} NoneFlaggedCollectEmpty(required: seq<string>, missing: string -> bool)
    ensures (forall i :: 0 <= i < |required| ==> !missing(required[i])) ==> Collect(required, missing) == []
  {
    if |required| > 0 && forall i :: 0 <= i < |required| ==> !missing(required[i]) {
      var n := |required| - 1;
      var init := required[..n];
      forall i | 0 <= i < |init| ensures !missing(init[i]) {
        assert init[i] == required[i];
      }
      NoneFlaggedCollectEmpty(init, missing);
      CollectStep(required, missing);
    }
  }

  /** Validation passes exactly when no required field is missing. */
  lemma ValidationPassesIff(fd: FormData, required: seq<string>)
    ensures ErrorsFor(fd, required) == [] <==> forall i :: 0 <= i < |required| ==> !Missing(fd, required[i])
  {
    CollectEmptyNoneFlagged(required, MissingIn(fd));
    NoneFlaggedCollectEmpty(required, MissingIn(fd));
  }

  lemma {:induction false} CollectExact(required: seq<string>, missing: string -> bool)
    ensures |Collect(required, missing)| <= |required|
    ensures forall e :: e in Collect(required, missing) ==>
              exists i :: 0 <= i < |required| && missing(required[i]) && e == Message(required[i])
    ensures forall i :: 0 <= i < |required| && missing(required[i]) ==>
              Message(required[i]) in Collect(required, missing)
  {
    if |required| > 0 {
      var init := required[..|required| - 1];
      CollectExact(init, missing);
      assert forall i :: 0 <= i < |init| ==> init[i] == required[i];
    }
  }

  /** Every message names a missing required field, every missing required field has its
      message, and there are never more messages than required fields. */
  lemma ErrorsExact(fd: FormData, required: seq<string>)
    ensures |ErrorsFor(fd, required)| <= |required|
    ensures forall e :: e in ErrorsFor(fd, required) ==>
              exists i :: 0 <= i < |required| && Missing(fd, required[i]) && e == Message(required[i])
    ensures forall i :: 0 <= i < |required| && Missing(fd, required[i]) ==>
              Message(required[i]) in ErrorsFor(fd, required)
  {
    CollectExact(required, MissingIn(fd));
  }

  lemma {:induction false} CollectAll(required: seq<string>, missing: string -> bool)
    requires forall i :: 0 <= i < |required| ==> missing(required[i])
    ensures Collect(required, missing) == seq(|required|, i requires 0 <= i < |required| => Message(required[i]))
  {
    if |required| > 0 {
      var init := required[..|required| - 1];
      CollectAll(init, missing);
    }
  }

  /** Every required field of every step is blank in all sections of `fd`. */
  predicate Blank(fd: FormData, field: string)
  {
    forall i :: 0 <= i < |fd| ==> Get(fd[i].1, field).None? || !Truthy(Get(fd[i].1, field).value) || IsEmptyList(Get(fd[i].1, field).value)
  }

  lemma BlankIsMissing(fd: FormData, field: string)
    requires UniqueKeys(fd) && Blank(fd, field)
    ensures Missing(fd, field)
  {
    var r := FindSection(fd, field);
    FindSectionFirst(fd, field);
    if r.Some? {
      var i :| 0 <= i < |fd| && fd[i].0 == r.value && HoldsTruthy(fd[i].1, field);
      GetAt(fd, i);
    }
  }

  /** When every required field is blank everywhere, validation fails once per field. */
  lemma AllBlankAllMessages(fd: FormData, required: seq<string>)
    requires UniqueKeys(fd)
    requires forall i :: 0 <= i < |required| ==> Blank(fd, required[i])
    ensures ErrorsFor(fd, required) == seq(|required|, i requires 0 <= i < |required| => Message(required[i]))
  {
    forall i | 0 <= i < |required| ensures MissingIn(fd)(required[i]) {
      BlankIsMissing(fd, required[i]);
    }
    CollectAll(required, MissingIn(fd));
  }

  /** The section `find` settles on is the first one holding a truthy value for the field. */
  lemma FindSectionAt(fd: FormData, field: string, i: nat)
    requires UniqueKeys(fd) && i < |fd|
    requires HoldsTruthy(fd[i].1, field)
    requires forall j :: 0 <= j < i ==> !HoldsTruthy(fd[j].1, field)
    ensures FindSection(fd, field) == Some(fd[i].0)
    ensures Get(fd, fd[i].0) == Some(fd[i].1)
  {
    var r := FindSection(fd, field);
    FindSectionNone(fd, field);
    assert r.Some?;
    FindSectionFirst(fd, field);
    var k :| 0 <= k < |fd| && fd[k].0 == r.value && HoldsTruthy(fd[k].1, field) &&
             forall j :: 0 <= j < k ==> !HoldsTruthy(fd[j].1, field);
    assert k == i;
    GetAt(fd, i);
  }

  /** The lookup is not limited to the current step's section: a non-empty value found
      first under any key satisfies the field. */
  lemma FoundAnywhere(fd: FormData, field: string, i: nat)
    requires UniqueKeys(fd) && i < |fd|
    requires HoldsTruthy(fd[i].1, field) && !IsEmptyList(Get(fd[i].1, field).value)
    requires forall j :: 0 <= j < i ==> !HoldsTruthy(fd[j].1, field)
    ensures !Missing(fd, field)
  {
    FindSectionAt(fd, field, i);
  }

  /** An empty checkbox list in the first section that holds the field at all shadows
      the field for every later section, since an empty array is truthy for `find` and
      then fails the length test. */
  lemma EmptyListShadows(fd: FormData, field: string, i: nat)
    requires UniqueKeys(fd) && i < |fd|
    requires Get(fd[i].1, field) == Some(Strs([]))
    requires forall j :: 0 <= j < i ==> !HoldsTruthy(fd[j].1, field)
    ensures Missing(fd, field)
  {
    FindSectionAt(fd, field, i);
  }

  // ---------------------------------------------------------------------------------
  // Facts tying the step table to the editors

  /** Each editor mounted by `renderStep` reports under the id of its step. */
  lemma EditorsReportUnderStepIds()
    ensures forall i :: 0 <= i < |Steps| ==> SectionOf(EditorFor(i)) == Steps[i].id
  {
  }

  /** The initial value of a required field: "" or an empty list. */
  predicate StartsEmpty(rec: Record, field: string)
  {
    Get(rec, field) == Some(Str("")) || Get(rec, field) == Some(Strs([]))
  }

  lemma OrganizationRequiredStartEmpty()
    ensures forall f :: f in Steps[0].required ==> StartsEmpty(OrganizationStep.Initial(), f)
  {
    forall f | f in Steps[0].required ensures StartsEmpty(OrganizationStep.Initial(), f) {
      assert Steps[0].required == ["companyName", "industry", "companySize", "role"];
      OrganizationFieldsStartEmpty();
    }
  }

  lemma OrganizationFieldsStartEmpty()
    ensures var r := OrganizationStep.Initial(); StartsEmpty(r, "companyName") && StartsEmpty(r, "industry") && StartsEmpty(r, "companySize") && StartsEmpty(r, "role")
  {
    var r := OrganizationStep.Initial();
    OrganizationStep.InitialValid();
    GetAt(r, 0);
    GetAt(r, 1);
    GetAt(r, 2);
    GetAt(r, 3);
  }

  lemma ChallengesRequiredStartEmpty()
    ensures forall f :: f in Steps[1].required ==> StartsEmpty(ChallengesStep.Initial(), f)
  {
    forall f | f in Steps[1].required ensures StartsEmpty(ChallengesStep.Initial(), f) {
      assert Steps[1].required == ["selectedChallenges"];
      ChallengesFieldsStartEmpty();
    }
  }

  lemma ChallengesFieldsStartEmpty()
    ensures var r := ChallengesStep.Initial(); StartsEmpty(r, "selectedChallenges")
  {
    var r := ChallengesStep.Initial();
    ChallengesStep.InitialValid();
    GetAt(r, 0);
  }

  lemma RequirementsRequiredStartEmpty()
    ensures forall f :: f in Steps[2].required ==> StartsEmpty(RequirementsStep.Initial(), f)
  {
    forall f | f in Steps[2].required ensures StartsEmpty(RequirementsStep.Initial(), f) {
      assert Steps[2].required == ["capabilities", "integrations"];
      RequirementsFieldsStartEmpty();
    }
  }

  lemma RequirementsFieldsStartEmpty()
    ensures var r := RequirementsStep.Initial(); StartsEmpty(r, "capabilities") && StartsEmpty(r, "integrations")
  {
    var r := RequirementsStep.Initial();
    RequirementsStep.InitialValid();
    GetAt(r, 0);
    GetAt(r, 1);
  }

  lemma TechnicalRequiredStartEmpty()
    ensures forall f :: f in Steps[3].required ==> StartsEmpty(TechnicalStep.Initial(), f)
  {
    forall f | f in Steps[3].required ensures StartsEmpty(TechnicalStep.Initial(), f) {
      assert Steps[3].required == ["cloudProviders", "databases"];
      TechnicalFieldsStartEmpty();
    }
  }

  lemma TechnicalFieldsStartEmpty()
    ensures var r := TechnicalStep.Initial(); StartsEmpty(r, "cloudProviders") && StartsEmpty(r, "databases")
  {
    var r := TechnicalStep.Initial();
    TechnicalStep.InitialValid();
    GetAt(r, 0);
    GetAt(r, 1);
  }

  lemma BudgetRequiredStartEmpty()
    ensures forall f :: f in Steps[4].required ==> StartsEmpty(BudgetStep.Initial(), f)
  {
    forall f | f in Steps[4].required ensures StartsEmpty(BudgetStep.Initial(), f) {
      assert Steps[4].required == ["budgetRange", "timeline"];
      BudgetFieldsStartEmpty();
    }
  }

  lemma BudgetFieldsStartEmpty()
    ensures var r := BudgetStep.Initial(); StartsEmpty(r, "budgetRange") && StartsEmpty(r, "timeline")
  {
    var r := BudgetStep.Initial();
    BudgetStep.InitialValid();
    GetAt(r, 0);
    GetAt(r, 1);
  }

  /** Every required field is a field of the mounted editor's initial record, and starts
      out as "" or as an empty list. */
  lemma RequiredFieldsStartEmpty(i: nat)
    requires i < |Steps|
    ensures forall f :: f in Steps[i].required ==> StartsEmpty(InitialOf(EditorFor(i)), f)
  {
    if i == 0 { OrganizationRequiredStartEmpty(); }
    else if i == 1 { ChallengesRequiredStartEmpty(); }
    else if i == 2 { RequirementsRequiredStartEmpty(); }
    else if i == 3 { TechnicalRequiredStartEmpty(); }
    else { BudgetRequiredStartEmpty(); }
  }

  /** A form holding one section whose required fields are all still empty fails
      validation once per required field. */
  lemma OneEmptySectionAllMessages(id: string, rec: Record, req: seq<string>)
    requires forall f :: f in req ==> StartsEmpty(rec, f)
    ensures ErrorsFor([(id, rec)], req) == seq(|req|, j requires 0 <= j < |req| => Message(req[j]))
  {
    var fd := [(id, rec)];
    forall j | 0 <= j < |req| ensures Blank(fd, req[j]) {
      assert StartsEmpty(rec, req[j]);
    }
    AllBlankAllMessages(fd, req);
  }

  /** Validating a step whose section is exactly its editor's initial record reports every
      required field, in order. */
  lemma FreshStepFailsPerField(i: nat)
    requires i < |Steps|
    ensures var req := Steps[i].required;
            ErrorsFor([(Steps[i].id, InitialOf(EditorFor(i)))], req) ==
            seq(|req|, j requires 0 <= j < |req| => Message(req[j]))
  {
    RequiredFieldsStartEmpty(i);
    OneEmptySectionAllMessages(Steps[i].id, InitialOf(EditorFor(i)), Steps[i].required);
  }

  /** The step editor is re-mounted whenever the index changes, so its first report is its
      initial record with one field set; merging it replaces the whole section, and every
      other field of that section is back to its initial value. */
  lemma RemountedEditReplacesSection(fd: FormData, i: nat, field: string, value: Value, other: string)
    requires i < |Steps| && other != field
    ensures var rec := Set(InitialOf(EditorFor(i)), field, value);
            var merged := Merge(fd, Update(Steps[i].id, rec).AsPatch());
            Get(merged, Steps[i].id) == Some(rec) &&
            Get(rec, other) == Get(InitialOf(EditorFor(i)), other)
  {
    EditorsReportUnderStepIds();
  }

  // ---------------------------------------------------------------------------------
  // The wizard state

  /** Validation of step `step` against `fd` passes. */
  predicate Passes(fd: FormData, step: nat)
    requires step < |Steps|
  {
    ErrorsFor(fd, Steps[step].required) == []
  }

  class AssessmentWizard {
    var currentStep: nat
    var formData: FormData
    var validationErrors: map<string, seq<string>>
    var isSubmitting: bool
    var isSubmitted: bool
    /** The form data and step at the moment submission began. */
    ghost var submittedData: FormData
    ghost var submittedStep: nat

    /** The step index stays inside the table, the form data is a proper object, and the
        submitting and submitted states are only ever reached through a validation that
        passed. */
    ghost predicate Valid()
      reads this
    {
      && currentStep < |Steps|
      && UniqueKeys(formData)
      && ((isSubmitting || isSubmitted) ==> submittedStep < |Steps| && Passes(submittedData, submittedStep))
    }

    constructor ()
      ensures Valid()
      ensures currentStep == 0 && formData == [] && validationErrors == map[]
      ensures !isSubmitting && !isSubmitted
    {
      currentStep := 0;
      formData := [];
      validationErrors := map[];
      isSubmitting := false;
      isSubmitted := false;
      submittedData := [];
      submittedStep := 0;
    }

    /** `renderStep`: the editor shown for the current step. */
    function CurrentEditor(): (e: StepEditor)
      reads this
      requires Valid()
      ensures SectionOf(e) == Steps[currentStep].id
    {
      EditorFor(currentStep)
    }

    /** `updateFormData`: a falsy argument (`None`) is ignored; otherwise its sections
        replace whole sections of the form data and the error entry of its first key is
        dropped. */
    method UpdateFormData(stepData: Option<FormData>)
      requires Valid()
      requires stepData.Some? ==> UniqueKeys(stepData.value)
      modifies this`formData, this`validationErrors
      ensures Valid()
      ensures stepData.None? ==> formData == old(formData) && validationErrors == old(validationErrors)
      ensures stepData.Some? ==> formData == Merge(old(formData), stepData.value)
      ensures stepData.Some? && |stepData.value| > 0 ==>
                validationErrors == old(validationErrors) - {stepData.value[0].0}
      ensures stepData.Some? && |stepData.value| == 0 ==> validationErrors == old(validationErrors)
    {
      if stepData.Some? {
        var patch := stepData.value;
        MergeUnique(formData, patch);
        formData := Merge(formData, patch);
        if |patch| > 0 {
          var stepKey := patch[0].0;
          if stepKey in validationErrors {
            validationErrors := validationErrors - {stepKey};
          } else {
            assert validationErrors - {stepKey} == validationErrors;
          }
        }
      }
    }

    /** `validateCurrentStep`: on failure the error map becomes exactly the current step's
        messages, dropping every other step's entry. */
    method ValidateCurrentStep() returns (ok: bool)
      requires Valid()
      modifies this`validationErrors
      ensures ok <==> Passes(formData, currentStep)
      ensures ok ==> validationErrors == old(validationErrors)
      ensures !ok ==> validationErrors ==
                        map[Steps[currentStep].id := ErrorsFor(formData, Steps[currentStep].required)]
    {
      var step := Steps[currentStep];
      var errors := CollectErrors(formData, step.required);
      if |errors| > 0 {
        validationErrors := map[step.id := errors];
        return false;
      }
      return true;
    }

    /** `nextStep`: advances by one only when validation passes and the last step has not
        been reached. */
    method NextStep()
      requires Valid()
      modifies this`currentStep, this`validationErrors
      ensures Valid()
      ensures currentStep == if Passes(formData, old(currentStep)) && old(currentStep) < |Steps| - 1
                             then old(currentStep) + 1 else old(currentStep)
      ensures Passes(formData, old(currentStep)) ==> validationErrors == old(validationErrors)
      ensures !Passes(formData, old(currentStep)) ==>
                validationErrors == map[Steps[old(currentStep)].id := ErrorsFor(formData, Steps[old(currentStep)].required)]
    {
      var ok := ValidateCurrentStep();
      if ok && currentStep < |Steps| - 1 {
        currentStep := currentStep + 1;
      }
    }

    /** `prevStep`: moves back by one unless on the first step; never validates. */
    method PrevStep()
      requires Valid()
      modifies this`currentStep
      ensures Valid()
      ensures currentStep == if old(currentStep) > 0 then old(currentStep) - 1 else old(currentStep)
    {
      if currentStep > 0 {
        currentStep := currentStep - 1;
      }
    }

    /** The first phase of `handleSubmit`: validate, and only then enter the submitting
        state. */
    method BeginSubmit() returns (started: bool)
      requires Valid()
      modifies this`validationErrors, this`isSubmitting, this`submittedData, this`submittedStep
      ensures Valid()
      ensures started <==> Passes(formData, currentStep)
      ensures started ==> submittedData == formData && submittedStep == currentStep
      ensures started ==> isSubmitting && validationErrors == old(validationErrors)
      ensures !started ==> isSubmitting == old(isSubmitting)
      ensures !started ==> validationErrors ==
                             map[Steps[currentStep].id := ErrorsFor(formData, Steps[currentStep].required)]
    {
      started := ValidateCurrentStep();
      if started {
        isSubmitting := true;
        submittedData := formData;
        submittedStep := currentStep;
      }
    }

    /** The second phase of `handleSubmit`, after the simulated delay: leave the submitting
        state and show the submitted view, which nothing ever leaves. */
    method FinishSubmit()
      requires Valid() && isSubmitting
      modifies this`isSubmitting, this`isSubmitted
      ensures Valid()
      ensures !isSubmitting && isSubmitted
      ensures Passes(submittedData, submittedStep)
    {
      isSubmitting := false;
      isSubmitted := true;
    }
  }
}

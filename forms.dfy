/** The values the assessment form holds, and the list update every checkbox group of
    the step editors performs. */
module Forms {
  import opened Wrappers
  import opened Assoc
  import opened Text

  /** A field value: text from an input or select, the ids of a checkbox group, or the
      number array a slider reports. */
  datatype Value = Str(s: string) | Strs(items: seq<string>) | Nums(nums: seq<int>)

  /** One step's record, e.g. `{ companyName: "", industry: "", ... }`. */
  type Record = Assoc<Value>

  /** The wizard's accumulated form data: section key -> that step's record. */
  type FormData = Assoc<Record>

  /** What an editor reports through `onUpdate`: `{ [section]: record }`. */
  datatype Update = Update(section: string, record: Record)
  {
    /** The report as the object the parent receives. */
    function AsPatch(): (p: FormData)
      ensures UniqueKeys(p) && Keys(p) == [section]
      ensures Get(p, section) == Some(record)
    {
      [(section, record)]
    }
  }

  /** JavaScript truthiness: the empty string is falsy, every array is truthy. */
  predicate Truthy(v: Value)
  {
    !(v.Str? && v.s == "")
  }

  /** An array value with no element. */
  predicate IsEmptyList(v: Value)
  {
    (v.Strs? && v.items == []) || (v.Nums? && v.nums == [])
  }

  /** `String(v)`: arrays print their elements joined by ",". */
  function JsString(v: Value): string
  {
    match v
    case Str(s) => s
    case Strs(items) => Join(items, ",")
    case Nums(ns) => Join(NumStrings(ns), ",")
  }

  function NumStrings(ns: seq<int>): (r: seq<string>)
    ensures |r| == |ns|
  {
    if |ns| == 0 then [] else [IntToString(ns[0])] + NumStrings(ns[1..])
  }

  /** The record holds a checkbox list under `k`. */
  predicate HoldsList(r: Record, k: string)
  {
    Get(r, k).Some? && Get(r, k).value.Strs?
  }

  /** The checkbox ids stored under `k`, or none. */
  function ListAt(r: Record, k: string): seq<string>
  {
    if HoldsList(r, k) then Get(r, k).value.items else []
  }

  /** `list.filter((x) => x !== id)`: every occurrence of `id` removed, the rest in order. */
  function Without(list: seq<string>, id: string): (r: seq<string>)
    ensures id !in r
    ensures multiset(r) == multiset(list)[id := 0]
  {
    if |list| == 0 then []
    else
      var rest := Without(list[1..], id);
      assert list == [list[0]] + list[1..];
      if list[0] == id then rest else [list[0]] + rest
  }

  /** Filtering distributes over concatenation, so the kept ids keep their order. */
  lemma {:induction false} WithoutAppend(a: seq<string>, b: seq<string>, id: string)
    ensures Without(a + b, id) == Without(a, id) + Without(b, id)
  {
    if |a| > 0 {
      assert (a + b)[1..] == a[1..] + b;
      WithoutAppend(a[1..], b, id);
    } else {
      assert a + b == b;
    }
  }

  /** A list without `id` is left alone by filtering. */
  lemma {:induction false} WithoutAbsent(list: seq<string>, id: string)
    requires id !in list
    ensures Without(list, id) == list
  {
    if |list| > 0 {
      WithoutAbsent(list[1..], id);
      assert list == [list[0]] + list[1..];
    }
  }

  /** The new list a checkbox change computes: `checked ? [...list, id] : list.filter(...)`. */
  function Toggle(list: seq<string>, id: string, checked: bool): (r: seq<string>)
    ensures checked ==> r == list + [id]
    ensures !checked ==> id !in r && multiset(r) == multiset(list)[id := 0]
  {
    if checked then list + [id] else Without(list, id)
  }

  /** Checking and then unchecking the same id removes it everywhere; when it was absent
      before, the list is back to what it was. */
  lemma ToggleOnOff(list: seq<string>, id: string)
    ensures Toggle(Toggle(list, id, true), id, false) == Without(list, id)
    ensures id !in list ==> Toggle(Toggle(list, id, true), id, false) == list
  {
    WithoutAppend(list, [id], id);
    assert Without([id], id) == [];
    assert Without(list, id) + [] == Without(list, id);
    if id !in list { WithoutAbsent(list, id); }
  }
}

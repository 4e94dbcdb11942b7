/**
 * The data steps of the `add` command: numbering the service types offered,
 * finding the package category of the chosen type, ordering the provider's
 * required fields and turning the user's answers into the service's
 * credentials.
 */
module ServiceSetup {
  import opened Wrappers
  import opened Strings

  /** An entry of the provider's service-type catalog (`name`, `str(id)`). */
  datatype ServiceType = ServiceType(name: string, id: string)

  /** An entry of the package-category catalog (`title`, `str(id)`). */
  datatype Category = Category(title: string, id: string)

  /** A field the provider requires for a service type. */
  datatype RequiredField = RequiredField(id: int, name: string, prompt: string, suffix: Option<string>)

  /** A printed `[n] text` line of a numbered listing. */
  datatype NumberedLine = NumberedLine(number: nat, text: string)

  /**
   * The listing loop of `add`: each service type is appended to the choices
   * and printed with its 1-based position.
   */
  method ListServiceTypes(types: seq<ServiceType>) returns (choices: seq<ServiceType>, lines: seq<NumberedLine>)
    ensures choices == types
    ensures |lines| == |choices|
    ensures forall i :: 0 <= i < |lines| ==> lines[i] == NumberedLine(i + 1, choices[i].name)
  {
    choices, lines := [], [];
    for i := 0 to |types|
      invariant choices == types[..i]
      invariant |lines| == i
      invariant forall j :: 0 <= j < i ==> lines[j] == NumberedLine(j + 1, choices[j].name)
    {
      choices := choices + [ServiceType(types[i].name, types[i].id)];
      lines := lines + [NumberedLine(|choices|, types[i].name)];
    }
  }

  /** The id of the last category titled `title`, or the empty string. */
  function LastMatchingId(categories: seq<Category>, title: string): (id: string)
    ensures (forall j :: 0 <= j < |categories| ==> categories[j].title != title) ==> id == ""
    ensures forall j :: 0 <= j < |categories| && IsLastTitled(categories, j, title) ==> id == categories[j].id
  {
    if categories == [] then ""
    else
      var last := categories[|categories| - 1];
      if last.title == title then last.id
      else
        LastTitledBeforeLast(categories, title);
        LastMatchingId(categories[..|categories| - 1], title)
  }

  /** When the last category lacks the title, the last one titled is the last one titled among the others. */
  lemma LastTitledBeforeLast(categories: seq<Category>, title: string)
    requires categories != [] && categories[|categories| - 1].title != title
    ensures var init := categories[..|categories| - 1];
      forall j :: 0 <= j < |init| ==> init[j] == categories[j]
    ensures var init := categories[..|categories| - 1];
      forall j :: 0 <= j < |categories| && IsLastTitled(categories, j, title) ==> j < |init| && IsLastTitled(init, j, title)
  {
  }

  /** Category `j` has the title and no later one does. */
  predicate IsLastTitled(categories: seq<Category>, j: nat, title: string)
    requires j < |categories|
  {
    categories[j].title == title && forall k :: j < k < |categories| ==> categories[k].title != title
  }

  /** Looking one category further: that category wins when it has the title. */
  lemma LastMatchingIdStep(categories: seq<Category>, i: nat, title: string)
    requires i < |categories|
    ensures LastMatchingId(categories[..i + 1], title)
            == if categories[i].title == title then categories[i].id else LastMatchingId(categories[..i], title)
  {
    assert categories[..i + 1][..i] == categories[..i];
  }

  /** The category lookup of `add`: the loop does not stop at the first match, so the last one wins. */
  method FindCategoryId(categories: seq<Category>, serviceType: string) returns (categoryId: string)
    ensures categoryId == LastMatchingId(categories, serviceType)
  {
    categoryId := "";
    for i := 0 to |categories|
      invariant categoryId == LastMatchingId(categories[..i], serviceType)
    {
      LastMatchingIdStep(categories, i, serviceType);
      if categories[i].title == serviceType {
        categoryId := categories[i].id;
      }
    }
    assert categories[..|categories|] == categories;
  }

  predicate SortedById(fields: seq<RequiredField>) {
    forall i, j :: 0 <= i < j < |fields| ==> fields[i].id <= fields[j].id
  }

  /** Inserts `f` after every field whose id is not larger. */
  function InsertById(sorted: seq<RequiredField>, f: RequiredField): (r: seq<RequiredField>)
    requires SortedById(sorted)
    ensures SortedById(r)
    ensures multiset(r) == multiset(sorted) + multiset{f}
    ensures |r| == |sorted| + 1
  {
    if sorted == [] then [f]
    else
      SortedTail(sorted);
      if f.id < sorted[0].id then
        SortedCons(f, sorted);
        [f] + sorted
      else
        var rest := InsertById(sorted[1..], f);
        LowerBoundKept(sorted[1..], f, rest, sorted[0].id);
        SortedCons(sorted[0], rest);
        assert sorted == [sorted[0]] + sorted[1..];
        [sorted[0]] + rest
  }

  /** The tail of a sorted sequence is sorted, and bounded below by the head. */
  lemma SortedTail(sorted: seq<RequiredField>)
    requires SortedById(sorted) && sorted != []
    ensures SortedById(sorted[1..])
    ensures forall k :: 0 <= k < |sorted[1..]| ==> sorted[0].id <= sorted[1..][k].id
  {
    forall k | 0 <= k < |sorted[1..]| ensures sorted[0].id <= sorted[1..][k].id {
      assert sorted[1..][k] == sorted[k + 1];
    }
  }

  /** A field no larger than every field of a sorted sequence can go in front. */
  lemma SortedCons(f: RequiredField, sorted: seq<RequiredField>)
    requires SortedById(sorted)
    requires forall k :: 0 <= k < |sorted| ==> f.id <= sorted[k].id
    ensures SortedById([f] + sorted)
  {
    var r := [f] + sorted;
    forall i, j | 0 <= i < j < |r| ensures r[i].id <= r[j].id {
      assert r[j] == sorted[j - 1];
      if i > 0 {
        assert r[i] == sorted[i - 1];
      }
    }
  }

  /** A lower bound on the ids of `s` and of `f` bounds every id of a rearrangement of `s` plus `f`. */
  lemma LowerBoundKept(s: seq<RequiredField>, f: RequiredField, r: seq<RequiredField>, lo: int)
    requires multiset(r) == multiset(s) + multiset{f}
    requires lo <= f.id && forall k :: 0 <= k < |s| ==> lo <= s[k].id
    ensures forall k :: 0 <= k < |r| ==> lo <= r[k].id
  {
    forall k | 0 <= k < |r| ensures lo <= r[k].id {
      assert r[k] in multiset(r);
      if r[k] != f {
        assert r[k] in multiset(s);
        var m :| 0 <= m < |s| && s[m] == r[k];
      }
    }
  }

  /** `required_fields.sort(key=id)`: ordered by id, the same fields. */
  function SortById(fields: seq<RequiredField>): (r: seq<RequiredField>)
    ensures SortedById(r)
    ensures multiset(r) == multiset(fields)
    ensures |r| == |fields|
  {
    if fields == [] then []
    else
      var init := fields[..|fields| - 1];
      assert fields == init + [fields[|fields| - 1]];
      InsertById(SortById(init), fields[|fields| - 1])
  }

  /** The answer to a field's prompt, completed with the field's suffix when it does not already end with it. */
  function CompleteSuffix(answer: string, suffix: Option<string>): (r: string)
    ensures StartsWith(r, answer)
    ensures suffix.Some? ==> EndsWith(r, suffix.value)
    ensures suffix.None? || EndsWith(answer, suffix.value) ==> r == answer
    ensures suffix.Some? && !EndsWith(answer, suffix.value) ==> |r| == |answer| + |suffix.value|
  {
    if suffix.Some? && !EndsWith(answer, suffix.value) then answer + suffix.value else answer
  }

  /** Completing twice is completing once. */
  lemma CompleteSuffixIdempotent(answer: string, suffix: Option<string>)
    ensures CompleteSuffix(CompleteSuffix(answer, suffix), suffix) == CompleteSuffix(answer, suffix)
  {
  }

  /** The credentials built from the fields, in order, and their answers; a later field overwrites an earlier one of the same name. */
  function CredentialsFrom(fields: seq<RequiredField>, answers: seq<string>): (creds: map<string, string>)
    requires |answers| == |fields|
    ensures creds.Keys == set i | 0 <= i < |fields| :: fields[i].name
  {
    if fields == [] then map[]
    else
      var n := |fields| - 1;
      var prior := CredentialsFrom(fields[..n], answers[..n]);
      assert forall i :: 0 <= i < n ==> fields[..n][i] == fields[i];
      prior[fields[n].name := CompleteSuffix(answers[n], fields[n].suffix)]
  }

  /** The prompt loop of `add`: one answer per field, completed and stored under the field's name. */
  method CollectCredentials(fields: seq<RequiredField>, answers: seq<string>) returns (creds: map<string, string>)
    requires |answers| == |fields|
    ensures creds == CredentialsFrom(fields, answers)
  {
    creds := map[];
    for i := 0 to |fields|
      invariant creds == CredentialsFrom(fields[..i], answers[..i])
    {
      assert fields[..i + 1][..i] == fields[..i] && answers[..i + 1][..i] == answers[..i];
      var input := answers[i];
      if fields[i].suffix.Some? && !EndsWith(input, fields[i].suffix.value) {
        input := input + fields[i].suffix.value;
      }
      creds := creds[fields[i].name := input];
    }
    assert fields[..|fields|] == fields && answers[..|answers|] == answers;
  }

  /** With distinct field names, every field's value is its own completed answer. */
  lemma {:induction false} CredentialsOfDistinctFields(fields: seq<RequiredField>, answers: seq<string>, i: nat)
    requires |answers| == |fields| && i < |fields|
    requires forall a, b :: 0 <= a < b < |fields| ==> fields[a].name != fields[b].name
    ensures CredentialsFrom(fields, answers)[fields[i].name] == CompleteSuffix(answers[i], fields[i].suffix)
    ensures fields[i].suffix.Some? ==> EndsWith(CredentialsFrom(fields, answers)[fields[i].name], fields[i].suffix.value)
  {
    var n := |fields| - 1;
    if i < n {
      CredentialsOfDistinctFields(fields[..n], answers[..n], i);
      assert fields[..n][i] == fields[i] && answers[..n][i] == answers[i];
    }
  }
}

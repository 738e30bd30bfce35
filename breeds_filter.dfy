/** `DogBreedsFilter`: the list of breeds offered, loaded once and sorted, and the selection
    of breeds toggled from it. */
module DogBreedsFilter {
  import Lists
  import Gateway

  /** The comparator `(a, b) => a.localeCompare(b)`, read as "a sorts no later than b":
      any total preorder on strings. */
  ghost predicate TotalPreorder(le: (string, string) -> bool) {
    (forall a, b :: le(a, b) || le(b, a))
    && (forall a, b, c :: le(a, b) && le(b, c) ==> le(a, c))
  }

  predicate SortedBy(s: seq<string>, le: (string, string) -> bool) {
    forall i, j :: 0 <= i < j < |s| ==> le(s[i], s[j])
  }

  /** `data.sort(comparator)`: sorts the array in place, here by insertion. */
  method SortInPlace(a: array<string>, le: (string, string) -> bool)
    requires TotalPreorder(le)
    modifies a
    ensures SortedBy(a[..], le)
    ensures multiset(a[..]) == multiset(old(a[..]))
  {
    var i := 0;
    while i < a.Length
      invariant 0 <= i <= a.Length
      invariant SortedBy(a[..i], le)
      invariant multiset(a[..]) == multiset(old(a[..]))
    {
      InsertLast(a, i, le);
      i := i + 1;
    }
  }

  /** One insertion step: `a[..i]` is sorted; afterwards `a[..i + 1]` is. */
  method InsertLast(a: array<string>, i: int, le: (string, string) -> bool)
    requires TotalPreorder(le)
    requires 0 <= i < a.Length
    requires SortedBy(a[..i], le)
    modifies a
    ensures SortedBy(a[..i + 1], le)
    ensures multiset(a[..]) == multiset(old(a[..]))
  {
    var j := i;
    while j > 0 && !le(a[j - 1], a[j])
      invariant 0 <= j <= i
      invariant forall k, l :: 0 <= k < l <= i && k != j && l != j ==> le(a[k], a[l])
      invariant forall l :: j < l <= i ==> le(a[j], a[l])
      invariant multiset(a[..]) == multiset(old(a[..]))
    {
      a[j - 1], a[j] := a[j], a[j - 1];
      j := j - 1;
    }
  }

  /** The `onSelect` update: a selected breed is removed, any other is appended at the end. */
  function Toggled(selected: seq<string>, breed: string): (r: seq<string>)
    ensures breed in r <==> breed !in selected
    ensures forall x :: x != breed ==> (x in r <==> x in selected)
    ensures breed !in selected ==> |r| == |selected| + 1 && r[..|selected|] == selected && r[|selected|] == breed
    ensures Lists.NoDuplicates(selected) ==> Lists.NoDuplicates(r)
  {
    if breed in selected then
      Lists.WithoutNoDuplicatesIf(selected, breed);
      Lists.Without(selected, breed)
    else
      Lists.AppendNoDuplicatesIf(selected, breed);
      selected + [breed]
  }

  /** Selecting the same breed twice restores a selection that did not hold it. */
  lemma ToggleTwice(selected: seq<string>, breed: string)
    requires breed !in selected
    ensures Toggled(Toggled(selected, breed), breed) == selected
  {
    Lists.WithoutAppended(selected, breed);
  }

  /** In a selection without duplicates, selecting a selected breed cuts out exactly its slot. */
  lemma ToggleOffAt(selected: seq<string>, i: nat)
    requires Lists.NoDuplicates(selected) && i < |selected|
    ensures Toggled(selected, selected[i]) == selected[..i] + selected[i + 1..]
  {
    Lists.WithoutAt(selected, i);
  }

  /** The component's breed list and the selection it edits. */
  class BreedsFilter {
    var breeds: seq<string>
    var selectedBreeds: seq<string>

    constructor (selected: seq<string>)
      ensures breeds == [] && selectedBreeds == selected
    {
      breeds := [];
      selectedBreeds := selected;
    }

    /** The mount effect with the breeds response: a successful one is sorted and stored, a
        failed or rejected one leaves the list as it was. */
    method FetchBreeds(response: Gateway.Reply<seq<string>>, le: (string, string) -> bool)
      requires TotalPreorder(le)
      modifies this`breeds
      ensures Gateway.IsOk(response) ==>
        SortedBy(breeds, le) && multiset(breeds) == multiset(response.body)
      ensures !Gateway.IsOk(response) ==> breeds == old(breeds)
    {
      if response.Response? && response.ok {
        var data := response.body;
        var a := new string[|data|](k requires 0 <= k < |data| => data[k]);
        assert a[..] == data;
        SortInPlace(a, le);
        breeds := a[..];
      }
    }

    /** Choosing a breed in the list toggles it in the selection. */
    method Select(breed: string)
      modifies this`selectedBreeds
      ensures selectedBreeds == Toggled(old(selectedBreeds), breed)
    {
      if breed in selectedBreeds {
        selectedBreeds := Lists.Without(selectedBreeds, breed);
      } else {
        selectedBreeds := selectedBreeds + [breed];
      }
    }

    /** Clicking a breed's badge drops it from the selection, keeping the rest in order. */
    method ClickBadge(breed: string)
      modifies this`selectedBreeds
      ensures selectedBreeds == Lists.Without(old(selectedBreeds), breed)
      ensures breed !in selectedBreeds
    {
      selectedBreeds := Lists.Without(selectedBreeds, breed);
    }
  }
}

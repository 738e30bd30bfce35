/** `fetchDogs`: the search query built from filter, sort and pagination parameters, and the
    search-then-details exchange with the remote service. */
module DogService {
  import opened Wrappers
  import Gateway
  import Decimal

  datatype Dog = Dog(id: string, name: string, breed: string, age: int, zipCode: string, img: string)

  /** Every field may be left undefined by the caller. */
  datatype FetchDogsParams = FetchDogsParams(
    breeds: Option<seq<string>>,
    zipCodes: Option<seq<string>>,
    ageMin: Option<int>,
    ageMax: Option<int>,
    page: Option<int>,
    from: Option<int>,
    size: Option<int>,
    sort: Option<string>)

  /** `fetchDogs()` with no argument. */
  const NoParams := FetchDogsParams(None, None, None, None, None, None, None, None)

  /** The search query string, as the key/value pairs appended to `URLSearchParams`. */
  type Query = seq<(string, string)>

  /** The payload of the search response; `resultIds` may be missing. */
  datatype SearchResults = SearchResults(resultIds: Option<seq<string>>, total: int, next: Option<string>, prev: Option<string>)

  datatype FetchDogsResults = FetchDogsResults(dogs: seq<Dog>, total: int, next: Option<string>, prev: Option<string>)

  /** A thrown `Error` with its message. */
  datatype Error = Error(message: string)

  const SearchFailedMessage := "Failed to fetch dog IDs"
  const DetailsFailedMessage := "Failed to fetch dog details"

  const DefaultPage := 1
  const DefaultSize := 10
  const DefaultFrom := 0

  function OrElse<T>(o: Option<T>, default: T): T {
    if o.Some? then o.value else default
  }

  /** The list a `forEach` runs over: none when the list is undefined. */
  function ListOf(o: Option<seq<string>>): seq<string> {
    OrElse(o, [])
  }

  /** One `(key, v)` pair per value, in order. */
  function Pairs(key: string, values: seq<string>): (q: Query)
    ensures |q| == |values|
  {
    seq(|values|, i requires 0 <= i < |values| => (key, values[i]))
  }

  /** The `sort` pair, present only for a truthy (defined, non-empty) sort string. */
  function SortPairs(sort: Option<string>): (q: Query)
    ensures q != [] <==> sort.Some? && sort.value != ""
    ensures |q| <= 1 && (q != [] ==> q[0] == ("sort", sort.value))
  {
    if sort.Some? && sort.value != "" then [("sort", sort.value)] else []
  }

  /** A numeric pair, present only when the number is defined. */
  function NumberPairs(key: string, n: Option<int>): (q: Query)
    ensures |q| == if n.Some? then 1 else 0
    ensures forall i :: 0 <= i < |q| ==> q[i].0 == key
  {
    if n.Some? then [(key, Decimal.FromInt(n.value))] else []
  }

  /** The three pairs always appended last, with their defaults. */
  function PagingPairs(p: FetchDogsParams): (q: Query)
    ensures |q| == 3 && q[0].0 == "page" && q[1].0 == "size" && q[2].0 == "from"
  {
    [("page", Decimal.FromInt(OrElse(p.page, DefaultPage))),
     ("size", Decimal.FromInt(OrElse(p.size, DefaultSize))),
     ("from", Decimal.FromInt(OrElse(p.from, DefaultFrom)))]
  }

  /** The query `fetchDogs` sends, section by section in the order the code appends them. */
  function QueryParams(p: FetchDogsParams): (q: Query)
    ensures |q| >= 3 && q[|q| - 3].0 == "page" && q[|q| - 2].0 == "size" && q[|q| - 1].0 == "from"
  {
    OptionalPairs(p) + PagingPairs(p)
  }

  /** The pairs for the optional parameters, in the order the code appends them. */
  function OptionalPairs(p: FetchDogsParams): (q: Query)
    ensures |q| == |ListOf(p.breeds)| + |SortPairs(p.sort)| + |ListOf(p.zipCodes)|
                   + (if p.ageMin.Some? then 1 else 0) + (if p.ageMax.Some? then 1 else 0)
  {
    Pairs("breeds", ListOf(p.breeds))
      + SortPairs(p.sort)
      + Pairs("zipCodes", ListOf(p.zipCodes))
      + NumberPairs("ageMin", p.ageMin)
      + NumberPairs("ageMax", p.ageMax)
  }

  /** `values.forEach(v => queryParams.append(key, v))`. */
  method AppendEach(q0: Query, key: string, values: seq<string>) returns (q: Query)
    ensures q == q0 + Pairs(key, values)
  {
    q := q0;
    var i := 0;
    while i < |values|
      invariant 0 <= i <= |values|
      invariant q == q0 + Pairs(key, values[..i])
    {
      q := q + [(key, values[i])];
      i := i + 1;
    }
    assert values[..i] == values;
  }

  /** `if (n !== undefined) queryParams.append(key, n.toString())`. */
  method AppendIfDefined(q0: Query, key: string, n: Option<int>) returns (q: Query)
    ensures q == q0 + NumberPairs(key, n)
  {
    q := q0;
    if n.Some? {
      q := q + [(key, Decimal.FromInt(n.value))];
    }
  }

  /** The query construction as the code performs it: conditional appends and two loops. */
  method BuildQuery(p: FetchDogsParams) returns (q: Query)
    ensures q == QueryParams(p)
  {
    ghost var breedPairs, sortPairs, zipPairs := Pairs("breeds", ListOf(p.breeds)), SortPairs(p.sort), Pairs("zipCodes", ListOf(p.zipCodes));
    ghost var minPairs, maxPairs, pagingPairs := NumberPairs("ageMin", p.ageMin), NumberPairs("ageMax", p.ageMax), PagingPairs(p);
    q := [];
    if p.breeds.Some? && |p.breeds.value| > 0 {
      q := AppendEach(q, "breeds", p.breeds.value);
    }
    assert q == breedPairs;
    if p.sort.Some? && p.sort.value != "" {
      q := q + [("sort", p.sort.value)];
    }
    assert q == breedPairs + sortPairs;
    if p.zipCodes.Some? && |p.zipCodes.value| > 0 {
      q := AppendEach(q, "zipCodes", p.zipCodes.value);
    }
    assert q == breedPairs + sortPairs + zipPairs;
    q := AppendIfDefined(q, "ageMin", p.ageMin);
    q := AppendIfDefined(q, "ageMax", p.ageMax);
    ghost var front := breedPairs + sortPairs + zipPairs + minPairs + maxPairs;
    assert q == front;
    var page := OrElse(p.page, DefaultPage);
    var size := OrElse(p.size, DefaultSize);
    var from := OrElse(p.from, DefaultFrom);
    q := q + [("page", Decimal.FromInt(page))];
    q := q + [("size", Decimal.FromInt(size))];
    q := q + [("from", Decimal.FromInt(from))];
    assert q == front + pagingPairs;
  }

  // ---------------------------------------------------------------------------
  // What the query says, key by key, and in which order the keys come.

  /** The values given for `key`, in query order (`URLSearchParams.getAll`). */
  function ValuesOf(q: Query, key: string): (vs: seq<string>)
    ensures |vs| <= |q|
  {
    if q == [] then []
    else (if q[0].0 == key then [q[0].1] else []) + ValuesOf(q[1..], key)
  }

  /** A value is given for `key` exactly when the query holds that pair. */
  lemma {:induction false} ValuesOfMembers(q: Query, key: string, v: string)
    ensures v in ValuesOf(q, key) <==> (key, v) in q
  {
    if q != [] {
      ValuesOfMembers(q[1..], key, v);
      assert q == [q[0]] + q[1..];
    }
  }

  lemma {:induction false} ValuesOfAppend(a: Query, b: Query, key: string)
    ensures ValuesOf(a + b, key) == ValuesOf(a, key) + ValuesOf(b, key)
  {
    if a == [] {
      assert a + b == b;
    } else {
      assert (a + b)[0] == a[0];
      assert (a + b)[1..] == a[1..] + b;
      ValuesOfAppend(a[1..], b, key);
    }
  }

  lemma {:induction false} ValuesOfPairs(k: string, values: seq<string>, key: string)
    ensures ValuesOf(Pairs(k, values), key) == if k == key then values else []
  {
    if values != [] {
      assert Pairs(k, values)[1..] == Pairs(k, values[1..]);
      ValuesOfPairs(k, values[1..], key);
      assert values == [values[0]] + values[1..];
    }
  }

  /** The values for a key are those of the six sections, one after the other. */
  lemma QuerySections(p: FetchDogsParams, key: string)
    ensures ValuesOf(QueryParams(p), key) ==
      ValuesOf(Pairs("breeds", ListOf(p.breeds)), key)
        + ValuesOf(SortPairs(p.sort), key)
        + ValuesOf(Pairs("zipCodes", ListOf(p.zipCodes)), key)
        + ValuesOf(NumberPairs("ageMin", p.ageMin), key)
        + ValuesOf(NumberPairs("ageMax", p.ageMax), key)
        + ValuesOf(PagingPairs(p), key)
  {
    var s1 := Pairs("breeds", ListOf(p.breeds));
    var s2 := SortPairs(p.sort);
    var s3 := Pairs("zipCodes", ListOf(p.zipCodes));
    var s4 := NumberPairs("ageMin", p.ageMin);
    var s5 := NumberPairs("ageMax", p.ageMax);
    var s6 := PagingPairs(p);
    ValuesOfAppend(s1 + s2 + s3 + s4 + s5, s6, key);
    ValuesOfAppend(s1 + s2 + s3 + s4, s5, key);
    ValuesOfAppend(s1 + s2 + s3, s4, key);
    ValuesOfAppend(s1 + s2, s3, key);
    ValuesOfAppend(s1, s2, key);
  }

  lemma ValuesOfSingle(k: string, v: string, key: string)
    ensures ValuesOf([(k, v)], key) == if k == key then [v] else []
  {
    assert [(k, v)][1..] == [];
  }

  /** The values of the paging section for each key. */
  lemma PagingValues(p: FetchDogsParams, key: string)
    ensures ValuesOf(PagingPairs(p), key) ==
      (if key == "page" then [Decimal.FromInt(OrElse(p.page, DefaultPage))] else [])
      + (if key == "size" then [Decimal.FromInt(OrElse(p.size, DefaultSize))] else [])
      + (if key == "from" then [Decimal.FromInt(OrElse(p.from, DefaultFrom))] else [])
  {
    var s := PagingPairs(p);
    assert s == [s[0]] + [s[1]] + [s[2]];
    ValuesOfAppend([s[0]] + [s[1]], [s[2]], key);
    ValuesOfAppend([s[0]], [s[1]], key);
    ValuesOfSingle(s[0].0, s[0].1, key);
    ValuesOfSingle(s[1].0, s[1].1, key);
    ValuesOfSingle(s[2].0, s[2].1, key);
  }

  /** The values of every section but the paging one, for each key. */
  lemma OptionalValues(p: FetchDogsParams, key: string)
    ensures ValuesOf(Pairs("breeds", ListOf(p.breeds)), key) == if key == "breeds" then ListOf(p.breeds) else []
    ensures ValuesOf(SortPairs(p.sort), key) == if key == "sort" then (if p.sort.Some? && p.sort.value != "" then [p.sort.value] else []) else []
    ensures ValuesOf(Pairs("zipCodes", ListOf(p.zipCodes)), key) == if key == "zipCodes" then ListOf(p.zipCodes) else []
    ensures ValuesOf(NumberPairs("ageMin", p.ageMin), key) == if key == "ageMin" && p.ageMin.Some? then [Decimal.FromInt(p.ageMin.value)] else []
    ensures ValuesOf(NumberPairs("ageMax", p.ageMax), key) == if key == "ageMax" && p.ageMax.Some? then [Decimal.FromInt(p.ageMax.value)] else []
  {
    ValuesOfPairs("breeds", ListOf(p.breeds), key);
    ValuesOfPairs("zipCodes", ListOf(p.zipCodes), key);
    if p.sort.Some? && p.sort.value != "" { ValuesOfSingle("sort", p.sort.value, key); }
    if p.ageMin.Some? { ValuesOfSingle("ageMin", Decimal.FromInt(p.ageMin.value), key); }
    if p.ageMax.Some? { ValuesOfSingle("ageMax", Decimal.FromInt(p.ageMax.value), key); }
  }

  /** `breeds` carries every breed, in input order. */
  lemma BreedsValues(p: FetchDogsParams)
    ensures ValuesOf(QueryParams(p), "breeds") == ListOf(p.breeds)
  {
    QuerySections(p, "breeds");
    OptionalValues(p, "breeds");
    PagingValues(p, "breeds");
  }

  /** `zipCodes` carries every zip code, in input order. */
  lemma ZipCodesValues(p: FetchDogsParams)
    ensures ValuesOf(QueryParams(p), "zipCodes") == ListOf(p.zipCodes)
  {
    QuerySections(p, "zipCodes");
    OptionalValues(p, "zipCodes");
    PagingValues(p, "zipCodes");
  }

  /** `sort` carries the sort string, only when it is non-empty. */
  lemma SortValues(p: FetchDogsParams)
    ensures ValuesOf(QueryParams(p), "sort") == if p.sort.Some? && p.sort.value != "" then [p.sort.value] else []
  {
    QuerySections(p, "sort");
    OptionalValues(p, "sort");
    PagingValues(p, "sort");
  }

  /** `ageMin` carries the lower age bound, only when defined. */
  lemma AgeMinValues(p: FetchDogsParams)
    ensures ValuesOf(QueryParams(p), "ageMin") == if p.ageMin.Some? then [Decimal.FromInt(p.ageMin.value)] else []
  {
    QuerySections(p, "ageMin");
    OptionalValues(p, "ageMin");
    PagingValues(p, "ageMin");
  }

  /** `ageMax` carries the upper age bound, only when defined. */
  lemma AgeMaxValues(p: FetchDogsParams)
    ensures ValuesOf(QueryParams(p), "ageMax") == if p.ageMax.Some? then [Decimal.FromInt(p.ageMax.value)] else []
  {
    QuerySections(p, "ageMax");
    OptionalValues(p, "ageMax");
    PagingValues(p, "ageMax");
  }

  /** `page` carries exactly one page, 1 by default. */
  lemma PageValues(p: FetchDogsParams)
    ensures ValuesOf(QueryParams(p), "page") == [Decimal.FromInt(OrElse(p.page, 1))]
  {
    QuerySections(p, "page");
    OptionalValues(p, "page");
    PagingValues(p, "page");
  }

  /** `size` carries exactly one size, 10 by default. */
  lemma SizeValues(p: FetchDogsParams)
    ensures ValuesOf(QueryParams(p), "size") == [Decimal.FromInt(OrElse(p.size, 10))]
  {
    QuerySections(p, "size");
    OptionalValues(p, "size");
    PagingValues(p, "size");
  }

  /** `from` carries exactly one from, 0 by default. */
  lemma FromValues(p: FetchDogsParams)
    ensures ValuesOf(QueryParams(p), "from") == [Decimal.FromInt(OrElse(p.from, 0))]
  {
    QuerySections(p, "from");
    OptionalValues(p, "from");
    PagingValues(p, "from");
  }

  /** Each key carries exactly what the parameters say: every breed and every zip code in
      input order, the sort string only when non-empty, an age bound only when defined, and
      exactly one page, size and from, defaulting to 1, 10 and 0. */
  lemma QueryValues(p: FetchDogsParams)
    ensures ValuesOf(QueryParams(p), "breeds") == ListOf(p.breeds)
    ensures ValuesOf(QueryParams(p), "zipCodes") == ListOf(p.zipCodes)
    ensures ValuesOf(QueryParams(p), "sort") == if p.sort.Some? && p.sort.value != "" then [p.sort.value] else []
    ensures ValuesOf(QueryParams(p), "ageMin") == if p.ageMin.Some? then [Decimal.FromInt(p.ageMin.value)] else []
    ensures ValuesOf(QueryParams(p), "ageMax") == if p.ageMax.Some? then [Decimal.FromInt(p.ageMax.value)] else []
    ensures ValuesOf(QueryParams(p), "page") == [Decimal.FromInt(OrElse(p.page, 1))]
    ensures ValuesOf(QueryParams(p), "size") == [Decimal.FromInt(OrElse(p.size, 10))]
    ensures ValuesOf(QueryParams(p), "from") == [Decimal.FromInt(OrElse(p.from, 0))]
  {
    BreedsValues(p);
    ZipCodesValues(p);
    SortValues(p);
    AgeMinValues(p);
    AgeMaxValues(p);
    PageValues(p);
    SizeValues(p);
    FromValues(p);
  }

  /** The position of each key in the fixed order of the query. */
  function Rank(key: string): nat {
    if key == "breeds" then 0
    else if key == "sort" then 1
    else if key == "zipCodes" then 2
    else if key == "ageMin" then 3
    else if key == "ageMax" then 4
    else if key == "page" then 5
    else if key == "size" then 6
    else if key == "from" then 7
    else 8
  }

  /** Keys never come out of rank order, and every key is one of the eight known ones. */
  predicate InKeyOrder(q: Query) {
    (forall i, j :: 0 <= i < j < |q| ==> Rank(q[i].0) <= Rank(q[j].0))
    && (forall i :: 0 <= i < |q| ==> Rank(q[i].0) < 8)
  }

  predicate RankedAtMost(q: Query, r: nat) {
    forall i :: 0 <= i < |q| ==> Rank(q[i].0) <= r
  }

  predicate AllRanked(q: Query, r: nat) {
    forall i :: 0 <= i < |q| ==> Rank(q[i].0) == r
  }

  lemma InKeyOrderAppend(a: Query, b: Query, r: nat)
    requires InKeyOrder(a) && RankedAtMost(a, r)
    requires AllRanked(b, r) && r < 8
    ensures InKeyOrder(a + b) && RankedAtMost(a + b, r)
  {
    forall i, j | 0 <= i < j < |a + b| ensures Rank((a + b)[i].0) <= Rank((a + b)[j].0) {
      if j < |a| {
        assert (a + b)[i] == a[i] && (a + b)[j] == a[j];
      } else if i < |a| {
        assert (a + b)[i] == a[i] && (a + b)[j] == b[j - |a|];
      } else {
        assert (a + b)[i] == b[i - |a|] && (a + b)[j] == b[j - |a|];
      }
    }
    forall i | 0 <= i < |a + b| ensures Rank((a + b)[i].0) <= r {
      if i < |a| { assert (a + b)[i] == a[i]; } else { assert (a + b)[i] == b[i - |a|]; }
    }
  }

  lemma RankOfKeys()
    ensures Rank("breeds") == 0 && Rank("sort") == 1 && Rank("zipCodes") == 2 && Rank("ageMin") == 3
    ensures Rank("ageMax") == 4 && Rank("page") == 5 && Rank("size") == 6 && Rank("from") == 7
  {
  }

  /** Each section of the query holds only its own key. */
  lemma SectionRanks(p: FetchDogsParams)
    ensures AllRanked(Pairs("breeds", ListOf(p.breeds)), 0)
    ensures AllRanked(SortPairs(p.sort), 1)
    ensures AllRanked(Pairs("zipCodes", ListOf(p.zipCodes)), 2)
    ensures AllRanked(NumberPairs("ageMin", p.ageMin), 3)
    ensures AllRanked(NumberPairs("ageMax", p.ageMax), 4)
    ensures AllRanked(PagingPairs(p)[..1], 5)
    ensures AllRanked(PagingPairs(p)[1..2], 6)
    ensures AllRanked(PagingPairs(p)[2..], 7)
  {
    RankOfKeys();
  }

  lemma FilterOrder(p: FetchDogsParams)
    ensures InKeyOrder(Pairs("breeds", ListOf(p.breeds)) + SortPairs(p.sort) + Pairs("zipCodes", ListOf(p.zipCodes)))
    ensures RankedAtMost(Pairs("breeds", ListOf(p.breeds)) + SortPairs(p.sort) + Pairs("zipCodes", ListOf(p.zipCodes)), 2)
  {
    var s1 := Pairs("breeds", ListOf(p.breeds));
    var s2 := SortPairs(p.sort);
    var s3 := Pairs("zipCodes", ListOf(p.zipCodes));
    SectionRanks(p);
    InKeyOrderAppend([], s1, 0);
    assert [] + s1 == s1;
    InKeyOrderAppend(s1, s2, 1);
    InKeyOrderAppend(s1 + s2, s3, 2);
  }

  lemma OptionalOrder(p: FetchDogsParams)
    ensures InKeyOrder(OptionalPairs(p)) && RankedAtMost(OptionalPairs(p), 4)
  {
    var filters := Pairs("breeds", ListOf(p.breeds)) + SortPairs(p.sort) + Pairs("zipCodes", ListOf(p.zipCodes));
    var s4 := NumberPairs("ageMin", p.ageMin);
    var s5 := NumberPairs("ageMax", p.ageMax);
    FilterOrder(p);
    SectionRanks(p);
    InKeyOrderAppend(filters, s4, 3);
    InKeyOrderAppend(filters + s4, s5, 4);
  }

  /** The parameters appear in the fixed order breeds, sort, zipCodes, ageMin, ageMax, page,
      size, from, and no other key occurs. */
  lemma QueryOrder(p: FetchDogsParams)
    ensures InKeyOrder(QueryParams(p))
  {
    var front := OptionalPairs(p);
    var s6 := PagingPairs(p);
    var page, size, from := s6[..1], s6[1..2], s6[2..];
    OptionalOrder(p);
    SectionRanks(p);
    InKeyOrderAppend(front, page, 5);
    InKeyOrderAppend(front + page, size, 6);
    InKeyOrderAppend(front + page + size, from, 7);
    assert s6 == page + size + from;
    assert QueryParams(p) == front + page + size + from;
  }

  /** The query ends with page, size and from, and holds one pair per optional value plus those three. */
  lemma QueryShape(p: FetchDogsParams)
    ensures |QueryParams(p)| == |ListOf(p.breeds)| + |SortPairs(p.sort)| + |ListOf(p.zipCodes)|
      + (if p.ageMin.Some? then 1 else 0) + (if p.ageMax.Some? then 1 else 0) + 3
    ensures QueryParams(p)[|QueryParams(p)| - 3..] == PagingPairs(p)
  {
  }

  /** `fetchDogs()` with no parameters sends only page 1, size 10 and from 0. */
  lemma DefaultQuery()
    ensures QueryParams(NoParams) == [("page", "1"), ("size", "10"), ("from", "0")]
  {
    assert Decimal.FromInt(10) == Decimal.FromNat(1) + [Decimal.DigitChar(0)];
    assert Decimal.FromInt(10) == "10";
    assert Pairs("breeds", []) == [];
    assert Pairs("zipCodes", []) == [];
  }

  // ---------------------------------------------------------------------------
  // The two-phase fetch.

  /** What one call of `fetchDogs` does on the wire and what it returns: the search query it
      sent, the body of the details request if it sent one, and its value or thrown error. */
  datatype Exchange = Exchange(searchQuery: Query, detailsBody: Option<seq<string>>, outcome: Result<FetchDogsResults, Error>)

  /** The ids a successful search returned; none when `resultIds` is missing. */
  function IdsOf(r: SearchResults): seq<string> {
    ListOf(r.resultIds)
  }

  /** The error a call that did not succeed throws: the rejection's own, or `message` for a
      response that is not ok. */
  function ErrorOf<T>(r: Gateway.Reply<T>, message: string): Error {
    if r.Rejected? then Error(r.message) else Error(message)
  }

  /** `fetchDogs` composed over the two requests. `search` and `details` are the gateway:
      what the service answers to a search query and to a details body. */
  function FetchDogs(p: FetchDogsParams, search: Query -> Gateway.Reply<SearchResults>,
                     details: seq<string> -> Gateway.Reply<seq<Dog>>): (x: Exchange)
    // The search request carries exactly the query built from the parameters.
    ensures x.searchQuery == QueryParams(p)
    // A failed search throws, and no details request is sent.
    ensures !Gateway.IsOk(search(x.searchQuery)) ==>
      x.detailsBody == None && x.outcome == Failure(ErrorOf(search(x.searchQuery), SearchFailedMessage))
    // Exactly a successful search with some ids leads to a details request, whose body is exactly those ids.
    ensures x.detailsBody.Some? <==> Gateway.IsOk(search(x.searchQuery)) && IdsOf(search(x.searchQuery).body) != []
    ensures x.detailsBody.Some? ==> x.detailsBody.value == IdsOf(search(x.searchQuery).body)
    // A failed details request throws.
    ensures x.detailsBody.Some? && !Gateway.IsOk(details(x.detailsBody.value)) ==>
      x.outcome == Failure(ErrorOf(details(x.detailsBody.value), DetailsFailedMessage))
    // It succeeds exactly when the search, and the details request if one was sent, succeeded.
    ensures x.outcome.Success? <==>
      Gateway.IsOk(search(x.searchQuery)) && (x.detailsBody.Some? ==> Gateway.IsOk(details(x.detailsBody.value)))
    // On success the counts and cursors are the search's and the dogs are the details payload, or none.
    ensures x.outcome.Success? ==>
      && x.outcome.value.total == search(x.searchQuery).body.total
      && x.outcome.value.next == search(x.searchQuery).body.next
      && x.outcome.value.prev == search(x.searchQuery).body.prev
      && x.outcome.value.dogs == (if x.detailsBody.Some? then details(x.detailsBody.value).body else [])
  {
    var q := QueryParams(p);
    var searchReply := search(q);
    if !Gateway.IsOk(searchReply) then
      Exchange(q, None, Failure(ErrorOf(searchReply, SearchFailedMessage)))
    else
      var data := searchReply.body;
      if data.resultIds.None? || |data.resultIds.value| == 0 then
        Exchange(q, None, Success(FetchDogsResults([], data.total, data.next, data.prev)))
      else
        var ids := data.resultIds.value;
        var detailsReply := details(ids);
        if !Gateway.IsOk(detailsReply) then
          Exchange(q, Some(ids), Failure(ErrorOf(detailsReply, DetailsFailedMessage)))
        else
          Exchange(q, Some(ids), Success(FetchDogsResults(detailsReply.body, data.total, data.next, data.prev)))
  }
}

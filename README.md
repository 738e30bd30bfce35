# Dog catalog client: query, fetch, table state, favorites and breed filter

This project models the core of a browser client for an adoptable-dog catalog. The client
talks to a remote search service. The model covers four pieces of it:

- **`fetchDogs`** (module `DogService`). It turns filter, sort and paging parameters into the
  ordered key/value pairs of a search query string. It sends the search request, then a
  details request carrying the ids that came back, and returns a page of dogs with the total
  and the two cursors. `BuildQuery` performs the construction step by step, as the code does.
  `QueryParams` is the specification function it is proved against. `FetchDogs` composes the
  two requests over an abstract gateway. The gateway is a pair of functions: what the service
  answers to a given search query, and what it answers to a given details body. The result,
  an `Exchange`, records the query sent, the details body if a details request was sent, and
  the value returned or the error thrown.
- **The table** (module `DogTable`, class `Table`). It holds page, sort field, sort order,
  dogs, loading flag and error. Its handlers are next page, previous page, and the sort
  toggle. Its two effects are the reset to page 1 on a breed or sort change, and the reload
  on a page change. A load is split into `BeginLoad`, which returns the request parameters,
  and `CompleteLoad`, which receives the response. Nothing discards a stale response: the
  completion that runs last wins. `StaleResponseWins` and `EarlyFailureEndsLoading` show
  this, as the code has it.
- **The favorites hook** (module `Favorites`, class `FavoritesHook`). It holds an in-memory
  list of dog ids and the browser's durable storage, modelled as a map from key to decoded
  list. The key is `"favorites_" + email`. The hook loads on identity, adds without
  duplicates (at the end), and removes every occurrence. Each add or remove writes the whole
  list. Without a (truthy) email nothing is written.
- **The breed filter** (module `DogBreedsFilter`, class `BreedsFilter`). It sorts the fetched
  breed list in place by the comparator, toggles a breed in the selection, and removes a
  breed when its badge is clicked.

Helper modules: `Wrappers` (Option, Result), `Lists` (`filter(x => x !== v)` and the
duplicate-free predicate), `Decimal` (integer `toString` and its inverse) and `Gateway` (the
reply of an authenticated request). `FetchDogs` and `FetchBreeds` take any `Reply`.
`Gateway.WithAuth` only records how `fetchWithAuth` maps a 401 status to a rejection
(src/lib/utils.ts:14-20); no modelled operation calls it.

Behaviour the model keeps exactly as the code has it, although a stricter design would differ:

- When the new user has no stored list, the favorites read on a change of identity leave the
  previous in-memory list in place (`Restored`, `FavoritesHook.ChangeUser`). The list is not
  reset to empty.
- `removeDogFavorite` writes the filtered list even when the id was absent.
- The table has no request sequence number. A response to a superseded request that
  completes last overwrites the newer result.
- `total`, `next` and `prev` are passed through whether or not the search returned ids.

## Model

| member | source | states |
|---|---|---|
| `DogService.QueryParams` | src/api/dogService.ts:51-75 | the query always ends with the keys page, size and from; what each key carries and the order are stated by `QueryValues` and `QueryOrder` |
| `DogService.OptionalPairs` | src/api/dogService.ts:53-71 | one pair per breed, per zip code and per defined age bound, plus the sort pair when present |
| `DogService.SortPairs` | src/api/dogService.ts:57-59 | at most one pair; present exactly for a defined non-empty sort string, which it carries under `sort` |
| `DogService.NumberPairs` | src/api/dogService.ts:65-71 | one pair exactly when the number is defined, under the given key |
| `DogService.PagingPairs` | src/api/dogService.ts:73-75 | always three pairs, keyed page, size and from in that order |
| `DogService.ValuesOf` | src/api/dogService.ts:51 | reading a key back (`getAll`) gives at most as many values as the query has pairs |
| `DogService.ValuesOfMembers` | src/api/dogService.ts:51 | a value is read back for a key exactly when the query holds that pair |
| `DogService.AppendEach` | src/api/dogService.ts:54 | appending one `(key, v)` pair per value, in order, gives `q0 + Pairs(key, values)` |
| `DogService.AppendIfDefined` | src/api/dogService.ts:65-71 | a numeric pair is appended exactly when the value is defined, as its decimal string |
| `DogService.BuildQuery` | src/api/dogService.ts:45-75 | the imperative construction yields exactly `QueryParams(p)` |
| `DogService.Pairs` | src/api/dogService.ts:53-55 | one pair per value, so as many pairs as values |
| `DogService.BreedsValues` | src/api/dogService.ts:53-55 | the `breeds` values of the query are exactly the given breeds, in input order, and none when undefined or empty |
| `DogService.SortValues` | src/api/dogService.ts:57-59 | `sort` occurs once, with the given string, exactly when that string is defined and non-empty |
| `DogService.ZipCodesValues` | src/api/dogService.ts:61-63 | the `zipCodes` values are exactly the given zip codes, in input order |
| `DogService.AgeMinValues` | src/api/dogService.ts:65-67 | `ageMin` occurs once, as the decimal of the bound, exactly when it is defined |
| `DogService.AgeMaxValues` | src/api/dogService.ts:69-71 | `ageMax` occurs once, as the decimal of the bound, exactly when it is defined |
| `DogService.PageValues` | src/api/dogService.ts:73 | `page` occurs exactly once, defaulting to 1 |
| `DogService.SizeValues` | src/api/dogService.ts:74 | `size` occurs exactly once, defaulting to 10 |
| `DogService.FromValues` | src/api/dogService.ts:75 | `from` occurs exactly once, defaulting to 0 |
| `DogService.QueryValues` | src/api/dogService.ts:45-75 | all eight keys at once: each carries exactly the values the parameters give |
| `DogService.QueryOrder` | src/api/dogService.ts:51-75 | the keys come in the fixed order breeds, sort, zipCodes, ageMin, ageMax, page, size, from, and no other key occurs |
| `DogService.QueryShape` | src/api/dogService.ts:73-75 | the query ends with page, size and from, and has one pair per optional value plus those three |
| `DogService.DefaultQuery` | src/api/dogService.ts:37-49 | a call without parameters sends exactly `page=1`, `size=10`, `from=0` |
| `DogService.FetchDogs` | src/api/dogService.ts:77-110 | the search carries `QueryParams(p)`. A failed search throws "Failed to fetch dog IDs" (or the rejection's message) and sends no details request. A details request is sent exactly when the search succeeded with some ids, and its body is exactly those ids. A failed details request throws "Failed to fetch dog details". It succeeds exactly when both requests did (or the first returned no ids). On success the dogs are the details payload (none without ids), and total/next/prev are the search's |
| `Decimal.FromNat` | src/api/dogService.ts:66 | the printed number is a non-empty string of digits without a leading zero |
| `Decimal.FromInt` | src/api/dogService.ts:73-75 | the printed integer is non-empty and starts with `-` exactly when negative |
| `Decimal.FromIntRoundTrip` | src/api/dogService.ts:66-75 | reading back a printed integer gives the integer |
| `Decimal.FromNatRoundTrip` | src/api/dogService.ts:66-75 | reading back printed digits gives the natural number |
| `Decimal.FromIntInjective` | src/api/dogService.ts:73-75 | distinct numbers give distinct query values |
| `Gateway.WithAuth` | src/lib/utils.ts:14-20 | status 401 rejects with "Unauthorized"; any other status is returned, `ok` exactly for 2xx |
| `DogTable.Table.constructor` | src/components/DogTable.tsx:43-49 | the initial state: no dogs, loading, no error, page 1, sorted by "breed" "asc" |
| `DogTable.LoadParams` | src/components/DogTable.tsx:57-64 | the request names the page, size 10, an offset one page below the next page's start, the breeds and the sort string, and no zip code or age bound |
| `DogTable.Table.CurrentSort` | src/components/DogTable.tsx:78 | the sort string is the current field, a colon, then the current order |
| `DogTable.Table.BeginLoad` | src/components/DogTable.tsx:53-64 | loading becomes true and error null; the request is page, size 10, `from = (page-1)*10`, the breeds and the sort string |
| `DogTable.Table.CompleteLoad` | src/components/DogTable.tsx:65-71 | a result replaces the dogs; a thrown error sets "Failed to load dogs" and keeps the dogs; loading is false either way; no staleness check |
| `DogTable.Table.QueryChanged` | src/components/DogTable.tsx:76-79 | page is reset to 1 and page 1 is requested with `field:order` |
| `DogTable.Table.PageChanged` | src/components/DogTable.tsx:81-83 | the current page is requested with `field:order` |
| `DogTable.Table.HandlePaginationNext` | src/components/DogTable.tsx:85-87 | page grows by exactly one, with no upper bound |
| `DogTable.Table.HandlePaginationPrevious` | src/components/DogTable.tsx:89-91 | page becomes `max(page-1, 1)`, so it stays at least 1 |
| `DogTable.Table.HandleSortChange` | src/components/DogTable.tsx:93-100 | the current field flips the order and keeps the field; another field is selected with "asc" |
| `DogTable.Table.IsFavorite` | src/components/DogTable.tsx:102-104 | true exactly when some entry of the favorites is the id |
| `DogTable.Table.ToggleFavorite` | src/components/DogTable.tsx:106-112 | a favorite is removed (every occurrence) and anything else appended, and the list is written under the user's key |
| `DogTable.PreviousPage` | src/components/DogTable.tsx:90 | the result is at least 1, and exactly `page-1` from page 2 on |
| `DogTable.FlippedOrder` | src/components/DogTable.tsx:95 | the result is "asc" or "desc", and "desc" exactly when the order was "asc" |
| `DogTable.FlipTwice` | src/components/DogTable.tsx:95 | toggling the order of the same field twice restores it |
| `DogTable.SortParam` | src/components/DogTable.tsx:76-83 | the sort string is the field, a colon, then the order |
| `DogTable.Offset` | src/components/DogTable.tsx:57 | the offset is non-negative from page 1 on, and one page size below the next page's start |
| `DogTable.LoadQuery` | src/components/DogTable.tsx:57-64 | the query of a load carries the page, size 10, `from = (page-1)*10`, the breeds, the sort string when non-empty, and no zip code or age bound |
| `DogTable.NextFromFirstPage` | src/components/DogTable.tsx:81-87 | on a fresh table, "next" followed by the page effect requests page 2 from offset 10, with the given breeds |
| `DogTable.StaleResponseWins` | src/components/DogTable.tsx:51-83 | with two loads in flight, the response that completes last is what the table shows |
| `DogTable.EarlyFailureEndsLoading` | src/components/DogTable.tsx:65-71 | an older failing request ends loading while a newer one is open, and a later success keeps the error |
| `Favorites.StorageKey` | src/hooks/useDogFavorites.ts:7-8 | a key exists exactly for a non-empty email; it is "favorites_" followed by exactly the email |
| `Favorites.StorageKeyInjective` | src/hooks/useDogFavorites.ts:8 | two users never share a storage key |
| `Favorites.Added` | src/hooks/useDogFavorites.ts:16-17 | the result holds the old entries as a prefix plus the id; it grows exactly when the id was absent; no duplicates are introduced |
| `Favorites.AddedIdempotent` | src/hooks/useDogFavorites.ts:16 | adding twice is adding once |
| `Favorites.AddThenRemove` | src/hooks/useDogFavorites.ts:16-17 | adding an absent id and then removing it restores the list |
| `Favorites.Persisted` | src/hooks/useDogFavorites.ts:19-23 | only the user's key is written, with the full list; without a user the storage is unchanged; every other key keeps its value |
| `Favorites.Restored` | src/hooks/useDogFavorites.ts:6-13 | with a user and a stored list, that list; otherwise the current list, unchanged |
| `Favorites.LoadAfterPersist` | src/hooks/useDogFavorites.ts:8-10 | what is written for a user is what the next load for that user reads |
| `Favorites.PersistIsolatesUsers` | src/hooks/useDogFavorites.ts:31-35 | writing for one user does not change what another user loads |
| `Favorites.FavoritesHook.constructor` | src/hooks/useDogFavorites.ts:4 | the list starts empty |
| `Favorites.FavoritesHook.LoadFavorites` | src/hooks/useDogFavorites.ts:6-13 | the list becomes the stored one when the user has one, and is otherwise unchanged |
| `Favorites.FavoritesHook.ChangeUser` | src/hooks/useDogFavorites.ts:6-13 | a new email re-runs the load for it |
| `Favorites.FavoritesHook.AddDogFavorite` | src/hooks/useDogFavorites.ts:15-26 | a present id changes nothing and writes nothing; an absent one is appended and the full list written under the user's key |
| `Favorites.FavoritesHook.RemoveDogFavorite` | src/hooks/useDogFavorites.ts:28-37 | every occurrence is dropped, the others keep their order, and the result is always written |
| `Lists.Without` | src/hooks/useDogFavorites.ts:29 | the result holds exactly the elements other than the id, is no longer, and equals the input when the id is absent |
| `Lists.WithoutAppend` | src/components/DogBreedsFilter.tsx:74-76 | filtering distributes over concatenation, so kept elements stay in order |
| `Lists.WithoutAt` | src/components/DogBreedsFilter.tsx:74-76 | in a duplicate-free list, removing the element at `i` cuts out exactly that slot |
| `Lists.WithoutAppended` | src/hooks/useDogFavorites.ts:16-29 | removing an id appended to a list without it restores the list |
| `Lists.WithoutNoDuplicatesIf` | src/components/DogBreedsFilter.tsx:98 | filtering keeps a list duplicate-free |
| `Lists.AppendNoDuplicatesIf` | src/components/DogBreedsFilter.tsx:99 | appending an absent value keeps a list duplicate-free |
| `DogBreedsFilter.SortInPlace` | src/components/DogBreedsFilter.tsx:40 | the array ends sorted by the comparator and is a permutation of what it held |
| `DogBreedsFilter.InsertLast` | src/components/DogBreedsFilter.tsx:40 | one insertion step extends the sorted prefix by one, permuting the array |
| `DogBreedsFilter.Toggled` | src/components/DogBreedsFilter.tsx:96-100 | the breed is in the result exactly when it was not selected; other breeds are unaffected; an absent breed is appended after the unchanged selection; no duplicates are introduced |
| `DogBreedsFilter.ToggleTwice` | src/components/DogBreedsFilter.tsx:96-100 | selecting an unselected breed twice restores the selection |
| `DogBreedsFilter.ToggleOffAt` | src/components/DogBreedsFilter.tsx:96-100 | deselecting a breed of a duplicate-free selection cuts out exactly its slot |
| `DogBreedsFilter.BreedsFilter.constructor` | src/components/DogBreedsFilter.tsx:29 | the breed list starts empty |
| `DogBreedsFilter.BreedsFilter.FetchBreeds` | src/components/DogBreedsFilter.tsx:33-48 | an ok response is stored sorted and as a permutation of the fetched list; a failed or rejected one leaves the list as it was |
| `DogBreedsFilter.BreedsFilter.Select` | src/components/DogBreedsFilter.tsx:95-101 | the selection becomes `Toggled` of the previous one |
| `DogBreedsFilter.BreedsFilter.ClickBadge` | src/components/DogBreedsFilter.tsx:72-77 | the breed is dropped and the other selected breeds keep their order |

## Left out

- Gateway I/O: the requests themselves, URL percent-encoding and query-string serialisation, and JSON encoding. The model stops at the key/value pairs, at decoded payloads, and at stored lists instead of JSON strings. A payload that fails to parse (`response.json()` throwing) is not modelled.
- `Gateway.WithAuth`: it does not model the removal of the "user" key and the page reload on a 401 in src/lib/utils.ts:15-16. Those are effects outside the modelled state.
- `cn`, authentication (src/contexts/AuthContext.tsx, src/components/AuthProvider.tsx), src/App.tsx, the loading spinner, all rendering, the build tooling and the static-asset worker. They are presentation or plumbing with no logic of their own.
- React scheduling: effect re-runs, batched setters and closures over stale render values. Each handler and effect is a method call, made in order. The double load that happens when both table effects fire with the same dependencies is not modelled; the caller decides which effect methods run after a change. Likewise `FavoritesHook.ChangeUser` re-runs the load even when the email is unchanged, where React skips the effect (src/hooks/useDogFavorites.ts:13); the reload then reads the same storage for the same user.
- Interleaving of asynchronous completions is modelled only as the order in which `BeginLoad` and `CompleteLoad` are called. There is no cancellation.
- `console.error` logging.
- `DogBreedsFilter.SortInPlace`: it does not prove that equal-ranked breeds keep their input order. `Array.prototype.sort` is stable, but `localeCompare` is modelled as an abstract total preorder, and only sortedness and permutation are stated.
- `DogBreedsFilter.BreedsFilter.FetchBreeds`: it sorts with `SortInPlace`, so it has the same gap. The stored list is sorted and a permutation of the payload, but the order of equal-ranked breeds is not stated.
- Ages and page numbers are integers, not JavaScript floating-point numbers. `toString` is modelled for integers only, and as plain digits: JavaScript prints magnitudes of 10^21 and more in exponent notation, which `Decimal.FromInt` does not model.

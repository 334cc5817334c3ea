# caseAnka backend: record-management rules, in Dafny

This project models the route handlers of a small HTTP backend. The backend
tracks clients, financial assets, and allocations, which record how many units
of one asset a client holds. The handlers are modelled as operations on an
in-memory store with three tables and one fresh-id counter per table. The
asset seed script is modelled too. Then the project proves the rules the
handlers are meant to keep:

- at most one allocation per (clientId, assetId) pair;
- every stored quantity is positive;
- a missing client or allocation is reported without changing the store;
- partial updates change only the fields supplied;
- deleting a client cascades to that client's allocations;
- pagination arithmetic is correct;
- the seed is an idempotent insert-if-absent.

Layout, one module per component:

- `responses.dfy` (`Responses`): the outcomes the handlers end in and their
  status codes. `Option` is defined here too.
- `pagination.dfy` (`Pagination`): skip/take windows and `{page, perPage, total, totalPages}`.
- `store.dfy` (`Store`): the row datatypes, the store queries the handlers
  issue (`findUnique`, `findMany`/`count`, `update`, `delete`/`deleteMany` as
  functions on tables), the table invariants, and the `Store` class holding
  the tables.
- `client_routes.dfy` (`ClientRoutes`): the four `/clients` handlers.
- `allocation_routes.dfy` (`AllocationRoutes`): the four allocation handlers.
- `seeds.dfy` (`Seeds`): the seed script's upsert loop.
- `scenarios.dfy` (`Scenarios`): four request sequences, checked using only
  the handlers' contracts.

Modelling choices:

- A table is a `seq` of rows in insertion order. Insertion order stands for
  the store's default order, which is the order `findMany` returns rows in
  when no `orderBy` is given. This gives `skip`/`take` a definite meaning.
  Keys are unique because the handlers keep them unique, not because the
  data structure forces it. `Store.Store.Valid()` states that invariant: unique ids below the
  counters, one allocation per pair, positive quantities, and unique asset names.
- Each handler is a method that takes the store handle. It validates its
  input first: a failed schema check is `BadRequest` and changes nothing.
  Then it issues its store calls in the same order as the source.
- Store calls that always succeed are functions on the tables. The one store
  call that can fail is `allocation.delete` on an absent key. It returns an
  `Option`, and the handler turns `None` into `StoreError`, as the app's
  error handler does with the thrown error.
- Inputs are modelled as already-parsed values. Ids, page numbers and
  quantities are `int`. An omitted `page` or `perPage` is `None`, and the
  defaults 1 and 10 then apply.
- The query schemas accept any number for page and perPage. The offset
  `(page - 1) * perPage` (src/routes/client.ts:16, src/routes/allocation.ts:44)
  and the page count `Math.ceil(total / perPage)` (src/routes/client.ts:28,
  src/routes/allocation.ts:69) only make sense for positive integers. The
  model keeps the page count as written in `Pagination.TotalPagesAsWritten`,
  and otherwise applies the positivity check the schemas leave out. See
  Findings.

## Model

| member | source | states |
|---|---|---|
| `Responses.StatusCode` | src/app.ts:13-24 | A schema failure is sent as 400 and an unclassified failure as 500. Only Ok, Created and NoContent are 2xx. |
| `Responses.OrDefault` | src/routes/client.ts:9-10 | An omitted query field takes the schema's default (1 for page, 10 for perPage), and a supplied one is used as given. |
| `Pagination.Skip` | src/routes/client.ts:15-18 | The offset is exactly the rows of the `page - 1` earlier pages: a multiple of perPage whose quotient is page - 1. |
| `Pagination.ValidQuery` | src/routes/client.ts:8-11 | The positivity check the query schema leaves out: page and perPage must both be at least 1. It is the corrected half of the finding below. |
| `Pagination.TotalPages` | src/routes/allocation.ts:65-70 | `ceil(total / perPage)` in integers is the fewest pages that hold the total: `n * perPage >= total > (n - 1) * perPage`, and 0 exactly when the total is 0. |
| `Pagination.Window` | src/routes/client.ts:15-18 | `skip`/`take` returns at most `take` consecutive rows starting at offset `skip`. It returns fewer only when the table runs out. |
| `Pagination.PageOf` | src/routes/client.ts:15-29 | A list body holds at most perPage rows, with row k being row `Skip(page, perPage) + k`, that is `(page-1)*perPage + k`, of the ordered table. `total` is the row count and `totalPages` is its ceiling quotient. |
| `Pagination.RowOnItsPage` | src/routes/client.ts:15-29 | Row k appears at position `k % perPage` of page `k / perPage + 1`. That page is a valid query and is not past `totalPages`. |
| `Pagination.PastLastPageEmpty` | src/routes/client.ts:15-18 | A page beyond `totalPages` has no rows. |
| `Pagination.TotalPagesAsWritten` | src/routes/client.ts:8-11 | The page count as the code computes it for any integer perPage. It is not a finite number exactly when perPage is 0, and it is never positive when perPage is negative. |
| `Pagination.TotalPagesAsWrittenCounterexample` | src/routes/client.ts:28 | `perPage=0` gives no page count, and `perPage=-10` with 25 rows gives -2. |
| `Store.IndexOfClient` | src/routes/client.ts:67-70 | The client lookup finds a position holding that id, and finds none exactly when no client has the id. |
| `Store.Store.Valid` | src/routes/allocation.ts:90-113 | The store invariant every handler requires and keeps: client, allocation and asset ids are unique and below their counters. There is at most one allocation per (clientId, assetId) pair, every quantity is positive, and asset names are unique. |
| `Store.Store.constructor` | src/routes/client.ts:42-48 | An empty store whose auto-increment counters all start at 1, and which satisfies the invariant. |
| `Store.RemoveClient` | src/routes/client.ts:101-103 | Deleting a client leaves exactly the clients with other ids. |
| `Store.RemoveClientKeepsUnique` | src/routes/client.ts:101-103 | Deleting a client keeps client ids unique. |
| `Store.Filter` | src/routes/allocation.ts:37-52 | A `where` on clientId or on the pair selects exactly the matching rows (findMany, count). The complement leaves exactly the non-matching rows (deleteMany). |
| `Store.NothingSelectedKeepsAll` | src/routes/client.ts:92-99 | When `findFirst` finds no allocation, skipping `deleteMany` changes nothing. The guard only saves a call. |
| `Store.FilterSplits` | src/routes/client.ts:96-98 | `deleteMany` removes exactly as many rows as the same `where` selects. |
| `Store.FilterKeepsUnique` | src/routes/client.ts:96-98 | Removing rows keeps the one-row-per-pair rule and unique allocation ids. |
| `Store.IndexOfPair` | src/routes/allocation.ts:90-97 | The composite-key lookup finds a row with that pair, and finds none exactly when no row has the pair. |
| `Store.PairSelectsOne` | src/routes/allocation.ts:163-170 | Under unique pairs, a pair selects exactly one row when present and none otherwise. |
| `Store.DeletePair` | src/routes/allocation.ts:163-170 | Deleting by composite key fails exactly when the pair is absent. Otherwise it removes the rows with that pair and no others. |
| `Store.SetQuantity` | src/routes/allocation.ts:142-147 | The update by key rewrites only the quantity of that one row. The row's id, clientId and assetId are kept, and every other row is unchanged. |
| `Store.IndexOfName` | prisma/seeds.ts:15 | The upsert's `where: { name }` finds a position holding that name, and finds none exactly when the name is absent. |
| `Store.AssetById` | src/routes/allocation.ts:41-43 | The join finds an asset of the table with the row's assetId, or reports that none has it. |
| `ClientRoutes.Patched` | src/routes/client.ts:58-75 | A partial update writes each supplied field. Each omitted field and the id keep their old values, and an empty body changes nothing. |
| `ClientRoutes.ValidEmail` | src/routes/client.ts:36 | Stand-in for the email format check: an '@' with text on both sides. It is weaker than the real check (see Left out). |
| `ClientRoutes.ValidPatch` | src/routes/client.ts:58-62 | An update body passes its schema when its email, if supplied, is well-formed. Name and status may be omitted independently. |
| `ClientRoutes.List` | src/routes/client.ts:7-31 | An invalid query is BadRequest. Otherwise the result is at most perPage clients from offset `(page-1)*perPage`, `total` is the number of clients, and `totalPages` is the ceiling quotient. |
| `ClientRoutes.Create` | src/routes/client.ts:33-51 | A valid body always creates a client, even when the email is taken. The new row has a fresh id and exactly the given name, email and status. Nothing else changes. |
| `ClientRoutes.Update` | src/routes/client.ts:53-78 | An unknown id is NotFound and changes nothing. Otherwise only the client with that id changes, and only in the supplied fields. No other table changes. |
| `ClientRoutes.Delete` | src/routes/client.ts:80-106 | An unknown id is NotFound and changes nothing. Otherwise every allocation of that client is removed, then the client. Other clients' allocations and other clients remain, and no allocation refers to the id afterwards. |
| `AllocationRoutes.Views` | src/routes/allocation.ts:54-64 | The response keeps each row's id, clientId and quantity. It joins in an asset of the table whose id is the row's assetId, and leaves the asset out only when no asset of the table has that id. |
| `AllocationRoutes.ValidQuantity` | src/routes/allocation.ts:84 | The body schema of create and update (also line 126): quantity must be a positive integer. |
| `AllocationRoutes.List` | src/routes/allocation.ts:17-73 | An unknown client is NotFound, and no other store data is read. Otherwise the result is at most perPage rows, all with that clientId, from offset `(page-1)*perPage` of that client's rows. `meta.total` counts that client's rows, and `totalPages` is the ceiling quotient. |
| `AllocationRoutes.Create` | src/routes/allocation.ts:75-115 | A non-positive quantity is BadRequest, and an existing pair is Conflict. Both leave the store unchanged. Otherwise exactly one row is appended with the given key and quantity, and afterwards that pair has exactly one row. |
| `AllocationRoutes.Update` | src/routes/allocation.ts:117-151 | A non-positive quantity is BadRequest, and a missing pair is NotFound. Both leave the store unchanged. Otherwise only that row's quantity changes. |
| `AllocationRoutes.Delete` | src/routes/allocation.ts:153-174 | A present pair loses exactly its one row. An absent pair is StoreError, not NotFound, and changes nothing. |
| `Seeds.Upsert` | prisma/seeds.ts:14-18 | An absent name is appended under the next id, and a present name leaves the table exactly as it was. The name is present afterwards, and names and ids stay unique. |
| `Seeds.Seed` | prisma/seeds.ts:13-19 | The loop leaves the asset table as upserting each entry in order would. The client and allocation tables are untouched. |
| `Seeds.RunSeed` | prisma/seeds.ts:5-22 | The asset table and its next id are exactly the in-order fold of upserts over the script's list. Every seed name is present, the earlier rows are a prefix of the table, and the client and allocation tables and their counters are untouched. |
| `Seeds.SeedFold` | prisma/seeds.ts:13-19 | The reference definition of the loop: upsert each entry in order. The table only grows, by at most one row per entry, and the next id advances exactly by the number of rows added. |
| `Seeds.SeedNamesDistinct` | prisma/seeds.ts:6-11 | No two entries of the script's list share a name. |
| `Seeds.SeedOfFreshNames` | prisma/seeds.ts:13-19 | A list of distinct names, none already in the table, is appended in list order, each entry with its price, under consecutive ids from the next id. |
| `Seeds.SeedIntoFreshTable` | prisma/seeds.ts:6-19 | Seeding a table that holds none of the four names appends all four listed assets with their prices, in list order, under the next four ids. On an empty store that is ids 1 to 4. |
| `Seeds.SeedAddsEveryName` | prisma/seeds.ts:13-19 | After the loop, every seed name is in the asset table. |
| `Seeds.SeedKeepsExisting` | prisma/seeds.ts:14-18 | Existing assets stay as they were, in place. Each added row has a seed name that was absent before, so an asset whose name is not in the list is never touched. |
| `Seeds.SeedOfPresentNamesIsNoop` | prisma/seeds.ts:16 | Upserting names that are all present already changes nothing, because the update part is empty. |
| `Seeds.SeedIdempotent` | prisma/seeds.ts:13-19 | Running the seed twice gives the same table, and the same next id, as running it once. |
| `Seeds.SeedKeepsTableOk` | prisma/seeds.ts:6-19 | Asset names stay unique after seeding. Ids stay unique and below the counter. |

## Left out

- Process bootstrap, listening, CORS, plugin registration and logging
  (src/server.ts, src/app.ts) are I/O glue. Only the error handler's split
  into 400 and 500 is kept, as `Responses.StatusCode`.
- The asset list handler (src/routes/asset.ts) is left out. It returns the
  table unchanged and has no logic.
- `ClientRoutes.ValidEmail` is weaker than the schema's email check. It only
  asks for an '@' with text on both sides, because the schema library's email
  pattern is not part of this model.
- `BadRequest` does not carry the itemised field errors.
- The schema library's string-to-number coercion is not modelled, and neither
  is the rejection of non-numbers and fractional numbers. Inputs are integers.
- `AllocationRoutes.Create` does not model foreign-key enforcement by the
  store. The handler does not check that the client or the asset exists, and
  the model shows that by accepting such a row. A store that enforces the
  keys would fail instead with a 500.
- The joined asset in `AllocationRoutes.Views` is an `Option`, because
  without foreign keys the model's table may lack that asset. The program
  never answers with such a row: with the store's foreign key the row cannot
  exist, since its create fails with a 500, and without the key the list
  dereferences the missing asset (src/routes/allocation.ts:58-60) and fails
  with a 500.
- `AllocationRoutes.List` answers `Ok` with the asset left out on such a
  table instead of failing with a 500, because the model does not enforce
  the foreign key that makes the table impossible.
- Ids and quantities are unbounded integers. The store's 32-bit integer
  columns and their overflow are not modelled.
- `price` is carried as an exact `real` and never computed with: floating
  point is not modelled. `Math.ceil(total / perPage)` is modelled as integer
  ceiling division, which matches the floating-point result for the sizes
  involved.
- Concurrency is not modelled. Each handler runs atomically and in sequence,
  so the races between an existence check and the write that follows it are
  not modelled.
- Store failures other than deleting an absent allocation, such as lost
  connections or driver errors, are not modelled.
- The seed script's console output, its disconnect, and its exit on error
  are I/O and are left out. The model assumes an upsert disposes the next id
  only when it inserts.

## Findings

The page and perPage query parameters of both list handlers are coerced to
numbers but never checked to be positive. So the page count and the offset
are computed on values for which they mean nothing: a zero or negative page
size, or a page before the first. The model keeps the as-written
computation in `Pagination.TotalPagesAsWritten`, with its counterexample in
`Pagination.TotalPagesAsWrittenCounterexample`. The handlers apply the
missing check (`Pagination.ValidQuery`) and answer `BadRequest`. The proved
page properties (`Pagination.TotalPages`, `Pagination.PageOf`,
`Pagination.RowOnItsPage`) hold for every query that passes the check.

| source | as written | input that shows it | evidently intended | confidence | as-written member | corrected member |
|---|---|---|---|---|---|---|
| src/routes/client.ts:8-11 | `page` and `perPage` accept 0 and negatives; `totalPages` is `Math.ceil(total / perPage)` on them | `GET /clients?perPage=0` gives a non-finite `totalPages`; `?perPage=-10` with 25 clients gives `totalPages` -2; `?page=0` gives a negative skip, which the store refuses with a 500 | a schema failure (400) unless both are positive integers | medium; not executed | `Pagination.TotalPagesAsWritten` | `ClientRoutes.List` |
| src/routes/allocation.ts:24-27 | the same schema for the per-client allocation list | `GET /clients/1/allocations?perPage=0` for an existing client gives a non-finite `totalPages` | a schema failure (400) unless both are positive integers | medium; not executed | `Pagination.TotalPagesAsWritten` | `AllocationRoutes.List` |

# Keyed batch loaders and the product write path

This project models the data-access layer of `apps/api/lib/loaders.ts`: the per-request
batch loaders `userById`, `userByEmail` and `productById`, the request context's cache
that holds at most one loader of each kind, and `addProduct`, which inserts a product
unless one with a matching name exists and keeps the request's `productById` loader in
step with the insert.

- `keyed_batch.dfy` (module `KeyedBatch`): the batch function shared by the three
  loaders. An empty key list is answered with an empty list and no query; otherwise one
  `IN (...)` query fetches the rows, `createKeyMap` puts them in a key-to-row map (a later
  row overwrites an earlier one with the same key), and the answer is rebuilt in the order
  of the requested keys with `None` (the source's `null`) for a missing key. `BatchRun`
  records the key list sent to the store, so "no query" is observable.
- `loaders.dfy` (module `Loaders`): the three batch functions, the three cache keys as the
  enum `LoaderKind`, a `Loader` class holding a kind and its memo (`clear` and `prime` as
  map operations), and a `Context` class whose `cache` field maps kinds to loaders. The
  accessors are methods that create and store a loader only when none is cached.
- `write_path.dfy` (module `WritePath`): `addProduct` as a function on the product table
  (`AddToStore`), the lemmas about it, and the method `AddProduct` that changes the store
  and the cached loader's memo.
- `schema.dfy`, `wrappers.dfy`: the rows (`User`, `Product`, `ProductInput`) and `Option`.

The store is a `Store` object holding the `user` and `product` tables as sequences; a
multi-key query is an order-preserving filter, and the existence query with `limit(1)` is
the first matching product in table order. The id the database generates and the time its
clock gives are parameters of `AddProduct`.

The existence condition is modelled as the code writes it: the German name is equal, OR the
stored English name equals the given one with an undefined name replaced by `""`, OR the same
for the Russian name. A stored NULL equals nothing, so an undefined English name matches a
product whose English name is the empty string but not one whose English name is NULL. So a
product whose stored English name is `""` matches any input without an English name, and the
same holds for the Russian name.

Each loader keeps an invariant (`Loader.Valid`): every memoized answer has the row type of
the loader's kind and carries the key it is memoized under in its lookup column (`id` or
`email`). The source's typed cast of the cached `PRODUCT_BY_ID` loader relies on this;
`Prime` keeps it, and the request context's invariant (`Context.Valid`) says every cached
loader sits under its own kind and keeps its invariant.

`prime` is modelled as DataLoader defines it: it does nothing when the key already has a
memoized answer. This is why the source clears the key first; `Loaders.PrimeKeepsMemoized`
shows that priming alone would keep a cached miss.

## Model

| member | source | states |
|---|---|---|
| `KeyedBatch.CreateKeyMap` | apps/api/lib/loaders.ts:28-30 | the map's keys are exactly the keys of the rows, and each key maps to the LAST row with that key (later rows overwrite) |
| `KeyedBatch.SelectWhereIn` | apps/api/lib/loaders.ts:37-40 | the rows returned are exactly the table rows whose key is among the requested keys |
| `KeyedBatch.Reassemble` | apps/api/lib/loaders.ts:42 | one entry per requested key, in key order; entry i is null iff key i is not in the map, otherwise the map's row for it; equal keys receive equal entries |
| `KeyedBatch.BatchLoad` | apps/api/lib/loaders.ts:34-43 | no query iff the key list is empty, and then the answer is empty; otherwise the query sends the requested keys; one answer per key; answer i is present iff some row has key i, and then it is a table row with key i; equal keys get equal answers |
| `KeyedBatch.BatchLoadUnique` | apps/api/lib/loaders.ts:41-42 | when no two rows share a key, the answer for a requested key is exactly the row that has it |
| `Loaders.UserByIdBatch` | apps/api/lib/loaders.ts:34-43 | the `userById` batch function: no query iff no ids, one answer per id, answer i is a stored user with id i, and it is missing iff no stored user has id i |
| `Loaders.UserByEmailBatch` | apps/api/lib/loaders.ts:51-60 | the `userByEmail` batch function: the same guarantees with the `email` column as key |
| `Loaders.ProductByIdBatch` | apps/api/lib/loaders.ts:68-78 | the `productById` batch function: the same guarantees for products by id |
| `Loaders.ClearThenPrime` | apps/api/lib/loaders.ts:134 | after `clear(id)` then `prime(id, v)` the memo holds `v` for `id` whatever it held before, gains only `id` and keeps every other entry |
| `Loaders.PrimeKeepsMemoized` | apps/api/lib/loaders.ts:132-135 | `prime` alone leaves an already memoized key unchanged, so a cached miss would survive it |
| `Loaders.Loader.constructor` | apps/api/lib/loaders.ts:34 | a new loader has its kind and an empty memo |
| `Loaders.Loader.Clear` | apps/api/lib/loaders.ts:134 | the memo loses the entry for the key and nothing else |
| `Loaders.Loader.Prime` | apps/api/lib/loaders.ts:134 | the memo gains the value for the key unless the key is already memoized; given a row that fits the loader's kind and the key, the loader's invariant is kept |
| `Loaders.DistinctKindsDistinctLoaders` | apps/api/lib/loaders.ts:24-26 | the three cache keys are distinct, so in a valid context loaders cached under two kinds are the same object iff the kinds are equal |
| `Loaders.GetOrCreate` | apps/api/lib/loaders.ts:33-46 | afterwards the kind is cached and the returned loader is the cached one; if one was cached the cache is unchanged and it is returned; otherwise a fresh empty loader is added under that kind only; entries under other kinds are untouched; every cached loader keeps its own kind |
| `Loaders.UserByIdLoader` | apps/api/lib/loaders.ts:32-47 | get-or-create of the `USER_BY_ID` loader, other entries untouched |
| `Loaders.UserByEmailLoader` | apps/api/lib/loaders.ts:49-64 | get-or-create of the `USER_BY_EMAIL` loader, other entries untouched |
| `Loaders.ProductByIdLoader` | apps/api/lib/loaders.ts:66-84 | get-or-create of the `PRODUCT_BY_ID` loader, other entries untouched |
| `Loaders.AccessorIsIdempotent` | apps/api/lib/loaders.ts:33-46 | two successive accessor calls in one request return the same loader, and the cache afterwards is the old cache if the kind was cached, otherwise the old cache plus that loader under the kind |
| `WritePath.Matches` | apps/api/lib/loaders.ts:107 | an equal German name matches; an equal supplied English or Russian name matches; an undefined English name matches a stored `""`; a product with a different German name and NULL English and Russian names never matches |
| `WritePath.NewProduct` | apps/api/lib/loaders.ts:115-125 | the inserted row carries the generated id and satisfies the existence condition for its own input |
| `WritePath.AddToStore` | apps/api/lib/loaders.ts:104-127 | inserts iff no stored product matches; the returned product matches the input and is in the table afterwards; the table grows by one on an insert and not otherwise, and keeps its old rows as a prefix; an inserted product has the new id |
| `WritePath.MatchIndex` | apps/api/lib/loaders.ts:104-108 | the position of the first product satisfying the existence condition: none before it matches, and the product there matches |
| `WritePath.FindExisting` | apps/api/lib/loaders.ts:104-113 | the existence query with `limit(1)`: absent iff no product matches; otherwise a product that matches and that no earlier product precedes as a match |
| `WritePath.AddExistingReturnsFirstMatch` | apps/api/lib/loaders.ts:110-113 | when a product matches, the first match is returned and the table is unchanged (no insert) |
| `WritePath.AddNewInsertsOne` | apps/api/lib/loaders.ts:115-127 | when nothing matches, exactly one product is appended, it is the one returned, and it carries the given fields, the new id and the current time in both timestamps |
| `WritePath.AddIsIdempotent` | apps/api/lib/loaders.ts:104-127 | adding the same input again returns the product the first call returned and changes nothing |
| `WritePath.AddKeepsIdsUnique` | apps/api/lib/loaders.ts:115-125 | with an unused id, product ids stay unique (the primary key of db/schema/product.ts) |
| `WritePath.AddedProductIsLoadable` | apps/api/lib/loaders.ts:127-135 | when the stored ids are unique and the new id is unused, a `productById` batch lookup of the returned id after the add answers with exactly the returned product, the value the memo is primed with |
| `WritePath.AddProduct` | apps/api/lib/loaders.ts:86-138 | returns the product and leaves the product table as `AddToStore` says; users and the cache map are untouched; other loaders' memos are unchanged; the `PRODUCT_BY_ID` loader, if cached, is cleared and primed with the new product after an insert and untouched otherwise; no loader is created; the context's invariant is kept |

## Left out

- DataLoader's own behaviour (queueing keys until the next tick, deduplicating them, sharing promises, `load`) is not part of this model; only the memo that `clear` and `prime` act on is modelled.
- The SQL engine and the query builder: a multi-key query is a filter that keeps table order, and `limit(1)` is "first in table order"; the store's real row order is unspecified.
- The generated `uuid_generate_v7()` id and the `defaultNow()` timestamps are parameters of `AddProduct`; the lemmas that need the id to be new take that as a requires.
- Store failures (an unreachable store, a failed query, a unique-constraint violation on insert) are not modelled: every query answers and every insert succeeds.
- The race between two requests that both pass the existence check before either inserts is a concurrency issue and is not modelled.
- The `console.log` messages of `addProduct`.
- `map.get(k) || null` turns any falsy value into `null`; rows are objects and never falsy, so this is modelled as "missing key gives `None`".
- The `user` table's columns other than `id` and `email`; its schema file is not part of this model.
- The `gi` and `gl` single-precision columns are carried as `real` values; float rounding is not modelled.
- The product seeding routine (file reading, JSON parsing, inserts with "do nothing on conflict") and the database connectivity script are I/O only and are not modelled.
- Building the request context is not part of this model; `Context` and `Store` have plain constructors.

/** The per-request loaders: the three keyed batch functions, the loader objects with
    their memo, and the request context whose cache holds at most one loader per kind. */
module Loaders {
  import opened Wrappers
  import opened Schema
  import opened KeyedBatch

  /** The three cache keys `USER_BY_ID`, `USER_BY_EMAIL` and `PRODUCT_BY_ID`. Each is a
      unique symbol, so they are a closed set of distinct tags. */
  datatype LoaderKind = UserById | UserByEmail | ProductById

  /** The batch function of the `userById` loader: users looked up by primary key. */
  function UserByIdBatch(ids: seq<string>, users: seq<User>): (r: BatchRun<string, User>)
    ensures r.query.None? <==> |ids| == 0
    ensures |r.values| == |ids|
    ensures forall i :: 0 <= i < |ids| && r.values[i].Some? ==>
              r.values[i].value in users && r.values[i].value.id == ids[i]
    ensures forall i :: 0 <= i < |ids| ==> (r.values[i].None? <==> forall u :: u in users ==> u.id != ids[i])
  {
    BatchLoad(ids, users, (u: User) => u.id)
  }

  /** The batch function of the `userByEmail` loader: users looked up by e-mail address. */
  function UserByEmailBatch(emails: seq<string>, users: seq<User>): (r: BatchRun<string, User>)
    ensures r.query.None? <==> |emails| == 0
    ensures |r.values| == |emails|
    ensures forall i :: 0 <= i < |emails| && r.values[i].Some? ==>
              r.values[i].value in users && r.values[i].value.email == emails[i]
    ensures forall i :: 0 <= i < |emails| ==>
              (r.values[i].None? <==> forall u :: u in users ==> u.email != emails[i])
  {
    BatchLoad(emails, users, (u: User) => u.email)
  }

  /** The batch function of the `productById` loader: products looked up by primary key. */
  function ProductByIdBatch(ids: seq<string>, products: seq<Product>): (r: BatchRun<string, Product>)
    ensures r.query.None? <==> |ids| == 0
    ensures |r.values| == |ids|
    ensures forall i :: 0 <= i < |ids| && r.values[i].Some? ==>
              r.values[i].value in products && r.values[i].value.id == ids[i]
    ensures forall i :: 0 <= i < |ids| ==>
              (r.values[i].None? <==> forall p :: p in products ==> p.id != ids[i])
  {
    BatchLoad(ids, products, (p: Product) => p.id)
  }

  /** What a loader memoizes: a user or a product, according to its kind. */
  datatype Row = UserRow(user: User) | ProductRow(product: Product)

  /** Whether `row` can be the answer of a loader of `kind` for `key`: the row has the type the
      loader is declared with, and its lookup column holds `key`. */
  predicate RowFits(kind: LoaderKind, key: string, row: Row)
  {
    match kind
    case UserById => row.UserRow? && row.user.id == key
    case UserByEmail => row.UserRow? && row.user.email == key
    case ProductById => row.ProductRow? && row.product.id == key
  }

  /** A loader's memo: for each key loaded or primed so far, its answer (`None` for a miss). */
  type Memo = map<string, Option<Row>>

  /** `clear(key)`: forget the answer memoized for `key`, so that the next load fetches it. */
  function ClearMemo(memo: Memo, key: string): Memo
  {
    memo - {key}
  }

  /** `prime(key, value)`: memoize `value` for `key`, unless an answer for `key` is memoized
      already, in which case nothing changes. */
  function PrimeMemo(memo: Memo, key: string, value: Row): Memo
  {
    if key in memo then memo else memo[key := Some(value)]
  }

  /** Clearing and then priming a key always leaves the primed value there, whatever was
      memoized before, and leaves every other key as it was. */
  lemma ClearThenPrime(memo: Memo, key: string, value: Row)
    ensures PrimeMemo(ClearMemo(memo, key), key, value).Keys == memo.Keys + {key}
    ensures PrimeMemo(ClearMemo(memo, key), key, value)[key] == Some(value)
    ensures forall k :: k in memo && k != key ==> PrimeMemo(ClearMemo(memo, key), key, value)[k] == memo[k]
  {
  }

  /** Priming alone cannot replace a memoized answer: a cached miss would survive it. */
  lemma PrimeKeepsMemoized(memo: Memo, key: string, value: Row)
    requires key in memo
    ensures PrimeMemo(memo, key, value) == memo
    ensures memo[key] == None ==> PrimeMemo(memo, key, value)[key] != Some(value)
  {
  }

  /** A loader instance of one kind, with its memo. Its batch function is the one of its kind. */
  class Loader {
    const kind: LoaderKind
    var memo: Memo

    /** Every memoized answer fits the loader's kind and the key it is memoized under. */
    ghost predicate Valid()
      reads this
    {
      forall key :: key in memo && memo[key].Some? ==> RowFits(kind, key, memo[key].value)
    }

    constructor (kind: LoaderKind)
      ensures this.kind == kind && memo == map[] && Valid()
    {
      this.kind := kind;
      memo := map[];
    }

    method Clear(key: string)
      requires Valid()
      modifies this
      ensures Valid() && memo == ClearMemo(old(memo), key)
    {
      memo := ClearMemo(memo, key);
    }

    method Prime(key: string, value: Row)
      requires Valid() && RowFits(kind, key, value)
      modifies this
      ensures Valid() && memo == PrimeMemo(old(memo), key, value)
    {
      memo := PrimeMemo(memo, key, value);
    }
  }

  /** The store the loaders read and the write path inserts into. */
  class Store {
    var users: seq<User>
    var products: seq<Product>

    constructor (users: seq<User>, products: seq<Product>)
      ensures this.users == users && this.products == products
    {
      this.users := users;
      this.products := products;
    }
  }

  /** The context of one request: its store handle and its cache of loaders. */
  class Context {
    const db: Store
    var cache: map<LoaderKind, Loader>

    /** Every cached loader sits under its own kind and keeps its own invariant. */
    ghost predicate Valid()
      reads this, cache.Values
    {
      forall k :: k in cache ==> cache[k].kind == k && cache[k].Valid()
    }

    constructor (db: Store)
      ensures this.db == db && cache == map[] && Valid()
    {
      this.db := db;
      cache := map[];
    }
  }

  /** What a get-or-create of `kind` did: `loader` is now cached under `kind`; if a loader was
      cached there before, it is that one and the cache did not change; otherwise it is a new,
      empty loader of that kind, added under `kind` and nowhere else. */
  twostate predicate GotOrCreated(ctx: Context, kind: LoaderKind, new loader: Loader)
    reads ctx, loader
  {
    && kind in ctx.cache && ctx.cache[kind] == loader && loader.kind == kind
    && (kind in old(ctx.cache) ==> ctx.cache == old(ctx.cache))
    && (kind !in old(ctx.cache) ==>
          fresh(loader) && loader.memo == map[] && ctx.cache == old(ctx.cache)[kind := loader])
  }

  /** The shared body of the three accessors: build and cache a loader of `kind` only when
      none is cached. */
  method GetOrCreate(ctx: Context, kind: LoaderKind) returns (loader: Loader)
    requires ctx.Valid()
    modifies ctx
    ensures ctx.Valid() && GotOrCreated(ctx, kind, loader)
    ensures forall k :: k != kind ==> (k in ctx.cache <==> k in old(ctx.cache))
    ensures forall k :: k != kind && k in ctx.cache ==> ctx.cache[k] == old(ctx.cache[k])
  {
    if kind !in ctx.cache {
      var created := new Loader(kind);
      ctx.cache := ctx.cache[kind := created];
    }
    loader := ctx.cache[kind];
  }

  /** `userById(ctx)`. */
  method UserByIdLoader(ctx: Context) returns (loader: Loader)
    requires ctx.Valid()
    modifies ctx
    ensures ctx.Valid() && GotOrCreated(ctx, UserById, loader)
    ensures forall k :: k != UserById && k in ctx.cache ==> k in old(ctx.cache) && ctx.cache[k] == old(ctx.cache[k])
  {
    loader := GetOrCreate(ctx, UserById);
  }

  /** `userByEmail(ctx)`. */
  method UserByEmailLoader(ctx: Context) returns (loader: Loader)
    requires ctx.Valid()
    modifies ctx
    ensures ctx.Valid() && GotOrCreated(ctx, UserByEmail, loader)
    ensures forall k :: k != UserByEmail && k in ctx.cache ==> k in old(ctx.cache) && ctx.cache[k] == old(ctx.cache[k])
  {
    loader := GetOrCreate(ctx, UserByEmail);
  }

  /** `productById(ctx)`. */
  method ProductByIdLoader(ctx: Context) returns (loader: Loader)
    requires ctx.Valid()
    modifies ctx
    ensures ctx.Valid() && GotOrCreated(ctx, ProductById, loader)
    ensures forall k :: k != ProductById && k in ctx.cache ==> k in old(ctx.cache) && ctx.cache[k] == old(ctx.cache[k])
  {
    loader := GetOrCreate(ctx, ProductById);
  }

  /** Two successive calls of an accessor in one request hand out the same loader, and the
      second leaves the cache as the first left it. */
  method AccessorIsIdempotent(ctx: Context, kind: LoaderKind) returns (first: Loader, second: Loader)
    requires ctx.Valid()
    modifies ctx
    ensures first == second
    ensures ctx.Valid() && kind in ctx.cache && ctx.cache[kind] == first
    ensures ctx.cache == if kind in old(ctx.cache) then old(ctx.cache) else old(ctx.cache)[kind := first]
  {
    first := GetOrCreate(ctx, kind);
    ghost var between := ctx.cache;
    second := GetOrCreate(ctx, kind);
    assert ctx.cache == between;
  }

  /** The cache keys are distinct symbols, so loaders cached under different kinds are
      different objects: one request never shares a loader between two kinds. */
  lemma DistinctKindsDistinctLoaders(ctx: Context, k1: LoaderKind, k2: LoaderKind)
    requires ctx.Valid() && k1 in ctx.cache && k2 in ctx.cache
    ensures ctx.cache[k1] == ctx.cache[k2] <==> k1 == k2
  {
  }
}

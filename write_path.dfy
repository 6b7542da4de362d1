/** `addProduct`: insert a product unless one with a matching name exists, and keep the
    request's `productById` loader in step with the insert. */
module WritePath {
  import opened Wrappers
  import opened Schema
  import opened KeyedBatch
  import opened Loaders

  /** The existence condition of the check query: the German name is equal, or the stored
      English or Russian name equals the given one, an undefined name standing for "".
      A stored NULL equals nothing, so a product with no English name never matches on it. */
  predicate Matches(p: Product, input: ProductInput): (r: bool)
    ensures p.nameDe == input.nameDe ==> r
    ensures input.nameEn.Some? && p.nameEn == input.nameEn ==> r
    ensures input.nameRu.Some? && p.nameRu == input.nameRu ==> r
    ensures input.nameEn.None? && p.nameEn == Some("") ==> r
    ensures p.nameDe != input.nameDe && p.nameEn.None? && p.nameRu.None? ==> !r
  {
    || p.nameDe == input.nameDe
    || p.nameEn == Some(input.nameEn.GetOr(""))
    || p.nameRu == Some(input.nameRu.GetOr(""))
  }

  /** The position of the first product that matches, or |products| when none does. */
  function MatchIndex(products: seq<Product>, input: ProductInput): (i: nat)
    ensures i <= |products|
    ensures forall j :: 0 <= j < i ==> !Matches(products[j], input)
    ensures i < |products| ==> Matches(products[i], input)
  {
    if |products| == 0 then 0
    else if Matches(products[0], input) then 0
    else 1 + MatchIndex(products[1..], input)
  }

  /** The existence check with `limit(1)`: the first matching product in store order. */
  function FindExisting(products: seq<Product>, input: ProductInput): (r: Option<Product>)
    ensures r.None? <==> forall j :: 0 <= j < |products| ==> !Matches(products[j], input)
    ensures r.Some? ==> exists i :: 0 <= i < |products| && products[i] == r.value && Matches(r.value, input)
                                   && forall j :: 0 <= j < i ==> !Matches(products[j], input)
  {
    var i := MatchIndex(products, input);
    if i < |products| then Some(products[i]) else None
  }

  /** The row the insert returns: the given fields, the generated `id`, and both timestamps
      set to the store's current time; an undefined optional field is stored as NULL. */
  function NewProduct(input: ProductInput, id: string, now: Timestamp): (p: Product)
    ensures p.id == id && Matches(p, input)
  {
    Product(id, input.nameDe, input.nameEn, input.nameRu, input.imageUrl, input.gi, input.gl, now, now)
  }

  /** The outcome of `addProduct` on the store: the product returned, whether it was
      inserted, and the product table afterwards. */
  datatype AddOutcome = AddOutcome(product: Product, inserted: bool, products: seq<Product>)

  /** `addProduct` on the product table, given the id and the time the store would assign. */
  function AddToStore(products: seq<Product>, input: ProductInput, newId: string, now: Timestamp): (r: AddOutcome)
    ensures r.inserted <==> forall j :: 0 <= j < |products| ==> !Matches(products[j], input)
    ensures Matches(r.product, input) && r.product in r.products
    ensures |r.products| == |products| + (if r.inserted then 1 else 0)
    ensures r.products[..|products|] == products
    ensures r.inserted ==> r.product.id == newId
  {
    match FindExisting(products, input)
    case Some(existing) => AddOutcome(existing, false, products)
    case None =>
      var p := NewProduct(input, newId, now);
      AddOutcome(p, true, products + [p])
  }

  /** When some product matches, the first match is returned and nothing is inserted. */
  lemma AddExistingReturnsFirstMatch(products: seq<Product>, input: ProductInput, newId: string, now: Timestamp, i: nat)
    requires i < |products| && Matches(products[i], input)
    requires forall j :: 0 <= j < i ==> !Matches(products[j], input)
    ensures AddToStore(products, input, newId, now) == AddOutcome(products[i], false, products)
  {
  }

  /** When no product matches, exactly one product is appended: the one returned, which
      carries the given fields, the new id and the current time. */
  lemma AddNewInsertsOne(products: seq<Product>, input: ProductInput, newId: string, now: Timestamp)
    requires forall j :: 0 <= j < |products| ==> !Matches(products[j], input)
    ensures var r := AddToStore(products, input, newId, now);
      && r.inserted
      && r.products == products + [r.product]
      && r.product.id == newId && r.product.createdAt == now && r.product.updatedAt == now
      && r.product.nameDe == input.nameDe && r.product.nameEn == input.nameEn
      && r.product.nameRu == input.nameRu && r.product.imageUrl == input.imageUrl
      && r.product.gi == input.gi && r.product.gl == input.gl
  {
  }

  /** Adding the same product a second time finds the product the first call returned, and
      changes nothing. */
  lemma AddIsIdempotent(products: seq<Product>, input: ProductInput, id1: string, now1: Timestamp,
                        id2: string, now2: Timestamp)
    ensures var first := AddToStore(products, input, id1, now1);
      AddToStore(first.products, input, id2, now2) == AddOutcome(first.product, false, first.products)
  {
  }

  /** No two products share an id (the primary key). */
  ghost predicate UniqueIds(products: seq<Product>)
  {
    forall a, b :: 0 <= a < |products| && 0 <= b < |products| && products[a].id == products[b].id ==> a == b
  }

  /** With an id the store has not used, `addProduct` keeps the product ids unique. */
  lemma AddKeepsIdsUnique(products: seq<Product>, input: ProductInput, newId: string, now: Timestamp)
    requires UniqueIds(products)
    requires forall j :: 0 <= j < |products| ==> products[j].id != newId
    ensures UniqueIds(AddToStore(products, input, newId, now).products)
  {
  }

  /** While ids are unique and the new id is unused, a batch lookup of the returned product's
      id after `addProduct` answers with exactly that product, whether it was found or
      inserted: what the primed memo holds is what a fetch would have returned. */
  lemma AddedProductIsLoadable(products: seq<Product>, input: ProductInput, newId: string, now: Timestamp)
    requires UniqueIds(products)
    requires forall j :: 0 <= j < |products| ==> products[j].id != newId
    ensures var r := AddToStore(products, input, newId, now);
      ProductByIdBatch([r.product.id], r.products).values == [Some(r.product)]
  {
  }

  /** `addProduct(ctx, input)`, with the id and the time the store assigns passed in. */
  method AddProduct(ctx: Context, input: ProductInput, newId: string, now: Timestamp) returns (p: Product)
    requires ctx.Valid()
    modifies ctx.db, if ProductById in ctx.cache then {ctx.cache[ProductById]} else {}
    ensures ctx.Valid()
    ensures p == AddToStore(old(ctx.db.products), input, newId, now).product
    ensures ctx.db.products == AddToStore(old(ctx.db.products), input, newId, now).products
    ensures ctx.db.users == old(ctx.db.users)
    ensures ctx.cache == old(ctx.cache)
    ensures forall k :: k in ctx.cache && k != ProductById ==> ctx.cache[k].memo == old(ctx.cache[k].memo)
    ensures ProductById in ctx.cache ==>
              ctx.cache[ProductById].memo ==
                if AddToStore(old(ctx.db.products), input, newId, now).inserted
                then PrimeMemo(ClearMemo(old(ctx.cache[ProductById].memo), p.id), p.id, ProductRow(p))
                else old(ctx.cache[ProductById].memo)
  {
    var existing := FindExisting(ctx.db.products, input);
    if existing.Some? {
      return existing.value;
    }
    p := NewProduct(input, newId, now);
    ctx.db.products := ctx.db.products + [p];
    if ProductById in ctx.cache {
      var loader := ctx.cache[ProductById];
      loader.Clear(p.id);
      loader.Prime(p.id, ProductRow(p));
    }
  }
}

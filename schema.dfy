/** The rows that the loaders read and that the write path inserts. */
module Schema {
  import opened Wrappers

  /** A point in time as the store's clock gives it (the `defaultNow()` columns). */
  type Timestamp = nat

  /** A row of the `user` table. Only the two columns the loaders look up by are
      part of this model: the primary key `id` and the unique `email`. */
  datatype User = User(id: string, email: string)

  /** A row of the `product` table. `nameDe` is the required `name_de` column, `nameEn`,
      `nameRu` and `imageUrl` are the nullable `name_en`, `name_ru` and `image_url` columns.
      `gi` and `gl` are stored as single-precision `real` columns; here they are only
      carried, never computed with. */
  datatype Product = Product(
    id: string,
    nameDe: string,
    nameEn: Option<string>,
    nameRu: Option<string>,
    imageUrl: Option<string>,
    gi: real,
    gl: real,
    createdAt: Timestamp,
    updatedAt: Timestamp)

  /** The argument of `addProduct`: `nameDe`, `gi` and `gl` are required, the others may be
      left undefined (`None`). */
  datatype ProductInput = ProductInput(
    nameDe: string,
    nameEn: Option<string>,
    nameRu: Option<string>,
    imageUrl: Option<string>,
    gi: real,
    gl: real)
}

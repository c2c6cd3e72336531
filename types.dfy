/** The product record submitted to the remote API (src/types.ts). */
module Types {
  import opened Wrappers

  /** A JavaScript `number`; NaN and the infinities are not modelled. */
  type Number = real

  /** `ProductPayload`. A field declared `?: T | null` is an `Option<T>`:
      absent and `null` are both `None`. */
  datatype ProductPayload = ProductPayload(
    name: string,
    price: Number,
    barcode: Option<string>,
    category: Option<string>,
    compareAtPrice: Option<Number>,
    description: Option<string>,
    featured: bool,
    images: string,
    isDefault: Option<bool>,
    owner: Option<string>,
    published: bool,
    quantity: Number,
    sku: Option<string>,
    tags: Option<string>
  )

  /** `keyof ProductPayload`: the keys an error map may use. */
  datatype Field =
    | Name | Price | Barcode | Category | CompareAtPrice | Description | Featured
    | Images | IsDefault | Owner | Published | Quantity | Sku | Tags

  const AllFields: set<Field> :=
    {Name, Price, Barcode, Category, CompareAtPrice, Description, Featured,
     Images, IsDefault, Owner, Published, Quantity, Sku, Tags}

  /** `Partial<Record<keyof ProductPayload, string>>`: at most one message per field. */
  type ErrorMap = map<Field, string>
}

/**
 * The entity shapes the FakeStore adapter reads and builds. Every Java reference
 * field may be `null` and is an Option; primitives (`double`, `boolean`) are not.
 */
module Models {
  import opened Wrappers
  import opened JavaText

  /** A `java.util.Date`: a millisecond count from the epoch, only ever copied. */
  datatype Date = Date(epochMillis: int)

  /** A Java `double`, kept as its 64 IEEE 754 bits: the adapter only copies prices. */
  datatype Double = Double(bits: bv64)

  /** The audit fields every entity inherits. */
  datatype BaseModel = BaseModel(
    createdAt: Option<Date>,
    createdBy: Option<string>,
    updatedAt: Option<Date>,
    updatedBy: Option<string>,
    isDeleted: bool)

  /** The audit fields of a freshly allocated entity: Java's default field values. */
  const UNSET_BASE_MODEL: BaseModel := BaseModel(None, None, None, None, false)

  datatype Category = Category(base: BaseModel, id: Option<Long>, name: Option<string>)

  /** `new Category()`. */
  const NEW_CATEGORY: Category := Category(UNSET_BASE_MODEL, None, None)

  datatype Product = Product(
    base: BaseModel,
    id: Option<Long>,
    title: Option<string>,
    price: Double,
    category: Option<Category>,
    description: Option<string>,
    imageUrl: Option<string>)

  /** `new Product()`: every reference null, the price 0.0 (all bits clear). */
  const NEW_PRODUCT: Product := Product(UNSET_BASE_MODEL, None, None, Double(0), None, None, None)

  /**
   * The remote catalog's wire shape: the category is a bare name and the image field
   * is called `image`.
   */
  datatype FakeStoreProductDto = FakeStoreProductDto(
    id: Option<Long>,
    title: Option<string>,
    price: Double,
    category: Option<string>,
    description: Option<string>,
    image: Option<string>)

  /** `new FakeStoreProductDto()`. */
  const NEW_DTO: FakeStoreProductDto := FakeStoreProductDto(None, None, Double(0), None, None, None)
}

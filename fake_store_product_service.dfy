/**
 * The adapter that serves products from the remote FakeStore catalog: two converters
 * between the in-process Product and the remote DTO, and the six operations of the
 * product service, each one remote call whose reply is passed in as a parameter.
 */
module FakeStoreProductService {
  import opened Wrappers
  import opened JavaText
  import opened Models

  // ---------------------------------------------------------------------------
  // Converters
  // ---------------------------------------------------------------------------

  /**
   * The shape of every product built from a DTO: the audit fields untouched, and a
   * brand-new category that carries a name only.
   */
  predicate BuiltFromDto(p: Product)
  {
    && p.base == UNSET_BASE_MODEL
    && p.category.Some?
    && p.category.value.base == UNSET_BASE_MODEL
    && p.category.value.id.None?
  }

  /** Two products that agree on every field the remote DTO carries. */
  predicate SameWireFields(p: Product, q: Product)
    requires p.category.Some? && q.category.Some?
  {
    && p.id == q.id
    && p.title == q.title
    && p.price == q.price
    && p.description == q.description
    && p.imageUrl == q.imageUrl
    && p.category.value.name == q.category.value.name
  }

  /** `convertProductDtoToProduct`: a new Product filled in field by field from the DTO. */
  function ConvertProductDtoToProduct(dto: FakeStoreProductDto): (p: Product)
    ensures p.id == dto.id && p.title == dto.title && p.price == dto.price
    ensures p.description == dto.description
    ensures p.imageUrl == dto.image
    ensures p.category.Some? && p.category.value.name == dto.category
    ensures BuiltFromDto(p)
  {
    var product := NEW_PRODUCT.(id := dto.id, title := dto.title, price := dto.price,
                                imageUrl := dto.image, description := dto.description);
    product.(category := Some(NEW_CATEGORY.(name := dto.category)))
  }

  /**
   * `convertProductToProductDto`: a new DTO filled in from the product. The source
   * dereferences the category without a check, so a product without one is outside
   * its domain (the service operations below model the resulting exception).
   */
  function ConvertProductToProductDto(product: Product): (dto: FakeStoreProductDto)
    requires product.category.Some?
    ensures dto.id == product.id && dto.title == product.title && dto.price == product.price
    ensures dto.description == product.description
    ensures dto.image == product.imageUrl
    ensures dto.category == product.category.value.name
  {
    NEW_DTO.(id := product.id, title := product.title, price := product.price,
             category := product.category.value.name, description := product.description,
             image := product.imageUrl)
  }

  /** Nothing the remote catalog sends is lost on the way in. */
  lemma DtoRoundTrip(dto: FakeStoreProductDto)
    ensures ConvertProductToProductDto(ConvertProductDtoToProduct(dto)) == dto
  {
  }

  /** Distinct DTOs become distinct products. */
  lemma ConvertProductDtoToProductInjective(a: FakeStoreProductDto, b: FakeStoreProductDto)
    ensures ConvertProductDtoToProduct(a) == ConvertProductDtoToProduct(b) <==> a == b
  {
  }

  /**
   * From the product side the round trip keeps exactly the wire fields and resets the
   * rest: the category's id and every audit field.
   */
  lemma ProductRoundTrip(p: Product)
    requires p.category.Some?
    ensures var q := ConvertProductDtoToProduct(ConvertProductToProductDto(p));
      && q.category.Some?
      && SameWireFields(q, p)
      && BuiltFromDto(q)
  {
  }

  /** The round trip gives the product back exactly when it has the shape a DTO yields. */
  lemma ProductRoundTripExact(p: Product)
    requires p.category.Some?
    ensures ConvertProductDtoToProduct(ConvertProductToProductDto(p)) == p <==> BuiltFromDto(p)
  {
  }

  /** Product to DTO forgets all but the wire fields, and nothing of those. */
  lemma ConvertProductToProductDtoLossy(p: Product, q: Product)
    requires p.category.Some? && q.category.Some?
    ensures ConvertProductToProductDto(p) == ConvertProductToProductDto(q) <==> SameWireFields(p, q)
  {
  }

  /** The products a DTO can yield are exactly those of the BuiltFromDto shape. */
  lemma BuiltFromDtoIsImage(p: Product)
    ensures BuiltFromDto(p) <==> exists dto :: ConvertProductDtoToProduct(dto) == p
  {
    if BuiltFromDto(p) {
      ProductRoundTripExact(p);
      var dto := ConvertProductToProductDto(p);
      assert ConvertProductDtoToProduct(dto) == p;
    }
  }

  // ---------------------------------------------------------------------------
  // Request targets and the not-found message
  // ---------------------------------------------------------------------------

  const COLLECTION_URL: string := "https://fakestoreapi.com/products"
  const ITEM_URL_PREFIX: string := "https://fakestoreapi.com/products/"

  /** `"https://fakestoreapi.com/products/" + id`, for a `Long` id that may be null. */
  function ItemUrl(id: Option<Long>): (url: string)
    ensures url == COLLECTION_URL + "/" + BoxedLongToString(id)
  {
    ITEM_URL_PREFIX + BoxedLongToString(id)
  }

  /** Reads the id back out of an item URL; None for any other string. */
  function ParseItemUrl(url: string): (r: Option<Option<Long>>)
  {
    if |ITEM_URL_PREFIX| <= |url| && url[..|ITEM_URL_PREFIX|] == ITEM_URL_PREFIX then
      ParseBoxedLong(url[|ITEM_URL_PREFIX|..])
    else
      None
  }

  lemma ItemUrlRoundTrip(id: Option<Long>)
    ensures ParseItemUrl(ItemUrl(id)) == Some(id)
  {
  }

  /** Every URL the parser accepts is the item URL of the id it reads. */
  lemma ParseItemUrlCanonical(url: string)
    requires ParseItemUrl(url).Some?
    ensures ItemUrl(ParseItemUrl(url).value) == url
  {
    var rest := url[|ITEM_URL_PREFIX|..];
    ParseBoxedLongCanonical(rest);
    assert url == url[..|ITEM_URL_PREFIX|] + rest;
  }

  /** Distinct ids address distinct remote items, none of them the collection. */
  lemma ItemUrlInjective(a: Option<Long>, b: Option<Long>)
    ensures ItemUrl(a) == ItemUrl(b) <==> a == b
    ensures ItemUrl(a) != COLLECTION_URL
  {
    ItemUrlRoundTrip(a);
    ItemUrlRoundTrip(b);
    assert |ItemUrl(a)| > |COLLECTION_URL|;
  }

  const NOT_FOUND_PREFIX: string := "Product with id "
  const NOT_FOUND_SUFFIX: string := " does not exist"

  /** The message of the exception raised when the remote catalog has no such product. */
  function NotFoundMessage(id: Option<Long>): (m: string)
    ensures |m| == |NOT_FOUND_PREFIX| + |BoxedLongToString(id)| + |NOT_FOUND_SUFFIX|
    ensures m[..|NOT_FOUND_PREFIX|] == NOT_FOUND_PREFIX
    ensures m[|NOT_FOUND_PREFIX|..|m| - |NOT_FOUND_SUFFIX|] == BoxedLongToString(id)
    ensures m[|m| - |NOT_FOUND_SUFFIX|..] == NOT_FOUND_SUFFIX
  {
    NOT_FOUND_PREFIX + BoxedLongToString(id) + NOT_FOUND_SUFFIX
  }

  /** The message names the id: two messages are equal exactly when their ids are. */
  lemma NotFoundMessageInjective(a: Option<Long>, b: Option<Long>)
    ensures NotFoundMessage(a) == NotFoundMessage(b) <==> a == b
  {
  }

  // ---------------------------------------------------------------------------
  // The remote call, abstracted
  // ---------------------------------------------------------------------------

  datatype HttpMethod = GET | POST | PATCH | PUT | DELETE

  /** What an operation hands to the HTTP client. */
  datatype Request = Request(verb: HttpMethod, url: string, body: Option<FakeStoreProductDto>)

  /**
   * What the HTTP client hands back: the decoded body, `null` when there was none, or
   * the exception it threw (an error status, an unreachable host, an unreadable body).
   */
  datatype Reply<T> = Received(body: Option<T>) | Failed(message: string)

  /** The exceptions an operation lets escape. */
  datatype ServiceError =
    | ProductDoesNotExistException(message: string)
    | NullPointerException
    | RestClientException(message: string)

  /**
   * One operation, observed from outside: the request it sent (None when it threw
   * before calling the remote catalog) and what it returned or threw.
   */
  datatype Exchange<T> = Exchange(sent: Option<Request>, outcome: Result<T, ServiceError>)

  /** How the write operations read a reply: the body must be there and is converted. */
  function ReadBody(reply: Reply<FakeStoreProductDto>): (r: Result<Product, ServiceError>)
    ensures r.Ok? <==> reply.Received? && reply.body.Some?
    ensures r.Ok? ==> BuiltFromDto(r.value) && ConvertProductToProductDto(r.value) == reply.body.value
    ensures reply.Received? && reply.body.None? ==> r == Err(NullPointerException)
    ensures reply.Failed? ==> r == Err(RestClientException(reply.message))
  {
    match reply
    case Failed(message) => Err(RestClientException(message))
    case Received(None) => Err(NullPointerException)
    case Received(Some(dto)) => Ok(ConvertProductDtoToProduct(dto))
  }

  /** The products of a response array, in order; a null element throws. */
  function ConvertAll(dtos: seq<Option<FakeStoreProductDto>>): (r: Result<seq<Product>, ServiceError>)
    ensures r.Ok? <==> forall i :: 0 <= i < |dtos| ==> dtos[i].Some?
    ensures r.Err? ==> r.error == NullPointerException
    ensures r.Ok? ==> |r.value| == |dtos|
    ensures r.Ok? ==> forall i :: 0 <= i < |dtos| ==> r.value[i] == ConvertProductDtoToProduct(dtos[i].value)
  {
    if dtos == [] then Ok([])
    else match dtos[0]
      case None => Err(NullPointerException)
      case Some(dto) =>
        match ConvertAll(dtos[1..])
        case Err(e) => Err(e)
        case Ok(rest) => Ok([ConvertProductDtoToProduct(dto)] + rest)
  }

  /** The write operations' shared shape: encode the product, send it, read the reply. */
  function SendProduct(verb: HttpMethod, url: string, product: Product, reply: Reply<FakeStoreProductDto>): (e: Exchange<Product>)
    ensures e.sent.Some? <==> product.category.Some?
    ensures product.category.None? ==> e.outcome == Err(NullPointerException)
    ensures e.sent.Some? ==> e.sent.value.verb == verb && e.sent.value.url == url
    ensures e.sent.Some? ==> e.sent.value.body.Some? && ConvertProductDtoToProduct(e.sent.value.body.value).category.Some?
    ensures e.sent.Some? ==> SameWireFields(ConvertProductDtoToProduct(e.sent.value.body.value), product)
    ensures e.sent.Some? ==> e.outcome == ReadBody(reply)
  {
    if product.category.None? then Exchange(None, Err(NullPointerException))
    else Exchange(Some(Request(verb, url, Some(ConvertProductToProductDto(product)))), ReadBody(reply))
  }

  // ---------------------------------------------------------------------------
  // The six operations of the product service
  // ---------------------------------------------------------------------------

  /** `getSingleProduct`: GET the item; an empty reply means the product does not exist. */
  function GetSingleProduct(id: Option<Long>, reply: Reply<FakeStoreProductDto>): (e: Exchange<Product>)
    ensures e.sent == Some(Request(GET, ItemUrl(id), None))
    ensures e.outcome.Ok? <==> reply.Received? && reply.body.Some?
    ensures e.outcome.Ok? ==> BuiltFromDto(e.outcome.value) && ConvertProductToProductDto(e.outcome.value) == reply.body.value
    ensures reply.Received? && reply.body.None? ==>
      e.outcome == Err(ProductDoesNotExistException(NotFoundMessage(id)))
    ensures reply.Failed? ==> e.outcome == Err(RestClientException(reply.message))
  {
    var outcome := match reply
      case Failed(message) => Err(RestClientException(message))
      case Received(None) => Err(ProductDoesNotExistException(NotFoundMessage(id)))
      case Received(Some(dto)) => Ok(ConvertProductDtoToProduct(dto));
    Exchange(Some(Request(GET, ItemUrl(id), None)), outcome)
  }

  /** `getAllProducts`: GET the collection and convert the array element by element. */
  function GetAllProducts(reply: Reply<seq<Option<FakeStoreProductDto>>>): (e: Exchange<seq<Product>>)
    ensures e.sent == Some(Request(GET, COLLECTION_URL, None))
    ensures e.outcome.Ok? <==>
      reply.Received? && reply.body.Some? && forall i :: 0 <= i < |reply.body.value| ==> reply.body.value[i].Some?
    ensures e.outcome.Ok? ==> |e.outcome.value| == |reply.body.value|
    ensures e.outcome.Ok? ==> forall i :: 0 <= i < |e.outcome.value| ==>
      e.outcome.value[i] == ConvertProductDtoToProduct(reply.body.value[i].value)
    ensures reply.Received? && e.outcome.Err? ==> e.outcome.error == NullPointerException
    ensures reply.Failed? ==> e.outcome == Err(RestClientException(reply.message))
  {
    var outcome := match reply
      case Failed(message) => Err(RestClientException(message))
      case Received(None) => Err(NullPointerException)
      case Received(Some(dtos)) => ConvertAll(dtos);
    Exchange(Some(Request(GET, COLLECTION_URL, None)), outcome)
  }

  /** `addProduct`: POST the encoded product to the collection. */
  function AddProduct(product: Product, reply: Reply<FakeStoreProductDto>): (e: Exchange<Product>)
    ensures product.category.None? ==> e == Exchange(None, Err(NullPointerException))
    ensures product.category.Some? ==>
      && e.sent == Some(Request(POST, COLLECTION_URL, Some(ConvertProductToProductDto(product))))
      && e.outcome == ReadBody(reply)
  {
    SendProduct(POST, COLLECTION_URL, product, reply)
  }

  /** `updateProduct`: PATCH the encoded product to the item. */
  function UpdateProduct(id: Option<Long>, product: Product, reply: Reply<FakeStoreProductDto>): (e: Exchange<Product>)
    ensures product.category.None? ==> e == Exchange(None, Err(NullPointerException))
    ensures product.category.Some? ==>
      && e.sent == Some(Request(PATCH, ItemUrl(id), Some(ConvertProductToProductDto(product))))
      && e.outcome == ReadBody(reply)
  {
    SendProduct(PATCH, ItemUrl(id), product, reply)
  }

  /** `replaceProduct`: PUT the encoded product to the item. */
  function ReplaceProduct(id: Option<Long>, product: Product, reply: Reply<FakeStoreProductDto>): (e: Exchange<Product>)
    ensures product.category.None? ==> e == Exchange(None, Err(NullPointerException))
    ensures product.category.Some? ==>
      && e.sent == Some(Request(PUT, ItemUrl(id), Some(ConvertProductToProductDto(product))))
      && e.outcome == ReadBody(reply)
  {
    SendProduct(PUT, ItemUrl(id), product, reply)
  }

  /** `deleteProduct`: DELETE the item, with no request body. */
  function DeleteProduct(id: Option<Long>, reply: Reply<FakeStoreProductDto>): (e: Exchange<Product>)
    ensures e.sent == Some(Request(DELETE, ItemUrl(id), None))
    ensures e.outcome == ReadBody(reply)
  {
    Exchange(Some(Request(DELETE, ItemUrl(id), None)), ReadBody(reply))
  }

  // ---------------------------------------------------------------------------
  // Properties of the operations
  // ---------------------------------------------------------------------------

  /** An empty catalog yields an empty list, not an error. */
  lemma GetAllProductsEmpty()
    ensures GetAllProducts(Received(Some([]))).outcome == Ok([])
  {
  }

  /** The list getAllProducts returns encodes back to the response array, element by element. */
  lemma GetAllProductsRoundTrip(reply: Reply<seq<Option<FakeStoreProductDto>>>)
    requires GetAllProducts(reply).outcome.Ok?
    ensures var products := GetAllProducts(reply).outcome.value;
      forall i :: 0 <= i < |products| ==>
        && products[i].category.Some?
        && Some(ConvertProductToProductDto(products[i])) == reply.body.value[i]
  {
  }

  /**
   * A write operation sends its request only when the product has a category, and
   * then succeeds exactly when the reply has a body, which its result encodes back to.
   */
  lemma WriteOperationsEcho(id: Option<Long>, product: Product, reply: Reply<FakeStoreProductDto>)
    ensures forall e | e in {AddProduct(product, reply), UpdateProduct(id, product, reply), ReplaceProduct(id, product, reply)} ::
      && (e.sent.Some? <==> product.category.Some?)
      && (e.sent.Some? ==> e.sent.value.body == Some(ConvertProductToProductDto(product)))
      && (e.outcome.Ok? <==> product.category.Some? && reply.Received? && reply.body.Some?)
      && (e.outcome.Ok? ==> ConvertProductToProductDto(e.outcome.value) == reply.body.value)
  {
  }

  /**
   * The operations that address one item all target the same URL, never the
   * collection's; replace sends update's request with PUT, and delete sends it with
   * DELETE and no body.
   */
  lemma ItemOperationsShareTarget(id: Option<Long>, product: Product, reply: Reply<FakeStoreProductDto>)
    requires product.category.Some?
    ensures var u := UpdateProduct(id, product, reply).sent.value;
      var r := ReplaceProduct(id, product, reply).sent.value;
      var d := DeleteProduct(id, reply).sent.value;
      && u.url == r.url == d.url == GetSingleProduct(id, reply).sent.value.url != COLLECTION_URL
      && r == u.(verb := PUT)
      && d == u.(verb := DELETE, body := None)
  {
  }
}

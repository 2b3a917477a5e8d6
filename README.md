# FakeStore product adapter

A Dafny model of the product service that serves a catalog from the remote FakeStore API
(`FakeStoreProductService`). The service converts between the in-process `Product`
entity and the remote DTO, and it implements the six operations of the `ProductService`
interface. Each operation makes at most one remote call: add, update and replace throw
before calling when the product has no category.

The model has four modules:

- `Wrappers` (`wrappers.dfy`): `Option` stands for a Java reference that may be `null`; `Result` for a call that returns or throws.
- `JavaText` (`java_text.dfy`): Java's `long`, `Long.toString`, and what string concatenation writes for a `Long` reference (`"null"` included). The service builds its URLs and its not-found message this way.
- `Models` (`models.dfy`): `BaseModel` (audit fields), `Category`, `Product`, and the DTO `FakeStoreProductDto`, as datatypes. Every reference field is an `Option`. `double` is kept as 64 opaque bits. `new X()` is a constant holding Java's default field values.
- `FakeStoreProductService` (`fake_store_product_service.dfy`): the two converters, the request targets, and the six operations.

The HTTP call is not executed. Each operation takes the client's reply as a parameter,
`Reply<T> = Received(Option<T>) | Failed(message)`. `Failed` stands for a thrown
`RestClientException`. An operation returns an `Exchange`. It records two things:

- the request it handed to the client (method, URL, body), or `None` when it threw before calling;
- the value it returned, or the exception it threw.

Two behaviours of the code worth noting:

- `getSingleProduct` accepts any `Long`, `null` included. The URL and the message then contain `null`.
- When the reply has no body, update, replace and delete raise no "product not found" error. They throw a `NullPointerException` inside the converter.

## Model

| member | source | states |
|---|---|---|
| `FakeStoreProductService.ConvertProductDtoToProduct` | src/main/java/com/scaler/productservice/service/FakeStoreProductService.java:48-62 | id, title, price and description are copied; imageUrl comes from image; the category is always present, named by the DTO's category string (null included), with no id and unset audit fields; the product's own audit fields are unset |
| `FakeStoreProductService.ConvertProductToProductDto` | src/main/java/com/scaler/productservice/service/FakeStoreProductService.java:128-138 | defined only for a product with a category; copies id, title, price and description, image comes from imageUrl, category becomes the category's name |
| `FakeStoreProductService.DtoRoundTrip` | src/main/java/com/scaler/productservice/service/FakeStoreProductService.java:48-62 | converting a DTO to a product and back (lines 128-138) gives exactly the same DTO |
| `FakeStoreProductService.ConvertProductDtoToProductInjective` | src/main/java/com/scaler/productservice/service/FakeStoreProductService.java:48-62 | two DTOs give the same product exactly when they are equal |
| `FakeStoreProductService.ProductRoundTrip` | src/main/java/com/scaler/productservice/service/FakeStoreProductService.java:128-138 | product to DTO and back keeps id, title, price, description, imageUrl and category name, and resets the category id and every audit field |
| `FakeStoreProductService.ProductRoundTripExact` | src/main/java/com/scaler/productservice/service/FakeStoreProductService.java:128-138 | that round trip returns the product unchanged exactly when its audit fields are unset and its category has no id and unset audit fields |
| `FakeStoreProductService.ConvertProductToProductDtoLossy` | src/main/java/com/scaler/productservice/service/FakeStoreProductService.java:128-138 | two products give the same DTO exactly when they agree on the six wire fields |
| `FakeStoreProductService.BuiltFromDtoIsImage` | src/main/java/com/scaler/productservice/service/FakeStoreProductService.java:48-62 | a product is some DTO's conversion exactly when it has the converter's shape: unset audit fields, a category without id |
| `FakeStoreProductService.ItemUrl` | src/main/java/com/scaler/productservice/service/FakeStoreProductService.java:68 | an item URL is the collection URL, then `/`, then the id as Java prints a `Long` |
| `FakeStoreProductService.ItemUrlRoundTrip` | src/main/java/com/scaler/productservice/service/FakeStoreProductService.java:68 | the id can be read back from its item URL, `null` included |
| `FakeStoreProductService.ParseItemUrlCanonical` | src/main/java/com/scaler/productservice/service/FakeStoreProductService.java:196 | every string the URL reader accepts is the item URL of the id it reads |
| `FakeStoreProductService.ItemUrlInjective` | src/main/java/com/scaler/productservice/service/FakeStoreProductService.java:268 | distinct ids give distinct item URLs, and no item URL is the collection URL |
| `FakeStoreProductService.NotFoundMessage` | src/main/java/com/scaler/productservice/service/FakeStoreProductService.java:73 | the message is "Product with id ", then the id as Java prints it, then " does not exist" |
| `FakeStoreProductService.NotFoundMessageInjective` | src/main/java/com/scaler/productservice/service/FakeStoreProductService.java:73 | two not-found messages are equal exactly when their ids are equal |
| `FakeStoreProductService.ReadBody` | src/main/java/com/scaler/productservice/service/FakeStoreProductService.java:202-203 | a single-product reply (add, update, replace, delete) succeeds exactly when it has a body, and the product encodes back to that body; a missing body throws NullPointerException; a client failure propagates unchanged |
| `FakeStoreProductService.ConvertAll` | src/main/java/com/scaler/productservice/service/FakeStoreProductService.java:122-124 | the array converts exactly when no element is null; the result has the same length and element i is the conversion of element i; a null element throws NullPointerException |
| `FakeStoreProductService.GetSingleProduct` | src/main/java/com/scaler/productservice/service/FakeStoreProductService.java:66-81 | sends GET to the item URL with no body; succeeds exactly when the reply has a body, and the product encodes back to it; a bodiless reply throws ProductDoesNotExistException with the not-found message for that id; a client failure propagates |
| `FakeStoreProductService.GetAllProducts` | src/main/java/com/scaler/productservice/service/FakeStoreProductService.java:120-124 | sends GET to the collection URL; succeeds exactly when the array is present with no null element; keeps length and order; a missing array or null element throws NullPointerException |
| `FakeStoreProductService.SendProduct` | src/main/java/com/scaler/productservice/service/FakeStoreProductService.java:144-150 | the shared encode, send, read step of add, update and replace: a request is sent exactly when the product has a category, otherwise NullPointerException is thrown first; the request has the given method and URL, and its body carries the product's six wire fields; the reply is read as ReadBody does |
| `FakeStoreProductService.AddProduct` | src/main/java/com/scaler/productservice/service/FakeStoreProductService.java:143-151 | without a category: throws NullPointerException and sends nothing; otherwise POSTs the encoded product to the collection URL and reads the reply as ReadBody does |
| `FakeStoreProductService.UpdateProduct` | src/main/java/com/scaler/productservice/service/FakeStoreProductService.java:155-205 | without a category: throws NullPointerException and sends nothing; otherwise PATCHes the encoded product to the item URL and reads the reply as ReadBody does |
| `FakeStoreProductService.ReplaceProduct` | src/main/java/com/scaler/productservice/service/FakeStoreProductService.java:209-236 | without a category: throws NullPointerException and sends nothing; otherwise PUTs the encoded product to the item URL and reads the reply as ReadBody does |
| `FakeStoreProductService.DeleteProduct` | src/main/java/com/scaler/productservice/service/FakeStoreProductService.java:257-276 | sends DELETE to the item URL with no body and reads the reply as ReadBody does |
| `FakeStoreProductService.GetAllProductsEmpty` | src/main/java/com/scaler/productservice/service/FakeStoreProductService.java:120-124 | an empty response array gives an empty list, not an error |
| `FakeStoreProductService.GetAllProductsRoundTrip` | src/main/java/com/scaler/productservice/service/FakeStoreProductService.java:122-124 | every product in a successful list has a category and encodes back to the array element at its position |
| `FakeStoreProductService.WriteOperationsEcho` | src/main/java/com/scaler/productservice/service/FakeStoreProductService.java:144-150 | add, update and replace send a request exactly when the product has a category, and its body is the encoded product; they succeed exactly when the reply has a body, and the result encodes back to it |
| `FakeStoreProductService.ItemOperationsShareTarget` | src/main/java/com/scaler/productservice/service/FakeStoreProductService.java:195-200 | getSingle, update, replace and delete address the same item URL, never the collection URL; replace sends update's request with PUT instead of PATCH, and delete sends it with DELETE and no body |
| `JavaText.LongToString` | src/main/java/com/scaler/productservice/service/FakeStoreProductService.java:68 | `Long.toString`: a leading minus exactly for negative values, then the digits of the magnitude with no leading zero, denoting that magnitude |
| `JavaText.BoxedLongToString` | src/main/java/com/scaler/productservice/service/FakeStoreProductService.java:73 | what `"..." + id` writes for a `Long` reference: "null" exactly for a null reference, otherwise text that starts with a minus sign or a digit |
| `JavaText.Decimal` | src/main/java/com/scaler/productservice/service/FakeStoreProductService.java:68 | the decimal text of a number is non-empty, all digits, and has no leading zero |
| `JavaText.DecimalRoundTrip` | src/main/java/com/scaler/productservice/service/FakeStoreProductService.java:68 | reading the digits of n gives n back |
| `JavaText.DecimalOfValue` | src/main/java/com/scaler/productservice/service/FakeStoreProductService.java:68 | every digit string without a leading zero is the decimal text of its own value |
| `JavaText.LongRoundTrip` | src/main/java/com/scaler/productservice/service/FakeStoreProductService.java:68 | `Long.toString` of any 64-bit value, negative ones included, reads back to that value |
| `JavaText.ParseLongCanonical` | src/main/java/com/scaler/productservice/service/FakeStoreProductService.java:68 | every string the reader accepts is `Long.toString` of the value it reads |
| `JavaText.BoxedLongRoundTrip` | src/main/java/com/scaler/productservice/service/FakeStoreProductService.java:68 | the text concatenation writes for a `Long` reference, "null" included, reads back to that reference |
| `JavaText.ParseBoxedLongCanonical` | src/main/java/com/scaler/productservice/service/FakeStoreProductService.java:73 | every string that reads as a `Long` reference is exactly its concatenation text |
| `JavaText.BoxedLongToStringInjective` | src/main/java/com/scaler/productservice/service/FakeStoreProductService.java:73 | two `Long` references print alike exactly when they are equal |

## Left out

- The HTTP calls themselves (`getForObject`, `getForEntity`, `postForObject`, `exchange`), JSON decoding, and what the remote catalog does with PATCH, PUT and DELETE. These are library and network behaviour. The reply is a parameter, so nothing is said about which replies the remote side actually sends.
- `RestTemplate` exceptions keep only their message; the exception class hierarchy and status codes are not modelled.
- ConvertProductToProductDto: requires a category, because the source dereferences it without a check at FakeStoreProductService.java:134. The operations that call it model the resulting `NullPointerException` as an error outcome with no request sent.
- AddProduct: the `assert` at FakeStoreProductService.java:149 is modelled with JVM assertions disabled, the default. A missing body therefore throws `NullPointerException` in the converter; with assertions enabled it would be an `AssertionError`.
- Object identity: Java allocates a new `Category` on every conversion. A value model cannot say "newly allocated", so it says that the category has no id and only default audit fields.
- `price` is a `double` that is only copied. It is kept as 64 opaque bits, with no floating-point arithmetic or equality semantics. `Date` is likewise an opaque millisecond count.
- `FakeStoreProductDto.java` is not part of this model. Its field shapes come from the getters and setters called in the converters. Two of its field types are assumptions: its `id` is taken to be a nullable `Long`, like `Product.id`, and its `price` a primitive `double`, like `Product.price`. If `price` were a boxed `Double`, a null price would throw `NullPointerException` when unboxed at FakeStoreProductService.java:52; the model does not capture that case.
- `SelfProductService.java` returns `null` from every method, so it has no behaviour to model. `ProductService.java` has no behaviour either; the six operations here are its method set.
- `ProductController.java` (routing, service wiring) and `ExceptionHandlers.java` (exception to HTTP status) are framework plumbing.
- JPA annotations and the `inheritancedemo` classes (`User`, `Mentor`) are persistence mapping only.
- Commented-out code in FakeStoreProductService.java (lines 104-117, 164-169, 223-225, 265) is not live.

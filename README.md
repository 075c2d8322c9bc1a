# Digital store backend — a Dafny model

This project models the core of a small storefront backend written in Python
with FastAPI, pydantic and MongoDB (through the motor driver). The modelled
parts are:

- **Schemas** (`schemas.dfy`): the pydantic records `Product` and `Order`.
  Validation is a function from a draft to either a record or a list of
  violations, one per offending field. Each field is given, omitted or `null`.
  Defaults are applied (category `other`, rating 4.8, rating count 0, order
  status `pending`). The module also covers `model_dump()` and reading a
  stored document back as a record.
- **Database** (`database.dfy`): the module state of the store client, as the
  class `DocumentStore`. `GetDb` creates the client and database handle
  lazily, exactly once. `CreateDocument` adds the two timestamps, stores the
  document under a fresh identifier and returns the identifier as a string.
  `GetDocuments` runs a filtered, limited query and turns each identifier into
  a string in a loop. The part of MongoDB's query language the store relies
  on is stated as the predicate `Matches`: top-level equality, plus `$gte` and
  `$lte` on numbers. This is an assumption about the server, not code of the
  repository.
- **Object identifiers** (`object_ids.dfy`): `str(ObjectId)` as 24 lower-case
  hexadecimal digits. Reading the digits back gives the number, so distinct
  identifiers never print the same.
- **Catalog endpoints** (`catalog.dfy`):
  - `list_products` builds its filter. Every product it lists is proved to
    be wanted, and with limit 0 every wanted product is proved to be listed.
  - `get_product` answers 404 exactly when no product has the slug, and
    otherwise returns the first product that has it.
  - `create_product` stores the dumped product.
  - `checkout` marks the order paid, fills in a download link and stores it.
- **Newsletter subscription** (`subscribe.dfy`): the `subscribe` endpoint of
  the top-level `main.py`.
  - An unconfigured server answers 500 and sends nothing.
  - A 200 or 201 from the provider becomes `{"success": true}`.
  - Any other status is forwarded with the provider's JSON body, or with
    `{"message": text}` when the body is not JSON.
  - A timeout answers 504 and any other transport failure 502.

  The HTTP call is the function parameter `post`.

Three points about the code itself:
- `Order.email` is a plain string and is not validated as an email address.
- `Order` has no constraint on `amount`.
- A limit of 0 or below is passed to the driver unchanged. To the driver, 0
  means "no limit" and `-n` means "at most n".

## Model

| member | source | states |
|---|---|---|
| ObjectIds.Text | backend/database.py:24 | `str(inserted_id)` is at least 24 characters, all lower-case hexadecimal digits |
| ObjectIds.ToHex | backend/database.py:32 | hexadecimal printing pads to at least the requested width and emits only hexadecimal digits |
| ObjectIds.HexRoundTrip | backend/database.py:32 | reading the printed digits back gives the printed number |
| ObjectIds.HexWidth | backend/database.py:32 | a number below 16^w prints in exactly w digits |
| ObjectIds.TextLength | backend/database.py:24 | a twelve-byte identifier prints as exactly 24 digits |
| ObjectIds.TextInjective | backend/database.py:32 | two identifiers with the same string form are the same identifier |
| Schemas.ParseCategory | backend/schemas.py:10 | a string is accepted as a category exactly when it is one of the six names, and it maps to the category of that name |
| Schemas.ParseLevel | backend/schemas.py:11 | a string is accepted as a level exactly when it is one of the three names, and it maps to that level |
| Schemas.ParseStatus | backend/schemas.py:24 | a string is accepted as an order status exactly when it is `pending`, `paid` or `failed` |
| Schemas.ValidateProduct | backend/schemas.py:5-17 | an accepted draft yields a product that satisfies every field constraint and agrees with the draft, with the defaults filled in; a rejected draft has at least one violation, and every violation names a Product field |
| Schemas.ProductErrors | backend/schemas.py:5-17 | the reported violations are empty exactly when every field check passes; each names a Product field whose check failed, with the rule it failed |
| Schemas.FailuresReported | backend/schemas.py:5-17 | every field whose check fails is reported with its own name and the rule it broke |
| Schemas.RejectedWithErrors | backend/schemas.py:5-17 | a draft with a failing field check is rejected with exactly the reported violations |
| Schemas.ProductRejections | backend/schemas.py:6-14 | a missing title or price, a title shorter than 3 or longer than 120, a slug outside 3..140, a description outside 20..5000, a negative price, a `null` category, a category or level outside its names, a rating outside 0..5 and a cover URL that is not a URL each fail that field's check with that rule |
| Schemas.NegativePriceRejected | backend/schemas.py:9 | a draft with a negative price is rejected, and the violation `price >= 0` is among the reported ones |
| Schemas.ChecksOfValid | backend/schemas.py:5-17 | every field check of a draft that agrees with a valid product passes with that product's value |
| Schemas.ValidateProductComplete | backend/schemas.py:5-17 | every valid product that agrees with a draft is accepted as exactly that product, so validation rejects nothing it should accept |
| Schemas.ProductDumpKeys | backend/schemas.py:5-17 | `model_dump()` has exactly the twelve field names as keys |
| Schemas.ProductDumpLeavesStoreFields | backend/schemas.py:5-17 | the dump has none of the keys the store writes: `_id`, `created_at`, `updated_at` |
| Schemas.DumpScalarsRead | backend/schemas.py:6-13 | the title, slug, description, price, rating and rating count read back from the dump as the product's values |
| Schemas.DumpChoicesRead | backend/schemas.py:10-11 | the category and the optional level read back from the dump as the product's choices |
| Schemas.DumpOptionalsRead | backend/schemas.py:14-17 | the optional cover URL and the three optional lists read back from the dump as the product's values, `null` included |
| Schemas.ProductDumpReadsBack | backend/schemas.py:5-17 | reading a dumped product back gives the same product |
| Schemas.ReadIgnoresOtherField | backend/schemas.py:5-17 | reading a product from a document ignores every key that is not a Product field |
| Schemas.TextsRoundTrip | backend/schemas.py:15-17 | an optional list of strings dumped to a value reads back as the same optional list |
| Schemas.TextsOfTexts | backend/schemas.py:15-17 | a list of strings dumped to values reads back as the same list |
| Schemas.OrderErrors | backend/schemas.py:20-25 | the reported violations are empty exactly when every field check passes, and a violation is reported exactly when that field's check failed with that rule |
| Schemas.ValidateOrder | backend/schemas.py:20-25 | an accepted draft yields an order that agrees with it, with status `pending` when omitted; a draft is rejected exactly when a field check fails, and then the violations are exactly the failed checks with their rules; a status outside the three names is rejected with exactly that choice list |
| Schemas.OrderRejections | backend/schemas.py:21-25 | a missing or null `product_id`, `email` or `amount`, a null `status` and a `download_url` that is not a URL are each reported under that field with that rule |
| Schemas.ValidateOrderComplete | backend/schemas.py:20-25 | every valid order that agrees with a draft is accepted as exactly that order |
| Schemas.OrderDump | backend/schemas.py:20-25 | the dump has the five field names as keys, carries each field, and reads back as the same order |
| Database.Select | backend/database.py:29 | every match of a filter is a document of the collection that matches it, and there are no more matches than documents |
| Database.SelectComplete | backend/database.py:29 | every document of the collection that matches the filter is among the matches |
| Database.SelectAppend | backend/database.py:29 | querying after an insert gives the old matches, plus the new document when it matches |
| Database.SelectEverything | backend/database.py:29 | the empty filter matches the whole collection, in order |
| Database.Cursor | backend/database.py:29 | a limited cursor yields only documents of the collection |
| Database.StringifyId | backend/database.py:32 | the identifier is replaced by its string form; the keys and every other field are unchanged |
| Database.Found | backend/database.py:27-34 | the result has as many documents as the cursor allows: at most `limit` for a positive limit, at most `-limit` for a negative one, every match for 0; each result is the corresponding match with its identifier stringified |
| Database.NoFilterFindsFirst | backend/database.py:29 | no filter behaves as `{}`, giving the first documents of the collection in order |
| Database.Inserted | backend/database.py:22-23 | the stored document carries the new identifier |
| Database.Stamped | backend/database.py:21-22 | the payload keeps every input field, adds `created_at` and `updated_at`, and sets both to the same time, overwriting input timestamps |
| Database.InsertedKeeps | backend/database.py:21-24 | every field of the payload other than `_id` and the two timestamps is kept unchanged in the stored record |
| Database.IdsBelowAppend | backend/database.py:23 | appending a document with the next identifier keeps identifiers distinct and below the raised bound |
| Database.StoreGrows | backend/database.py:23 | an insert into one collection keeps every collection's identifiers distinct and below the next identifier |
| Database.InsertedReadsBack | backend/database.py:22-24 | the record returned by an insert equals what a later query returns for the stored document |
| Database.DocumentStore.constructor | backend/database.py:6-10 | the store starts with no client and no handle; the URL and name are read from the environment with their defaults |
| Database.DocumentStore.GetDb | backend/database.py:12-17 | the first call creates one client for the configured URL and a handle on the configured database; later calls return the same handle and create nothing |
| Database.GetDbTwice | backend/database.py:12-17 | two calls return the same handle and exactly one client is ever created |
| Database.DocumentStore.CreateDocument | backend/database.py:19-25 | the collection gains the stamped payload under the next identifier, identifiers stay distinct, and the returned record is the stamped payload with `_id` as a string |
| Database.DocumentStore.GetDocuments | backend/database.py:27-34 | the loop returns exactly `Found` of the collection: the limited matches with stringified identifiers, in store order |
| Catalog.PriceFilter | backend/main.py:34-38 | the price condition has `$gte` exactly when a minimum is given and `$lte` exactly when a maximum is given, with those values, and nothing else |
| Catalog.ListFilter | backend/main.py:29-40 | the filter has `category` or `level` exactly when that argument is a non-empty string, and `price` exactly when a bound is given; `$gte` and `$lte` appear exactly for the given bounds, with those values |
| Catalog.BuildFilter | backend/main.py:29-40 | building the filter in place gives exactly `ListFilter` |
| Catalog.PriceFilterMeaning | backend/main.py:34-40 | when a bound is given, under the store's filter semantics, a document's price meets the price condition exactly when it is a number within the given bounds |
| Catalog.ListFilterSound | backend/main.py:29-40 | a document that matches the listing filter is wanted |
| Catalog.ListFilterComplete | backend/main.py:29-40 | a wanted document matches the listing filter |
| Catalog.ListFilterMeaning | backend/main.py:29-41 | under the store's filter semantics, a product matches the listing filter exactly when it has the asked category and level and its price lies within the given bounds |
| Catalog.WantedIgnoresId | backend/main.py:41 | stringifying the identifier does not change whether a product is wanted |
| Catalog.ListedProductsWanted | backend/main.py:27-42 | every listed product is wanted, for example every price lies between `min_price` and `max_price` |
| Catalog.WantedProductsListed | backend/main.py:27-42 | with limit 0 every wanted product of the collection is listed, identifier stringified |
| Catalog.ListProducts | backend/main.py:27-42 | the listing is `Found` on the product collection with the listing filter and limit; the database handle exists afterwards and an existing one is kept |
| Catalog.SlugFilterMeaning | backend/main.py:46 | a product matches `{"slug": slug}` exactly when its slug is that string |
| Catalog.SelectFirst | backend/main.py:46-47 | the first match of a filter is the first document of the collection that matches |
| Catalog.ProductBySlug | backend/main.py:44-49 | the answer is a 404 "Product not found" exactly when no product has the slug; otherwise it is the first product with that slug, identifier stringified |
| Catalog.GetProduct | backend/main.py:44-49 | the endpoint answers `ProductBySlug` of the product collection; the database handle exists afterwards and an existing one is kept |
| Catalog.CreateProduct | backend/main.py:22-25 | the dumped product is stored in the product collection under the next identifier, which is then used up, and the record returned is the stored document with its identifier stringified; the database handle exists afterwards and an existing one is kept |
| Catalog.StoredSlug | backend/main.py:24 | the stored document of a created product carries its slug |
| Catalog.StampsIgnored | backend/main.py:24 | the timestamps the store adds do not change how a document reads back as a product |
| Catalog.IdIgnored | backend/main.py:24 | the identifier, stored or stringified, does not change how a document reads back as a product |
| Catalog.StoredReadsBack | backend/main.py:24 | a stored document, identifier stringified, reads back as a product exactly as the payload does |
| Catalog.CreatedProductIsFound | backend/main.py:44-49 | after creating a product whose slug no earlier product had, looking up that slug returns the created record |
| Catalog.CreatedProductReadsBack | backend/main.py:22-25 | the record of a created product reads back as that product |
| Catalog.CreateThenFetch | backend/main.py:22-49 | when no earlier product had the slug, creating then fetching by slug returns the created record, which reads back as the product sent; an earlier product with the same slug would be returned instead, since the lookup takes the first match |
| Catalog.PaidOrder | backend/main.py:54-56 | the stored order has status `paid`, the given download URL when it is non-empty and otherwise the default link ending in the product id, everything else as submitted; it reads back as the settled order |
| Catalog.Settled | backend/main.py:55-56 | a settled order is paid, has a download link, and keeps its product, email and amount |
| Catalog.CheckoutIdempotent | backend/main.py:54-56 | checking out an already settled order stores the same dictionary |
| Catalog.Checkout | backend/main.py:51-58 | the rewritten order is stored in the order collection under the next identifier, which is then used up, and returned with its identifier as a string; the database handle exists afterwards and an existing one is kept |
| Subscribe.SubscriptionsUrl | main.py:90 | the publication can be read back from the subscriptions URL |
| Subscribe.UtmSource | main.py:97 | the attribution is never empty; it is the request's source when that is a non-empty string and `website` otherwise |
| Subscribe.BuildRequest | main.py:90-102 | the body has exactly `email` (the validated address), a non-empty `utm_source` and `send_welcome_email: true`; the headers are a bearer authorization and a JSON content type; the timeout is 10 seconds |
| Subscribe.Subscribe | main.py:84-114 | unconfigured: 500; otherwise success exactly when the provider answers 200 or 201, any other status forwarded with the provider's detail, a timeout answered 504 and any other failure 502 with the error message |
| Subscribe.UnconfiguredSendsNothing | main.py:84-88 | without both secrets the answer is 500 whatever the network would do |

## Left out

- The `/test` endpoint, the `/` and `/api/hello` greetings, CORS middleware, routing and the server process are not modelled. They are wiring, not logic.
- The framework answers a body that fails validation with 422. Its error-detail format and the response envelopes (`{"product": ...}`, `{"order": ...}`, `{"products": ...}`) are not modelled. The endpoints receive records that `ValidateProduct` or `ValidateOrder` accepted.
- `EmailStr` and `HttpUrl` syntax are not modelled, and neither is their normalisation: `HttpUrl` may rewrite the string, and `EmailStr` lower-cases the domain. URL validity is the predicate parameter `isUrl`. The subscription email arrives already validated and normalised, and the model sends that value.
- pydantic's type coercion (for example `"12"` becoming `12.0`) and type errors other than `null` are not modelled. Floats are modelled as mathematical reals.
- Python string lengths are modelled as sequence lengths, without any encoding.
- Database.DocumentStore.CreateDocument: the store hands out sequential identifiers instead of real ObjectIds. The method requires that the payload has no `_id` of its own, which holds for every caller in this code.
- Database.Matches: MongoDB's query language beyond top-level equality and numeric `$gte`/`$lte` is assumed, not modelled. This includes array membership, type ordering and other operators. Operators other than these two match nothing.
- Store failures are not modelled: an unreachable server, a failed insert, or a value the BSON encoder refuses.
- Catalog.CreateProduct: a product with a `cover_url` fails to store in the code. `model_dump()` keeps an `HttpUrl` as a URL object rather than a string, and the BSON encoder refuses it, so the insert raises a server error. The model stores the URL as a string and succeeds. Products without a cover URL are unaffected.
- Catalog.Checkout: for the same reason, an order that arrives with a `download_url` fails to store in the code, while the model stores it as a string. Orders without a download URL get the default link, a plain string, and store as modelled.
- The default `limit` of 50 for `list_products` and `get_documents` is not modelled. The limit is always an explicit argument. Every property is stated for an arbitrary limit except completeness of the listing (`Catalog.WantedProductsListed`), which is stated for limit 0.
- The lazy initialisation is modelled sequentially. `get_db` does not await between testing for a handle and creating it, so two calls on the event loop cannot interleave there.
- Database.DocumentStore.GetDb: the failures of `get_db` are not modelled. A malformed `DATABASE_URL` makes the client constructor raise. A `DATABASE_NAME` that pymongo rejects (empty, or containing a space, `.`, `$`, `/` or `\`) makes `_client[DB_NAME]` raise after `_client` was already assigned. Then `_db` stays unset, every call raises again and creates another client, and every endpoint answers 500. The model succeeds for every setting. Its "exactly one client" (`Database.GetDbTwice`, `DocumentStore.Valid`) assumes a valid URL and database name.
- The wall-clock time is the parameter `now`, and `isoformat()` is not modelled.
- The network call `requests.post` is the parameter `post`. Its outcome is a `Transport` value, and a response body is either JSON or plain text.
- Database.Found: "at most `limit` documents" holds only for a positive limit. For 0 the driver imposes no limit, and for a negative limit it returns at most its absolute value.
- The payment-gateway and signature-checking code is not part of this model; `checkout` marks every order paid without it.

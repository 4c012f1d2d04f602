# Product store service — Dafny model

The service keeps a flat collection of product records (`id`, `name`, an
optional free-form `data` object) in one JSON file and offers four
operations: list the collection, replace it wholesale, fetch one product by
id, and fetch several products by a list of ids. This project models the
decision logic of those four handlers. The file and its JSON codec become a
`FileState`: absent, malformed, or present with a sequence of products. The
codec is assumed to store and return `id`, `name` and `data` unchanged.

- `product_api.dfy`, module `ProductApi`: the data shapes (`Product`,
  `ProductList`, `ProductIdList`), the error responses, and the handlers as
  pure functions of the file state. These are the first-match scan, the
  batch filter, the count check as written, and the set check that was
  intended.
- `count_rule.dfy`, module `CountRule`: what the count check of the batch
  lookup means when ids repeat, in the data or in the request.
- `product_store.dfy`, module `ProductService`: the class `ProductStore`.
  Its single field `file` is read by the three readers and overwritten by
  `StoreProducts`. None of the readers has a `modifies` clause, so Dafny
  guarantees that they leave `file` unchanged. The scan loop `ScanForId` is
  proved against `FindProduct`.

Which members follow the code as written, and which follow the intended
behaviour (see "## Findings"):

- As written: `GetProducts`, `StoreProducts`, `GetProduct` and
  `GetProductsDetails` of `ProductStore`, and the functions
  `FetchProductAsWritten`, `FetchDetailsAsWritten` and `CountCheck`.
- As intended: `GetProductCorrected` and `GetProductsDetailsCorrected` of
  `ProductStore`, and the functions `FetchProduct`, `FetchDetails` and
  `SetCheck`.

The comments at main.py:71 and main.py:93 say that a missing product, or
any missing requested id, raises 404. In the code both 404s are raised
inside the `try` and answered as 500 by the generic handler. The batch
lookup also checks counts rather than ids.

One consequence of the count rule: against data whose ids are unique, a
batch request that repeats an id always fails, even when every requested id
is stored (`CountRule.RepeatedRequestFails`).

## Model

| member | source | states |
|---|---|---|
| `ProductApi.FirstIndex` | main.py:67-69 | The scan position is the first product whose id matches. None means no stored product has that id. |
| `ProductApi.FindProduct` | main.py:66-72 | The scan succeeds exactly when some product has the id. It returns the product at the first matching position. Otherwise it raises 404 "Product with id … not found". |
| `ProductApi.FetchProduct` | main.py:59-77 | Fetching one product, as intended. An absent file gives 404 "Products file not found" and a malformed file gives 500 "Unable to decode JSON data", whatever the id. On a well-formed file the result is 404 naming the id exactly when no product matches; otherwise it is the first match in stored order. |
| `ProductApi.ListProducts` | main.py:26-36 | Listing returns the present collection wrapped and unchanged. An absent file gives 404 "Products file not found" and a malformed one 500 "Unable to decode JSON data". |
| `ProductApi.CatchAll` | main.py:78-79 | The generic handler keeps successes. It turns every error raised in the try body, an HTTPException included, into a 500. |
| `ProductApi.FetchProductAsWritten` | main.py:59-79 | It succeeds exactly when the intended fetch does, with the same product. A 404 comes only from an absent file, never from a missing id. A missing id in a well-formed file gives 500 wrapping the 404 "Product with id … not found". |
| `ProductApi.MissingProductAnswers500` | main.py:72-79 | Counterexample: an id missing from a well-formed file is meant to get 404 and gets 500, carrying the 404 in its detail. |
| `ProductApi.FilterByIds` | main.py:91 | Every kept product is stored and has a requested id. No stored product with a requested id is dropped. |
| `ProductApi.FilterAppend` | main.py:91 | The filter distributes over concatenation, so it keeps stored order. |
| `ProductApi.FilterCounts` | main.py:91 | The filter keeps every copy of a product with a requested id and no copy of any other product. |
| `ProductApi.IdsOfFilter` | main.py:91-95 | The ids found by the filter are the requested ids that are stored. |
| `ProductApi.NotFoundIds` | main.py:95 | The reported set holds exactly the requested ids that no found product has. |
| `ProductApi.CountCheck` | main.py:90-98 | As written, the batch succeeds exactly when the number of matched products equals the number of requested ids. It then returns the filtered products. A failure is a 404 reporting `set(ids)` minus the stored ids. |
| `ProductApi.SetCheck` | main.py:93-98 | As intended, the batch succeeds exactly when every requested id is stored. A failure is a 404 whose reported set is non-empty and holds exactly the requested ids that are not stored. |
| `ProductApi.FetchDetails` | main.py:83-103 | The intended batch lookup: the load errors first, then the set rule, with the filtered products on success and a 404 listing the missing ids on failure. |
| `ProductApi.FetchDetailsAsWritten` | main.py:83-105 | Over a well-formed file, success is the count rule, and it returns the filtered products. Every failure there is a 500 wrapping the 404 and its missing-id set. A 404 comes only from an absent file. |
| `ProductApi.MissingIdsAnswer500` | main.py:94-105 | Counterexample: asking for "z" in an empty collection is meant to get 404 {"z"} and gets 500. |
| `ProductApi.LoadErrorsFirst` | main.py:33-36 | All readers give the same error for a failed load, before any lookup: 404 for an absent file, 500 for a malformed one. This holds for both the as-written and the intended versions. The same handlers are at lines 74-77 and 100-103. |
| `CountRule.FilterCard` | main.py:91 | For data with unique ids, the filter keeps one product per requested id that is stored. |
| `CountRule.CountRuleIsSetRule` | main.py:91-96 | With unique stored ids and distinct requested ids, the count rule gives the same result as the set rule. It succeeds exactly when every requested id is stored. |
| `CountRule.RepeatedRequestFails` | main.py:91-96 | With unique stored ids, a request that repeats an id always fails with 404. It reports only the unstored requested ids, so the set is empty when every requested id is stored. |
| `CountRule.RepeatedRequestIdExample` | main.py:94-96 | `["1", "1"]` against one product "1" fails with an empty not-found set. The set rule returns the product. |
| `CountRule.StoredDuplicatesMaskMissingId` | main.py:91-98 | Two stored products with id "1" let `["1", "2"]` succeed, although "2" is not stored. The set rule reports {"2"}. |
| `ProductService.ProductStore.GetProducts` | main.py:26-36 | Listing returns the present collection unchanged and in order, envelope included, or the load error. It changes nothing. |
| `ProductService.ProductStore.StoreProducts` | main.py:40-55 | A successful store replaces the whole file with the given sequence, the empty sequence included, and confirms. A following listing returns that sequence. A failed open leaves the file as it was and answers 500 with the failure's text. |
| `ProductService.ProductStore.GetProduct` | main.py:59-79 | As written: the load errors, then the scan, with the generic handler turning a missing id into 500. The result is exactly `FetchProductAsWritten` of the current file. |
| `ProductService.ProductStore.GetProductCorrected` | main.py:59-79 | The intended fetch: the same load and scan, with the 404 for a missing id reaching the client. The result is exactly `FetchProduct` of the current file. |
| `ProductService.ProductStore.GetProductsDetails` | main.py:83-105 | As written: the count rule, its 404 answered as 500. The result is exactly `FetchDetailsAsWritten` of the current file. |
| `ProductService.ProductStore.GetProductsDetailsCorrected` | main.py:83-105 | The intended batch lookup: the set rule, answered with 404. The result is exactly `FetchDetails` of the current file. |
| `ProductService.ScanForId` | main.py:67-72 | The loop with early return stops at the first product whose id matches. It computes exactly `FindProduct`. |
| `ProductService.StoreThenList` | main.py:46-53 | Storing a sequence and then listing returns that sequence, with no merge with what was there before. |
| `ProductService.StoreThenFetch` | main.py:46-69 | Storing a one-product collection and then fetching by its id returns that product. |

## Findings

| source | as written | input that shows it | evidently intended | confidence | as-written member | corrected member |
|---|---|---|---|---|---|---|
| main.py:72 | The 404 for a missing id is raised inside the `try`. The `except Exception` at lines 78-79 catches it, because HTTPException is an Exception, and re-raises it as 500. | file `[]`, GET `/products/z` | 404 "Product with id z not found" | high; not executed | `ProductApi.FetchProductAsWritten`, `ProductApi.MissingProductAnswers500` | `ProductApi.FetchProduct`, `ProductService.ProductStore.GetProductCorrected` |
| main.py:96 | The 404 for missing ids is caught in the same way by lines 104-105 and answered as 500. | file `[]`, ids `["z"]` | 404 reporting {"z"} | high; not executed | `ProductApi.FetchDetailsAsWritten`, `ProductApi.MissingIdsAnswer500` | `ProductApi.FetchDetails`, `ProductService.ProductStore.GetProductsDetailsCorrected` |
| main.py:94 | It compares the count of matched products with the count of requested ids, not the sets. The comment above says the intent is to fail when a requested id is not found. | stored `[{"id":"1"}]`, ids `["1","1"]` fails, reporting an empty set; stored two products with id "1", ids `["1","2"]` succeeds | fail exactly when some requested id has no stored product | medium; not executed | `ProductApi.CountCheck`, `CountRule.RepeatedRequestIdExample`, `CountRule.StoredDuplicatesMaskMissingId` | `ProductApi.SetCheck` |

## Left out

- HTTP routing, the `Path(...)` parameter and `response_model` output validation are framework plumbing. The model starts from the handler's arguments.
- Pydantic's parsing and validation of request bodies: inputs arrive already in the modelled shapes.
- Real file reads and writes and `json.load`/`json.dump` become the `FileState` value. The codec is assumed to return `id`, `name` and `data` unchanged. The `indent=2` layout of the written file is not modelled.
- JSON numbers in `data` are modelled as integers. Floating point is not modelled.
- A file that is valid JSON but not a list of product records is outside the typed model. So is a stored record without an `"id"` key, which fails with 500 through the generic handler in two readers.
- Read failures other than an absent or malformed file are not modelled. Examples are permission errors and undecodable bytes. Listing does not catch them at all.
- ProductService.ProductStore.StoreProducts: a write failure is modelled only as the file failing to open, which leaves it untouched. A failure during `json.dump` would leave a truncated file. That case is not modelled.
- The text of `str(e)` is modelled as `Reraised(status, detail)`. Its rendering, for instance "404: …", depends on the web framework's version.
- The rendering of the not-found set inside the message at line 96 is not modelled. The model keeps the set itself.
- Concurrent requests and the lack of atomic replacement of the file: the code has no locking, and each operation is modelled as one atomic step.

# WeeTracky repository core, modelled in Dafny

WeeTracky tracks a company's products, materials, suppliers and certifications.
All of them live in one MongoDB document per company: a document with a `name`
and four embedded arrays, `products`, `materials`, `suppliers` and `certs`. Four
repositories (`ProductModel`, `MaterialModel`, `SupplierModel`, `CertModel`)
push to, replace in, pull from and read those arrays. `CompanyModel.Initialize`
inserts the company document. `helpers.GenerateId` builds the ids the handlers
attach to new entities.

This project models that core:

- `wrappers.dfy` holds `Option`, `Result` and `Outcome`.
- `entities.dfy` holds the entity records and the company document. Each array
  field is a `Field`: missing, BSON null (what a Go nil slice is stored as), or an
  array.
- `embedded_array.dfy` holds the array operators the repositories rely on:
  - the first element with an id (`$match` after `$unwind`, then `results[0]`);
  - the positional replacement (`$set` with `<field>.$`);
  - `$pull` by id;
  - `$push`, and `$pull` on a whole field. Both fail on a null field; `$push`
    creates a missing field and `$pull` leaves one alone.
- `store.dfy` holds the collection, a class whose `docs` the repositories
  rewrite in place, plus the read side shared by all repositories and the lemmas
  that connect writes to later reads. The read side has three parts:
  - `FindOne` by name (the first document with the name);
  - the `$match`/`$unwind` aggregation (every document with the name);
  - the `UpdateOne` filter `{name, "<field>.id": id}` (the first document with the
    name that holds the id).
- `products.dfy`, `materials.dfy`, `suppliers.dfy` and `certs.dfy` hold one
  repository class each. Every mutator is specified by a pure transition function
  (`Added`, `Updated`, `Deleted`) whose contract states the new documents and the
  outcome.
- `companies.dfy` holds the initializer and the document the initialize handler
  builds.
- `ids.dfy` holds the identifier generator and the 20–25 character id window the
  handlers check.

The collection is a sequence in natural (insertion) order. The company name every
call reads from the environment, title-cased, is a parameter `company`. A lookup
that fails for a reason other than "no documents" is a parameter `lookupFault`.
The clock and the random draws of `GenerateId` are parameters.

`Initialize` never checks the name: initializing twice leaves two documents with
that name (`Companies.InitializeTwice`).

## Model

| member | source | states |
|---|---|---|
| EmbeddedArray.FindFirst | models/product_model.go:160-175 | the result is present exactly when some element carries the id; it carries the id and no earlier element does |
| EmbeddedArray.FindFirstConcat | models/product_model.go:129-139 | on a concatenation, the first match comes from the left part if that part holds the id, otherwise from the right part |
| EmbeddedArray.FindFirstAfterFresh | models/product_model.go:50-53 | an element appended under an id not held before it is the first match for that id |
| EmbeddedArray.ReplaceFirst | models/product_model.go:69-70 | positional `$set`: same length; unchanged when nothing matches; otherwise the first element with the id is replaced and all others are kept |
| EmbeddedArray.ReplaceFirstFound | models/product_model.go:69-70 | after the replacement, the first match for the id is the new element |
| EmbeddedArray.ReplaceFirstInMiddle | models/product_model.go:69-72 | replacing in the part that holds the id, with no match in the parts before it, makes the new value the first match of the whole stream |
| EmbeddedArray.Pull | models/product_model.go:249-253 | `$pull` by id: no element with the id remains; every element with another id is kept; nothing new appears; never longer |
| EmbeddedArray.PullConcat | models/product_model.go:249-253 | pulling distributes over concatenation, so the kept elements stay in order |
| EmbeddedArray.PullKeepsOthers | models/product_model.go:249-253 | pulling an id that does not occur changes nothing |
| EmbeddedArray.PushField | models/product_model.go:50-53 | `$push` fails exactly on a null field; otherwise the field becomes an array of its old items plus the new one |
| EmbeddedArray.PullField | models/product_model.go:249-256 | `$pull` fails exactly on a null field; otherwise the items become the pulled items, a missing field stays missing and an array stays an array (possibly empty) |
| Store.FirstNamed | models/product_model.go:42-48 | `FindOne` by name: the index of the first document with the name, or none exactly when no document has it |
| Store.FirstNamedAfterChange | models/product_model.go:50-53 | rewriting only the first named document, name kept, leaves it the first named document |
| Store.Part | models/product_model.go:129-135 | what `$match {name}` then `$unwind` draw from one document: nothing from another name or from a null or missing field, otherwise the array's elements in order |
| Store.Unwind | models/product_model.go:129-135 | definition without its own contract: the parts of every document, in collection order; its properties are the `Unwind*` lemmas below |
| Store.UnwindHasId | models/product_model.go:129-139 | the aggregation sees an id exactly when some document with the name holds it in its array |
| Store.UnwindUnnamed | models/product_model.go:129-139 | with no document of that name the aggregation yields nothing, and never fails |
| Store.UnwindAppend | models/product_model.go:129-139 | the aggregation over a concatenation of document lists is the concatenation of the aggregations |
| Store.UnwindSplit | models/product_model.go:129-139 | the aggregation over the documents is the aggregation before a document, then that document's part, then the rest |
| Store.UnwindAfterChange | models/product_model.go:129-139 | rewriting one document changes only that document's part of the aggregation |
| Store.GetAll | models/product_model.go:84-119 | no company document gives an empty list without error; a document without the field gives the field-missing error; otherwise the items of the first named document's field (empty for null) |
| Store.GetOne | models/product_model.go:121-176 | found exactly when some named document holds the id; the result carries the id and is the first such element of the aggregation; otherwise not found |
| Store.FirstHolding | models/product_model.go:69-76 | the document `UpdateOne({name, <field>.id})` addresses is named, holds the id, and no earlier named document holds it; none only when no named document holds it |
| Store.FirstHoldingMatchesGetOne | models/product_model.go:61-82 | `Update` finds its target exactly when `GetOne` would find the id, and no document before the target holds it |
| Store.UnwindAtFirst | models/product_model.go:129-139 | the aggregation starts at the first named document's array, before and after that document is rewritten |
| Store.PushThenGetOne | models/product_model.go:33-59 | after a push under a fresh id, `GetOne` of that id returns the pushed element |
| Store.PushThenGetAll | models/product_model.go:84-119 | after a push, `GetAll` returns the previous items followed by the pushed one |
| Store.ReplaceThenGetOne | models/product_model.go:61-82 | after the positional replacement, `GetOne` of the id returns the new value |
| Store.PullThenGone | models/product_model.go:235-267 | with one company document, after pulling an id, `GetOne` of it is not found |
| Products.WithMaterial | models/product_model.go:186-196 | the products whose materials include the id, in order: every kept product uses it, and every product that uses it is kept |
| Products.WithMaterialConcat | models/product_model.go:214-229 | the filter distributes over concatenation, which the accumulating loop relies on |
| Products.WithMaterialStep | models/product_model.go:216-227 | one more loop iteration extends the filtered prefix by the product exactly when it uses the material |
| Products.WithMaterialNonEmpty | models/product_model.go:214-232 | the filter keeps something exactly when some product uses the material, which decides between the result and not-found |
| Products.Added | models/product_model.go:33-59 | a lookup fault is returned; a missing company document gives success with nothing written; a null array fails; otherwise only the first named document changes, its products gaining the new one at the end |
| Products.Updated | models/product_model.go:61-82 | succeeds exactly when some named document holds the id; a failure is not-found with nothing written; a success replaces the first match in the first document holding it and changes nothing else |
| Products.Deleted | models/product_model.go:235-267 | fails as `GetOne` does, with nothing written; never reports "something went wrong"; otherwise pulls the id from the first named document only (failing on null), leaving an array an array even when it empties |
| Products.ProductModel.Add | models/product_model.go:33-59 | the outcome and new collection are those `Products.Added` gives |
| Products.ProductModel.Update | models/product_model.go:61-82 | the outcome and new collection are those `Products.Updated` gives |
| Products.ProductModel.GetByMaterial | models/product_model.go:178-233 | succeeds exactly when some named document holds a product using the material; the result is the aggregation filtered by `WithMaterial`; otherwise not found |
| Products.ProductModel.DeleteOne | models/product_model.go:235-267 | the outcome and new collection are those `Products.Deleted` gives |
| Products.AddThenGetOne | models/product_model.go:33-59 | a product added under a fresh id is what `GetOne` returns for that id |
| Products.UpdateThenGetOne | models/product_model.go:61-82 | after a successful update, `GetOne` returns the new product |
| Products.DeleteThenGetOne | models/product_model.go:235-267 | with one company document, a deleted id is no longer found |
| Products.DeleteMissesSecondCompany | models/product_model.go:243-263 | with two documents of one name, deleting a product held only by the second reports success, removes nothing, and `GetOne` still finds it |
| Materials.WithSupplier | models/material_model.go:183-197 | the materials whose supplier has the id, in order: every kept material is from it, and every material from it is kept |
| Materials.WithSupplierConcat | models/material_model.go:211-226 | the filter distributes over concatenation |
| Materials.WithSupplierStep | models/material_model.go:213-224 | one more loop iteration extends the filtered prefix by the material exactly when it comes from the supplier |
| Materials.WithSupplierNonEmpty | models/material_model.go:211-229 | the filter keeps something exactly when some material comes from the supplier |
| Materials.Added | models/material_model.go:32-59 | as `Products.Added`, on the materials array |
| Materials.Updated | models/material_model.go:61-82 | as `Products.Updated`, on the materials array |
| Materials.Deleted | models/material_model.go:232-264 | as `Products.Deleted`, on the materials array |
| Materials.MaterialModel.Add | models/material_model.go:32-59 | the outcome and new collection are those `Materials.Added` gives |
| Materials.MaterialModel.Update | models/material_model.go:61-82 | the outcome and new collection are those `Materials.Updated` gives |
| Materials.MaterialModel.GetBySupplier | models/material_model.go:175-230 | succeeds exactly when some named document holds a material from the supplier; the result is the aggregation filtered by `WithSupplier`; otherwise not found |
| Materials.MaterialModel.DeleteOne | models/material_model.go:232-264 | the outcome and new collection are those `Materials.Deleted` gives |
| Materials.AddThenGetOne | models/material_model.go:32-59 | a material added under a fresh id is what `GetOne` returns |
| Materials.UpdateThenGetOne | models/material_model.go:61-82 | after a successful update, `GetOne` returns the new material |
| Materials.DeleteThenGetOne | models/material_model.go:232-264 | with one company document, a deleted id is no longer found |
| Materials.DeleteMissesSecondCompany | models/material_model.go:240-260 | with two documents of one name, a delete that reports success can leave the material visible |
| Suppliers.Added | models/supplier_model.go:29-58 | as `Products.Added`, on the suppliers array |
| Suppliers.Updated | models/supplier_model.go:60-81 | as `Products.Updated`, on the suppliers array; the supplier copies embedded in materials are not touched |
| Suppliers.Deleted | models/supplier_model.go:174-206 | as `Products.Deleted`, on the suppliers array |
| Suppliers.SupplierModel.Add | models/supplier_model.go:29-58 | the outcome and new collection are those `Suppliers.Added` gives |
| Suppliers.SupplierModel.Update | models/supplier_model.go:60-81 | the outcome and new collection are those `Suppliers.Updated` gives |
| Suppliers.SupplierModel.DeleteOne | models/supplier_model.go:174-206 | the outcome and new collection are those `Suppliers.Deleted` gives |
| Suppliers.AddThenGetOne | models/supplier_model.go:29-58 | a supplier added under a fresh id is what `GetOne` returns |
| Suppliers.UpdateThenGetOne | models/supplier_model.go:60-81 | after a successful update, `GetOne` returns the new supplier |
| Suppliers.DeleteThenGetOne | models/supplier_model.go:174-206 | with one company document, a deleted id is no longer found |
| Suppliers.DeleteMissesSecondCompany | models/supplier_model.go:182-202 | with two documents of one name, a delete that reports success can leave the supplier visible |
| Certs.Added | models/cert_model.go:29-55 | every lookup failure is swallowed as success with nothing written; otherwise as `Products.Added`, on the certs array |
| Certs.CertModel.Add | models/cert_model.go:29-55 | the outcome and new collection are those `Certs.Added` gives |
| Certs.AddThenGetAll | models/cert_model.go:29-92 | a successful add shows up in `GetAll` as the previous certs followed by the new one |
| Certs.AddedAllStep | models/cert_model.go:29-55 | one more add on an initialized company keeps the document and its array, and `GetAll` lists the earlier certs plus the new one |
| Certs.AddAllThenGetAll | models/cert_model.go:29-92 | after a run of adds on an initialized company, `GetAll` returns the earlier certs followed by the added ones in order |
| Companies.CompanyModel.Initialize | models/company_model.go:24-37 | the document is appended to the collection without any name check, and success is reported |
| Companies.NewCompany | handlers/company_handlers.go:26-32 | the document the handler inserts carries the given name and four arrays, all empty |
| Companies.InitializeTwice | models/company_model.go:24-37 | two initializations add two documents with the name, break the one-document-per-company invariant, and leave earlier documents alone |
| Companies.InitializeThenEmpty | handlers/company_handlers.go:22-32 | right after initializing a new company, all four repositories list nothing, without error |
| Ids.Decimal | helpers/generate_id.go:16 | `%d` of a non-negative number: at least one digit, all digits, no leading zero |
| Ids.GenerateId | helpers/generate_id.go:10-25 | the id is the prefix, the decimal timestamp, the three-digit number and the three drawn letters, in that order |
| Ids.IdFor | helpers/generate_id.go:13-23 | the id format: length prefix + timestamp digits + 6, starting with the prefix and ending in three letters A–Z |
| Ids.ValidIdLen | handlers/products_handlers.go:113 | definition without its own contract: an id passes the handlers' gate exactly when its length is between 20 and 25 |
| Ids.DecimalRoundTrip | helpers/generate_id.go:15-16 | the timestamp's digits read back as the timestamp, and there are `NumDigits` of them |
| Ids.Pad3RoundTrip | helpers/generate_id.go:18-19 | `%03d` gives exactly three digits that read back as the number drawn |
| Ids.LettersDecode | helpers/generate_id.go:11 | each drawn index gives one upper-case letter, which decodes back to the index |
| Ids.NumDigitsExact | helpers/generate_id.go:15-16 | a number in `[10^(k-1), 10^k)` has exactly `k` digits |
| Ids.IdDecodes | helpers/generate_id.go:13-23 | the id splits back into prefix, timestamp, number and letters, each decoding to the value drawn; its length is prefix + digits + 6 |
| Ids.ThirteenDigitIdsAccepted | handlers/products_handlers.go:113 | with a 13-digit millisecond timestamp, "P-", "M-" and "S-" ids have 21 characters and "CERT-" ids 24, all inside the 20–25 window |

## Left out

- HTTP handlers, routing, JSON request and response bodies, status codes: outside the repository core. Only the 20–25 id-length window is kept, as `Ids.ValidIdLen`.
- The database connection (`db/db.go`), the 10-second timeouts and driver or network failures: not modelled. The one exception is the company lookup failing for a reason other than "no documents", which is the `lookupFault` parameter of `Add`.
- `log.Fatal` after a cursor error, the cursor's "no documents" branch and JSON re-encoding failures: these paths need a driver failure, which is not modelled.
- Reading the company name from the environment and title-casing it (`cases.Title`): the name is a parameter, already title-cased.
- The clock and `math/rand` in `GenerateId`: parameters. Negative timestamps are not modelled (`timestamp: nat`).
- Ids.ValidIdLen: counts characters where Go's `len` counts bytes. This is the same for the ASCII ids the generator produces.
- The documents' `_id` ObjectIDs and BSON encoding: the collection is a sequence in insertion order, which the model assumes is the order `FindOne` and the aggregation use.
- Concurrent calls: each operation is one atomic step on the collection. So the window in `DeleteOne` between `GetOne` and the pull is not modelled, and the "something went wrong" outcome is proved unreachable (`Products.Deleted`).
- Array fields holding a non-array, non-null BSON value: not modelled; `Field` has only missing, null and array.
- A null `materials` array inside a product is treated as empty.
- `Price` is kept as the 64-bit pattern of the float and never computed on.
- Products.GetAll, Products.GetOne, Materials.GetAll, Materials.GetOne, Suppliers.GetAll, Suppliers.GetOne, Certs.GetAll: thin wrappers without their own contract. Their behaviour is stated once, generically, by `Store.GetAll` and `Store.GetOne`.

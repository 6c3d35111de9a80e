# Shopping-cart backend: a Dafny model

This project models the logic of a small e-commerce REST backend. The part modelled is the
per-user shopping cart. A cart is an ordered list of line items `{product, quantity}`, and four
handlers work on it: get-or-create, add products, update a quantity, and remove a product. The
model also covers the bearer-token middleware in front of those routes and the field constraints
of the product and user schemas. Users have the roles `"comprador"` (buyer) and `"vendedor"`
(seller). Only buyers may read a cart or change it, except through the remove route.

Modules, one per source concern:

- `Wrappers` (`wrappers.dfy`): `Option` and `Result`.
- `Text` (`text.dfy`): JavaScript's `trim`, `toLowerCase` (ASCII letters only), `startsWith` and
  `split` with a one-character separator.
- `AuthMiddleware` (`auth_middleware.dfy`): the header check, the token extraction and the
  verify-or-401 decision. The token library's `verify` is a parameter of type
  `string -> Option<P>`. `None` stands for any verification failure, including an expired token.
- `ProductModel` and `UserModel` (`product_model.dfy`, `user_model.dfy`): each schema is a
  `Validate` function. It returns either the stored record (with the setters applied) or the set
  of field errors Mongoose reports.
- `CartLines` (`cart_lines.dfy`): pure functions on line items. `FindIndex` is `findIndex`.
  `MergeOne` and `Merge` are the add-to-cart loop. `Overwrite` is the quantity update. `Without`
  is the removal `filter`. `AllFound` is the existence check. The lemmas about them are here too.
- `CartController` (`cart_controller.dfy`): the handlers, written imperatively.
  - `CartStore` holds the carts collection as a map from user id to lines.
  - `FindOne` returns a fresh in-memory `CartDocument`. The handlers change that document and
    `Save` writes it back.
  - The merge loop is a `while` loop over the document (`CartDocument.AddProducts`). Its proof
    is against `Merge`.
  - Each handler returns a `Reply`: a status code, plus the cart's lines on success.
  - The ghost predicate `CartStore.Valid` says every cart has at most one line per product. Each
    handler keeps it, for product ids compared as exact strings (see "Identifier casting" under
    "## Left out").

Behaviour as written, modelled on purpose:

- `createOrGetCart` and `addProductToCart` declare `cart` with `const` and later assign to it.
  JavaScript evaluates the right-hand side first, so `Cart.create` runs and the empty cart is
  stored. Only after that does the assignment throw a `TypeError`, which the `catch` turns into a
  500. So a buyer without a cart gets 500 on the first call. The empty cart stays in the
  collection, and the next call succeeds. In `addProductToCart` the merge never runs on that
  first call. `CartController.FirstVisitScenario` walks through this sequence.
- `Product.find({_id: {$in: ids}})` returns each matching product once. A request that names the
  same existing product twice therefore finds fewer products than ids, and gets 404
  (`CartLines.AllFoundIff`).
- `removeProductFromCart` has no role check. Removing a product the cart does not hold still
  saves the cart and answers 200.

Where the code departs from its own documentation or evident intent, the model follows the code:

- The API documentation of get-cart (`src/controllers/cartController.js:55-56`) promises a 200
  with the cart "created or obtained". On the creating path the code answers 500, as above.
- The schema spells the e-mail option `unsique` (`src/models/User.js:13`). Mongoose does not
  know that option, so no uniqueness of addresses is declared, and `UserModel.Validate` looks
  at one record only.
- Neither add nor update checks the quantity (`src/controllers/cartController.js:150` and
  `:214`). The controller accepts zero and negative quantities, and the model stores them; a
  merge can bring a line to zero or below without removing it. Whether the cart schema would
  refuse such a line on save is not known here (see "Persistence" under "## Left out"). The
  model's quantities are unconstrained integers, and `CartLines.MergeQuantity` and
  `CartLines.OverwriteSetsQuantity` hold for every sign.
- The token library refuses an empty token. So a header of exactly "Bearer ", or with a second
  space straight after it, always gets the invalid-token 401 (`AuthMiddleware.AuthenticateEmptyToken`).

## Model

| member | source | states |
|---|---|---|
| `CartController.CartStore.CreateOrGetCart` | src/controllers/cartController.js:66-84 | a non-buyer gets 403 and the store is unchanged; a buyer with a cart gets 200 and that cart, unchanged; a buyer without a cart gets 500 and an empty cart is stored; the one-line-per-product invariant is kept |
| `CartController.CartStore.AddProductToCart` | src/controllers/cartController.js:120-163 | a non-buyer gets 403; a body without `products` gets 500; a failed existence check gets 404; none of these changes the store; a buyer without a cart gets 500 and an empty cart stored; otherwise the stored and returned cart is the merge of the old lines with the request, with status 200; the invariant is kept |
| `CartController.CartDocument.AddProducts` | src/controllers/cartController.js:144-154 | the in-place `forEach` loop leaves the document's lines equal to `Merge` of the old lines and the request |
| `CartController.CartStore.UpdateProductQuantity` | src/controllers/cartController.js:195-223 | a non-buyer gets 403; no cart gets 404; no line for the product gets 404; none of these changes the store; otherwise the stored and returned cart is the old one with that line's quantity overwritten, with status 200; the invariant is kept |
| `CartController.CartDocument.SetQuantityAt` | src/controllers/cartController.js:214 | exactly the line at the index gets the new quantity and keeps its product; every other line is unchanged |
| `CartController.CartStore.RemoveProductFromCart` | src/controllers/cartController.js:253-272 | for any role: no cart gets 404 and no change; otherwise the cart becomes the old lines without the product's lines, with status 200; removing an absent product answers 200 with the cart unchanged |
| `CartController.CartStore.FindOne` | src/controllers/cartController.js:137 | returns null exactly when the user has no cart, otherwise a fresh document holding the stored lines |
| `CartController.CartStore.Create` | src/controllers/cartController.js:140 | the user's cart becomes empty in the store, and a fresh empty document is returned |
| `CartController.CartStore.Save` | src/controllers/cartController.js:156 | the document's lines are written back under its user, and no other cart changes |
| `CartLines.FindIndex` | src/controllers/cartController.js:145-147 | -1 exactly when no line has the product; otherwise the index of a line with that product, with no such line before it |
| `CartLines.MergeOne` | src/controllers/cartController.js:145-153 | one pass of the loop body: the cart grows by one line exactly when the item's product had no line, and every existing line keeps its product |
| `CartLines.Merge` | src/controllers/cartController.js:144-154 | the whole `forEach`: the cart never shrinks and grows by at most one line per requested item |
| `CartLines.Overwrite` | src/controllers/cartController.js:209-214 | the update's write: the length and every line's product are kept; when the product has a line, the first such line gets exactly the new quantity; every other line is unchanged, and all lines are unchanged when the product has none |
| `CartLines.Without` | src/controllers/cartController.js:263-265 | the removal `filter`: never longer than the cart, and no remaining line names the product |
| `CartLines.FoundCount` | src/controllers/cartController.js:129-132 | the number of products `$in` returns is at most the number of ids sent |
| `CartLines.AllFoundIff` | src/controllers/cartController.js:129-134 | the found-count test passes iff every requested product is in the catalog AND no product is requested twice |
| `CartLines.MergeQuantity` | src/controllers/cartController.js:144-154 | after the merge, each product's total quantity is its old total plus the total requested: merge, not overwrite |
| `CartLines.MergeOneQuantity` | src/controllers/cartController.js:149-153 | one loop step adds the requested quantity to that product's total and leaves every other product's total unchanged |
| `CartLines.MergeUnique` | src/controllers/cartController.js:144-154 | a cart with at most one line per product keeps that property through the merge |
| `CartLines.MergeKeepsLines` | src/controllers/cartController.js:144-154 | the merge only appends; every old line keeps its position and product; a line whose product is not requested also keeps its quantity |
| `CartLines.MergeExistingLine` | src/controllers/cartController.js:149-150 | with one line per product, an existing line ends with its old quantity plus everything requested for it |
| `CartLines.MergeAppendsNewItems` | src/controllers/cartController.js:151-153 | for a request naming each product once, the added lines are the requested items whose product had no line, at the end, in request order, with their quantities |
| `CartLines.MergeAfterCheck` | src/controllers/cartController.js:129-154 | after a passed existence check, the merged cart still has one line per product; old lines keep their place with the added quantity; new products follow in request order |
| `CartLines.MergeProducts` | src/controllers/cartController.js:144-154 | the products with a line after the merge are exactly the old ones plus the requested ones |
| `CartLines.OverwriteSetsQuantity` | src/controllers/cartController.js:209-216 | with one line per product, the product's line stays at its index with its product and gets exactly the given quantity, whatever it was (absolute set, not a delta); its total becomes that quantity; all other lines and totals are unchanged; the length and one-line-per-product are kept |
| `CartLines.WithoutRemoves` | src/controllers/cartController.js:263-265 | after the filter no line names the product; every other product keeps its total; every remaining line is an old line |
| `CartLines.WithoutAppend` | src/controllers/cartController.js:263-265 | filtering a concatenation filters each part, so the kept lines keep their relative order |
| `CartLines.WithoutAbsent` | src/controllers/cartController.js:263-265 | removing a product that has no line returns the identical line sequence |
| `CartLines.WithoutIdempotent` | src/controllers/cartController.js:263-265 | removing twice equals removing once |
| `CartLines.WithoutUniqueAt` | src/controllers/cartController.js:263-265 | with one line per product, removal cuts out exactly the product's line and keeps the lines before and after it |
| `CartLines.WithoutOnlyAt` | src/controllers/cartController.js:263-265 | when only the line at index i names the product, the filter returns the lines before i followed by the lines after i |
| `CartLines.WithoutUnique` | src/controllers/cartController.js:263-265 | removal keeps at most one line per product |
| `CartLines.ProductSetSize` | src/controllers/cartController.js:130-132 | the distinct products of a request are at most as many as its items, and exactly as many iff no product repeats |
| `CartLines.QuantityOfUnique` | src/controllers/cartController.js:145-150 | with one line per product, a product's total is the quantity of its single line |
| `AuthMiddleware.Authenticate` | src/middleware/authMiddleware.js:3-21 | the outcome is the 401 for a missing or malformed header iff the header is absent or does not start with "Bearer " (an empty header included) |
| `AuthMiddleware.BearerToken` | src/middleware/authMiddleware.js:10 | the second piece of the split is the text after "Bearer " up to the next space or the end, with no space in it |
| `AuthMiddleware.AuthenticateNextIff` | src/middleware/authMiddleware.js:10-17 | the request goes on to the next handler with user p iff the header carries a token that the verifier decodes to p; the user is exactly the decoded payload |
| `AuthMiddleware.AuthenticateInvalidToken` | src/middleware/authMiddleware.js:12-20 | a well-formed header whose token fails verification gets the invalid-token 401, never `next` |
| `AuthMiddleware.TokenUnique` | src/middleware/authMiddleware.js:10 | a header has at most one token |
| `AuthMiddleware.AuthenticateEmptyToken` | src/middleware/authMiddleware.js:10-20 | a header that is "Bearer " followed by nothing or by a space carries the empty token; when the verifier refuses the empty token, as the token library does, the answer is the invalid-token 401 |
| `Text.StartsWith` | src/middleware/authMiddleware.js:6 | `startsWith`: the string is the prefix followed by the rest of the string |
| `Text.Split` | src/middleware/authMiddleware.js:10 | `split(' ')` gives at least one piece, and no piece contains the separator |
| `Text.JoinSplit` | src/middleware/authMiddleware.js:10 | joining the pieces of a split with the separator gives back the original string |
| `Text.SplitAfterWord` | src/middleware/authMiddleware.js:10 | a separator-free word followed by the separator is split off as the first piece |
| `Text.SplitFirst` | src/middleware/authMiddleware.js:10 | the first piece of a split is the longest separator-free prefix |
| `Text.LeadingSpace` | src/models/Product.js:7 | the count of leading characters `trim` removes: all of them white space, and the next character, if any, is not |
| `Text.TrailingSpace` | src/models/Product.js:7 | the count of trailing characters `trim` removes: all of them white space, and the character before them, if any, is not |
| `Text.Trim` | src/models/Product.js:7 | the trimmed string has no white space at either end, and it is what is left of the input after white space is cut from both ends |
| `Text.TrimIdempotent` | src/models/Product.js:7 | trimming twice equals trimming once |
| `Text.TrimEmptyIff` | src/models/Product.js:4-8 | a string trims to empty iff it is all white space |
| `Text.ToLower` | src/models/User.js:14 | lower-casing keeps the length and lowers each character |
| `Text.ToLowerIdempotent` | src/models/User.js:14 | a lower-cased string has no upper-case letter, and lower-casing it again changes nothing |
| `Text.Utf16Length` | src/models/User.js:20 | a JavaScript string's `length`: between the number of characters and twice that, and equal to it when no character lies above U+FFFF |
| `ProductModel.Errors` | src/models/Product.js:3-31 | the schema reports no error exactly when every constraint holds after the `trim` setter, and at most one error per field |
| `ProductModel.Validate` | src/models/Product.js:3-31 | a product is stored iff the name is not blank once trimmed, the description and image are non-empty, the price and stock are present and at least 0, and the seller is present; the stored name is the trimmed name and the other fields are as given; a refusal carries at least one error |
| `ProductModel.StoredProductConstraints` | src/models/Product.js:4-26 | a stored product has a non-empty name with no white space at either end, a non-empty description and image, and a price and stock of at least 0 |
| `ProductModel.PriceErrors` | src/models/Product.js:13-17 | a negative price is reported as a `min` violation and a missing price as `required`, never both |
| `ProductModel.BlankNameRequired` | src/models/Product.js:4-8 | a name made only of white space is reported as missing |
| `UserModel.Errors` | src/models/User.js:5-26 | the schema reports no error exactly when every constraint holds after the setters and the default, and at most one error per field |
| `UserModel.Validate` | src/models/User.js:5-26 | a user is stored iff the name is not blank once trimmed, the e-mail matches `.+@.+\..+`, the password's JavaScript `length` (UTF-16 code units) is at least 6, and the role is absent or one of the two enum values; the stored name is trimmed, the e-mail lower-cased, and an absent role becomes "comprador" |
| `UserModel.StoredRole` | src/models/User.js:22-26 | a stored user's role is "comprador" or "vendedor", and "comprador" when none was given |
| `UserModel.ShortPassword` | src/models/User.js:17-21 | a password of fewer than 6 UTF-16 code units is refused: an empty one as missing, a non-empty one as too short |
| `UserModel.SurrogatePairPassword` | src/models/User.js:17-21 | a password of three characters above U+FFFF has `length` 6 and is accepted, with a valid name and e-mail |
| `UserModel.MatchesEmailPattern` | src/models/User.js:15 | the unanchored pattern `.+@.+\..+`: a matching string contains "@" and "." and has at least 5 characters |
| `UserModel.StoredEmail` | src/models/User.js:10-16 | a stored e-mail is lower case and matches the pattern |
| `UserModel.LowercaseKeepsMatch` | src/models/User.js:14-15 | lower-casing never changes whether the pattern matches |
| `UserModel.EmailPatternShape` | src/models/User.js:15 | a matching address has at least 5 characters, with an "@" that has a character before it, then later a "." that has a character after it |
| `UserModel.EmailPatternExamples` | src/models/User.js:15 | "ana@correo.com" and "a@b.c" match; "ana@correo" and "@b.c" do not |

## Left out

- Persistence. `findOne`, `create` and `save` are reads and writes of a map from user id to
  lines. `src/models/Cart.js` is not part of this model, so the storage has no uniqueness index
  on the owner, and `Create` overwrites the entry. `Save` always succeeds: any validation the
  cart schema applies on save (a minimum quantity or a required field, say) is not modelled. If
  that schema refused a line, the source would answer 500 and store nothing where the model
  answers 200 and stores the line.
- `.populate('products.product')`: the join that expands product details in the get-cart reply
  is not modelled. The reply carries the bare lines.
- Concurrency. Each request runs alone, so read-modify-write races between requests for the
  same cart are not modelled.
- Identifier casting. Product ids are compared as exact strings everywhere. In the source,
  `Product.find({_id: {$in: ids}})` (`src/controllers/cartController.js:130`) casts each id to
  an ObjectId, and that cast accepts hexadecimal digits in either case. `findIndex` (`:146`)
  compares the stored id's lower-case text with the request's text exactly. So, for a cart
  holding `60d0fe4f5311236168a109cb`, a request for `60D0FE4F5311236168A109CB` passes the
  found-count check and pushes a second line for the same product. A malformed id makes the
  cast throw, which would be a 500. Neither is modelled.
- CartLines.MergeUnique: holds of exact-string ids only. Under the source's case-insensitive
  cast, a merge can add a second line for a product, as above.
- CartLines.MergeAfterCheck: the same restriction. Its one-line-per-product conclusion, and
  `CartController.CartStore.Valid` kept by `AddProductToCart`, hold of exact-string ids only.
- CartLines.AllFoundIff: "in the catalog" is exact string membership. The source also finds an
  id written with upper-case hexadecimal digits.
- Missing body fields. A missing `productId` in update or remove, or a missing `quantity` in
  update, is not modelled. Ids are always strings and quantities always integers. A missing
  `products` array in add-to-cart is modelled (500).
- Numbers. Quantities, prices and stock are unbounded integers. Floating point is not modelled,
  and neither is string concatenation by `+=` on non-numeric quantities.
- Response message texts, the error objects and `console.log`.
- The JWT library's cryptography and expiry, and `process.env.JWT_SECRET`. These sit inside the
  `verify` parameter, which is otherwise unconstrained. The library's refusal of an empty token
  appears only as the precondition of `AuthMiddleware.AuthenticateEmptyToken`. `next()` is taken
  not to throw, as it does not under Express.
- Text.ToLower: lowers only the ASCII letters A–Z. JavaScript's `toLowerCase` also lowers
  non-ASCII letters. This cannot change the e-mail pattern result, which depends only on
  "@", "." and line terminators.
- Mongoose type casting of field values (for example the string "5" to the number 5), and the
  `timestamps` fields.
- Password hashing, login and token issuing (`src/controllers/userController.js`), and the
  product CRUD handlers (`src/controllers/productController.js`). Those are library calls and
  pass-throughs. The catalog enters the cart model only as the set of existing product ids.
- Server bootstrap, route wiring and API documentation (`index.js`, `src/routes/*.js`,
  `src/config/swaggerConfig.js`). These are configuration with no behaviour to prove.

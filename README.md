# Product catalog: form validation, delete/undo card, list filters, products route

A Dafny model of the sequential logic under a small Next.js product-catalog
app. Four source files carry it, and each has its own module:

- `Products` (products.dfy) holds the shared data. A product is an `id` plus
  the form fields: title, description, image, price and a rating made of rate
  and count. A numeric field is either the empty string `''` (`Blank`) or a
  number. JavaScript falsiness of such a field means `Blank` or 0.
- `Forms` (form.dfy) covers app/Components/ProductForm.jsx.
  - `Validate` is `validateForm`'s error map, as a pure function. Every rule is
    checked on its own. Rate and count errors are merged into one nested
    `rating` object.
  - `Edit` and `Cleared` are `handleChange`'s two state updates.
  - The class `ProductForm` holds the component state (`form`, `errors`,
    `preview`, `loading`). Its handlers are specified by those functions.
  - Two quirks are modelled as written. The title error is stored under key
    `name`, but editing the title clears key `title`, so that error stays.
    The falsy checks come first, so a rate of 0 or a count of 0 is rejected.
- `Cards` (card.dfy) covers app/Components/ProductCard.jsx.
  - `Truncate` is the three-word title. `Split` and `Join` model `split(' ')`
    and `join(' ')`, and are proved inverse to each other.
  - The class `ProductCard` is the dialog/snackbar/shadow state machine. Each
    handler returns the calls it makes to `onDelete` and `onRestore`, in order.
- `Home` (home.dfy) covers app/page.js.
  - A generic `Filter` models `Array.prototype.filter`.
  - `Remove` is the delete filter. `Search` is the case-insensitive title
    search, built on `Includes`. `NoResults` is the empty-result message
    condition.
  - The class `HomePage` holds `products`, `loading` and `searchQuery`.
- `Store` (store.dfy) covers app/api/products/route.js. The class
  `ProductStore` is the module-level array: `GET` returns it and `POST`
  appends `{id: now, ...body}`.

Inputs the model takes as parameters:
- the clock reading `Date.now()` (`now` in `Post`);
- the result of `parseFloat`/`parseInt` (`parsed`, with `None` for NaN). The
  model applies the fallback to `''` itself;
- the outcome of the initial `fetch` (`FetchSettled`);
- the reason the snackbar closes (`UserClose`, or `Timeout` for the 5000 ms
  auto-hide).

Behaviour worth knowing, all modelled as the code has it:
- The title error uses key `name`, not `title`.
- Rate 0 and count 0 are rejected, although the rate message says "0-5".
- A POST body's `id` replaces the timestamp, because the spread comes after
  `id`.
- Ids are not guaranteed unique. Two POSTs in the same millisecond collide
  (`SameInstantSameId`), and `IdsDistinctAfterAppend` states exactly when
  uniqueness survives.
- After an invalid submit, `loading` stays true
  (app/Components/ProductForm.jsx:106-110). The Save button is
  `disabled={loading}` (app/Components/ProductForm.jsx:470), and no handler
  resets `loading`: `HandleSubmit` ends with loading exactly on the invalid
  path, and `HandleChange` keeps it. So no later edit can enable the button
  again.
- Undo does not re-create anything itself. It only hands the shadow copy to
  `onRestore`.

## Model

| member | source | states |
|---|---|---|
| Forms.Validate | app/Components/ProductForm.jsx:48-63 | each top-level key is present iff its rule is violated: `name` iff the title is empty (never `title`); `description` and `image` iff empty; `price` iff the price is not a positive number; `rating` iff the rate is not in (0, 5] or the count is not positive. Each entry carries the source's message, and `rating` holds the merged object of both rating rules. |
| Forms.RatingFieldsMerged | app/Components/ProductForm.jsx:56-62 | the merged `rating` object holds `rate` iff the rate is not in (0, 5] and `count` iff the count is not positive, each with its message, so neither rule overwrites the other |
| Forms.ValidIffNoErrors | app/Components/ProductForm.jsx:65 | the error map is empty iff the form is acceptable: non-empty texts, positive price, rate in (0, 5], positive count |
| Forms.RatingEntryOfRating | app/Components/ProductForm.jsx:56-62 | the `rating` entry depends only on the rating subfields |
| Forms.RevalidateAfterEdit | app/Components/ProductForm.jsx:48-63 | after editing one field, re-validation leaves every entry except that field's rule key unchanged in presence and value |
| Forms.AllRulesReported | app/Components/ProductForm.jsx:48-63 | empty texts with price -5, rate 6 and count -1 give all five top-level keys, and `rating` holds both `rate` and `count` |
| Forms.ZeroRateAndCountRejected | app/Components/ProductForm.jsx:56-62 | rate 0 and count 0 each produce a `rating` error entry |
| Forms.OrBlank | app/Components/ProductForm.jsx:76 | `parse(value)` followed by the fallback to `''` is blank iff the parse is NaN or 0, otherwise it is the parsed number |
| Forms.Edit | app/Components/ProductForm.jsx:72-93 | the edited field (or `rating` subfield) takes the new value and every other field keeps its old value |
| Forms.Cleared | app/Components/ProductForm.jsx:80-101 | the key set is unchanged. A truthy entry under the field's lookup key is set to `''` (inside `rating` for rate and count). Every other entry is unchanged. |
| Forms.TitleEditKeepsNameError | app/Components/ProductForm.jsx:99-101 | editing the title never clears the `name` error that validation reported |
| Forms.ProductForm.constructor | app/Components/ProductForm.jsx:23-36 | the form starts with all fields empty, no errors, no preview and loading off |
| Forms.ProductForm.ValidateForm | app/Components/ProductForm.jsx:48-66 | stores `Validate(form)` as the errors and returns true iff that map is empty, that is, iff the form is acceptable |
| Forms.ProductForm.HandleChange | app/Components/ProductForm.jsx:68-102 | the new form is `Edit` of the old one and the new errors are `Cleared` of the old ones. The preview changes only for the image input, and loading is left as it was. |
| Forms.ProductForm.HandleSubmit | app/Components/ProductForm.jsx:104-111 | the errors are re-validated; the form goes to onSubmit iff it is acceptable; loading ends true exactly on the invalid path |
| Cards.Split | app/Components/ProductCard.jsx:69 | `split(' ')` gives at least one piece, and no piece contains a space |
| Cards.Join | app/Components/ProductCard.jsx:69 | `join(' ')` puts the words in order with one space between neighbours: the first word is a prefix of the result, and its length is the words' total length plus one per gap. JoinSplit and SplitJoin make it the inverse of `Split`. |
| Cards.JoinSplit | app/Components/ProductCard.jsx:69 | joining the split pieces with `' '` gives back the string |
| Cards.SplitJoin | app/Components/ProductCard.jsx:69 | splitting a join of space-free words gives back the words |
| Cards.JoinAt | app/Components/ProductCard.jsx:69 | the join of all words is the join of the first k words, a space, and the join of the rest |
| Cards.Truncate | app/Components/ProductCard.jsx:69 | the first three words joined by `' '`, plus `...` iff there are more than three words: the title is shown unchanged iff it has at most three words. TruncateLong states what the changed title is. |
| Cards.TruncateLong | app/Components/ProductCard.jsx:69 | a longer title becomes a prefix of itself made of exactly its first three words, followed by `...` |
| Cards.ProductCard.constructor | app/Components/ProductCard.jsx:47-49 | the dialog and snackbar start closed, with no shadow |
| Cards.ProductCard.HandleDeleteClick | app/Components/ProductCard.jsx:51-53 | only opens the dialog; no call is made |
| Cards.ProductCard.HandleConfirmDelete | app/Components/ProductCard.jsx:55-60 | closes the dialog, sets the shadow to this product, calls onDelete(product.id) exactly once and opens the snackbar |
| Cards.ProductCard.CloseDialog | app/Components/ProductCard.jsx:161-169 | Cancel and the dialog's onClose close the dialog and issue no delete |
| Cards.ProductCard.HandleUndo | app/Components/ProductCard.jsx:62-67 | with no shadow nothing happens; with a shadow, onRestore(shadow) is called once and the snackbar closes; the shadow is kept. Pressed in the open snackbar, where the undo button lives, it restores exactly this card's product. |
| Cards.ProductCard.CloseSnackbar | app/Components/ProductCard.jsx:179-187 | a user close or the auto-hide timeout closes the snackbar, which holds the undo button, and the shadow is kept |
| Home.Filter | app/page.js:37 | the result's elements are exactly the input's elements that pass; each passing element keeps its multiplicity; the result is no longer than the input |
| Home.FilterIsSubsequence | app/page.js:37 | a filter keeps the original order |
| Home.FilterAll | app/page.js:37 | when every element passes, filtering returns the input |
| Home.FilterSameTest | app/page.js:40-42 | two tests that agree on every element give the same filter |
| Home.FilterFilter | app/page.js:37-42 | two filters in sequence equal one filter on their conjunction, in either order |
| Home.Lower | app/page.js:41 | ASCII lower-casing keeps the length and lower-cases each character |
| Home.LowerIdempotent | app/page.js:41 | lower-casing twice is lower-casing once |
| Home.Includes | app/page.js:41 | `includes` is true iff the query equals some window of the string |
| Home.Matches | app/page.js:41 | a product matches iff the lower-cased query occurs at some position of its lower-cased title; the empty query matches every product |
| Home.Search | app/page.js:40-42 | a product is in the result iff it is in the list and its lower-cased title includes the lower-cased query; each matching product keeps its multiplicity |
| Home.SearchKeepsOrder | app/page.js:40-42 | the search result is an order-preserving subsequence of the products |
| Home.SearchEmptyQuery | app/page.js:40-42 | an empty query returns every product |
| Home.SearchIgnoresQueryCase | app/page.js:40-42 | lower-casing the query first does not change the result |
| Home.Remove | app/page.js:37 | exactly the products whose id differs from `id` are kept, each with its multiplicity |
| Home.RemoveKeepsOrder | app/page.js:37 | the kept products stay in their original order |
| Home.RemoveAbsent | app/page.js:37 | deleting an id no product has leaves the list unchanged |
| Home.RemoveTwice | app/page.js:37 | deleting the same id twice equals deleting it once |
| Home.SearchAfterRemove | app/page.js:35-42 | searching after a delete equals deleting from the search result |
| Home.NoResults | app/page.js:181 | the "No products found" message shows iff the query is non-empty and no product matches it |
| Home.HomePage.constructor | app/page.js:13-15 | the page starts with no products, loading on and an empty query |
| Home.HomePage.FetchSettled | app/page.js:17-33 | a successful fetch replaces the products with the data; a failed one keeps them; loading ends false in both cases |
| Home.HomePage.HandleDelete | app/page.js:35-38 | the products become `Remove(products, id)`, so no product with that id remains |
| Home.HomePage.SetSearchQuery | app/page.js:137 | the query becomes the field's text; afterwards the message shows iff that text is non-empty and no product matches it, so clearing the field hides it |
| Home.HomePage.FilteredProducts | app/page.js:40-42 | holds exactly the products whose title matches the current query |
| Home.HomePage.ShowsNoResults | app/page.js:181 | the message shows iff the shown list is empty and the query is non-empty |
| Store.NewRecord | app/api/products/route.js:14 | the new record's id is the body's id if it has one, otherwise the timestamp; all other fields come from the body |
| Store.IdsDistinctAfterAppend | app/api/products/route.js:14-15 | distinct ids stay distinct after an append iff the new record's id is not already used |
| Store.SameInstantSameId | app/api/products/route.js:14 | two id-less bodies posted at the same instant get the same id |
| Store.ProductStore.constructor | app/api/products/route.js:4 | the store starts as the snapshot, or empty if the snapshot is null |
| Store.ProductStore.Get | app/api/products/route.js:7-9 | returns the current collection and changes nothing |
| Store.ProductStore.Post | app/api/products/route.js:12-17 | appends exactly one record, `NewRecord(body, now)`, at the end. The length grows by one and earlier records are unchanged. The response is the whole updated collection. |

## Left out

- Rendering, styling, themes, icons and skeletons: presentation only.
- The `initialData` effect of the form (app/Components/ProductForm.jsx:38-46) is not modelled. It belongs to the edit page, which is not part of this model.
- Number parsing: `parseFloat`/`parseInt` are inputs. Nothing forces the count's parse to be an integer. JavaScript numbers are IEEE doubles, but the fields are reals. `Infinity` (from `parseFloat("1e999")`) is stored and passes the price and count rules, and it has no counterpart in `Option<real>`. The distinction between -0 and 0 is also lost.
- Browser constraint validation: every input is `required` (app/Components/ProductForm.jsx:206, 247, 289, 330, 380, 423), so the browser blocks a submit while a field is empty. The model lets `HandleSubmit` run on any form, so its invalid path covers submits the browser lets through (a rate of 6, a negative price) and also ones it would block.
- `toLowerCase`: only ASCII letters are lower-cased. Unicode and locale case mapping are not modelled.
- The network and the runtime are not modelled:
  - the `fetch` calls, `res.json()`, `NextResponse.json` and `req.json()`;
  - the initial fetch's outcome, which is an input;
  - `HandleDelete`, which models the state after the DELETE request resolves. A rejected request, where the list is left unfiltered, is not modelled.
- POST bodies with missing or extra JSON fields: a body here always has every form field. Only its `id` is optional.
- page.js passes no `onRestore` (app/page.js:220). The JavaScript call in `handleUndo` would then throw before the snackbar closes. The model records the call as an output and does not model the exception.
- React scheduling: state setters are applied in order. The card unmounting once its product leaves the page's list is not modelled.
- Real time: `Date.now()` is the parameter `now`, and the 5000 ms auto-hide is the `Timeout` close reason.
- The per-id routes (GET, PUT and DELETE of one product), the add-product and edit-product pages, the layout and the not-found page are not part of this model.

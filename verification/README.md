# Create a Listing: a verified model of the draft-listing page

The "Create a Listing" page of the real-estate client keeps a draft listing
in component state. The draft is the form record `formData`: its image URL
list and its text, number and boolean fields. Beside it the page keeps four
flags: `imageUploadError`, `uploading`, `error` and `loading`. Four event
handlers change that state:

- the upload button, which uploads a batch of picked files all-or-nothing;
- the Delete button of an image, which removes it by position;
- the field handler of every text input and checkbox, which writes one key;
- the form submit, which runs two ordered checks, posts the draft and then
  shows an error or navigates to the new listing.

The model has three modules:

- `ListingForm` (`form.dfy`) holds the stored values, the page's fixed
  messages and limits, the initial record, and JavaScript's unary-plus
  coercion of a stored price (`None` stands for NaN).
- `ListingRules` (`rules.dfy`) holds the pure rules and the lemmas about
  them. `JoinUploads` is the all-or-nothing join of a batch of uploads.
  `FilterIndex` is the filter on position, proved equal to slicing the
  element out. `ChangeField` is the computed-key record update. `Validate`
  runs the ordered submit checks. `Settle` maps the server outcome to an
  error notice and a route.
- `CreateListingPage` (`draft.dfy`) holds the class `Draft`, with one field
  per piece of component state and one method per handler. Each method's
  postcondition ties the new state to the old one through those rules. Every
  method keeps the invariant `Valid()`, which says the image list never
  holds more than six URLs, starting from the empty list of the constructor.

The outside world comes in as inputs and goes out as outputs:

- each image upload is a function `store: File -> Option<string>` (a URL, or
  a failure);
- the listing request is a `ServerOutcome` (a reply with `success: false`
  and a message, a reply carrying `_id`, or a thrown error);
- the current user's id is a parameter of `HandleSubmit`;
- the request body and the navigation target are its results.

The form record is keyed by strings, as in the page, because the field
handler writes under the id of whichever input fired. The image list is kept
apart from it as a sequence of URLs. `HandleChange` therefore requires that
the input's id is not `imageUrls`; no input of the page carries that id.

Each of the Sell and Rent checkboxes is drawn ticked only when `type`
equals its own id (client/src/pages/CreateListing.jsx:103-104). So the page
evidently means a tick to set `type`, making the two options mutually
exclusive. The handler does not do that: it writes the keys `sale` and
`rent`, and `type` stays `"rent"`. The model follows the code. The
discrepancy is recorded under Findings.

## Model

| member | source | states |
|---|---|---|
| `ListingForm.InitialFields` | client/src/pages/CreateListing.jsx:10-23 | The initial record has no `imageUrls` key among the fields, `type` is "rent", the regular price is 50 and the discount price is 0 |
| `ListingForm.DecimalValue` | client/src/pages/CreateListing.jsx:75 | A digit string coerces to a natural number, which is 0 exactly when every digit is '0' (including the empty string) |
| `ListingForm.LeadingZeroIgnored` | client/src/pages/CreateListing.jsx:75 | A leading zero does not change the number a digit string denotes (`+"007"` is 7) |
| `ListingForm.DecimalValueBelowPow10` | client/src/pages/CreateListing.jsx:75 | A digit string of length k denotes a number below 10^k |
| `ListingForm.ToNumber` | client/src/pages/CreateListing.jsx:75 | Unary plus on a stored value: numbers stay, booleans give 1/0, an all-digit text gives its decimal value, any other text is NaN |
| `ListingForm.NumericField` | client/src/pages/CreateListing.jsx:75 | A present key reads as the unary plus of its value; a missing key reads as NaN |
| `ListingRules.JoinUploads` | client/src/pages/CreateListing.jsx:34-35 | The batch succeeds iff every upload succeeds; then it yields exactly one URL per upload, each at its upload's position |
| `ListingRules.UploadBatch` | client/src/pages/CreateListing.jsx:34-35 | Uploading the picked files succeeds iff each file's upload does, and then the URLs are in the order of the files, one per file |
| `ListingRules.AcceptedBatchKeepsCap` | client/src/pages/CreateListing.jsx:30-36 | A batch that passes the pre-check and succeeds grows the list by exactly the batch size and leaves it at six images or fewer |
| `ListingRules.FilterIndexRemovesPosition` | client/src/pages/CreateListing.jsx:57-61 | Filtering out position `i` of a list equals the list without its `i`-th element when `i` is in range, and the unchanged list otherwise |
| `ListingRules.RemovalShiftsLater` | client/src/pages/CreateListing.jsx:60 | Removal at an in-range index shortens the list by one, keeps the earlier elements in place and moves each later element one position forward |
| `ListingRules.RemovalDropsOneOccurrence` | client/src/pages/CreateListing.jsx:60 | Removal at an in-range index takes away exactly one occurrence of that URL, even when the list holds duplicates |
| `ListingRules.ChangeField` | client/src/pages/CreateListing.jsx:64-69 | The key named by the input's id holds the checked state for a checkbox and the text otherwise; every other key keeps its value and no key is lost |
| `ListingRules.Validate` | client/src/pages/CreateListing.jsx:74-75 | An empty image list fails with the image message whatever the prices are; otherwise the check fails, with the discount message, iff the regular price is below the discount price; it passes iff neither check fails |
| `ListingRules.EqualOrNaNPricesPass` | client/src/pages/CreateListing.jsx:75 | With at least one image, equal prices or a price that is not a number pass validation |
| `ListingRules.ListingRoute` | client/src/pages/CreateListing.jsx:87 | The navigation target is "/listing/" followed by the listing id, which can be read back from it |
| `ListingRules.Settle` | client/src/pages/CreateListing.jsx:78-91 | The page navigates iff the listing was created, and then goes to its route and clears the error; otherwise it shows the message of the `success: false` reply or of the thrown error |
| `ListingRules.SaleCheckboxLeavesTypeRent` | client/src/pages/CreateListing.jsx:103-104 | Ticking Sell on the initial record stores `sale: true` and leaves `type` as "rent" |
| `ListingRules.IntendedChange` | client/src/pages/CreateListing.jsx:64-69 | With the intended handler, the Sell and Rent boxes set `type` to their own id and change no other key; every other input behaves as `ChangeField` |
| `ListingRules.IntendedTypeBoxesExclusive` | client/src/pages/CreateListing.jsx:103-104 | With the intended handler, after ticking one of Sell or Rent exactly that box shows as ticked and the other as unticked |
| `CreateListingPage.Draft.constructor` | client/src/pages/CreateListing.jsx:10-27 | The page starts with an empty image list, the initial record and every flag off |
| `CreateListingPage.Draft.HandleImageSubmit` | client/src/pages/CreateListing.jsx:29-45 | A rejected batch (empty, or seven or more images in all) leaves the list and `uploading` alone and shows the six-image message. An accepted batch appends all URLs in file order (the length grows by the batch size) and clears the notice, or on any failure appends nothing and shows the upload-failed message. An accepted batch ends with `uploading` false. The record fields, `error` and `loading` are untouched and at most six images are held |
| `CreateListingPage.Draft.HandleRemoveImage` | client/src/pages/CreateListing.jsx:57-62 | The list loses exactly its `index`-th URL with the rest in order, or stays the same for an out-of-range index; no other state changes and at most six images are held |
| `CreateListingPage.Draft.HandleChange` | client/src/pages/CreateListing.jsx:64-70 | The record changes as `ChangeField` says; the image list and every flag are unchanged |
| `CreateListingPage.Draft.HandleSubmit` | client/src/pages/CreateListing.jsx:72-92 | A failed check shows its message, sends no request, does not navigate and leaves `loading` unchanged. Otherwise it sends the record, the images and the user id, ends with `loading` false, and shows an error or navigates as `Settle` says. The image list, the record, `imageUploadError` and `uploading` never change |

## Findings

| source | as written | input that shows it | evidently intended | confidence | as-written member | corrected member |
|---|---|---|---|---|---|---|
| client/src/pages/CreateListing.jsx:64-69, 103-104 | The Sell and Rent checkboxes go through the generic field handler, which writes `sale` or `rent` and never `type`. Each box shows as ticked only when `type` equals its id, so the listing's type stays "rent" and the Sell box never ticks | Tick Sell on a fresh form: `sale` becomes true and `type` is still "rent" | Ticking Sell or Rent sets `type` to that id, so exactly one of the two boxes is ticked | high; not executed | `ListingRules.SaleCheckboxLeavesTypeRent` | `ListingRules.IntendedChange` |

`Draft.HandleChange` keeps the handler as written, because the class models
the page as it behaves. `IntendedChange` and `IntendedTypeBoxesExclusive`
state and prove the corrected behaviour.

## Left out

- The rendered markup and styling (client/src/pages/CreateListing.jsx:94-133).
  The only parts used are the ids and input types that the handlers read.
- The multipart POST to the image host inside `storeImage`. It is modelled
  only by its result, one `Option<string>` per file, given by `store`.
- The `fetch` call and the parsing of the reply. They are modelled only by
  the `ServerOutcome` that `HandleSubmit` receives.
- A reply without `_id`. In the page it navigates to "/listing/undefined".
  The model's `Created` always carries an id string.
- A `success: false` reply without a message, or a thrown value without one.
  In the page these set the error to `undefined`. The model always has a
  message string.
- The global user store and the router. The user id is a parameter and the
  navigation target is a result.
- Selecting files through the file input. The picked files are a parameter.
- Concurrency. The page issues the uploads in parallel. Two upload batches
  can overlap, and React may batch state updates. Each handler is modelled
  as one atomic step. With overlapping batches, two batches that each pass
  the pre-check could together exceed six images; the model does not cover
  that case.
- `ListingForm.ToNumber`: JavaScript's unary plus on text is modelled only
  for strings made of decimal digits, including the empty string. Other text
  counts as NaN, so whitespace, signs, fractions, exponents and hexadecimal
  are not captured. Numeric values are integers, not floating point.
- The browser's `required` check on the name, description and address
  inputs. It is not part of the handlers.
- `CreateListingPage.Draft.HandleChange`: requires that the input's id is
  not `imageUrls`, because the image list is kept apart from the keyed
  record. No input on the page has that id.

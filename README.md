# Product form without a form library — Dafny model

This project models the hand-written product-creation form of
`src/pages/NoFormLibrary.tsx`: the `ProductPayload` draft it edits (record
shape from `src/types.ts`), its `initialState`, its `validate` routine, the six
field-update handlers and the `handleSubmit` lifecycle (validate, send, reset).

Files:

- `wrappers.dfy` — `Option`, used for the record's nullable fields and for a
  rule's verdict.
- `types.dfy` — module `Types`: the `ProductPayload` datatype, the `Field` keys
  (`keyof ProductPayload`) and the `ErrorMap` type (`Partial<Record<…, string>>`).
- `no_form_library.dfy` — module `NoFormLibrary`: the constants and initial
  draft, the per-field rules (`FieldError`) and the error map they define
  (`Errors`), the `ProductForm` class holding the component's two pieces of
  state (`form`, `errors`) with `Validate`, the `SetX` handlers and `Submit`,
  and the lemmas about the rules.

Modelling choices:

- TypeScript `number` (price, quantity, compareAtPrice) is a Dafny `real`.
- A field declared `?: T | null` is an `Option<T>`; absent and `null` are both
  `None`.
- The POST is represented by `Submit`'s out-parameter `sent`: `Some(draft)` is
  the record handed to the request, `None` means no request was made.
- `Errors` is defined field by field (`FieldError`) as an independent reference
  for `validate`. The local map `e` of `validate` is built by `CheckDraft` with
  the same successive conditional assignments as the source and is proved to
  equal `Errors(p)`; `ProductForm.Validate` stores it in `errors`.

Behaviour of the code that the model keeps:

- The name's length is JavaScript's `.length`: UTF-16 code units, so a
  character at or above U+10000 counts twice (`Utf16Length`).
- Names are not trimmed: a whitespace-only name of UTF-16 length 1–500 passes.
- Only name, price, images and quantity are checked; `sku`, `barcode`,
  `description`, `compareAtPrice` and the other optional fields never are.
- Editing a field does not clear that field's error; `errors` changes only
  when `validate` runs.
- `handleSubmit` has no in-flight flag and no failure branch: once the request
  returns, the draft is always reset.

## Model

| member | source | states |
|---|---|---|
| `NoFormLibrary.FieldError` | src/pages/NoFormLibrary.tsx:30-43 | a rule only ever reports on name, price, images or quantity |
| `NoFormLibrary.Utf16Length` | src/pages/NoFormLibrary.tsx:30-33 | the name's `.length` in UTF-16 code units lies between the character count and twice it, and is 0 exactly for the empty string |
| `NoFormLibrary.Utf16LengthBmp` | src/pages/NoFormLibrary.tsx:30-33 | for text within the Basic Multilingual Plane the UTF-16 length equals the character count |
| `NoFormLibrary.Utf16LengthAstral` | src/pages/NoFormLibrary.tsx:30-33 | for text made only of characters at or above U+10000 the UTF-16 length is twice the character count |
| `NoFormLibrary.NameRule` | src/pages/NoFormLibrary.tsx:30-34 | an empty name gives "Name is required", a name over 500 UTF-16 code units gives "Name must not exceed 500 characters", and every UTF-16 length from 1 to 500 (whitespace-only included) gives no name error; each in both directions |
| `NoFormLibrary.AstralNameTooLong` | src/pages/NoFormLibrary.tsx:33-34 | a name of 300 copies of U+1D49C (600 UTF-16 code units) is reported as too long and the draft is refused |
| `NoFormLibrary.LongestBmpNameAccepted` | src/pages/NoFormLibrary.tsx:30-34 | a whitespace-only name of 500 characters gets no name error |
| `NoFormLibrary.PriceRule` | src/pages/NoFormLibrary.tsx:36-37 | a price error exists exactly when the price is negative, with message "Price must be ≥ 0" |
| `NoFormLibrary.ImagesRule` | src/pages/NoFormLibrary.tsx:39-40 | an images error exists exactly when images is the empty string, with message "Images field is required" |
| `NoFormLibrary.QuantityRule` | src/pages/NoFormLibrary.tsx:42-43 | a quantity error exists exactly when the quantity is negative, with message "Quantity must be ≥ 0" |
| `NoFormLibrary.OnlyCheckedFieldsReported` | src/pages/NoFormLibrary.tsx:27-43 | the error map's keys are always among name, price, images, quantity; optional fields and the flags are never checked |
| `NoFormLibrary.SameVerdicts` | src/pages/NoFormLibrary.tsx:28-43 | any map that gives each field exactly its rule's verdict is the error map, so the map is determined field by field |
| `NoFormLibrary.CheckDraft` | src/pages/NoFormLibrary.tsx:28-43 | the map filled by the successive checks (name measured in UTF-16 code units) is exactly the draft's error map, and it is empty exactly when the draft is valid |
| `NoFormLibrary.ValidIffRulesHold` | src/pages/NoFormLibrary.tsx:27-46 | a draft passes exactly when 1 ≤ UTF-16 name length ≤ 500, price ≥ 0, images non-empty and quantity ≥ 0 |
| `NoFormLibrary.InitialStateErrors` | src/pages/NoFormLibrary.tsx:6-46 | validating `initialState` fails with errors on exactly name ("Name is required") and images ("Images field is required") |
| `NoFormLibrary.MinimalDraftIsValid` | src/pages/NoFormLibrary.tsx:27-46 | the draft name "A", price 0, images "x", quantity 0, flags off passes |
| `NoFormLibrary.EditKeepsOtherVerdicts` | src/pages/NoFormLibrary.tsx:68-116 | an edit of one handler's field leaves the verdict of every other field unchanged |
| `NoFormLibrary.ProductForm.constructor` | src/pages/NoFormLibrary.tsx:24-25 | the component mounts with the draft at `initialState` and no errors |
| `NoFormLibrary.ProductForm.Validate` | src/pages/NoFormLibrary.tsx:27-47 | the stored errors become exactly the draft's error map, replacing the old one wholesale; the result is true exactly when that map is empty; the draft is unchanged |
| `NoFormLibrary.ProductForm.SetName` | src/pages/NoFormLibrary.tsx:68 | the draft changes in its name only; errors are unchanged |
| `NoFormLibrary.ProductForm.SetPrice` | src/pages/NoFormLibrary.tsx:76-78 | the draft changes in its price only; errors are unchanged |
| `NoFormLibrary.ProductForm.SetImages` | src/pages/NoFormLibrary.tsx:85 | the draft changes in its images only; errors are unchanged |
| `NoFormLibrary.ProductForm.SetQuantity` | src/pages/NoFormLibrary.tsx:93-95 | the draft changes in its quantity only; errors are unchanged |
| `NoFormLibrary.ProductForm.SetFeatured` | src/pages/NoFormLibrary.tsx:104-106 | the draft changes in its featured flag only; errors are unchanged |
| `NoFormLibrary.ProductForm.SetPublished` | src/pages/NoFormLibrary.tsx:115-117 | the draft changes in its published flag only; errors are unchanged |
| `NoFormLibrary.ProductForm.Submit` | src/pages/NoFormLibrary.tsx:49-61 | errors become the draft's error map; an invalid draft sends nothing and stays as it was, with errors non-empty; a valid draft is sent as it was and the draft is reset to `initialState` with errors empty |
| `NoFormLibrary.FirstSubmitRefusedSecondSent` | src/pages/NoFormLibrary.tsx:6-61 | mounting and submitting sends nothing and leaves exactly the name and images errors; after setting name "A" and images "x" the next submit sends that draft and leaves the form at `initialState` with no errors |

## Left out

- NoFormLibrary.ProductForm.Submit: validation, send and reset are one atomic step in the model, while `handleSubmit` awaits the request between the send and the reset. Two behaviours of the source are therefore not captured: edits made while the request is pending are discarded by the reset, and a second submit while the first is pending validates again and posts the same draft a second time, since nothing guards against it.
- The `fetch` POST, the JSON body and the `alert`: network and UI effects whose response is never inspected; the send is the `sent` out-parameter of `Submit`.
- A rejected `fetch` (network fault): the async handler would throw before the reset and leave the draft as it was; the model assumes the request returns.
- The `Number(e.target.value)` coercion in the price and quantity handlers: the handlers take the already-coerced number. NaN and the infinities are not modelled, so a NaN price slipping past the `< 0` check is not captured.
- JSX rendering and event plumbing (`preventDefault`, `onChange` wiring, showing the messages).
- `src/pages/FormLibrary.tsx`: its validation and reset happen inside zod, react-hook-form and their resolver, which are not part of this model.
- `src/App.tsx`: page layout only.

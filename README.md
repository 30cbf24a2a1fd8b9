# uhomestay dashboard: page state machines and view rules in Dafny

This project models the logic held by four screens of the uhomestay administrative dashboard:

- **The finance dashboard page** (`FinanceDashboard`). The page keeps a drawer flag (`open`), the cashflow being edited (`tempData`), the active tab (`cashflowStatus`), and one toast slot per mutation kind (`toastId`). The `Finance` class holds this state, the toast store and a count of list refetches. Its handlers are methods. The pagination rule (`cursor || undefined`), the `observeCallback` guard and the list shown under a tab are pure functions over the fetched pages.
- **The position edit form** (`PositionForm`). It has the `isEditable` and `isModalOpen` flags and the form values. Its observable behaviour is the trace of callbacks it makes to its parent (`onLoading`, `onEdited`, `onError`, `onCancel`), together with the writes it issues and its form resets.
- **The photo upload modal** (`Gallery`). It has the loop that builds the upload payload from the form entries, the submit lifecycle, and the picker handlers.
- **The blog card** (`BlogListItem`). It covers description and title clipping with an ellipsis, the untitled placeholder, and the thumbnail fallback.

`Mutation` holds what the forms share:
- the mutation kinds;
- a write's outcome (resolved, or rejected with the error's `message`);
- the event type of callback traces;
- the common lifecycle `onLoading` → write → success steps or `onError`.

Each asynchronous write is one settle event. A submit method takes the write's `Outcome` as a parameter. It also takes the form validation result as a boolean.

Where the design description of the system and the code disagree, the model follows the code:

- **Which toast a resolution updates.** The design says a late resolution writes to the toast handle it captured when loading began. The code reads `toastId.current[type]` when the result arrives. A second `onLoading` of the same kind therefore redirects the first mutation's resolution onto the newer toast, and the older toast stays loading. `OverlappingSubmissions` shows this.
- **When there is a next page.** The design says there is one whenever the cursor is non-null. The code tests the cursor's truthiness, so a cursor of `0` or `""` also means no next page.
- **Features the code does not have.** The design describes an `isSubmitting` flag, discarding of stale next-page responses, and de-duplication of records across pages. None of these appears in the code, and none is modelled.
- **The add form after `onOpen`.** The design says opening the add surface clears the selected record. `onOpen` does not clear it. Instead, `Finance.Valid` proves that a cashflow is only held while the drawer is open. So opening from a closed drawer always shows the add form.

The blog description rule is modelled as written. A description of exactly 55 characters keeps all of them and still gets `"..."`, because the threshold is 54 while the slice keeps 55.

## Model

| member | source | states |
|---|---|---|
| `BlogListItem.SliceTo` | fe/layouts/bloglistitem/index.tsx:17 | `slice(0, n)` yields a prefix of the input of length min(n, length) |
| `BlogListItem.ClipShape` | fe/layouts/bloglistitem/index.tsx:17-22 | the clipped text is the sliced prefix followed by `"..."` exactly when the input exceeds the threshold; inputs up to the threshold come back unchanged; the length is at most keep + 3 |
| `BlogListItem.Description` | fe/layouts/bloglistitem/index.tsx:17-18 | a description of at most 54 characters is unchanged, one of exactly 55 gets `"..."` with nothing removed, a longer one is cut to 55 plus `"..."`; never longer than 58 |
| `BlogListItem.DescriptionAtKeepLength` | fe/layouts/bloglistitem/index.tsx:17-18 | at length 55 the output differs from the input although the input is kept whole as its prefix |
| `BlogListItem.CardTitle` | fe/layouts/bloglistitem/index.tsx:21-25 | the placeholder "Artikel tidak berjudul" appears iff the title is empty; otherwise a title of at most 44 characters is unchanged and a longer one becomes its first 45 plus `"..."`; never longer than 48 |
| `BlogListItem.ThumbnailSrc` | fe/layouts/bloglistitem/index.tsx:29-32 | the image source is never empty: the URL itself when non-empty, `/images/image/login-bg.svg` otherwise |
| `Mutation.LifecycleOrder` | layouts/positioneditform/index.tsx:86-111 | every submit announces loading first and issues its write second, once each, and settles exactly once, with an `onError` iff the write failed |
| `PositionForm.EditTrace` | layouts/positioneditform/index.tsx:86-98 | no callback at all when validation fails; otherwise `onLoading("edit")` then the edit of the given id and data, settling once: reset and `onEdited` iff the write succeeded, `onError("edit", "Error mengubah jabatan", message)` iff it failed |
| `PositionForm.DeleteTrace` | layouts/positioneditform/index.tsx:100-111 | `onLoading("delete")` precedes the removal; success leads to reset and `onEdited`, failure to `onError("delete", "Error menghapus jabatan", message)` and no reset |
| `PositionForm.PositionEditForm.constructor` | layouts/positioneditform/index.tsx:44-45 | both flags start false and the mounted position is loaded into the form |
| `PositionForm.PositionEditForm.OnPrevDataChange` | layouts/positioneditform/index.tsx:130-135 | a present position is loaded with every field but `id`; `null` leaves the form as it is |
| `PositionForm.PositionEditForm.OnNameInput` | layouts/positioneditform/index.tsx:147-159 | typing changes the name only while the form is editable; the read-only field ignores input |
| `PositionForm.PositionEditForm.OnLevelInput` | layouts/positioneditform/index.tsx:167-178 | choosing changes the level only while the form is editable; the disabled select ignores input |
| `PositionForm.PositionEditForm.OnSubmit` | layouts/positioneditform/index.tsx:86-98 | appends the edit trace for `prevData.id` and the current values; the form is reset to defaults iff the submit was valid and the write succeeded |
| `PositionForm.PositionEditForm.OnDelete` | layouts/positioneditform/index.tsx:100-111 | appends the delete trace for the id; resets the form iff the removal succeeded; leaves both flags unchanged |
| `PositionForm.PositionEditForm.OnModalConfirm` | layouts/positioneditform/index.tsx:239 | a confirmed delete targets `prevData.id` |
| `PositionForm.PositionEditForm.OnSetEditable` | layouts/positioneditform/index.tsx:113-115 | sets `isEditable`; no other method writes it, so it never returns to false |
| `PositionForm.PositionEditForm.OnConfirmDelete` | layouts/positioneditform/index.tsx:117-119 | opens the confirmation modal and changes nothing else |
| `PositionForm.PositionEditForm.OnCancelDelete` | layouts/positioneditform/index.tsx:121-123 | closes the confirmation modal and changes nothing else |
| `PositionForm.PositionEditForm.OnClose` | layouts/positioneditform/index.tsx:125-128 | resets the form and calls `onCancel` only, never `onEdited` |
| `PositionForm.EditedNameReachesRequest` | layouts/positioneditform/index.tsx:86-91 | a name typed after switching to editing is what the edit request carries; typed while read-only, the loaded name is sent |
| `Gallery.EntryPart` | layouts/galleryaddmodal/index.tsx:63-67 | the entry keeps the field's key; it is the first file iff the value is a non-empty file list, otherwise `String(v)` (`Join` for a plain array) |
| `Gallery.Join` | layouts/galleryaddmodal/index.tsx:66 | `String` of a plain array: empty for `[]`, the element itself for one element, otherwise the first element followed by a comma |
| `Gallery.BuildPayload` | layouts/galleryaddmodal/index.tsx:60-68 | exactly one appended entry per form field, in entry order, each the field's `EntryPart` |
| `Gallery.UploadTrace` | layouts/galleryaddmodal/index.tsx:59-81 | no callback when validation fails; otherwise `onLoading("add")`, then the upload of the built payload, then either reset followed by `onSubmited("add", "Sukses mengunggah foto")` or `onError("add", "Error mengunggah foto", message)` without reset |
| `Gallery.GalleryAddModal.constructor` | layouts/galleryaddmodal/index.tsx:36-42 | no file selected, default values, no callbacks yet |
| `Gallery.GalleryAddModal.OnSubmit` | layouts/galleryaddmodal/index.tsx:59-81 | builds the payload from the description and file entries before announcing loading, appends the upload trace, and resets the form iff valid and uploaded |
| `Gallery.GalleryAddModal.OnPick` | layouts/galleryaddmodal/index.tsx:87-93 | an empty pick changes nothing; otherwise the first file becomes the selected file |
| `Gallery.GalleryAddModal.OnDescriptionInput` | layouts/galleryaddmodal/index.tsx:142-147 | typing sets the description value and nothing else |
| `Gallery.GalleryAddModal.OnFileInput` | layouts/galleryaddmodal/index.tsx:118-130 | the picker's input sets the form's `file` value to the chosen file list and nothing else |
| `Gallery.GalleryAddModal.OnPickErr` | layouts/galleryaddmodal/index.tsx:95-97 | appends only `onError("add", "Error tipe file", "File bukan bertipe gambar")`, with no `onLoading` before it |
| `Gallery.GalleryAddModal.OnClose` | layouts/galleryaddmodal/index.tsx:83-85 | appends only `onCancel` |
| `Gallery.UploadPickedFile` | layouts/galleryaddmodal/index.tsx:59-73 | after typing a description and picking a file, a valid submit uploads exactly the description and that file, in that order |
| `FinanceDashboard.PageParam` | pages/dashboard/finance/index.tsx:50-51 | no page parameter iff the cursor is `null`, `0` or `""`; otherwise the cursor itself |
| `FinanceDashboard.NextPageParam` | pages/dashboard/finance/index.tsx:51 | `getNextPageParam` gives no parameter iff the last page's cursor is falsy, otherwise that cursor |
| `FinanceDashboard.PreviousPageParam` | pages/dashboard/finance/index.tsx:50 | `getPreviousPageParam` gives no parameter iff the first page's cursor is falsy, otherwise that cursor |
| `FinanceDashboard.ObserveCallback` | pages/dashboard/finance/index.tsx:63-67 | a next-page request is issued iff a next page exists, and then for the last page's truthy cursor; otherwise no request at all |
| `FinanceDashboard.OfType` | pages/dashboard/finance/index.tsx:192-193 | the tab filter keeps exactly the items of the tab's type and never adds any |
| `FinanceDashboard.ListedIsFilteredFlatten` | pages/dashboard/finance/index.tsx:189-193 | rendering each page's filtered items in page order equals filtering the page-order concatenation |
| `FinanceDashboard.Shown` | pages/dashboard/finance/index.tsx:184-193 | nothing is listed when page 0 has no cashflows or its total for the tab is `"0"`; otherwise the page-order concatenation filtered by the tab; every listed item has the tab's type |
| `FinanceDashboard.ShownMembership` | pages/dashboard/finance/index.tsx:184-193 | outside the empty message, a cashflow is listed iff it has the tab's type and some fetched page holds it |
| `FinanceDashboard.Region` | pages/dashboard/finance/index.tsx:180-188 | the list region shows the loading text iff loading, the error message iff the query failed, the empty message iff the data is empty for the tab, and otherwise the filtered concatenation |
| `FinanceDashboard.UpdateToast` | pages/dashboard/finance/index.tsx:88-91 | updating a toast replaces that toast only and keeps every other; an id never issued changes nothing |
| `FinanceDashboard.Finance.Drawer` | pages/dashboard/finance/index.tsx:239-262 | the drawer holds the add form iff `tempData` is null, otherwise the edit form with `prevData == tempData` |
| `FinanceDashboard.Finance.constructor` | pages/dashboard/finance/index.tsx:42-59 | the drawer starts closed with no cashflow held, on the income tab, with every toast slot at 0 |
| `FinanceDashboard.Finance.OnOpen` | pages/dashboard/finance/index.tsx:74-76 | sets only `open`; opened from a closed drawer it shows the add form |
| `FinanceDashboard.Finance.OnOptClick` | pages/dashboard/finance/index.tsx:78-81 | sets `tempData` to the item and opens the drawer, which then shows the edit form for it |
| `FinanceDashboard.Finance.OnClose` | pages/dashboard/finance/index.tsx:69-72 | leaves the drawer closed with no cashflow held |
| `FinanceDashboard.Finance.OnLoading` | pages/dashboard/finance/index.tsx:107-113 | issues a fresh info toast and overwrites only the slot of its kind with the new id |
| `FinanceDashboard.Finance.OnModified` | pages/dashboard/finance/index.tsx:83-92 | closes the drawer, drops `tempData`, refetches exactly once, and marks success on the toast the kind's slot names at that moment; no slot changes |
| `FinanceDashboard.Finance.OnError` | pages/dashboard/finance/index.tsx:94-105 | marks error on the toast the kind's slot names; nothing else changes (no close, no refetch, `tempData` kept) |
| `FinanceDashboard.Finance.ActivateIncomeTab` | pages/dashboard/finance/index.tsx:115-117 | changes only the active tab, to income |
| `FinanceDashboard.Finance.ActivateOutcomeTab` | pages/dashboard/finance/index.tsx:119-121 | changes only the active tab, to outcome |
| `FinanceDashboard.OverlappingSubmissions` | pages/dashboard/finance/index.tsx:94-113 | when a second `onLoading` of a kind comes before the first mutation's error, the error lands on the second toast and the first toast stays loading |

## Left out

- The pagination engine is not modelled: fetching, what `refetch()` does to the pages, and loading or error transitions. `refetch()` is only counted. `fetchNextPage` is reduced to the cursor it would request. With no data fetched, `hasNextPage` is taken as false.
- The toast library is not visible. It is modelled as an id issuer that starts at 1, so the slots' initial 0 never names a toast, plus a store of toasts by id. `updateToast` on an id never issued is assumed to change nothing. Toast durations and rendering are left out.
- `debounce(observeCallback, 500)` and the `Observe` intersection trigger are timer and DOM plumbing.
- The page summary (`CashflowSummary`, `idrCurrency.format(Number(...))`) is left out because it is number formatting.
- The add and edit cashflow forms that the finance page mounts are not part of this model. The page's handlers are modelled on their own.
- Form validation (react-hook-form's `required` and `valueAsNumber` rules) is a boolean input of each submit. `reset` is modelled as "the values become the defaults".
- The success steps (`reset`, `onEdited`, `onSubmited`) are assumed not to throw. If one did, the same `.catch` would also call `onError` after the reset, and the trace would settle twice. A rejected write is assumed to carry an `Error`, so `onError` gets a string message. A rejection with a non-`Error` value would pass `undefined`.
- How the picker component fires its callbacks is not visible. Its registered input change (`OnFileInput`) and its `onPick` are separate methods, and the model does not fix their order.
- Each write settles within the submit method that issues it. Two pending writes of the same form are not interleaved. At the page level, `OverlappingSubmissions` does interleave them.
- The upload modal's preview (`imgUrl`, `URL.createObjectURL`, `revokeObjectURL`) is left out. So is its `isOpen` prop, which only decides whether anything renders.
- `FormData` and `File` are reduced to an ordered list of entries and a file's name. `String(v)` is modelled for strings, file lists and plain arrays (the picker's default `[]`).
- `PositionForm.PositionEditForm.OnPrevDataChange`: for `null`, the form stays as it was. Rendering with a `null` position fails at `prevData.id` in the code, and that failure is not modelled.
- In the blog card, `null` or `undefined` titles and thumbnail URLs are represented by the empty string. A `char` stands for one UTF-16 code unit, so surrogate pairs are not distinguished.
- JSX, CSS classes, test ids and the member, print, navigation, homestay and dues layouts are presentation only.

# bersekolah_astro core, modelled in Dafny

This project models the logic of the Bersekolah scholarship web front end.
It covers five parts of the front end:

- **The media URL helper** (`MediaUrl`, using `ApiConfig`). It picks the host
  that serves media from the production flag and the configured
  `PUBLIC_API_BASE_URL`. It then joins media paths, storage paths and
  default-image paths onto that host.
- **The auth service** (`AuthService`). This covers the requests `register`,
  `login` and `logout` send, and how each one turns what `fetch` produced into
  a returned body or a thrown error.
- **The current admin applicant page** (`ApplicantPage`). This covers its
  search and status filter, its local delete-by-id, the table's
  loading/empty/rows choice, and a class `ApplicantListPage` holding the
  page's state cells.
- **The backup variant of that page** (`ApplicantPageBackup`). This covers its
  five-field search, which ignores the status filter. It also covers its mock
  fallback, which never records an error, the delete-then-refetch flow, and
  the full-page loading/error/main choice.
- **The public FAQ section** (`FaqSection`). This covers the body-unwrap rule,
  the `fetchFaqs` state update, and the loading/error/empty/list view
  precedence.

The shared modules are support code, not part of the source:

- `JsStrings` models the JavaScript string built-ins the code calls.
- `Sequences` is a generic order-preserving filter.
- `Notifications` models the toast.
- `PeriodFilter` models the period selector both pages share.
- `Wrappers` defines `Option` and `Result`.

Each React handler is a method of a class whose fields are the component's
`useState` cells. An `async` handler is split into two parts:

- a `Begin…` method that runs up to its `await`;
- `…Succeeded` / `…Failed` methods that run when the awaited call settles.

A completion method takes the `isRefresh` flag that its begin call saw. The
network is never called: a method receives what the awaited call produced,
as a parameter. The same holds for the environment (`import.meta.env.PROD`,
`PUBLIC_API_BASE_URL`).

Some behaviours of the code are stated outright in the model:

- **The backup page never shows its error panel.** Its outer `catch` cannot be
  reached, because the inner `catch` absorbs every failure of the list
  request. As a result `error` is never set. The class invariant `Valid()`
  keeps `error == None` and `stats.total == |applicants|`, and
  `ErrorPanelUnreachable` derives that the error view never shows.
- **The current page never renders `error`.** It sets `error` on a failed
  load, but the page shows only the toast and the mock row.
- **The current page does not update `stats.total` on delete.**
- **The current page's fetch does not send the period id.** It calls
  `getApplicants()` with no argument.
- **The FAQ section never clears its error and never sets the loading flag
  again.** So after one failure, every retry keeps showing the error panel.
- **Mock data is unconditional.** Both pages fall back to mock data on any
  failure, in every environment, because the code has no environment check
  around that fallback.

## Model

| member | source | states |
|---|---|---|
| ApiConfig.ApiBaseUrl | src/lib/auth-service.ts:5 | a truthy configured URL is used as it is; an unset or empty one becomes `http://localhost:8000/api`; the result is never empty |
| MediaUrl.StripApiSuffix | src/lib/utils/media-url.ts:19-22 | a URL ending in `/api` loses exactly that suffix, any other URL is unchanged, and the result is always a prefix of the URL |
| MediaUrl.MediaBaseUrl | src/lib/utils/media-url.ts:7-40 | production gives `https://api.bersekolah.com` whatever is configured; a localhost URL loses one trailing `/api`; a bersekolah.com URL without the api host becomes the api host; an api-host URL loses one trailing `/api`; any other URL is returned unchanged |
| MediaUrl.ApiHostIsBersekolah | src/lib/utils/media-url.ts:26-36 | a URL naming `api.bersekolah.com` also names `bersekolah.com`, so the api-host case lies inside the bersekolah.com branch |
| MediaUrl.DevelopmentDefaultBase | src/lib/utils/media-url.ts:14-21 | outside production, with no usable configured URL, the media host is `http://localhost:8000` |
| MediaUrl.LocalhostTakesPrecedence | src/lib/utils/media-url.ts:17-26 | a URL naming both localhost and bersekolah.com is handled as a localhost URL |
| MediaUrl.MediaUrlOf | src/lib/utils/media-url.ts:47-52 | a path starting with `/` is appended to the base as it is; any other path is appended after one `/` |
| MediaUrl.MediaUrlLeadingSlash | src/lib/utils/media-url.ts:47-52 | a path without a leading `/` names the same media URL with and without one added |
| MediaUrl.StorageUrlOf | src/lib/utils/media-url.ts:59-62 | a storage URL is the base, then a `/`, then exactly the path, with nothing stripped |
| MediaUrl.StorageIsMediaOfSlashed | src/lib/utils/media-url.ts:47-62 | the storage URL of a path equals the media URL of that path with one more leading `/` |
| MediaUrl.StorageUrlVersusMediaUrl | src/lib/utils/media-url.ts:47-62 | storage and media URLs agree on paths without a leading `/`; on a path with one, the storage URL is the base, `//` and the rest of the path, while the media URL has a single `/` there |
| MediaUrl.DefaultImageUrlOf | src/lib/utils/media-url.ts:69-81 | a default image URL starts with the media base |
| MediaUrl.DefaultImageIsMediaUrl | src/lib/utils/media-url.ts:72-80 | every entry of the five-entry default table starts with `/`, so each default image URL equals the media URL of its table path |
| MediaUrl.ProductionLogoExample | test-media-urls.js:8-20 | in production, the logo path with and without its leading slash gives `https://api.bersekolah.com/assets/image/navbar/logo.png` |
| MediaUrl.ProductionStorageExample | test-media-urls.js:12-21 | in production, `storage/testimoni/image.jpg` gives `https://api.bersekolah.com/storage/testimoni/image.jpg` |
| MediaUrl.ProductionDefaultLogoExample | test-media-urls.js:15-22 | in production, the default logo is `https://api.bersekolah.com/assets/image/navbar/logo.png` |
| AuthService.RequestHeaders | src/lib/auth-service.ts:108-114 | the JSON and X-Requested-With headers are always sent; an Authorization header is present iff a token is given, and its value is `Bearer <token>` |
| AuthService.Endpoint | src/lib/auth-service.ts:22 | an endpoint URL is the service's base URL followed by exactly the endpoint's path |
| AuthService.RequestsDistinct | src/lib/auth-service.ts:81-115 | register, login and logout are POSTs to the base URL followed by `/register`, `/auth/login` and `/auth/logout`; the three URLs are distinct and only logout carries the bearer token |
| AuthService.ErrorMessagesAppend | src/lib/auth-service.ts:51 | validation messages are flattened field by field, in field order |
| AuthService.ValidationMessageExtends | src/lib/auth-service.ts:51-52 | one more field with a single message extends the joined validation text by `, ` and that message |
| AuthService.RegisterCatch | src/lib/auth-service.ts:67-75 | a TypeError whose message contains "fetch" becomes the connection-failure message; every other error is rethrown unchanged |
| AuthService.Register | src/lib/auth-service.ts:15-75 | an unparseable text fails with `Invalid JSON response: ` and its first 100 characters; an ok response returns the body; a non-ok response fails with the validation messages, then the server message, then `Registration failed with status <n>`; a rejected fetch goes through the catch |
| AuthService.RegisterParseFailureIgnoresStatus | src/lib/auth-service.ts:36-44 | the invalid-JSON failure is decided before the ok flag and the status are read |
| AuthService.RegisterCatchKeepsOwnErrors | src/lib/auth-service.ts:37-74 | every error the try block composes itself passes the catch unchanged |
| AuthService.ConnectionMessageOnlyFromFetch | src/lib/auth-service.ts:70-72 | registration fails with the connection message only for a rejected fetch, or when the server sent that very text as its message |
| AuthService.Login | src/lib/auth-service.ts:78-102 | a non-ok login fails with the truthy server message, else with "Login failed"; an ok login returns the body; any other error is rethrown unchanged |
| AuthService.LoginAgreesWithRegisterOnSuccess | src/lib/auth-service.ts:93-97 | on an ok response with a body, login and register both return that body |
| AuthService.Logout | src/lib/auth-service.ts:104-123 | the parsed body is returned; a parse or fetch error is rethrown |
| AuthService.LogoutIgnoresStatus | src/lib/auth-service.ts:117-118 | logout's outcome depends on neither the ok flag nor the status |
| Notifications.Show | src/component/admin/pendaftar-beasiswa-page.tsx:118-123 | showing a toast makes it visible with exactly the given message and kind |
| PeriodFilter.PeriodIdOf | src/component/admin/pendaftar-beasiswa-page.tsx:218-219 | "all" maps to no period, and every other value to a parsed period |
| PeriodFilter.SelectValue | src/component/admin/pendaftar-beasiswa-page.tsx:284 | the selector always shows a non-empty value |
| PeriodFilter.SelectRoundTrip | src/component/admin/pendaftar-beasiswa-page-backup.tsx:292-304 | choosing the value the selector shows for a period selects that same period again; "all" round-trips to no period |
| ApplicantPage.FilteredApplicants | src/component/admin/pendaftar-beasiswa-page.tsx:102-110 | the shown list is the order-preserving subsequence of the applicants passing both the search and the status test, with every passing record kept as often as it occurs |
| ApplicantPage.ShowAllWithoutFilters | src/component/admin/pendaftar-beasiswa-page.tsx:103-107 | an empty term and status "all" show the whole list |
| ApplicantPage.SearchIgnoresTermCase | src/component/admin/pendaftar-beasiswa-page.tsx:103-105 | lower-casing the term does not change the shown list |
| ApplicantPage.AbsentFieldsNeverMatch | src/component/admin/pendaftar-beasiswa-page.tsx:104-105 | a record with neither name nor address matches no non-empty term |
| ApplicantPage.RemoveById | src/component/admin/pendaftar-beasiswa-page.tsx:255 | removal drops exactly the records with the given id and keeps the others in order, with their multiplicities |
| ApplicantPage.RemoveByIdIdempotent | src/component/admin/pendaftar-beasiswa-page.tsx:255-256 | applying the removal twice equals applying it once |
| ApplicantPage.TableViewOf | src/component/admin/pendaftar-beasiswa-page.tsx:387-418 | spinner iff loading; otherwise an empty state iff nothing is shown, saying "no search results" iff a term is set; otherwise one row per shown record |
| ApplicantPage.ApplicantListPage.constructor | src/component/admin/pendaftar-beasiswa-page.tsx:68-99 | the initial state cells |
| ApplicantPage.ApplicantListPage.SetSearchTerm | src/component/admin/pendaftar-beasiswa-page.tsx:368 | the search box stores the term |
| ApplicantPage.ApplicantListPage.SetStatusFilter | src/component/admin/pendaftar-beasiswa-page.tsx:373 | the status selector stores the value |
| ApplicantPage.ApplicantListPage.BeginFetch | src/component/admin/pendaftar-beasiswa-page.tsx:140-149 | a refresh sets `isRefreshing` and leaves the table as it was; any other fetch sets `isLoading`; `error` is cleared; the request carries no period |
| ApplicantPage.ApplicantListPage.FetchSucceeded | src/component/admin/pendaftar-beasiswa-page.tsx:149-156 | the list becomes the response data, `stats.total` its length, a refresh shows the success toast, and both flags end false |
| ApplicantPage.ApplicantListPage.FetchFailed | src/component/admin/pendaftar-beasiswa-page.tsx:157-203 | the error and an error toast are set, the list becomes the single mock record with id "1", and both flags end false |
| ApplicantPage.ApplicantListPage.HandlePeriodChange | src/component/admin/pendaftar-beasiswa-page.tsx:218-222 | the parsed period is stored and a non-refresh fetch starts, whose request carries no period |
| ApplicantPage.ApplicantListPage.BeginDetail | src/component/admin/pendaftar-beasiswa-page.tsx:225-230 | the selection is cleared and the dialog opens before the record's id is requested |
| ApplicantPage.ApplicantListPage.DetailSucceeded | src/component/admin/pendaftar-beasiswa-page.tsx:230-231 | the detail record becomes the selection |
| ApplicantPage.ApplicantListPage.DetailFailed | src/component/admin/pendaftar-beasiswa-page.tsx:232-236 | an error toast is shown and the dialog closes |
| ApplicantPage.ApplicantListPage.HandleDeleteClick | src/component/admin/pendaftar-beasiswa-page.tsx:240-243 | the record is selected and the delete dialog opens |
| ApplicantPage.ApplicantListPage.HandleDeleteBeswan | src/component/admin/pendaftar-beasiswa-page.tsx:246-259 | with a selection, the list loses exactly the selected id, the success toast shows, the dialog closes and the selection is cleared; without a selection nothing changes |
| ApplicantPage.DetailFailureScenario | src/component/admin/pendaftar-beasiswa-page.tsx:225-237 | a detail request that fails leaves no selection, the dialog closed and the error toast shown |
| ApplicantPage.RefreshScenario | src/component/admin/pendaftar-beasiswa-page.tsx:140-156 | while a refresh is in flight the loaded rows stay on screen; its success shows the new rows |
| ApplicantPage.PeriodChangeScenario | src/component/admin/pendaftar-beasiswa-page.tsx:218-222 | choosing any period starts a load whose request carries no period |
| ApplicantPage.FailedLoadScenario | src/component/admin/pendaftar-beasiswa-page.tsx:157-199 | a failed first load shows the mock record in the table with the error recorded |
| ApplicantPageBackup.FilteredBeswan | src/component/admin/pendaftar-beasiswa-page-backup.tsx:355-364 | the shown list is the order-preserving subsequence of records whose name, nickname, gender, birthplace or religion contains the term, ignoring case, with missing fields read as empty |
| ApplicantPageBackup.EmptyTermKeepsAll | src/component/admin/pendaftar-beasiswa-page-backup.tsx:355-364 | an empty term shows every record |
| ApplicantPageBackup.BirthplaceSearchExample | src/component/admin/pendaftar-beasiswa-page-backup.tsx:248-258 | searching "jakarta" finds the mock record by its birthplace |
| ApplicantPageBackup.SafeData | src/component/admin/pendaftar-beasiswa-page-backup.tsx:234 | an array result is kept, and any other result becomes the empty list |
| ApplicantPageBackup.PageViewOf | src/component/admin/pendaftar-beasiswa-page-backup.tsx:367-391 | the full-page spinner shows iff loading and not refreshing; otherwise the error panel shows iff there is an error and no refresh; otherwise the main page shows |
| ApplicantPageBackup.TableViewOf | src/component/admin/pendaftar-beasiswa-page-backup.tsx:552-561 | an empty state iff nothing is shown, saying "no search results" iff a term is set; otherwise one row per shown record |
| ApplicantPageBackup.BackupApplicantListPage.constructor | src/component/admin/pendaftar-beasiswa-page-backup.tsx:157-185 | the initial state cells, which satisfy the invariant |
| ApplicantPageBackup.BackupApplicantListPage.ErrorPanelUnreachable | src/component/admin/pendaftar-beasiswa-page-backup.tsx:217-276 | in every state the handlers reach, the error panel does not show |
| ApplicantPageBackup.BackupApplicantListPage.SetSearchTerm | src/component/admin/pendaftar-beasiswa-page-backup.tsx:511 | the search box stores the term |
| ApplicantPageBackup.BackupApplicantListPage.SetStatusFilter | src/component/admin/pendaftar-beasiswa-page-backup.tsx:516 | the status value is stored and the shown list does not change |
| ApplicantPageBackup.BackupApplicantListPage.BeginFetch | src/component/admin/pendaftar-beasiswa-page-backup.tsx:217-230 | a refresh sets `isRefreshing`, any other fetch `isLoading`; the error is cleared; the request carries the period |
| ApplicantPageBackup.BackupApplicantListPage.FetchSucceeded | src/component/admin/pendaftar-beasiswa-page-backup.tsx:230-242 | the stored list is the array result or empty, `stats.total` equals its length, a refresh shows the success toast, and both flags end false |
| ApplicantPageBackup.BackupApplicantListPage.FetchFailed | src/component/admin/pendaftar-beasiswa-page-backup.tsx:243-262 | the list becomes the single mock record, the error stays null, no toast appears, and both flags end false |
| ApplicantPageBackup.BackupApplicantListPage.HandlePeriodChange | src/component/admin/pendaftar-beasiswa-page-backup.tsx:292-304 | the parsed period is stored and a non-refresh fetch for it starts |
| ApplicantPageBackup.BackupApplicantListPage.BeginViewDetail | src/component/admin/pendaftar-beasiswa-page-backup.tsx:317-323 | the clicked record is selected and the dialog opens before its id is requested |
| ApplicantPageBackup.BackupApplicantListPage.DetailSucceeded | src/component/admin/pendaftar-beasiswa-page-backup.tsx:323-324 | the detail record replaces the selection |
| ApplicantPageBackup.BackupApplicantListPage.DetailFailed | src/component/admin/pendaftar-beasiswa-page-backup.tsx:325-328 | only an error toast appears; the list record stays selected |
| ApplicantPageBackup.BackupApplicantListPage.HandleDeleteClick | src/component/admin/pendaftar-beasiswa-page-backup.tsx:332-335 | the record is selected and the delete dialog opens |
| ApplicantPageBackup.BackupApplicantListPage.BeginDelete | src/component/admin/pendaftar-beasiswa-page-backup.tsx:338-341 | a delete is requested iff there is a selection with a truthy id, and then for that id |
| ApplicantPageBackup.BackupApplicantListPage.DeleteSucceeded | src/component/admin/pendaftar-beasiswa-page-backup.tsx:341-346 | the success toast shows, the dialog closes and a fetch for the selected period starts; the stored list is not edited |
| ApplicantPageBackup.BackupApplicantListPage.DeleteFailed | src/component/admin/pendaftar-beasiswa-page-backup.tsx:348-351 | only an error toast appears; the dialog stays open |
| ApplicantPageBackup.FailedLoadScenario | src/component/admin/pendaftar-beasiswa-page-backup.tsx:243-262 | a failed first load shows the main page with the mock record, not the error panel |
| ApplicantPageBackup.ZeroIdDeleteScenario | src/component/admin/pendaftar-beasiswa-page-backup.tsx:339 | a record whose id is 0 is never sent for deletion |
| FaqSection.Unwrap | src/component/beranda/Faq.jsx:23-24 | an array body is taken as it is; an object's array `data` is taken; an object whose `data` is no array gives a value with no items; a falsy scalar gives `[]`; a `null` body throws |
| FaqSection.Loaded | src/component/beranda/Faq.jsx:12-31 | a value is stored iff the request succeeded, the status was ok and the body parsed to a non-null value, and then it is the unwrapped body |
| FaqSection.DisplayFaqs | src/component/beranda/Faq.jsx:40 | an array is displayed as it is, and anything else as no FAQs |
| FaqSection.KeyOf | src/component/beranda/Faq.jsx:193 | the key is the id when it is present and non-zero, otherwise the position |
| FaqSection.Entries | src/component/beranda/Faq.jsx:191-199 | one entry per FAQ, in order, with its question as title and its answer as content |
| FaqSection.KeysDistinct | src/component/beranda/Faq.jsx:193 | FAQs with distinct non-zero ids get distinct keys |
| FaqSection.KeysMayCollide | src/component/beranda/Faq.jsx:193 | a FAQ without an id can share its positional key with another FAQ's id |
| FaqSection.ViewOf | src/component/beranda/Faq.jsx:43-173 | loading first, then the error, then the empty state, then the list of entries |
| FaqSection.NonListIsEmpty | src/component/beranda/Faq.jsx:40-131 | a stored value that is no array renders as the empty state |
| FaqSection.FaqSectionState.constructor | src/component/beranda/Faq.jsx:6-8 | no FAQs, loading, no error |
| FaqSection.FaqSectionState.FetchFaqs | src/component/beranda/Faq.jsx:11-34 | on success the unwrapped body is stored and the error kept; on any failure the FAQs are kept and the fixed error is stored; loading always ends; once an error is stored, the view stays the error panel |
| FaqSection.RetryAfterFailureScenario | src/component/beranda/Faq.jsx:104-110 | after a failed load, a retry leaves the error panel on screen whatever it receives |
| FaqSection.WrappedLoadScenario | src/component/beranda/Faq.jsx:22-24 | a first load whose `data` is a non-empty array lists those FAQs |
| FaqSection.NullBodyScenario | src/component/beranda/Faq.jsx:23-30 | a first load whose body is `null` shows the error panel |

## Left out

- Network, JSON parsing and environment reads are not performed. Each operation receives their outcome as a parameter.
- Console logging is left out, including the password redaction in the registration log.
- The toast's 5-second hiding timer is left out. Only the immediate effect of showing a toast is modelled.
- The stats percentages (`Math.round(total * 0.3)` and the like) are left out, because they are floating-point placeholders. Only `stats.total` is modelled.
- `formatDate` is left out, because it depends on the `Date` and locale APIs.
- Which fields a record has depends on the normaliser in `src/lib/applicant-service`, which is not part of this model. Records carry only the fields the pages read.
- `fetchPeriods` and the period list are left out. On failure the backup page shows the error toast "Gagal memuat data periode" in the same toast slot; that effect on the toast is not modelled.
- Fetches that overlap while in flight are not modelled. Each fetch is a begin/complete pair with nothing in between.
- React rendering beyond the choice of view is not modelled. This covers the markup, `useEffect` mount triggers and the backup's `ErrorBoundary` class.
- ApplicantPage.ApplicantListPage.FetchSucceeded: takes the response data as a list. A response whose `data` is missing or `null` makes `updateStats` throw inside the `try`, so it takes the `FetchFailed` path: error, error toast, mock record, and no success toast on a refresh. Such a response is modelled by calling `FetchFailed`.
- AuthService.Register: a JSON `null` body, which would make reading `errors` throw a `TypeError`, is not modelled. The parsed body is always an object.
- AuthService.Login: a JSON `null` body on a non-ok response, which would make reading `message` throw a `TypeError`, is not modelled.
- FaqSection.Unwrap: strings are not modelled beyond the empty one. A non-empty string body, or an object whose `data` is a non-empty string, is stored by the component and then makes the list render throw (a string has a length but no `map`). The model has no such value: scalars are numbers, booleans or the empty string, and a truthy `data` is an array or a non-string value.
- JsStrings.ToLower: only ASCII letters are lowered. Unicode case mapping is not modelled.
- JsStrings.ParseInt: only decimal is modelled. A `0x` prefix is read as the number 0.
- JsStrings.TrimStart: only space, tab, line feed and carriage return are skipped. JavaScript also skips vertical tab, form feed, the no-break space, the byte-order mark and the other Unicode space and line-terminator characters.
- JsStrings.Prefix: counts characters (Unicode scalar values). `substring(0, 100)` counts UTF-16 code units, so the two differ on text outside the Basic Multilingual Plane.
- PeriodFilter.SelectRoundTrip: JavaScript numbers are modelled as unbounded integers. In JavaScript they are doubles: integers beyond 2^53 are not exact, and values of 1e21 and above print in exponent form (`1e+21`), which `parseInt` reads back as 1. So in the source the round trip holds only for safe integers.
- `src/hooks/useDocuments.ts`, `src/component/beranda/Hero.jsx` and `src/component/debug/DebugAPI.jsx` hold only markup, logging or network plumbing, so they are not part of this model.

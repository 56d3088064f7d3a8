# Admin console core: route guard and vendor draft editor

This project models the two pieces of the admin console whose behaviour can be
stated exactly.

- **Routing** (`routing.dfy`, from `src/App.js`). `IsAdminAuthenticated` turns
  the stored `adminToken` into a boolean by JavaScript truthiness. `PrivateRoute`
  picks the child view or a redirect to `/adminlogin`. The route table is a
  sequence of routes. `Resolve(path, token)` is the route selection: an exact
  path outranks the `*` catch-all. `Navigate` follows redirects. The lemmas state
  what the table does:
  - `/` is public.
  - Only `/admin` is guarded; `/admin/orders`, `/admin/vendors` and
    `/admin/status` are not.
  - Every unknown path, including the guard's own target `/adminlogin`, is sent
    to `/`.
  - Every path ends on a view within two redirects.
- **Vendors screen** (`question_list.dfy` and `vendors.dfy`, from
  `src/components/Vendors.js`). The pure part is in `QuestionList`:
  - the draft's question list and its three edits;
  - the `filter` by position that `removeQuestion` uses;
  - the rule that the list never becomes empty;
  - the serialisation of the questions into `{question}` records.

  `Vendors.VendorsState` is a class holding the component's state fields:
  `vendors`, the draft fields, `questions`, `error` and `isModalOpen`. Its
  methods are the handlers. The backend's answers and the user's answer to the
  confirm dialog are method parameters. Every HTTP request a handler issues is
  appended to a `requests` field, so the contracts say which requests are made
  and in what order.

Three behaviours of the code are easy to misread; the model follows the code:
- Only `/admin` is guarded. The other admin pages render without a token.
- The create request always carries `Authorization: Bearer ${token}`. With no
  stored token, the header text is `Bearer null`; it is not left out.
- Submitting or closing the modal does not clear the draft. The name, details,
  website and question state stay as they were. The name, details and website
  inputs are uncontrolled, so after the modal is reopened they show empty
  fields while the state still holds the old text; the question inputs show
  the kept questions.

## Model

| member | source | states |
|---|---|---|
| `Routing.IsAdminAuthenticated` | src/App.js:16-18 | true exactly when a token is stored and it is not the empty string |
| `Routing.PrivateRoute` | src/App.js:21-27 | shows the child exactly when a non-empty token is stored, and otherwise redirects to `/adminlogin` |
| `Routing.FindExact` | src/App.js:32-54 | finds nothing exactly when no route has the path; otherwise returns the element of the first route with that exact path |
| `Routing.FindSplat` | src/App.js:53 | finds nothing exactly when there is no `*` route; otherwise returns the first catch-all's element |
| `Routing.Render` | src/App.js:35-53 | a plain page shows its view, the guarded route renders through `PrivateRoute`, a `Navigate` element redirects; `ResolveRoot`, `ResolveAdmin`, `ResolveUnguarded` and `ResolveFallback` state what this gives for each route of the table |
| `Routing.Match` | src/App.js:35-53 | an exact route outranks the `*` route whatever their order; the contracts of `FindExact` and `FindSplat` state the two searches, and `ResolveFallback` states the result for the table |
| `Routing.Resolve` | src/App.js:29-57 | the route table as a function of path and token; its behaviour is stated by `ResolveRoot`, `ResolveAdmin`, `ResolveUnguarded`, `ResolveFallback`, `ResolveTotal` and `OnlyAdminGuarded` |
| `Routing.Navigate` | src/App.js:25-53 | following `Navigate` redirects; `NavigateSettles` and `UnauthenticatedAdminEndsOnLogin` state where it ends |
| `Routing.ResolveRoot` | src/App.js:35 | `/` shows the login view with or without a token |
| `Routing.ResolveAdmin` | src/App.js:38-45 | `/admin` shows the dashboard with a non-empty token and redirects to `/adminlogin` otherwise |
| `Routing.ResolveUnguarded` | src/App.js:46-48 | the orders, vendors and status pages are shown for every token |
| `Routing.ResolveFallback` | src/App.js:53 | a path redirects to `/` if and only if it is not one of the five routed paths |
| `Routing.LoginRedirectFallsThrough` | src/App.js:25 | `/adminlogin` is not a routed path and itself redirects to `/` |
| `Routing.ResolveTotal` | src/App.js:32-54 | every path matches some route, so each (path, token) has exactly one outcome and it is never "no match" |
| `Routing.OnlyAdminGuarded` | src/App.js:38-48 | two tokens can give different outcomes only at `/admin` |
| `Routing.NavigateSettles` | src/App.js:25-53 | following redirects from any path reaches a view within two hops |
| `Routing.UnauthenticatedAdminEndsOnLogin` | src/App.js:21-27 | without a valid token, `/admin` leads through `/adminlogin` and `/` to the login view |
| `QuestionList.Without` | src/components/Vendors.js:98 | filtering by position drops exactly entry `index` and keeps the rest in order; an out-of-range index drops nothing |
| `QuestionList.Step` | src/components/Vendors.js:86-101 | the list after one of the three edit handlers; `AddSpec`, `ChangeSpec`, `RemoveSpec` and `StepKeepsNonEmpty` state its behaviour |
| `QuestionList.Replay` | src/components/Vendors.js:86-101 | the list after a sequence of edits; `ReplayKeepsNonEmpty` and `NeverEmpty` state that it stays non-empty |
| `QuestionList.AddSpec` | src/components/Vendors.js:92-94 | adding appends exactly one `""` and keeps every earlier entry |
| `QuestionList.ChangeSpec` | src/components/Vendors.js:86-90 | a change keeps the length, sets entry `i` and leaves the others alone |
| `QuestionList.RemoveSpec` | src/components/Vendors.js:96-101 | removal is a no-op at length 1; above it, a valid index removes exactly that entry and the order of the rest is kept, and an invalid one changes nothing |
| `QuestionList.StepKeepsNonEmpty` | src/components/Vendors.js:92-101 | no single edit empties a non-empty list |
| `QuestionList.ReplayKeepsNonEmpty` | src/components/Vendors.js:92-101 | any sequence of edits the form can issue keeps a non-empty list non-empty |
| `QuestionList.NeverEmpty` | src/components/Vendors.js:15 | starting from the initial `[""]`, the list is never empty |
| `QuestionList.Serialize` | src/components/Vendors.js:38 | the payload has one record per question, and record `k`'s `question` is question `k` |
| `QuestionList.TextsSerialize` | src/components/Vendors.js:38 | reading the `question` field back from the payload gives the question list exactly |
| `Vendors.Authorization` | src/components/Vendors.js:40-44 | the header is `Bearer ` followed by the token, or by `null` when none is stored |
| `Vendors.AuthorizationIdentifiesToken` | src/components/Vendors.js:40-44 | two stored tokens give the same header exactly when they are equal, or when one is missing and the other is the string `null` |
| `Vendors.Payload` | src/components/Vendors.js:33-38 | the create body carries the draft's name, details and website, and its questions as records in order |
| `Vendors.DeleteRequest` | src/components/Vendors.js:78 | the DELETE of `/vendors/<id>`; `DeleteRequestIdentifiesVendor` states that it names exactly one vendor |
| `Vendors.DeleteRequestIdentifiesVendor` | src/components/Vendors.js:78 | two identifiers give the same delete request exactly when they are equal |
| `Vendors.VendorsState.constructor` | src/components/Vendors.js:11-18 | starts with no vendors, no error, the modal closed, empty fields and the question list `[""]` |
| `Vendors.VendorsState.FetchVendors` | src/components/Vendors.js:20-28 | issues one GET; success replaces the list, failure keeps it and sets "Failed to fetch vendors"; the draft and modal are untouched |
| `Vendors.VendorsState.HandleAddVendor` | src/components/Vendors.js:30-72 | callable only with the modal open and the required inputs filled in (lines 169, 181, 188-223); issues one POST with the draft's payload; success then reloads and closes the modal; failure leaves the modal open and the list and the error as they were; the draft is never changed |
| `Vendors.VendorsState.HandleDeleteVendor` | src/components/Vendors.js:75-84 | a declined confirmation changes nothing and issues no request; once confirmed, one DELETE, then a reload on success or "Failed to delete vendor" on failure |
| `Vendors.VendorsState.OpenModal` | src/components/Vendors.js:117 | opens the modal and changes nothing else |
| `Vendors.VendorsState.CloseModal` | src/components/Vendors.js:176 | closes the modal and keeps the draft |
| `Vendors.VendorsState.SetName` | src/components/Vendors.js:187 | stores the typed name in the draft and changes nothing else |
| `Vendors.VendorsState.SetDetails` | src/components/Vendors.js:197 | stores the typed details in the draft and changes nothing else |
| `Vendors.VendorsState.SetWebsite` | src/components/Vendors.js:207 | stores the typed website in the draft and changes nothing else |
| `Vendors.VendorsState.AddQuestion` | src/components/Vendors.js:92-94 | appends one `""` and keeps the list non-empty |
| `Vendors.VendorsState.HandleQuestionChange` | src/components/Vendors.js:86-90 | replaces entry `index` only, for an index the form displays |
| `Vendors.VendorsState.RemoveQuestion` | src/components/Vendors.js:96-101 | refuses at length 1; otherwise drops entry `index` if it exists; the list stays non-empty |
| `Vendors.PassesRequired` | src/components/Vendors.js:181-224 | the browser's `required` check: the form submits only when name, details, website and every question are non-empty |
| `Vendors.MountWithFailedLoad` | src/components/Vendors.js:103-105 | after a failed first load the list is empty, the banner is shown, and exactly one GET was issued |
| `Vendors.MountWithLoad` | src/components/Vendors.js:103-105 | after a successful first load the list is exactly what the backend returned |
| `Vendors.SubmitTwoQuestions` | src/components/Vendors.js:30-59 | filling in the form with two questions and submitting successfully issues one POST carrying the fields and both records in order, then one reload, and closes the modal |

## Left out

- HTTP: the axios calls are not modelled. A request is an entry in the `requests` log, and its result is a parameter of the handler. Transport errors, status codes and response decoding are not modelled.
- `localStorage` is not modelled: the stored token is an `Option<string>` parameter.
- `window.confirm` is not modelled: the user's answer is a boolean parameter.
- The logo file (`vendorlogo`) is an opaque browser object. It is not part of the draft or of the request body.
- The multipart `FormData` encoding and the exact `JSON.stringify` text are not modelled. The body is a `VendorForm` value, and the questions are a sequence of records.
- Toasts, `console.error`, the rendered table and modal markup, Bootstrap styling and `Sidebar` are presentation only.
- Timing: `fetchVendors()` after a create or a delete is not awaited. The model applies its result within the same handler call. Double submission and updates after unmount are not modelled.
- react-router details are not modelled: case-insensitive matching, trailing slashes, nested routes and the `replace` flag of `Navigate`. Paths match as exact strings.
- `AdminLogin`, `AdminDashboard`, `Orders` and `AdminCreditStatus` are not part of this model; they are opaque view tags.
- Vendors.VendorsState.HandleQuestionChange: requires an index inside the list. The form only passes indices of the entries it displays (src/components/Vendors.js:213-221). The JavaScript array growth for an index past the end is not modelled.
- Vendors.VendorsState.HandleAddVendor: the `type="url"` check on the website (src/components/Vendors.js:205) and the `required` check on the logo file (src/components/Vendors.js:251) are not modelled, so the model allows submits with a malformed website or no logo, which the browser blocks.

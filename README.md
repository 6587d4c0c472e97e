# Real-estate admin panel: client-side session and editing logic

This project models the client-side logic of an administrative web panel for
a real-estate listing platform, and proves properties of that model. An
operator signs in against the Google Identity Toolkit, then lists, creates,
edits and deletes rows of a Supabase `properties` table. All real persistence
and authentication happen in those two remote services. Four pieces of
sequential client logic around them are modelled:

- **The session holder** (`FirebaseAuthProvider`), in `auth.dfy`, module `Auth`.
  It holds the bearer token, the authenticated flag, the token's expiry and a
  loading flag. It also keeps a copy of the token and expiry in the browser's
  persisted store under the keys `idToken` and `tokenExpirationTime`. The
  operations are `login`, `logout`, the `refreshToken` stub (which only logs
  out), the expiry effect, and the mount-time `checkAuth`.
- **The property editor** (`PropertyForm`), in `property_form.dfy`, module
  `PropertyForm`. It covers the draft record, field updates with numeric
  coercion, the feature and image-URL lists (append trimmed, remove by
  position), loading the edited row, and the insert-or-update submit.
- **The sign-in screen** (`Login`), in `login_page.dfy`, module `LoginPage`.
  It has three modes stored in two flags (`isSignUp`, `isForgotPassword`), the
  mode switch, the submit with its branch order and outcomes, and the
  mode-dependent parts of the screen.
- **The listing screen** (`PropertyList`), in `property_list.dfy`, module
  `PropertyList`. It covers fetch bookkeeping, delete as a filter by id, and
  the spinner / error / grid choice.

Two shared modules support them. `text.dfy` (module `Text`) models the
JavaScript primitives the code relies on: `String.prototype.trim` over the
ECMAScript whitespace set, `parseInt` with radix 10 (result `Num(n)` or
`NaN`), and `Number#toString` of a non-negative integer. `remote.dfy` (module
`Remote`) gives the outcome types for remote calls.

Each component that changes state is a class with the source's state
variables as fields. Its methods change those fields step by step, as the
handlers do. Each method's postcondition ties the new state to a pure step
function of the old state (`Snapshot() == LoginStep(old(Snapshot()), now,
reply).session`), or states the new fields directly. The properties are
proved about the step functions: as their own postconditions, and as lemmas
over single steps and over arbitrary sequences of events.

Remote calls, the clock and user confirmations are inputs. A call to the
identity provider is a `Reply<T>`: `Ok(body)`, `Rejected(providerMessage)`
for a non-2xx answer, or `Failed(thrown)` when `fetch` or JSON parsing throws.
A Supabase query is a `DbReply<T>`: `DbOk(data)` or `DbFailed`. `Date.now()`
is a parameter `now`, and `window.confirm` is a boolean `confirmed`.
`navigate` is recorded as the last path passed to it (`navigatedTo`), and
`alert` is returned as a message.

The model follows the code. The code has no pagination or page size, no
10-image minimum, no postal-code lookup, no image upload and no REST backend.
It talks to a Supabase table directly, and features and images are plain
text/URL lists. The expiry check is a React effect, not a timer. It runs when
`tokenExpirationTime` changes, not as time passes.

## Model

| member | source | states |
|---|---|---|
| `Auth.AuthProvider.constructor` | src/contexts/FirebaseAuthContext.tsx:15-18 | a new holder has no token, is not authenticated, has no expiry and is loading; the store is the browser's |
| `Auth.StoreSession` | src/contexts/FirebaseAuthContext.tsx:66-68 | after storing, the token key holds the token and the expiry key holds a string that `parseInt` reads back as the expiry; no other key changes |
| `Auth.ClearSession` | src/contexts/FirebaseAuthContext.tsx:81-82 | both session keys are gone and no other key changes |
| `Auth.LoginStep` | src/contexts/FirebaseAuthContext.tsx:33-75 | on a 2xx answer the token is installed with expiry `now + expiresIn*1000`, the flag is set and the store holds exactly those two values (state `Valid`); on a rejection or a throw the same error is rethrown (provider message or 'Authentication failed') and only `loading` changes; `loading` is false at the end |
| `Auth.AuthProvider.Login` | src/contexts/FirebaseAuthContext.tsx:33-75 | the holder's fields and store become those of `LoginStep`, and it returns the thrown value |
| `Auth.LogoutStep` | src/contexts/FirebaseAuthContext.tsx:77-83 | no token, not authenticated, no expiry, both keys removed and the rest of the store kept |
| `Auth.AuthProvider.Logout` | src/contexts/FirebaseAuthContext.tsx:77-83 | the holder's state becomes `LogoutStep` of the old one |
| `Auth.LogoutIdempotent` | src/contexts/FirebaseAuthContext.tsx:77-83 | logging out twice is logging out once |
| `Auth.RefreshStep` | src/contexts/FirebaseAuthContext.tsx:85-97 | a refresh never renews: it always ends logged out, with both keys removed and `loading` false |
| `Auth.AuthProvider.RefreshToken` | src/contexts/FirebaseAuthContext.tsx:85-97 | the holder's state becomes `RefreshStep` of the old one |
| `Auth.ExpiryCheckStep` | src/contexts/FirebaseAuthContext.tsx:21-31 | a refresh (logout) happens exactly when the expiry is set, non-zero and `0 < expiry - now < 300000`; otherwise nothing changes; afterwards the check would not fire again at the same time |
| `Auth.AuthProvider.CheckExpiry` | src/contexts/FirebaseAuthContext.tsx:21-31 | the holder's state becomes `ExpiryCheckStep` of the old one |
| `Auth.CheckAuthStep` | src/contexts/FirebaseAuthContext.tsx:100-129 | with both keys stored (non-empty) and `now` before the parsed expiry, the stored token and expiry are restored and the store is kept; with both stored but expired or unreadable (NaN), both keys are removed and the in-memory state is kept; with either key missing nothing changes; `loading` ends false |
| `Auth.AuthProvider.CheckAuth` | src/contexts/FirebaseAuthContext.tsx:100-129 | the holder's state becomes `CheckAuthStep` of the old one |
| `Auth.RunPreservesValid` | src/contexts/FirebaseAuthContext.tsx:21-97 | any sequence of logins, logouts, refreshes and expiry checks keeps the flag equal to token presence, a token paired with an expiry, and the store in agreement with the token in memory |
| `Auth.SessionLifetime` | src/contexts/FirebaseAuthContext.tsx:15-129 | from mount over any store, followed by any events, the holder stays in that consistent state |
| `Auth.ReloadAfterLogin` | src/contexts/FirebaseAuthContext.tsx:59-120 | a holder mounted over the store a login left restores the same token and expiry until that expiry, and clears both keys from then on; an empty token is never restored |
| `Auth.LoginThenExpiryCheck` | src/contexts/FirebaseAuthContext.tsx:21-64 | right after a login, the expiry effect drops a token issued for 1 to 299 seconds and keeps any other |
| `Remote.ThrownBy` | src/contexts/FirebaseAuthContext.tsx:51-54 | nothing is thrown exactly for a 2xx answer; a rejection throws an `Error` whose message is the provider's, or the non-empty fallback when that is absent; any other failure rethrows what was thrown |
| `Text.TrimStartDrops` | src/pages/PropertyForm.tsx:83 | dropping the leading whitespace leaves a suffix of the input that does not start with whitespace, and what was dropped is all whitespace |
| `Text.TrimEndDrops` | src/pages/PropertyForm.tsx:83 | dropping the trailing whitespace leaves a prefix of the input that does not end with whitespace, and what was dropped is all whitespace |
| `Text.Trim` | src/pages/PropertyForm.tsx:83-86 | the result neither starts nor ends with whitespace, and it is empty exactly when the input is all whitespace |
| `Text.TrimStrips` | src/pages/PropertyForm.tsx:83-86 | the input is the result with an all-whitespace part before it and an all-whitespace part after it |
| `Text.TrimOfPadded` | src/pages/PropertyForm.tsx:83-86 | trimming any whitespace padding around a trimmed string gives that string back, so the characterisation above fixes the result |
| `Text.TrimIdempotent` | src/pages/PropertyForm.tsx:83-86 | trimming twice is trimming once |
| `Text.DigitPrefix` | src/pages/PropertyForm.tsx:73 | the longest leading run of digits: all digits, a prefix of the input, and followed by a non-digit or the end |
| `Text.NatToString` | src/contexts/FirebaseAuthContext.tsx:68 | the decimal rendering of a natural number is non-empty, all digits, has no leading zero, and has that value |
| `Text.ParseIntOfDigits` | src/pages/PropertyForm.tsx:73 | `parseInt` reads a leading digit string as its decimal value and ignores non-digit text after it |
| `Text.ParseIntSkipsWhitespace` | src/contexts/FirebaseAuthContext.tsx:108 | leading whitespace does not change what `parseInt` reads |
| `Text.ParseIntOfPadded` | src/pages/PropertyForm.tsx:73 | after any leading whitespace, a run of digits reads as its decimal value, whatever non-digit text follows |
| `Text.ParseIntOfSigned` | src/pages/PropertyForm.tsx:73 | after the leading whitespace one sign is taken: `-x` reads as the negation of `x` (NaN staying NaN) and `+x` as `x` |
| `Text.ParseIntWithoutDigits` | src/contexts/FirebaseAuthContext.tsx:108 | text without any digit, the empty string included, reads as NaN |
| `Text.ParseIntOfNatToString` | src/contexts/FirebaseAuthContext.tsx:68-108 | `parseInt` reads back the expiry that `toString` wrote |
| `PropertyForm.PropertyFormPage.constructor` | src/pages/PropertyForm.tsx:19-37 | a new editor holds the initial draft (empty strings, zero counts, no features or images), is not loading, shows no error and has empty text boxes |
| `PropertyForm.PropertyFormPage.LoadExisting` | src/pages/PropertyForm.tsx:41-63 | the row is requested only when the route has an id; a returned row replaces the draft wholesale; a failure sets 'Failed to load property'; no id means no change |
| `PropertyForm.ParseCountReadsDecimal` | src/pages/PropertyForm.tsx:72-74 | a count input reads the empty string as 0, a digit string as its decimal value, and non-empty text without digits as NaN |
| `PropertyForm.SetField` | src/pages/PropertyForm.tsx:65-80 | only the named field changes; it gets the raw string, or for `beds`/`baths`/`sqft` the parsed count; the feature and image lists are untouched |
| `PropertyForm.PropertyFormPage.HandleInputChange` | src/pages/PropertyForm.tsx:65-80 | the draft becomes `SetField` of the old draft and nothing else changes |
| `PropertyForm.PropertyFormPage.TypeNewFeature` | src/pages/PropertyForm.tsx:286 | the feature text box holds what was typed; the draft and the rest of the screen are untouched |
| `PropertyForm.PropertyFormPage.TypeNewImage` | src/pages/PropertyForm.tsx:323 | the image URL text box holds what was typed; the draft and the rest of the screen are untouched |
| `PropertyForm.AppendTrimmed` | src/pages/PropertyForm.tsx:82-90 | the old list stays as a prefix; one element is added exactly when the text is not all whitespace, and that element is the trimmed text, non-empty and without surrounding whitespace |
| `PropertyForm.AppendPadded` | src/pages/PropertyForm.tsx:83-86 | typing a clean value with any surrounding whitespace appends exactly that value, even when it is already in the list |
| `PropertyForm.PropertyFormPage.AddFeature` | src/pages/PropertyForm.tsx:82-90 | features become `AppendTrimmed` of the old list and text box; the text box is cleared exactly when something was added; images and the rest are untouched |
| `PropertyForm.PropertyFormPage.AddImage` | src/pages/PropertyForm.tsx:99-107 | the same law on the image list and its text box; features untouched |
| `PropertyForm.FilterFromSplices` | src/pages/PropertyForm.tsx:95 | filtering out one position of a list equals cutting that element out, and is the identity when the position is outside the list |
| `PropertyForm.WithoutIndex` | src/pages/PropertyForm.tsx:92-97 | removing position `i` keeps every other element, in order, with one fewer element; an out-of-range `i` leaves the list unchanged |
| `PropertyForm.PropertyFormPage.RemoveFeature` | src/pages/PropertyForm.tsx:92-97 | features become `WithoutIndex` of the old list; nothing else changes |
| `PropertyForm.PropertyFormPage.RemoveImage` | src/pages/PropertyForm.tsx:109-114 | images become `WithoutIndex` of the old list; nothing else changes |
| `PropertyForm.EditsKeepListsClean` | src/pages/PropertyForm.tsx:65-114 | if all features and images are clean, they stay clean under any sequence of field edits, additions and removals |
| `PropertyForm.NewDraftListsStayClean` | src/pages/PropertyForm.tsx:19-114 | a draft that starts from the initial data only ever holds non-empty features and image URLs without surrounding whitespace |
| `PropertyForm.ListEditsAreIndependent` | src/pages/PropertyForm.tsx:65-114 | feature edits leave images alone, image edits leave features alone, and field edits leave both alone |
| `PropertyForm.SaveRequestFor` | src/pages/PropertyForm.tsx:122-135 | an update with the route's id when the id is truthy, otherwise an insert; the whole draft is sent |
| `PropertyForm.PropertyFormPage.HandleSubmit` | src/pages/PropertyForm.tsx:116-144 | the request is `SaveRequestFor` the draft; success navigates to `/dashboard` with no error; failure sets 'Failed to save property'; `loading` ends false and the draft is unchanged |
| `PropertyForm.SubmitLabel` | src/pages/PropertyForm.tsx:368 | the button reads 'Saving...' exactly while a save is in flight |
| `PropertyForm.SubmitLabelMatchesRequest` | src/pages/PropertyForm.tsx:368 | when idle, the button reads 'Update Property' exactly when submit will update, and 'Create Property' exactly when it will insert |
| `LoginPage.LoginScreen.constructor` | src/pages/Login.tsx:10-14 | a new screen is in sign-in mode with no messages and not loading |
| `LoginPage.ToggleStep` | src/pages/Login.tsx:85-99 | both messages are cleared, exactly the target mode's flags are set, and the screen shows the target mode |
| `LoginPage.LoginScreen.ToggleMode` | src/pages/Login.tsx:85-99 | the screen's state becomes `ToggleStep` of the old one |
| `LoginPage.EndpointFor` | src/pages/Login.tsx:25-76 | sign-up is called exactly when `isSignUp`; reset exactly when only `isForgotPassword`; otherwise sign-in; with exclusive flags this is the shown mode's endpoint |
| `LoginPage.SubmitStep` | src/pages/Login.tsx:18-83 | messages are cleared first; a failure shows the thrown message (or 'Authentication failed') and keeps the flags; a completed sign-up or reset shows its confirmation and leaves that mode; a completed sign-in navigates to `/dashboard`; `loading` ends false; an exclusive state stays exclusive and either keeps its mode or returns to sign-in |
| `LoginPage.Fallback` | src/pages/Login.tsx:44-67 | each endpoint's fallback text is non-empty ('Sign up failed', 'Password reset failed', and the session holder's 'Authentication failed' for sign-in) |
| `LoginPage.MessageOf` | src/pages/Login.tsx:79 | the message shown is empty only when an `Error` with an empty message was thrown |
| `LoginPage.SubmitShowsFailure` | src/pages/Login.tsx:42-80 | a completed call shows no error; a rejection shows the provider's message, or the current endpoint's non-empty fallback; a thrown `Error` shows its message and any other thrown value 'Authentication failed' |
| `LoginPage.LoginScreen.HandleSubmit` | src/pages/Login.tsx:18-83 | calls the endpoint `EndpointFor` chooses, and the screen becomes `SubmitStep` of that call's outcome; only the sign-in branch changes the session holder, by its `login` |
| `LoginPage.ExclusiveUnderEvents` | src/pages/Login.tsx:18-99 | any sequence of mode switches and submits keeps the two flags from being set together |
| `LoginPage.ModesNeverOverlap` | src/pages/Login.tsx:13-99 | from the initial screen, sign-up and forgot-password are never both set |
| `LoginPage.Render` | src/pages/Login.tsx:105-235 | the name field shows exactly in sign-up mode, the forgot-password link exactly in sign-in mode, and the header link never leads to the mode already shown |
| `LoginPage.RenderFollowsMode` | src/pages/Login.tsx:105-235 | with exclusive flags, title, prompt, header link, visible fields and button label are those of the shown mode (sign-up before forgot-password before sign-in); the header link leads from sign-up to sign-in and from the other modes to sign-up |
| `PropertyList.PropertyListScreen.constructor` | src/pages/PropertyList.tsx:18-20 | a new screen has no rows, is loading and shows no error |
| `PropertyList.PropertyListScreen.FetchProperties` | src/pages/PropertyList.tsx:27-42 | returned rows replace the list, null data gives the empty list, a failure keeps the rows and sets 'Failed to load properties'; `loading` ends false |
| `PropertyList.WithoutId` | src/pages/PropertyList.tsx:54 | exactly the rows with another id remain, nothing is added, and the list does not grow |
| `PropertyList.WithoutIdDistributes` | src/pages/PropertyList.tsx:54 | the filter works piece by piece, so the remaining rows keep their original order |
| `PropertyList.WithoutAbsentId` | src/pages/PropertyList.tsx:54 | deleting an id that no row carries leaves the list unchanged |
| `PropertyList.WithoutIdIdempotent` | src/pages/PropertyList.tsx:54 | deleting the same id twice is deleting it once |
| `PropertyList.PropertyListScreen.HandleDelete` | src/pages/PropertyList.tsx:44-59 | a declined confirmation makes no call and changes nothing; a successful delete removes every row with that id; a failed delete keeps the list and raises 'Failed to delete property' |
| `PropertyList.Render` | src/pages/PropertyList.tsx:61-136 | the spinner wins over the error banner, which wins over the grid; the error shows only when its message is non-empty; the grid shows the rows and the empty notice exactly when there are none |

## Left out

- Remote services: the Identity Toolkit `fetch` calls and the Supabase queries are not modelled. Each is an input saying how the call came back (`Reply`, `DbReply`). The request bodies (email, password) and the API key are not modelled.
- The login screen's `email`, `password` and `name` inputs: they only feed the remote calls, which are inputs here.
- `LoginPage.LoginScreen.HandleSubmit` takes one reply shape for all three endpoints. For sign-up and reset only whether the call succeeded matters, because the code ignores those response bodies.
- Clock: `Date.now()` is the parameter `now`, and one handler sees one `now`.
- Numbers are unbounded integers. JavaScript's double precision (exact only below 2^53) is not modelled. The provider's `expiresIn` is a string that JavaScript coerces to a number; it is modelled as that number, a natural.
- `Auth.CheckAuthStep` reads the stored expiry with base-10 `parseInt`. The source calls `parseInt` without a radix, which also accepts a `0x` hexadecimal prefix; that case is not modelled.
- The persisted store is a map from key to string that only this holder writes. Writes from other tabs and storage exceptions are not modelled.
- React scheduling: each handler is one atomic step, so the intermediate `loading == true` renders while a call is pending are not observable. The stale read of `properties` in the delete handler is not modelled either, and overlapping handlers are not modelled.
- The expiry effect is the explicit step `Auth.AuthProvider.CheckExpiry`, which the caller invokes. In the source React runs it when `tokenExpirationTime` changes; that trigger is not modelled.
- `PropertyForm.PropertyFormPage.HandleInputChange` takes one of the eight input names bound to it. An arbitrary `name` would add a new key to the draft object; that is not modelled.
- A fetched property row is assumed to have the draft's shape. Extra columns such as `id` and `created_at` are not carried.
- Rendering beyond the parts listed in the table (CSS, icons, the cards' contents, the error banners of the form and login screen) is not modelled. `console.error` logging is not modelled.
- The outside-provider error of `useFirebaseAuth`; routing and the dashboard shell (src/App.tsx, src/pages/Dashboard.tsx); the logging stubs of src/contexts/FirebaseContext.tsx; and the unused type in src/types/Property.ts: these carry no client logic.
- Server-side ordering of the listing by `created_at`: the database does it, and the model takes the rows in the order they arrive.

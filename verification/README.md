# Login page controller — Dafny model

A model of the WebAssembly controller of a two-view login page (`wasm/login/src/lib.rs`). The page shows
either a sign-in view or a create-account view. The `type` query parameter chooses between them: `new`
selects sign-up, and any other value, or none, selects sign-in. Switching views pushes a new URL onto the
session history and re-renders the page. Submitting the form checks for blank fields and classifies the
identifier as an email address or a username. An identifier that contains `@` but is not shaped like an
email is rejected. Otherwise the controller disables both submit buttons and sends a token request. When
the request's promise is fulfilled, whatever the HTTP status, the buttons are enabled again.

Layout:

- `wire.dfy` (module `Wire`): the token-request body `GetToken`, the `IdentifierType` enumeration and its
  serialised names, and the response shapes, which are declared but not used.
- `identifier.dfy` (module `Identifier`): a hand-written predicate for the regular expression
  `.+@.+\..+` (an unanchored search in which `.` matches anything but a line terminator). It is proved
  equal to "some span of the string matches". The module also holds the classification of an identifier.
- `validation.dfy` (module `Validation`): the blank-field check, the error the submit handler ends up with,
  and the intended blank-first precedence order as a reference definition.
- `view.dfy` (module `View`): the view chosen by `type`, the page title, the class-list update of every
  element, which is proved idempotent, and the URL pushed on a change of view.
- `login_page.dfy` (module `LoginPage`): class `Document`. It holds the page state: title, element class
  lists, location, history, inputs, error display and buttons. Its methods `Update`, `ChangeState`,
  `Signin`, `DisableButtons` and `Complete` change that state in place. `Update` runs the same two loops
  as the source. The first adds `hide` to every element of the losing class. The second removes it from
  every element of the winning class.

The model follows the code where it departs from a blank-first precedence, in which the blank-field
messages come before the malformed-email message (`Validation.PrecedenceError`). The code runs the
classification unconditionally. So an identifier such as `bob@x` paired with a blank password reports "Invalid
email address" rather than "Password cannot be blank". `Validation.SubmitErrorVersusPrecedence` proves
that this is the only case where the two orders differ. The both-blank message keeps the source's
spelling, "cannt".

## Model

| member | source | states |
|---|---|---|
| `Wire.IdentifierTypeName` | wasm/login/src/lib.rs:173-181 | each identifier type is serialised as "email", "id" or "username", one name per variant |
| `Wire.IdentifierTypeNameInjective` | wasm/login/src/lib.rs:173-181 | distinct identifier types have distinct serialised names |
| `Identifier.MatchesEmailPattern` | wasm/login/src/lib.rs:83 | stands for the unanchored search for `.+@.+\..+`; a match implies the identifier contains `@` and `.` and has at least five characters |
| `Identifier.MatchesEmailPatternIsSearch` | wasm/login/src/lib.rs:83 | the email predicate holds exactly when some span of the identifier matches `.+@.+\..+`, with no line terminator in the span |
| `Identifier.Classify` | wasm/login/src/lib.rs:83-90 | a pattern match gives Email; otherwise the identifier is a Username, flagged as an invalid email exactly when it contains `@`; Id is never produced |
| `Identifier.EmailContainsAt` | wasm/login/src/lib.rs:83-90 | an identifier classified as Email contains `@` |
| `Identifier.NoDotNoMatch` | wasm/login/src/lib.rs:83 | a string with no `.` never matches the email pattern |
| `Identifier.ClassifyExamples` | wasm/login/src/lib.rs:83-90 | "a@b.co" is an Email; "bob" is a Username; "bob@nodomain" is a Username flagged as an invalid email |
| `Validation.BlankCheck` | wasm/login/src/lib.rs:76-81 | both fields empty, only the identifier empty, and only the password empty each give their own message; no message exactly when both are filled |
| `Validation.SubmitError` | wasm/login/src/lib.rs:76-90 | no error exactly when both fields are filled and an identifier containing `@` matches the email pattern; a malformed email always reports "Invalid email address" |
| `Validation.SubmitErrorVersusPrecedence` | wasm/login/src/lib.rs:76-90 | the code's error equals the blank-first precedence except when the password is blank and the identifier is a malformed email; there the code reports the email error |
| `Validation.InvalidEmailOverridesBlankPassword` | wasm/login/src/lib.rs:79-86 | for "bob@x" with a blank password, the blank check gives the password message but the final error is "Invalid email address" |
| `Validation.BlankIdentifierKeepsBlankMessage` | wasm/login/src/lib.rs:76-90 | an empty identifier always keeps its blank-field message: both-blank or identifier-blank |
| `Validation.AcceptedIdentifierType` | wasm/login/src/lib.rs:83-104 | when no error stops the submission, the request's type is Email exactly when the identifier contains `@`, and Username otherwise |
| `Validation.SubmitErrorExamples` | wasm/login/src/lib.rs:76-90 | the outcomes for ("",""), ("bob",""), ("","pw"), ("bob","pw"), ("bob@nodomain","pw") and ("a@b.co","pw") |
| `View.SelectionOf` | wasm/login/src/lib.rs:30-33 | the update hides the other view's class, shows the selected view's class (sign-up exactly for "new") and uses its heading; the two classes differ |
| `View.PageTitle` | wasm/login/src/lib.rs:30-35 | the title is "Create account - GMT" for `type` "new" and "Sign in - GMT" for every other value, including the empty one |
| `View.RenderOne` | wasm/login/src/lib.rs:37-47 | after the update an element of the shown class lacks `hide`; an element of only the hidden class has it; an element of neither class is unchanged; no class other than `hide` changes |
| `View.Rendered` | wasm/login/src/lib.rs:37-47 | the combined effect of the two loops on the page: as many elements as before, each updated on its own as `RenderOne` states |
| `View.RenderOneIdempotent` | wasm/login/src/lib.rs:37-47 | updating an already-updated element changes nothing |
| `View.RenderedIdempotent` | wasm/login/src/lib.rs:37-47 | updating the page twice with the same query equals updating it once |
| `View.SectionsFollowMode` | wasm/login/src/lib.rs:30-47 | after the update, an element of a single section is visible exactly when its view is selected; an element of both sections is visible; other elements are unchanged |
| `View.ElementsByClassName` | wasm/login/src/lib.rs:37-38 | the collection the loops walk lists, in document order and once each, exactly the elements carrying the class |
| `View.SearchFor` | wasm/login/src/lib.rs:55-59 | the query string is "?type=new" exactly for "signup" and empty otherwise |
| `View.NewUrl` | wasm/login/src/lib.rs:55-59 | the pushed URL is the path plus "?type=new" exactly when the argument is "signup", and the bare path otherwise |
| `View.NewUrlNetworkPath` | wasm/login/src/lib.rs:55-63 | the pushed URL starts with `//`, and so names a host of its own, exactly when the current path does; that is the case where the push at lib.rs:61-63 can be refused for another origin |
| `LoginPage.Document.Update` | wasm/login/src/lib.rs:21-48 | sets the title for the current `type` and leaves the element class lists as the per-element update of the old ones; nothing else changes |
| `LoginPage.Document.AddHide` | wasm/login/src/lib.rs:37-41 | every listed element gains `hide`; no other element changes |
| `LoginPage.Document.RemoveHide` | wasm/login/src/lib.rs:43-47 | every listed element loses `hide`; no other element changes |
| `LoginPage.Document.ChangeState` | wasm/login/src/lib.rs:50-66 | when the browser accepts the push: appends the new URL to the history and sets the query to match it; the selected view is sign-up exactly when the argument is "signup"; then the page is updated as by `Update`. When it refuses (a URL of another origin), the `unwrap` aborts the handler: history, query, title and class lists are unchanged and the page is not updated |
| `LoginPage.Document.Signin` | wasm/login/src/lib.rs:68-106 | on an error: the display shows it and loses `hide`, no request is made and the buttons are untouched; otherwise the display is emptied and hidden, both buttons are busy, and the request carries the exact identifier, password and computed type |
| `LoginPage.Document.DisableButtons` | wasm/login/src/lib.rs:131-145 | both buttons get the disabled flag given, labelled "Signing in..."/"Creating account..." when busy and "Sign in"/"Create account" otherwise |
| `LoginPage.Document.Complete` | wasm/login/src/lib.rs:108-111 | when the request's promise is fulfilled (any HTTP status), both buttons are back to enabled with their resting labels |

## Left out

- The network request is not modelled (wasm/login/src/lib.rs:108-122). `Signin` returns the request value built at lib.rs:100-104; its conversion to a JavaScript value and its sending are not modelled. The fixed endpoint, the JSON header and the promise plumbing are not modelled either.
- `Complete` is the fulfilment handler passed to the one-argument `then` (lib.rs:108-111, 120). A rejected fetch (network failure, abort) is not modelled: the source registers no rejection handler, so after one the buttons stay disabled with their in-progress labels, and nothing in the model restores them.
- Console logging and the JavaScript-value serialisation are left out (lib.rs:109, 116, 119). They are foreign calls with no effect on the page state.
- Query-string parsing is not modelled (lib.rs:25-28). The document holds the query string and the value of its `type` parameter side by side. `Document.Valid` records the two facts the model relies on: an empty query gives "", and `?type=new` gives "new". The constructor establishes it, and `Update`, `ChangeState`, `Signin`, `DisableButtons` and `Complete` each require and keep it. Percent-decoding and queries with other parameters are outside the model.
- The regular-expression engine is replaced by the predicate `Identifier.MatchesEmailPattern` (lib.rs:83). Strings are sequences of Unicode scalar values, not UTF-16 code units. This does not change whether the pattern matches, because `.` matches either half of a surrogate pair.
- Element lookup by id, the `unwrap` and cast calls, and `get_value` are plumbing (lib.rs:23-25, 72-74, 126-129, 133-136). The inputs, the error display and the two buttons are fields of `Document`. The page elements are an array of class lists.
- The allocator setup, the `utils` module and `main` are not part of this model (lib.rs:1, 10-19). `main` only calls `update`.
- `Response` and `ErrorKind` are declared as datatypes (lib.rs:147-164). No code reads them, so there is no behaviour to state.
- `LoginPage.Document.ChangeState`: whether the pushed URL resolves to the page's origin is decided by the browser (the URL is resolved against the document's base URL, which the model does not hold), so the method takes that verdict as its `sameOrigin` argument. A refused push throws and the `unwrap` at lib.rs:61-63 panics; the model stops the handler there with the state unchanged and does not model the panic itself.
- `LoginPage.Document.constructor` assumes the markup's initial state: buttons enabled with resting labels, and an empty, hidden error display. The markup is not part of this model.

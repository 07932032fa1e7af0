# Minexx API documentation: the request builders

This project models the client-side part of the Minexx API documentation page that does real work: the
two ways it builds a request for a catalogued endpoint, and the state around them.

- **The "Try it" form** (`Endpoint`) builds a copyable curl command:
  - it fills the path's `{name}` placeholders from the form with JavaScript's `String.prototype.replace`;
  - it appends `?country=` and the country escaped by `encodeURIComponent`;
  - it writes the command with a fixed header order, and saves the token and the platform in local storage.
- **The API tester dialog** (`ApiTesterModal`):
  - seeds its parameters with `country` and the endpoint's URL and query parameters, and seeds a POST or PUT body
    from the body parameters;
  - sends the unsubstituted path with a `URLSearchParams` query of the truthy parameters;
  - shows the status line and the pretty-printed JSON, or the text, or the error.
- **The application shell** (`App`):
  - owns the dark-mode flag and persists it;
  - opens the dialog configured from the saved credentials;
  - receives the credentials the dialog saves.
- **The page** (`MainContent`):
  - holds the catalogue of 73 endpoints in ten sub-sections;
  - filters them by a case-insensitive search term;
  - keeps the per-section expanded flags. A sub-section with no flag yet counts as expanded.

Modules:

- **Shared definitions:**
  - `Wrappers`: `Option` and `Result`.
  - `Text`: `indexOf`, `includes`, first-occurrence `replace` with the replacement patterns of
    ECMA-262 section 22.1.3.19.1 (GetSubstitution), ASCII `toLowerCase`, decimal digits, `split` and `join`.
  - `OrderedMap`: a JavaScript object as a list of entries in insertion order. Assigning an existing key
    keeps its position.
  - `UrlEncoding`:
    - UTF-8;
    - `encodeURIComponent` (ECMA-262 section 19.2.6.5);
    - the `application/x-www-form-urlencoded` serializer and parser of the URL Standard (sections 5.1 and 5.2),
      with its percent-decode (section 1.3).
  - `Json`: the JSON values held in state, `JSON.stringify` compact and with a two-space indent
    (ECMA-262 section 25.5.2), truthiness, `String(v)`, `Object.entries` and object spread.
  - `Storage`: `localStorage` as a class over a `map<string, string>`.
- **The catalogue:** `Catalogue` holds the ten endpoint arrays and proves them well formed:
  - the methods are known;
  - a body appears only on POST and PUT;
  - the placeholders are exactly the URL parameters;
  - the ids are distinct.
- **The components:** `MainContent`, `EndpointForm`, `ApiTester` and `App`. Each component is a class whose
  fields are the component's state variables. Each handler is a method that states the whole new state against
  a specification function.
- **Comparisons:** `Builders` sets the two builders side by side: which headers and URLs they agree on, and where
  they part.

Three facts about the curl builder shape the model:

- **Placeholders:** `replace` with a string pattern substitutes only the first occurrence of a placeholder.
- **Unfilled placeholders:** a placeholder whose parameter has no value is sent as written; no error is reported.
- **Country:** the country in the query is only what the user types.

## Model

| member | source | states |
|---|---|---|
| Storage.LocalStorage.SetItem | src/App.js:48 | `setItem` overwrites one key and leaves every other item as it was |
| Storage.SavedCredentialsReadBack | src/App.js:37-49 | after saving token and platform, reading them back gives the token and the platform (`3ts` for an empty platform); every other item, the dark-mode flag included, is untouched |
| Storage.BoolText | src/App.js:28 | the flag is stored as the text `true` or `false`, and the text is `true` exactly when the flag holds |
| Storage.DarkModeAfterReload | src/App.js:11-14 | after the flag `v` is persisted, the next start is dark exactly when `v` holds or the system prefers dark |
| App.ConfigFor | src/App.js:33-39 | the dialog configuration carries the endpoint, method and path given, and the stored token (or empty) and platform (or `3ts`) |
| App.ConfigAfterSave | src/App.js:37-49 | a dialog opened after a save starts with the saved token and platform |
| App.AppState.constructor | src/App.js:11-30 | initial dark mode is stored `true` or system preference, that flag is written back, the dialog is hidden with the empty configuration and platform `3ts` |
| App.AppState.SetDarkMode | src/App.js:27-30 | the flag changes and is persisted under `darkMode`; the dialog state is untouched |
| App.AppState.HandleApiTest | src/App.js:32-41 | the configuration is built from the store and the dialog is shown |
| App.AppState.CloseApiTesterModal | src/App.js:43-45 | only hides the dialog |
| App.AppState.SaveTesterData | src/App.js:47-50 | the store gains exactly the token and platform items |
| Text.IndexOf | src/components/Endpoint.js:70 | the position found is an occurrence and no earlier one exists; none means no occurrence at all |
| Text.ReplaceFirst | src/components/Endpoint.js:70 | without a match the string is unchanged; with one and no `$` in the replacement, exactly the first occurrence is replaced |
| Text.ExpandMatched | src/components/Endpoint.js:70 | the replacement `$&` inserts the matched text again |
| Text.Lower | src/components/MainContent.js:710-712 | lower-casing keeps the length, leaves no upper-case ASCII letter, and keeps or shifts each character to its lower-case partner; other characters stay |
| Text.LowerIdempotent | src/components/MainContent.js:710-712 | lower-casing twice is lower-casing once |
| Text.DecimalRoundTrip | src/components/ApiTesterModal.js:128 | the decimal text of the status reads back as the status |
| Text.SplitJoin | src/components/ApiTesterModal.js:98 | splitting a `&`-joined list of `&`-free pieces gives the pieces back |
| OrderedMap.Get | src/components/Endpoint.js:68 | a key is found exactly when it is among the keys, with a value it carries |
| OrderedMap.Put | src/components/ApiTesterModal.js:56-59 | assigning a key keeps the key order, appending the key only when it is new |
| OrderedMap.GetPut | src/components/ApiTesterModal.js:56-59 | after assigning `k`, `k` reads the new value and every other key its old one |
| OrderedMap.PutKeepsKeysUnique | src/components/ApiTesterModal.js:56-59 | assignment never duplicates a key |
| UrlEncoding.UriEncodedChars | src/components/Endpoint.js:80 | the escaped country holds only unreserved characters and `%` |
| UrlEncoding.FormEncodedChars | src/components/ApiTesterModal.js:98 | the serialized text holds only form-safe characters, `%` and `+`, so never `&` or `=` |
| UrlEncoding.UriComponentRoundTrip | src/components/Endpoint.js:80 | percent-decoding the escaped text gives back the UTF-8 of the original |
| UrlEncoding.SerializeForm | src/components/ApiTesterModal.js:89-98 | the query string is empty exactly when no pair is appended |
| UrlEncoding.QueryRoundTrip | src/components/ApiTesterModal.js:89-98 | a server parsing the query string reads back exactly the appended pairs, in order |
| UrlEncoding.EncodersAgreeIff | src/components/ApiTesterModal.js:98 | the two escapers agree on a text exactly when it holds none of space, `!`, `'`, `(`, `)`, `~` |
| Json.ObjectEntries | src/components/ApiTesterModal.js:92 | `Object.entries` fails exactly on `null` and gives an object's members in order |
| Json.IndexedLookup | src/components/ApiTesterModal.js:92 | the entries of an array or a string have distinct keys `0`, `1`, ..., and the key of index `i` reads back the `i`-th element |
| Json.Quote | src/components/Endpoint.js:50 | a stringified text is enclosed in double quotes |
| Json.BlankObjectShape | src/components/ApiTesterModal.js:41-46 | the object's keys are the names once each, in first-seen order, all holding `""` |
| Json.BlankObjectUnique | src/components/ApiTesterModal.js:41-46 | no key appears twice in the seeded object |
| Json.BlankBodyText | src/components/Endpoint.js:49-51 | the pretty body is `{`, one `"name": ""` line per distinct name joined by `,` and two-space indent, and `}` |
| Catalogue.AssessmentEndpointsWellFormed | src/components/MainContent.js:24-59 | every assessment endpoint is well formed |
| Catalogue.CompanyEndpointsWellFormed | src/components/MainContent.js:62-179 | every company endpoint is well formed |
| Catalogue.ExportEndpointsWellFormed | src/components/MainContent.js:182-245 | every export endpoint is well formed |
| Catalogue.IncidentEndpointsWellFormed | src/components/MainContent.js:248-292 | every incident endpoint is well formed |
| Catalogue.IntegrationEndpointsWellFormed | src/components/MainContent.js:295-317 | every integration endpoint is well formed |
| Catalogue.MineEndpointsWellFormed | src/components/MainContent.js:320-388 | every mine endpoint is well formed |
| Catalogue.OverviewReportEndpointsWellFormed | src/components/MainContent.js:391-428 | every overview-report endpoint is well formed |
| Catalogue.PurchaseEndpointsWellFormed | src/components/MainContent.js:431-456 | every purchase endpoint is well formed |
| Catalogue.ReportingEndpointsWellFormed | src/components/MainContent.js:459-598 | every reporting endpoint is well formed |
| Catalogue.UserManagementEndpointsWellFormed | src/components/MainContent.js:601-703 | every user-management endpoint is well formed |
| Catalogue.CatalogueWellFormed | src/components/MainContent.js:24-703 | every endpoint is well formed and no two endpoints, in one sub-section or across two, share an id |
| MainContent.FilterEndpoints | src/components/MainContent.js:706-714 | an empty search term keeps the list as it is |
| MainContent.FilterMembers | src/components/MainContent.js:706-714 | for a non-empty term, an endpoint is kept exactly when its lower-cased path, description or method includes the lower-cased term |
| MainContent.FilterIsSubsequence | src/components/MainContent.js:709-713 | the result keeps the catalogue order: it is a subsequence of the input |
| MainContent.FilterIdempotent | src/components/MainContent.js:706-714 | filtering twice by the same term is filtering once |
| MainContent.FilterCaseInsensitive | src/components/MainContent.js:710-712 | terms that lower-case alike filter alike |
| MainContent.Toggled | src/components/MainContent.js:16-21 | the section's flag becomes the negation of its old value, a missing one counting as false; every other flag is kept |
| MainContent.ToggleTwiceRestores | src/components/MainContent.js:16-21 | toggling a flagged section twice restores the flags |
| MainContent.FirstToggleKeepsExpanded | src/components/SubSection.js:5 | an unflagged section shows expanded, still shows expanded after the first toggle, and collapses at the second |
| MainContent.SectionToggles.constructor | src/components/MainContent.js:14 | no section is flagged at first |
| MainContent.SectionToggles.ToggleSection | src/components/MainContent.js:16-21 | the flags become the toggled flags |
| EndpointForm.InitialFormData | src/components/Endpoint.js:10-16 | the form starts with the stored token (or empty) and platform (or `3ts`), and an empty country, URL parameters and body |
| EndpointForm.EndpointView.constructor | src/components/Endpoint.js:7-17 | the form is closed, holds the initial form data and has no curl command |
| EndpointForm.WithInput | src/components/Endpoint.js:19-37 | a `urlParam_` input sets only that URL parameter; any other input sets only its own field |
| EndpointForm.EndpointView.HandleInputChange | src/components/Endpoint.js:19-37 | the form data becomes the updated form data; visibility and the curl command are kept |
| EndpointForm.OpenedFormData | src/components/Endpoint.js:44-52 | an opened form holds the stored credentials, an empty country and URL parameters, and the body template, `{}` when there are no body parameters |
| EndpointForm.BodyTemplateLines | src/components/Endpoint.js:49-51 | for distinct plain names the template is exactly `{`, one `"name": ""` line per parameter in order, and `}` |
| EndpointForm.EndpointView.HandleTryIt | src/components/Endpoint.js:39-55 | the form's visibility flips; opening resets the form data and the curl command, closing keeps both |
| EndpointForm.EndpointView.HandleTestApi | src/components/Endpoint.js:57-59 | the shell is configured for this endpoint, its method and its path, and shows the dialog |
| EndpointForm.UnfilledLeavesPath | src/components/Endpoint.js:66-73 | parameters with no or an empty value leave the path as written |
| EndpointForm.FillsFirstPlaceholder | src/components/Endpoint.js:67-72 | a non-empty value without `$` replaces the first placeholder of its parameter |
| EndpointForm.DollarAmpersandKeepsPlaceholder | src/components/Endpoint.js:70 | the value `$&` puts the placeholder back, so the path keeps it |
| EndpointForm.WellFormedPathFilled | src/components/Endpoint.js:63-73 | for a well-formed endpoint whose parameters all have brace-free values, no placeholder is left |
| EndpointForm.ProcessPath | src/components/Endpoint.js:63-73 | the loop over the URL parameters in declared order computes the substituted path |
| EndpointForm.BuildCurlUrl | src/components/Endpoint.js:75-85 | the pushed query parameters, joined with `&` behind `?`, give the curl URL |
| EndpointForm.CurlUrl | src/components/Endpoint.js:76-85 | with no country the URL is base plus path, with nothing appended |
| EndpointForm.CountryQueryReadsBack | src/components/Endpoint.js:79-85 | a server parsing the query text reads back exactly one pair, `country` and the typed country |
| EndpointForm.CurlHeaders | src/components/Endpoint.js:88-97 | four headers when a body is sent, three otherwise |
| EndpointForm.CurlTextRendered | src/components/Endpoint.js:88-97 | the command is the curl line, the authorization, refresh and platform headers in that order, and `Content-Type` plus `-d` exactly for a POST or PUT with a non-empty body |
| EndpointForm.BuildCurlText | src/components/Endpoint.js:87-97 | the appended lines give the rendered curl text |
| EndpointForm.EndpointView.GenerateCurl | src/components/Endpoint.js:61-104 | the curl command is the text for the substituted path and the country query, the store gains the form's token and platform, and the form is kept |
| ApiTester.BlankAllButObject | src/components/ApiTesterModal.js:21-25 | a `forEach` that blanks every name but one already-blank name gives the object of all names blanked in order |
| ApiTester.AddBlanks | src/components/ApiTesterModal.js:21-25 | adding the blank parameters one by one, skipping `country`, gives the seeded object |
| ApiTester.InitialParams | src/components/ApiTesterModal.js:17-37 | the parameters are `country`, then the URL parameters, then the query parameters, each once and empty |
| ApiTester.InitialBody | src/components/ApiTesterModal.js:41-47 | the body holds each body parameter once, empty |
| ApiTester.SeededParams | src/components/ApiTesterModal.js:17-37 | the seeded keys are the distinct names, `country` comes first, no key is duplicated |
| ApiTester.QueryPairsMembers | src/components/ApiTesterModal.js:92-96 | every truthy parameter is appended with its text, and every appended pair comes from a truthy parameter |
| ApiTester.NoTruthyNoPairs | src/components/ApiTesterModal.js:92-96 | with no truthy parameter nothing is appended |
| ApiTester.QueryString | src/components/ApiTesterModal.js:89-98 | the loop computes the serialized query of the truthy parameters |
| ApiTester.TesterUrlQuery | src/components/ApiTesterModal.js:88-101 | the URL is base plus the path as written, plus `?` and a query that parses back to the truthy parameters exactly when there is one |
| ApiTester.BuildUrl | src/components/ApiTesterModal.js:88-101 | the URL assembled from the query string is the tester URL |
| ApiTester.BuildHeaders | src/components/ApiTesterModal.js:108-117 | the header object assembled key by key is the tester's header list |
| ApiTester.TesterHeaders | src/components/ApiTesterModal.js:108-117 | `Authorization` is `Bearer ` plus the token, `x-refresh` the refresh placeholder and `x-platform` the platform; `Content-Type` is `application/json` for POST and PUT and absent otherwise; no header is named twice; four headers for POST and PUT, three otherwise |
| ApiTester.RequestFor | src/components/ApiTesterModal.js:88-124 | the request goes to the tester URL with the tester headers and the configured method, and carries a compact JSON body and `Content-Type` exactly for POST and PUT |
| ApiTester.OutputShowsStatus | src/components/ApiTesterModal.js:128-140 | the output starts with `Status: ` exactly when a response was read, and its digits then read back the status code |
| ApiTester.ApiTesterModal.constructor | src/components/ApiTesterModal.js:5-51 | the dialog starts with the configured credentials, the seeded parameters, the seeded body for POST and PUT (empty otherwise), the placeholder output and not loading |
| ApiTester.ApiTesterModal.SetToken | src/components/ApiTesterModal.js:8 | only the token changes |
| ApiTester.ApiTesterModal.SetPlatform | src/components/ApiTesterModal.js:9 | only the platform changes |
| ApiTester.ApiTesterModal.HandleParamChange | src/components/ApiTesterModal.js:54-60 | the parameters become the spread of the old ones with one key assigned; nothing else changes |
| ApiTester.ApiTesterModal.HandleJsonParamsChange | src/components/ApiTesterModal.js:63-71 | parsed text replaces the parameters, text that fails to parse keeps them |
| ApiTester.ApiTesterModal.HandleBodyChange | src/components/ApiTesterModal.js:74-82 | parsed text replaces the body, text that fails to parse keeps it |
| ApiTester.ComposeRequest | src/components/ApiTesterModal.js:88-124 | the options built step by step are `RequestFor`'s: the tester URL, the tester headers, the configured method and a compact JSON body exactly for POST and PUT |
| ApiTester.ApiTesterModal.BeginExecute | src/components/ApiTesterModal.js:84-104 | the credentials are saved first; `null` parameters stop there; otherwise loading starts, the output reads `Loading...` and the request is built |
| ApiTester.ApiTesterModal.CompleteExecute | src/components/ApiTesterModal.js:126-143 | the output shows the outcome and loading ends |
| ApiTester.ApiTesterModal.Execute | src/components/ApiTesterModal.js:84-144 | a request is made exactly when the parameters are not `null`; then the output shows its outcome; loading always ends |
| Builders.TesterHeaderTexts | src/components/ApiTesterModal.js:108-117 | the tester's headers, written as `name: value`, are the curl headers of a command that sends a body exactly for POST and PUT |
| Builders.SameHeadersUnlessEmptyBody | src/components/ApiTesterModal.js:108-117 | the tester's headers and the curl headers are the same list exactly unless a POST or PUT has an empty body text |
| Builders.CountryQueriesAgreeIff | src/components/Endpoint.js:80 | the curl country query equals the tester's exactly when the country holds none of space, `!`, `'`, `(`, `)`, `~` |
| Builders.SameUrlIff | src/components/Endpoint.js:76-85 | for an endpoint without URL parameters and only a country, both builders produce the same URL exactly under that condition |
| Builders.MineCurlUrl | src/components/Endpoint.js:63-76 | for `get-mine` with `id` 42 the curl URL is the base plus `/mines/42` |
| Builders.MineTesterUrl | src/components/ApiTesterModal.js:88-101 | for `get-mine` with `id` 42 the tester URL is the base plus `/mines/{id}?id=42`: the placeholder stays and `id` goes to the query |
| Builders.MineSeed | src/components/ApiTesterModal.js:17-25 | the tester seeds `get-mine` with `country` and `id`, both empty |

## Left out

- The network: `fetch` and the reading of the response are not modelled. `ApiTester.ApiTesterModal.Execute` takes
  what came back as an `Outcome` parameter. A failed fetch gives a message. A response gives a status, a reason,
  the result of `json()` and the result of `text()`.
- Reading the text after `json()` failed: in a browser `text()` then finds the body used and rejects, which ends in
  `Error: ...`. The model follows the code's structure and leaves that result to the `Outcome`.
- `JSON.parse`: the handlers for the two text areas take the parse result as an `Option<Json>`. `None` stands for
  text that does not parse.
- Numbers: a number is kept as the text JavaScript prints for it. Floating point is not modelled.
- Asynchrony: one execution is split into `BeginExecute` and `CompleteExecute`.
  - `ApiTester.ApiTesterModal.BeginExecute`: requires that no execution is running. This stands for the disabled
    Execute button (src/components/ApiTesterModal.js:232). Overlapping executions are not modelled.
- `EndpointForm.EndpointView.HandleInputChange`: requires that the input name is one that the form renders. These
  are `token`, `platform`, `country`, `bodyContent` and `urlParam_` names. Other names would add properties to the
  form object, and the form data type has no room for them.
- React's effects run once, at construction:
  - the dialog's seeding when `endpoint` or `method` changes under an open dialog is not modelled;
  - the shell's dark-mode effect is folded into `SetDarkMode`.
- Unicode:
  - JavaScript strings are UTF-16, and a lone surrogate makes `encodeURIComponent` throw. Dafny strings hold only
    scalar values, so that case is not modelled.
  - `toLowerCase` is modelled for ASCII letters only.
- JavaScript object key order: integer-like keys (`"0"`, `"1"`, ...) come before other keys in JavaScript. The
  model keeps every key in insertion order. The `__proto__` key is not treated specially.
- The DOM and the system:
  - `document.body.classList` is not modelled;
  - `window.matchMedia` becomes the `prefersDark` parameter;
  - the search box state (`searchTerm`) becomes the filter's term parameter.
- UI plumbing is not part of this model:
  - rendering;
  - closing on an outside click;
  - the header, sidebar and code-block components;
  - the notes, tips and parameter descriptions of the catalogue.
- The catalogue lemmas state facts about the data; they do not print the arrays' exact literal text.

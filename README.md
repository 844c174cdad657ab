# cscs.dev member-area logic, modelled in Dafny

This project models the small amount of self-contained logic in the cscs.dev site's components, leaving out the markup:

- **Avatar initials** (`getInitials`, in the site header and, in a copy identical up to quote style, in the member-area layout). A name is trimmed and split on runs of white space. Two or more words give the upper-cased first characters of the first and last words. Otherwise the first two characters of the untrimmed name are used, then those of the email, then `"??"`.
- **Display fallbacks**:
  - the label beside the avatar is `name || email`, and its alternative text adds `"User"` as a last fallback;
  - the layout computes an `isModerator` flag, true iff the role is exactly `"moderator"`;
  - a sidebar item is marked current when the path is exactly its href.
- **Registration form**: an ordered validator (a mismatch is reported before a short password), then a register call and, only if that succeeds, a login call.
- **Event editor form**:
  - default field values and the field-wise fallback applied to a loaded record;
  - single-field edits;
  - update when an event id is given, create otherwise;
  - the `error`, `isLoading` and `isLoadingEvent` flags.
- **Backend URL resolution**: a truthy override, else the production URL when built for production, else the local development URL.

Files and modules:

- `js.dfy` (`Js`): optional values and truthiness, `||` on strings, the outcome of an awaited call, and `err instanceof Error ? err.message : fallback`.
- `js_string.dfy` (`JsString`):
  - the ECMAScript white-space set shared by `trim()` and `\s`;
  - ASCII `toUpperCase`, `slice(0, n)`, `trim()` and `split(/\s+/)`;
  - lemmas about where `split` puts the first and last pieces.
- `pocketbase.dfy` (`PocketBase`): the base-URL rule, the user record and the register/login payloads.
- `header.dfy` (`Header`): `getInitials` and the label and alternative-text fallbacks.
- `app_layout.dfy` (`AppLayout`): the moderator flag, the sidebar's current item, and the footer label and initials.
  - The footer calls `Header.GetInitials`, because the layout's private copy is identical up to quote style (`"??"` against `'??'`) and so behaves the same.
- `register_form.dfy` (`RegisterForm`): the validator as a function, and a `Form` class whose `HandleSubmit` method changes the form's state step by step.
- `event_form.dfy` (`EventForm`): the event record, its fields, defaults and record loading, and a `Form` class with `LoadEvent`, `Mount`, `HandleSubmit` and `HandleChange`.

How the outside world is modelled:

- Calls into the PocketBase SDK are not executed. Each component keeps a `requests` log of the calls it makes, in order.
- The outcome of each call is a parameter: a value, or a thrown `Error` or other value.
- The build environment (`PUBLIC_POCKETBASE_URL`, `PROD`) is a parameter of the URL rule.

## Model

| member | source | states |
|---|---|---|
| Js.Or | src/components/Header.tsx:85 | `a \|\| b` on optional strings yields the first operand when truthy, else the second; the result is truthy iff either operand is |
| Js.Truthy | src/components/Header.tsx:17 | a string-typed value is truthy iff it is present and not empty; this is the test of every `if (name)`, `if (email)` and `\|\|` in the components, so `""` is falsy like an absent value |
| Js.CaughtMessage | src/components/RegisterForm.tsx:48-49 | a caught `Error` contributes its own message; any other thrown value gives the fallback text |
| Js.Utf16Length | src/components/RegisterForm.tsx:26 | JavaScript's `length` counts UTF-16 code units: between the character count and twice it, and equal to it for text in the Basic Multilingual Plane |
| JsString.ToUpperCase | src/components/Header.tsx:20 | upper-casing keeps the length and maps every character independently |
| JsString.Prefix | src/components/Header.tsx:22 | `slice(0, n)` is a prefix of length n, or the whole string when it is shorter |
| JsString.IsSpace | src/components/Header.tsx:18 | the ECMAScript WhiteSpace and LineTerminator code points, the set both `trim()` and `\s` remove or match; each is one UTF-16 code unit and none is an ASCII letter or digit |
| JsString.SpaceEnd | src/components/Header.tsx:18 | the end of the white-space run starting at an index: everything skipped is white space and the next character is not |
| JsString.WordEnd | src/components/Header.tsx:18 | the end of the word starting at an index: nothing skipped is white space and the next character is |
| JsString.SpaceStart | src/components/Header.tsx:18 | the start of the white-space run ending at an index, bounded below |
| JsString.Trim | src/components/Header.tsx:18 | `trim()` returns an infix with white space only outside it and none at its edges |
| JsString.Split | src/components/Header.tsx:18 | `split(/\s+/)` returns at least one piece, the first being everything before the first white space |
| JsString.LastWordStart | src/components/Header.tsx:20 | the index just after the last white space is the unique index past which no white space occurs |
| JsString.SplitCount | src/components/Header.tsx:18-19 | a string splits into two or more pieces exactly when it contains white space |
| JsString.SplitFirst | src/components/Header.tsx:20 | for a string not starting with white space, the first piece is non-empty and begins with the string's first character |
| JsString.SplitLast | src/components/Header.tsx:20 | the last piece is exactly the suffix after the last white-space character |
| JsString.SplitFromLast | src/components/Header.tsx:18-20 | splitting from any index, the last piece is the suffix after the last white space, or the whole remainder when none follows |
| JsString.SplitFromPiecesNonEmpty | src/components/Header.tsx:18-20 | splitting from a non-white-space position of a string that does not end in white space yields only non-empty pieces |
| JsString.SplitPiecesNonEmpty | src/components/Header.tsx:18-20 | a trimmed non-empty string splits into non-empty pieces, so `parts[0][0]` and `parts[parts.length - 1][0]` exist |
| Header.WordInitials | src/components/Header.tsx:19-20 | for a trimmed name with white space, the initials are its upper-cased first character and the character after its last white space |
| Header.GetInitials | src/components/Header.tsx:16-28 | the initials always have one or two characters |
| Header.InitialsOfSeveralWords | src/components/Header.tsx:17-21 | a non-empty name whose trimmed form has two or more words gives exactly two initials, whatever the email: first word's and last word's first characters, upper-cased |
| Header.InitialsOfOneWord | src/components/Header.tsx:18-22 | a non-empty name that trims to one word or none gives the first two characters of the untrimmed name, upper-cased |
| Header.LeadingSpaceKept | src/components/Header.tsx:22 | a one-word name with two leading blanks (such as "  Bob") gives those two blanks |
| Header.BlankNameGivesBlanks | src/components/Header.tsx:17-22 | an all-white-space name gives its first one or two blanks and never "??", and the email is ignored |
| Header.LeadingBlanksExample | src/components/Header.tsx:22 | "  Bob" gives two blanks |
| Header.BlankNameExample | src/components/Header.tsx:17-22 | a three-blank name gives two blanks even when an email is present |
| Header.TwoWordExample | src/components/Header.tsx:18-20 | " ada  lee " gives "AL" |
| Header.InitialsFallbacks | src/components/Header.tsx:17-27 | a truthy name makes the email irrelevant; otherwise a truthy email gives its first two characters upper-cased; with neither the result is exactly "??" |
| Header.AvatarInitials | src/components/Header.tsx:33 | the header avatar's initials have one or two characters, and are "??" when there is no user |
| Header.DisplayLabel | src/components/Header.tsx:85 | the label is the name when it is non-empty, else the email; absent when there is no user |
| Header.AvatarAlt | src/components/Header.tsx:82 | the alternative text is the non-empty name, else the non-empty email, else "User", and is never empty |
| AppLayout.IsModerator | src/components/AppLayout.tsx:74 | true iff there is a user whose role is exactly "moderator"; an absent user or any other role gives false |
| AppLayout.Href | src/components/AppLayout.tsx:106-116 | each sidebar item links to a non-empty absolute path |
| AppLayout.IsCurrent | src/components/AppLayout.tsx:106-116 | an item is current iff the current path equals its href exactly |
| AppLayout.AtMostOneCurrent | src/components/AppLayout.tsx:106-116 | two current items are the same item, and an absent path makes no item current |
| AppLayout.FooterLabel | src/components/AppLayout.tsx:133 | the footer label is the name when non-empty, else the email |
| AppLayout.FooterInitials | src/components/AppLayout.tsx:164-176 | the footer's initials have one or two characters and are "??" without a user |
| AppLayout.FooterAgreesWithHeader | src/components/AppLayout.tsx:128-133 | for every user the footer shows the same initials and label as the header |
| PocketBase.PocketBaseUrl | src/lib/pocketbase.ts:6-19 | a truthy override is returned verbatim; otherwise production gives https://api.cscs.dev and development gives http://localhost:8080; never empty |
| PocketBase.OverridePrecedence | src/lib/pocketbase.ts:8-18 | an empty override resolves as an absent one; with a set override the production flag is irrelevant; without one the result is one of the two fixed URLs |
| PocketBase.NameOf | src/components/Header.tsx:33 | `user?.name` is absent without a user |
| PocketBase.EmailOf | src/components/Header.tsx:33 | `user?.email` is present exactly when a user is |
| RegisterForm.Validate | src/components/RegisterForm.tsx:21-29 | mismatched passwords give the mismatch message; matching ones shorter than 8 code units give the length message; the input passes iff the passwords match and have at least 8 code units |
| RegisterForm.ValidationOrder | src/components/RegisterForm.tsx:21-29 | a mismatch is reported as such even when the passwords are also short; exactly 8 code units pass and 7 fail |
| RegisterForm.Registration | src/components/RegisterForm.tsx:35-40 | email and both passwords pass through unchanged; an empty name becomes undefined, a non-empty one is kept |
| RegisterForm.Form.constructor | src/components/RegisterForm.tsx:9-14 | all inputs and the error start empty, not loading, no requests |
| RegisterForm.Form.HandleSubmit | src/components/RegisterForm.tsx:16-54 | invalid input: the validation message is set, no request, loading flag untouched; valid input: register with the mapped payload, then login only if register succeeded; the error is cleared on success or is the failing call's message; loading ends false |
| EventForm.Default | src/components/EventForm.tsx:28-38 | time zone "CST", type "meetup", every other field "" |
| EventForm.InitialData | src/components/EventForm.tsx:28-38 | every field of the initial form holds its default |
| EventForm.WithField | src/components/EventForm.tsx:96-98 | the chosen field gets the new value and every other field is unchanged |
| EventForm.FieldOrDefault | src/components/EventForm.tsx:53-61 | a present non-empty loaded value is kept, anything else falls back to the field's default |
| EventForm.FromRecord | src/components/EventForm.tsx:52-62 | each field of the loaded form is the record's value if non-empty, else the field's default |
| EventForm.ToRecord | src/components/EventForm.tsx:78-81 | the submitted record has exactly the form's fields with their values |
| EventForm.LoadEmptyRecord | src/components/EventForm.tsx:53-61 | loading a record with no usable fields yields the initial form |
| EventForm.LoadSavedData | src/components/EventForm.tsx:52-62 | loading what the form submits gives the same data iff its time zone and type are non-empty |
| EventForm.ReloadIsStable | src/components/EventForm.tsx:52-62 | submitting loaded data and loading it again changes nothing |
| EventForm.SubmitLabel | src/components/EventForm.tsx:220 | "Saving..." while loading, else "Update Event" with an event id, else "Create Event" |
| EventForm.SaveRequest | src/components/EventForm.tsx:76-82 | a truthy event id selects an update of that event, otherwise a creation; never both |
| EventForm.LabelNamesRequest | src/components/EventForm.tsx:76-82 | when not saving, the button reads "Update Event" exactly when a submit sends an update and "Create Event" exactly when it sends a creation |
| EventForm.Form.constructor | src/components/EventForm.tsx:28-41 | default data, no error, not saving, and the event-loading flag set iff a truthy event id is given |
| EventForm.Form.LoadEvent | src/components/EventForm.tsx:49-68 | one fetch of the event; success loads the record with fallbacks, failure sets the load error and keeps the data; the event-loading flag ends false |
| EventForm.Form.Mount | src/components/EventForm.tsx:43-47 | with an event id exactly one getOne of that id is logged, the form takes the record's fields with their fallbacks on success, or keeps its data and shows the caught message on failure, and the loading flag ends false; without one nothing changes |
| EventForm.Form.HandleSubmit | src/components/EventForm.tsx:70-94 | exactly one request (update with an id, else create) with the current data; the error ends cleared on success or the failure's message; loading ends false |
| EventForm.Form.HandleChange | src/components/EventForm.tsx:96-98 | one field set, all others unchanged |

## Left out

- The SDK calls (`register`, `login`, `logout`, `getOne`, `create`, `update`, password reset and verification requests) are not executed. Components log the requests they make and receive each call's outcome as a parameter.
- `window.location.href` redirects and the `onSuccess` callback after a save are not modelled. They are navigation, with no state of the form's own.
- Intermediate flag values are not recorded. For example, `isLoading` is `true` while a request is in flight, but only the state when each handler finishes is stated.
- React's batching and re-rendering of `useState` updates is not modelled. Each handler is one atomic step whose final state is that of its last update.
- JavaScript strings are UTF-16 code units, while Dafny strings here are Unicode scalar values. `slice`, `[0]` and upper-casing work per character in the model, so an astral character is not split into surrogate halves as the source would split it. Password length alone is counted in UTF-16 code units.
- JsString.ToUpperCase: maps only ASCII `a`-`z`. Full Unicode case mapping, which can change a string's length (for example `"ß"` to `"SS"`), is not modelled.
- EventForm.LoadSavedData and EventForm.ReloadIsStable: assume the backend's `getOne` returns every submitted field verbatim; any normalisation the server applies (of dates, say) is not modelled.
- Loaded event records are modelled as maps from field to string. Fields holding `null`, `0` or other non-string falsy values are represented by leaving the key out.
- The auth-state hook (`src/stores/authStore.ts`), `onAuthChange`, `getCurrentUser`, `isAuthenticated`, the login form and the account dashboard are not part of this model. They are thin delegation to the SDK and React lifecycle code.
- `autoCancellation(false)` is not part of this model. It only configures the SDK's handling of concurrent requests.
- Markup, styling, the mobile menu flag and the static marketing sections are not part of this model.

# Upsera submission pipeline, in Dafny

This project models the part of the Upsera marketing site that has behaviour
one can state: how submissions are handled, and how the header decides which
navigation link is active.

- **The contact endpoint** (`POST /api/contact`). It checks the method, the
  three required fields and the e-mail shape, in that order. It then trims
  and caps each field and lower-cases the address. It builds one e-mail
  provider call, with a plain-text body, and turns the provider's answer into
  a 200 or 500 reply.
- **The lead endpoint** (`POST /api/leads`). It makes the same kind of checks
  and acknowledges every valid lead. It stores nothing.
- **The two browser forms.** These are the landing page's contact section
  and the lead form component. Each holds a draft, a submitting flag, a
  submitted flag and an error banner. Each form's submit handler reads the
  relay settings, sends the form once, and then settles to success or to an
  error text.
- **The header.** It sets a `scrolled` flag from the scroll offset. It picks
  the active in-page section: the last section in view, in navigation order.
  It also answers `isActive` for each navigation link.

The modules follow the program. Here is what each one holds.

- `JsString` has the JavaScript string operations the code relies on:
  truthiness, `trim`, `slice(0, n)`, `toLowerCase` and `String(n)`.
- `EmailFormat` has the address pattern both endpoints use. A hand-written
  check is proved to accept exactly the pattern's language.
- `Http` has the JSON reply.
- `ContactApi` and `LeadsApi` have the two route handlers.
- `Relay` has the relay settings and what a send settles to.
- `Landing` has the contact section of `pages/index.js`.
- `LeadCapture` has `components/LeadForm.js`.
- `Navigation` has `components/Header.js`.

The server handlers are pure functions. Their inputs are the method, the body
and, for the contact route, the mail settings (`MailConfig`: the
`CONTACT_EMAIL` and `FROM_EMAIL` environment variables) and the provider's
result.

The forms are modelled twice.

- **A pure state model.** `Form` holds the state. `Begin`, `Settled` and
  `AfterSubmit` give the state after each part of the submit handler. `Step`
  and `Run` apply whole user events.
- **A class.** Its fields are the component's state cells.
  `BeginSubmit`, `Settle` and `HandleSubmit` are proved to leave exactly
  the state that `Begin`, `Settled` and `AfterSubmit` give. `ClickSubmit`
  follows `Begin` behind the button's gate. `SendAnother`, `DismissError`
  and the `Edit*` methods are the raw handlers. Each is proved to change
  its one field and nothing else. `Step` adds what the raw handlers do
  not: which view is on screen. An event of the hidden view does nothing
  in `Step`.

The header's loop is a method, `ScanSections`, proved equal to a recursive
reference definition.

Some behaviour one might expect of these forms and routes does not hold in
the code. The model follows the code:

- The contact route's text for a malformed address is "Please enter a valid
  email address". It is not the lead route's "Invalid email format".
- Editing a field does not dismiss the error banner. A click on the banner
  clears it, and so does the start of the next submission.
- Sanitising twice does not always give the same result. It does for the
  address. It does for a name or message whose trimmed form fits the cap.
  It fails when the 100-character or 5,000-character cut ends on
  whitespace: see `ContactApi.ResanitiseNameNotStable` and
  `ContactApi.ResanitiseMessageNotStable`.

The proofs also record two consequences of the code:

- A required field made only of whitespace counts as present. It is then sent
  empty: see `ContactApi.BlankFieldsAreSent`.
- A well-formed address longer than 254 characters can lose its domain when
  it is cut. The reply-to address is then malformed: see
  `ContactApi.LongAddressLosesDomain`.

## Model

| member | source | states |
|---|---|---|
| JsString.LeadingWhitespace | pages/api/contact.js:42-44 | the count of leading characters that `trim` removes: all of them are whitespace, and the next one is not |
| JsString.TrailingWhitespaceStart | pages/api/contact.js:42-44 | where the trailing whitespace that `trim` removes begins: everything from there on is whitespace, and the character before it is not |
| JsString.Trim | pages/api/contact.js:42-44 | `trim` gives a slice of its input with only whitespace on either side of it; the result neither starts nor ends with whitespace |
| JsString.TrimSurrounded | pages/api/contact.js:42-44 | whitespace around a word with visible ends is exactly what `trim` removes |
| JsString.TrimNoWhitespace | pages/api/contact.js:33-43 | trimming a string that has no whitespace, like any address that passed the shape check, changes nothing |
| JsString.TrimAllWhitespace | pages/api/contact.js:25-44 | a whitespace-only string trims to the empty string |
| JsString.TrimIdempotent | pages/api/contact.js:42-44 | trimming twice is the same as trimming once |
| JsString.Take | pages/api/contact.js:42-44 | `slice(0, n)` is a prefix of its input, of length min(length, n) |
| JsString.LowerChar | pages/api/contact.js:43 | lower-casing maps A-Z to a-z, 32 code points up, and leaves every other character alone |
| JsString.ToLowerCase | pages/api/contact.js:43 | `toLowerCase` keeps the length, lower-cases each character in place, and leaves no upper-case letter |
| JsString.NatToDecimal | pages/index.js:310 | `String(status)` is a non-empty string of decimal digits with no leading zero |
| JsString.DecimalRoundTrip | pages/index.js:310 | reading the rendered digits back gives the status again |
| EmailFormat.IndexOf | pages/api/contact.js:33 | the position of the first occurrence of a character, or the length when there is none |
| EmailFormat.IsValidEmail | pages/api/contact.js:33-34 | an accepted address has no whitespace, contains '@' and is at least 5 characters long |
| EmailFormat.ValidEmailMatches | pages/api/contact.js:33-39 | every address the hand-written check accepts matches `^[^\s@]+@[^\s@]+\.[^\s@]+$` |
| EmailFormat.PatternIsValidEmail | pages/api/contact.js:33-39 | every string the pattern matches passes the hand-written check |
| EmailFormat.ShapeIsValid | pages/api/contact.js:33-39 | one '@' after a non-empty part, a '.' with text on both sides of it, and plain characters everywhere else pass the check |
| EmailFormat.ValidEmailIffPattern | pages/api/leads.js:17-20 | the check used by both routes accepts exactly the strings the pattern matches, in both directions |
| EmailFormat.ComposedAddressIsValid | pages/api/contact.js:33-39 | run, '@', run, '.', run, each run free of whitespace and '@', is always accepted |
| EmailFormat.AcceptsPlainAddress | pages/api/contact.js:33-39 | "a@b.co" is accepted |
| EmailFormat.WithoutAtIsInvalid | pages/api/contact.js:33-39 | a string without '@' is never accepted |
| EmailFormat.RejectsWithoutAt | pages/api/contact.js:33-39 | "not-an-email" is refused |
| ContactApi.Inbox | pages/api/contact.js:7 | the recipient is CONTACT_EMAIL when it is set and not empty, else the placeholder address |
| ContactApi.Sender | pages/api/contact.js:10 | the sender is FROM_EMAIL when it is set and not empty, else the provider's default sender |
| ContactApi.SanitizeName | pages/api/contact.js:42 | the sanitised name is a prefix of the trimmed name, with length min(trimmed length, 100) |
| ContactApi.SanitizeEmail | pages/api/contact.js:43 | the sanitised address is lower case and at most 254 long; for an address without whitespace it is the prefix of the lower-cased address of length min(length, 254) |
| ContactApi.SanitizeMessage | pages/api/contact.js:44 | the sanitised message is a prefix of the trimmed message, with length min(trimmed length, 5000) |
| ContactApi.Sanitize | pages/api/contact.js:42-44 | the three sanitised fields respect their caps (100, 254, 5,000), the address is lower case, and the name and message are prefixes of their trimmed inputs |
| ContactApi.Subject | pages/api/contact.js:51 | the subject is the rocket prefix, then the name unchanged, then " - UPSERA" |
| ContactApi.EmailText | pages/api/contact.js:197-211 | the plain-text body is the template without its leading newline and trailing indentation; it begins with "NEW CONTACT FORM SUBMISSION" and ends with the reply line naming the sender |
| ContactApi.TemplateTrimsToBody | pages/api/contact.js:198-210 | `trim` strips exactly the template's framing whitespace and nothing of its content |
| ContactApi.TextBodyShape | pages/api/contact.js:199-209 | the text starts with the title, ends with the reply line, and has a visible first and last character |
| ContactApi.HeaderShape | pages/api/contact.js:199-200 | the header starts with the title |
| ContactApi.SendArgsFor | pages/api/contact.js:47-66 | the send goes from the sender to the inbox, replies to the sanitised address, has the subject for the sanitised name, and its text starts with the title |
| ContactApi.Handle | pages/api/contact.js:12-95 | non-POST gives 405; then a missing body gives 500; then a missing field gives 400 (fill in all fields); then a malformed address gives 400 (valid address); exactly a valid POST makes one send; once sent, the status is 200 exactly on provider success; success is true exactly on 200; the reply's only provider data is the id |
| ContactApi.Deliver | pages/api/contact.js:47-86 | the send carries the given arguments; the reply is 200 exactly when the provider succeeded; an id appears only from a success |
| ContactApi.ProviderDetailNotLeaked | pages/api/contact.js:69-93 | two different provider errors, or two different exceptions, produce the same reply and the same send |
| ContactApi.SendArgsCarrySanitised | pages/api/contact.js:47-66 | a send goes from the configured sender to the configured inbox; reply-to is the sanitised, lower-cased address; the subject embeds the sanitised name; the text is built from the sanitised fields |
| ContactApi.ShortAddressStaysValid | pages/api/contact.js:33-50 | an accepted address of at most 254 characters reaches the provider as its lower-cased self and still well-formed |
| ContactApi.LowerCaseKeepsShape | pages/api/contact.js:43 | lower-casing preserves the address shape |
| ContactApi.LongAddressLosesDomain | pages/api/contact.js:43 | an accepted 259-character address is cut to one the shape check would refuse |
| ContactApi.ResanitiseEmailStable | pages/api/contact.js:43 | sanitising a sanitised address again changes nothing |
| ContactApi.ResanitiseNameStable | pages/api/contact.js:42 | sanitising a name again changes nothing when its trimmed form fits the cap |
| ContactApi.ResanitiseNameNotStable | pages/api/contact.js:42 | when the 100-character cut ends on a space, sanitising again gives a shorter name |
| ContactApi.ResanitiseMessageStable | pages/api/contact.js:44 | sanitising a message again changes nothing when its trimmed form fits the cap |
| ContactApi.ResanitiseMessageNotStable | pages/api/contact.js:44 | when the 5,000-character cut ends on a space, sanitising again gives a shorter message |
| ContactApi.BlankFieldsAreSent | pages/api/contact.js:25-51 | whitespace-only name and message pass the presence check and are sent as empty strings, with the subject naming nobody |
| ContactApi.LongMessageCut | pages/api/contact.js:44 | a 10,000-character message with visible ends is sent as its first 5,000 characters |
| LeadsApi.Handle | pages/api/leads.js:3-45 | non-POST gives 405 (not allowed); a missing body gives 500 (internal error); a missing name, email or business name gives 400 (missing fields); a malformed address gives 400 (invalid format); the reply is 200 exactly when all checks pass, and then it is the fixed acknowledgement; `success` is present exactly on 200; no reply carries an id |
| LeadsApi.HasRequired | pages/api/leads.js:12 | the required-field check passes only when name, email and business name are all present and non-empty |
| LeadsApi.OptionalFieldsIgnored | pages/api/leads.js:9-40 | the business type and the message never change the reply |
| LeadsApi.ReplyDependsOnChecksOnly | pages/api/leads.js:22-40 | two bodies that agree on the checks get the same reply, because nothing is stored or looked up |
| LeadsApi.UntrimmedAddressRefused | pages/api/leads.js:17-20 | an address with leading whitespace is refused, not trimmed |
| Relay.Configured | pages/index.js:293 | the settings count as present only when the service id, template id and public key are all set and non-empty; components/LeadForm.js:26 makes the same check |
| Relay.RequestFor | pages/index.js:287-302 | a send call is made exactly when all three relay settings are present and not empty; it carries the service id, the template id, the form as it stands and the public key |
| Landing.CaughtText | pages/index.js:315 | the banner shows the error's `text`, else its `message`, else the fallback text; it is never empty |
| Landing.FailureText | pages/index.js:306-315 | a non-200 response gives a banner of the status prefix followed by the canonical decimal rendering of the status (non-empty, no leading zero, reading back as the status); a rejection gives the caught text; never empty |
| Landing.Begin | pages/index.js:281-295 | the start of the handler keeps the draft and the view; the flag is up and the banner clear exactly when all relay settings are present |
| Landing.Settled | pages/index.js:306-319 | once the send settles the flag is down; a 200 shows the thank-you view and empties the draft; anything else keeps the draft and shows a non-empty banner |
| Landing.AfterSubmit | pages/index.js:281-320 | the thank-you view appears exactly when it was already showing or a send was made and returned 200; otherwise the draft is kept |
| Landing.CanSubmit | pages/index.js:447-453 | while the button is enabled it reads "Send Message" |
| Landing.Step | pages/index.js:385-453 | an event on a form that is not submitting leaves it not submitting; the view changes only by a delivered submission or "send another" |
| Landing.SubmitEndsIdle | pages/index.js:317-319 | every path through the submit handler ends with the submitting flag down |
| Landing.MissingConfigNoSend | pages/index.js:293-295 | without the relay settings no send is made, and only the banner (the configuration error) and the flag change |
| Landing.SuccessResetsDraft | pages/index.js:306-308 | a 200 response shows the thank-you view, clears the banner and empties name, company, email and message |
| Landing.FailureKeepsDraft | pages/index.js:309-316 | any other outcome keeps the draft and the view, and sets the banner to the failure text |
| Landing.BannerIffFailed | pages/index.js:281-320 | after a submission the banner shows exactly when it did not succeed |
| Landing.Label | pages/index.js:447-453 | the button reads "Sending..." exactly while it is disabled |
| Landing.RunStaysIdle | pages/index.js:281-320 | no sequence of whole events leaves the form submitting |
| Landing.SubmittedViewIsFrozen | pages/index.js:322-344 | while the thank-you view shows, only "Send Another Message" changes anything |
| Landing.EditTouchesOneField | pages/index.js:389-429 | an input's change handler updates its own field and nothing else, and the banner stays |
| Landing.ContactSection.constructor | pages/index.js:270-279 | the section starts with an empty draft, not submitting, not submitted, no banner |
| Landing.ContactSection.BeginSubmit | pages/index.js:281-302 | the handler up to the send: the flag goes up and the banner clears; a missing setting ends with the configuration error; returns the send call made with the current draft; the button then reads "Sending..." exactly when the settings were present |
| Landing.ContactSection.Settle | pages/index.js:306-319 | the handler after the send: success sets submitted and empties the draft, failure sets the banner, and the flag comes down |
| Landing.ContactSection.HandleSubmit | pages/index.js:281-320 | the whole handler leaves the state `AfterSubmit` gives and ends not submitting |
| Landing.ContactSection.ClickSubmit | pages/index.js:385-453 | a press while disabled, or with a required field empty, changes nothing and sends nothing |
| Landing.ContactSection.SendAnother | pages/index.js:335 | clears only the submitted flag |
| Landing.ContactSection.DismissError | pages/index.js:436 | clears only the banner |
| Landing.ContactSection.EditName | pages/index.js:395 | replaces only the name |
| Landing.ContactSection.EditCompany | pages/index.js:405 | replaces only the company |
| Landing.ContactSection.EditEmail | pages/index.js:417 | replaces only the address |
| Landing.ContactSection.EditMessage | pages/index.js:428 | replaces only the message |
| LeadCapture.CaughtText | components/LeadForm.js:46 | the banner shows the error's `message`, else the fallback text; never empty |
| LeadCapture.FailureText | components/LeadForm.js:38-46 | a non-200 response gives the fixed retry text whatever its status; a rejection gives its message or the fallback; never empty |
| LeadCapture.Begin | components/LeadForm.js:15-28 | the start of the handler keeps the draft and the view; the flag is up and the banner clear exactly when all relay settings are present |
| LeadCapture.Settled | components/LeadForm.js:38-49 | once the send settles the flag is down; a 200 shows the success panel and empties the draft; anything else keeps the draft and shows a non-empty banner |
| LeadCapture.AfterSubmit | components/LeadForm.js:15-50 | the success panel appears exactly when it was already showing or a send was made and returned 200; otherwise the draft is kept |
| LeadCapture.CanSubmit | components/LeadForm.js:121-127 | while the button is enabled it shows the configured text |
| LeadCapture.Step | components/LeadForm.js:15-127 | an event on a form that is not submitting leaves it not submitting; once the success panel shows no event changes anything; the panel appears only by a delivered submission |
| LeadCapture.SubmitEndsIdle | components/LeadForm.js:47-49 | every path through the submit handler ends with the submitting flag down |
| LeadCapture.MissingConfigNoSend | components/LeadForm.js:26-28 | without the relay settings no send is made, and only the banner (the configuration error) and the flag change |
| LeadCapture.SuccessResetsDraft | components/LeadForm.js:38-40 | a 200 response shows the success panel, clears the banner and empties name, email and message |
| LeadCapture.FailureKeepsDraft | components/LeadForm.js:41-46 | any other outcome keeps the draft and sets the banner to the failure text |
| LeadCapture.BannerIffFailed | components/LeadForm.js:15-50 | after a submission the banner shows exactly when it did not succeed |
| LeadCapture.Label | components/LeadForm.js:121-127 | the button shows the configured text while enabled; when that text differs from "Sending...", it reads "Sending..." exactly while it is disabled |
| LeadCapture.RunStaysIdle | components/LeadForm.js:15-50 | no sequence of whole events leaves the form submitting |
| LeadCapture.SubmittedIsFinal | components/LeadForm.js:12-64 | nothing resets the submitted flag: once submitted, no sequence of events changes the state |
| LeadCapture.SubmittedNeedsDelivery | components/LeadForm.js:26-39 | the success panel appears only after a send that was made (all relay settings present) and returned 200 |
| LeadCapture.LeadForm.constructor | components/LeadForm.js:6-13 | the form starts with an empty draft, not submitting, not submitted, no banner |
| LeadCapture.LeadForm.BeginSubmit | components/LeadForm.js:15-36 | the handler up to the send: the flag goes up and the banner clears; a missing setting ends with the configuration error; returns the send call made with the current draft; the button then reads "Sending..." exactly when the settings were present |
| LeadCapture.LeadForm.Settle | components/LeadForm.js:38-49 | the handler after the send: success sets submitted and empties the draft, failure sets the banner, the flag comes down, and submitted is never cleared |
| LeadCapture.LeadForm.HandleSubmit | components/LeadForm.js:15-50 | the whole handler leaves the state `AfterSubmit` gives and ends not submitting |
| LeadCapture.LeadForm.ClickSubmit | components/LeadForm.js:67-127 | a press while disabled, or with a required field empty, changes nothing and sends nothing |
| LeadCapture.LeadForm.DismissError | components/LeadForm.js:110 | clears only the banner |
| LeadCapture.LeadForm.EditName | components/LeadForm.js:78 | replaces only the name |
| LeadCapture.LeadForm.EditEmail | components/LeadForm.js:90 | replaces only the address |
| LeadCapture.LeadForm.EditMessage | components/LeadForm.js:102 | replaces only the message |
| Navigation.ElementById | components/Header.js:21-22 | an element is found exactly when the id is non-empty and on the page, and it is the element with that id |
| Navigation.Qualifies | components/Header.js:21-25 | a section counts as in view only when its id is non-empty and its element is on the page |
| Navigation.SectionIds | components/Header.js:14-16 | the section ids are no more than the navigation items |
| Navigation.SectionIdsMembers | components/Header.js:14-16 | an id is a section id exactly when some navigation href is '#' followed by it |
| Navigation.SectionIdsAppend | components/Header.js:14-16 | selecting sections distributes over concatenation, so the ids keep the navigation's order |
| Navigation.LastQualifyingIndex | components/Header.js:18-29 | the position found is in view and no later section is, or it is -1 and none is |
| Navigation.ActiveSection | components/Header.js:18-29 | the section found is '' or a listed section that is in view |
| Navigation.ScanSections | components/Header.js:18-29 | the loop over the sections ends holding the last section in view, or '' |
| Navigation.ActiveIsListedOrEmpty | components/Header.js:18-36 | the active section is '' or one of the section ids, and it is '' exactly when no section is in view |
| Navigation.LaterSectionWins | components/Header.js:20-29 | a later section in view overrides an earlier one |
| Navigation.HomeActiveIffNoneInView | components/Header.js:45-46 | the '/' link is active exactly when no section is in view |
| Navigation.IsActive | components/Header.js:45-49 | a link is active only when it is '/' or '#' followed by the active section, and '#' followed by the active section always is |
| Navigation.ActiveLinkUnique | components/Header.js:45-49 | at most one '#' link is active, and a link that is neither '/' nor '#' never is |
| Navigation.ActiveSectionHasLink | components/Header.js:14-47 | when a section is active, its '#' link is in the navigation and is the one marked active |
| Navigation.Header.constructor | components/Header.js:5-7 | the header starts not scrolled, with no active section |
| Navigation.Header.HandleScroll | components/Header.js:10-37 | `scrolled` holds exactly when the scroll offset exceeds 20; the active section becomes the last section in view, and the no-section branch at lines 32-34 changes nothing; afterwards the '/' link is active exactly when no section is in view |

## Left out

- The HTML e-mail body (`generateEmailHTML`) is not modelled: it is a presentational template. It embeds the fields unescaped.
- The timestamp in the HTML body is not modelled: it depends on the clock and the locale.
- `sendAutoReply` is not modelled: its only call is commented out.
- Logging is not modelled.
- The e-mail provider client and the browser relay library are foreign calls. Their outcomes are inputs (`ProviderResult`, `SendResult`), and the only thing modelled about a call is its arguments.
- Body fields that are not strings are not modelled. Fields are optional strings, and an absent body is modelled as a destructuring that throws. A non-string value behaves as follows:
  - A falsy one (0, false, null) fails the presence check and gets the 400 reply in both routes.
  - A truthy non-string address is converted to a string by the pattern test. It gets the 400 reply unless that string is well formed.
  - The lead route never trims, so truthy non-string fields that pass the checks get the 200 reply.
  - In the contact route, the truthy non-strings that pass both checks reach `trim`. The call throws and gives the 500 reply.
- `toLowerCase` is modelled for A-Z only. Unicode case mapping is not modelled.
- `slice` counts characters, not UTF-16 code units.
- The window's scroll offset and height and the element geometry are integers, not floating point. `scrollY` is fractional in browsers. `top <= innerHeight * 0.4` is written `5 * top <= 2 * innerHeight`, which is exact for integers.
- The browser's input validation is modelled only as "a required field is not empty". The `type="email"` check is left out.
- React's rendering and batching, `useCallback`/`useEffect` registration of the scroll listener, and its removal are not modelled. The initial call of that registration is just a call of `HandleScroll`.
- Animation, presentation, the static data and the Firebase wrapper are outside the modelled core.
- The form's send request is not modelled in `Landing.Step` and `LeadCapture.Step`. It appears in the class methods and in `Relay.RequestFor`.
- ContactApi.SanitizeEmail: the exact value is stated only for addresses without whitespace, because only those reach it. For other inputs it states only lower case and the cap.
- Landing.ContactSection.ClickSubmit: a press that goes through is followed only to the start of the send. `Settle` models the rest.
- LeadCapture.LeadForm.ClickSubmit: a press that goes through is followed only to the start of the send. `Settle` models the rest.

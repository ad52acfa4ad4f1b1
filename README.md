# Healthcare site: contact forms, phone validation and service catalog

This project models the logic of a small healthcare-services website and
proves properties of that model. The site has three pieces of logic:

- **Phone validation.** `validatePhoneNumber` tests a string against one
  anchored regular expression for Indian mobile numbers,
  `^(?:(?:\+|0{0,2})91(\s*[-]\s*)?|[0]?)?[6789]\d{9}$`. The two contact forms
  hold identical copies of it.
- **Contact forms.** There are two forms with the same handlers.
  `src/components/ContactPage.tsx` has first- and last-name fields and adds a
  combined `name` to what it sends. `src/components/Contact.tsx` has a single
  `name` field. Each form does four things:
  - it keeps a record of field values;
  - it checks the phone field on every change, on blur and on submit;
  - it posts the record, then reports success (clearing the form) or error;
  - five seconds later it goes back to idle.
- **Service catalog.** `src/data/servicesData.ts` holds a fixed catalog of four
  service categories and their sub-services. It offers three lookups: all
  categories, a category by id, and a sub-service by category id and
  sub-service id.

The Dafny modules are:

- `Wrappers` (wrappers.dfy): the `Option` type. It stands for JavaScript's
  `undefined` result of `Array.prototype.find`.
- `JsString` (js_string.dfy): the JavaScript string operations the forms rely
  on. These are the ECMAScript `\s` character set, `String.prototype.trim`,
  and `.length` counted in UTF-16 code units.
- `PhoneNumber` (phone_number.dfy):
  - a small regular-expression datatype with its matching semantics;
  - the site's expression written as a value of that type;
  - an explicit recogniser, `ValidatePhoneNumber`, which splits the input at
    its last ten characters;
  - a proof that the recogniser accepts exactly the expression's language;
  - lemmas on what is accepted and rejected.
- `ServiceCatalog` (service_catalog.dfy): the catalog, with one named constant
  per category and per sub-service assembled into `ServicesData` in source
  order; a generic first-match `Find` (the model of `Array.prototype.find`);
  and the three lookups with lemmas about the catalog.
- `ContactForm` (contact_form.dfy):
  - a class `Form` whose fields are the component's state (`formData`,
    `phoneError`, `isSubmitting`, `submitStatus`);
  - two more fields that make the effects visible: the log of request bodies
    sent and the number of reset timers pending;
  - one method per event handler;
  - two client methods that follow one submission from each form through to
    idle.

The form is a class because each handler updates the component state in
place. `Variant` selects which form the class stands for. `handleSubmit` is
split at its `await` into two steps:

- `HandleSubmit` validates, marks the form as submitting and records the
  request.
- `ResolveRequest` takes the request's outcome as an input and runs the
  `if`/`catch`/`finally` that follows.

The reset timer is the event `ResetTimerFires`.

After `91`, the expression's optional separator `(\s*[-]\s*)?` accepts
whitespace only around a dash. So "+91-9876543210", "+91 - 9876543210" and
"+919876543210" are accepted, while "+91 9876543210" (whitespace with no dash)
is rejected (`PhoneNumber.SpaceWithoutDashRejected`,
`PhoneNumber.SpaceExampleRejected`).

## Model

| member | source | states |
|---|---|---|
| `PhoneNumber.PhoneRegex` | src/components/ContactPage.tsx:37 | The expression as a regular-expression value, piece by piece: an optional prefix that is either a lead (`+`, or up to two `0`s) followed by `91` and an optional dash separator, or an optional `0`; then one of `6789` and nine digits. Anchoring is the matching semantics over the whole string. |
| `PhoneNumber.ValidatePhoneNumber` | src/components/ContactPage.tsx:36-39 | `validatePhoneNumber`: the last ten characters are ASCII digits starting with 6-9, and what precedes them is empty, `0`, or `91` after nothing, `+`, `0` or `00`, optionally followed by a dash with whitespace around it. |
| `PhoneNumber.Matches` | src/components/ContactPage.tsx:38 | An anchored `test`: the whole string is in the expression's language. A character class matches one character, where `\d` is an ASCII digit and `\s` is `IsWhitespace`; concatenation splits the string; alternation takes either side; a star is zero or more non-empty pieces. |
| `PhoneNumber.ValidateMatchesRegex` | src/components/ContactPage.tsx:35-39 | The recogniser accepts a string exactly when the anchored expression matches all of it. The regular-expression value is built piece by piece from the source expression. The lemma proves both directions. The same expression appears at src/components/Contact.tsx:35-39. |
| `PhoneNumber.MobileNumberAccepted` | src/components/Contact.tsx:36-37 | Any ten ASCII digits whose first digit is 6, 7, 8 or 9 are accepted on their own. This shows the whole country-code/trunk prefix is optional. |
| `PhoneNumber.ShortRejected` | src/components/ContactPage.tsx:37 | No string shorter than ten characters matches, the empty string included. |
| `PhoneNumber.SpaceWithoutDashRejected` | src/components/ContactPage.tsx:37 | "91" followed by whitespace alone, then a subscriber number, is rejected. The optional separator `(\s*[-]\s*)?` demands a dash. |
| `PhoneNumber.PrefixThenSubscriberAccepted` | src/components/ContactPage.tsx:37 | Any valid prefix followed by a subscriber number is accepted. A valid prefix is empty, a trunk `0`, or `91` after nothing, `+`, `0` or `00`, optionally followed by a dash with whitespace around it. |
| `PhoneNumber.LocalExamplesAccepted` | src/components/ContactPage.tsx:37 | "9876543210" and "09876543210" are accepted, by the recogniser and by the expression. |
| `PhoneNumber.CountryCodeExamplesAccepted` | src/components/ContactPage.tsx:37 | "+919876543210" and "00919876543210" are accepted. |
| `PhoneNumber.DashExamplesAccepted` | src/components/ContactPage.tsx:37 | "+91 - 9876543210" and "+91-9876543210" are accepted. |
| `PhoneNumber.SpaceExampleRejected` | src/components/ContactPage.tsx:37 | "+91 9876543210" (a space without a dash) is rejected by the recogniser and by the expression. |
| `PhoneNumber.LeadingFiveRejected` | src/components/ContactPage.tsx:37 | "5876543210" (a subscriber number starting with 5) is rejected by both. |
| `PhoneNumber.NineDigitsRejected` | src/components/ContactPage.tsx:37 | "987654321" (nine digits) is rejected by both. |
| `PhoneNumber.CountryCodeStart` | src/components/ContactPage.tsx:37 | When a country code is found, the `91` starts after a lead of at most two characters, inside the prefix. |
| `JsString.IsWhitespace` | src/components/ContactPage.tsx:37 | The ECMAScript `\s` set, which is also the set `trim()` removes (line 78): the WhiteSpace and LineTerminator code points U+0009-U+000D, U+0020, U+00A0, U+1680, U+2000-U+200A, U+2028, U+2029, U+202F, U+205F, U+3000 and U+FEFF. |
| `JsString.Trim` | src/components/ContactPage.tsx:78 | `trim()`: the result is the input with a run of leading and a run of trailing ECMAScript whitespace removed. A non-empty result begins and ends with non-whitespace. |
| `JsString.TrimOfTrimmed` | src/components/ContactPage.tsx:78 | Trimming a string that already has no whitespace at either end leaves it unchanged. |
| `JsString.TrimDropsTrailingWhitespace` | src/components/ContactPage.tsx:78 | Trimming a trimmed non-empty string followed by whitespace gives back that string. This is the case of an empty last name. |
| `JsString.Utf16Length` | src/components/ContactPage.tsx:46 | `.length` counts UTF-16 code units. It lies between the number of code points and twice that, and equals it when every character is in the Basic Multilingual Plane. |
| `JsString.LeadingWhitespace` | src/components/ContactPage.tsx:37 | The length of the longest whitespace prefix, as `\s*` consumes it. Every character before it is whitespace and the next one is not. |
| `JsString.TrailingWhitespace` | src/components/ContactPage.tsx:78 | The length of the longest whitespace suffix. Every character in it is whitespace and the one before it is not. |
| `ContactForm.EmptyForm` | src/components/ContactPage.tsx:21-29 | The initial record has exactly the form's fields, all empty. The split-name fields are here; the single-name ones are at src/components/Contact.tsx:21-28. |
| `ContactForm.PhoneErrorOnChange` | src/components/ContactPage.tsx:44-55 | The error left by a change to the phone field: none below ten UTF-16 code units; from ten on, an error exactly when the value fails validation. It is only ever empty or the change message, and a valid number never shows it. Contact.tsx:44-55 is the same. |
| `ContactForm.Payload` | src/components/ContactPage.tsx:75-80 | The split-name form sends every field of its record plus `name`, the trimmed join of first name, a space and last name. The single-name form sends its record unchanged (src/components/Contact.tsx:80). |
| `ContactForm.FullNameJoined` | src/components/ContactPage.tsx:78 | With both names non-empty and trimmed, the sent `name` is first name + " " + last name. |
| `ContactForm.FirstNameOnly` | src/components/ContactPage.tsx:78 | With a non-empty, trimmed first name and an empty last name, the sent `name` is the first name with no trailing space. |
| `ContactForm.IsOk` | src/components/ContactPage.tsx:89 | `response.ok`: the HTTP status is in the range 200-299. |
| `ContactForm.Form.constructor` | src/components/ContactPage.tsx:21-33 | The mounted form: empty record, no phone error, not submitting, status idle, no request sent, no timer pending. |
| `ContactForm.Form.HandleChange` | src/components/ContactPage.tsx:41-61 | The named field takes the new value and no other field changes. A change to `phone` recomputes the phone error as `PhoneErrorOnChange`. Everything else is unchanged. Contact.tsx:41-61 is the same. |
| `ContactForm.Form.PhoneBlur` | src/components/ContactPage.tsx:200-204 | On blur, a non-empty invalid phone sets the change message. Otherwise the error is left as it was, so blur never clears an error. Contact.tsx:247-251 is the same. |
| `ContactForm.Form.HandleSubmit` | src/components/ContactPage.tsx:63-87 | An invalid phone sets the submit message and returns with no request and nothing else changed. A valid phone marks the form as submitting and issues exactly one request, whose body is `Payload` of the current record. Contact.tsx:63-81 is the same. |
| `ContactForm.Form.SubmitDisabled` | src/components/ContactPage.tsx:309 | The submit button is disabled exactly while a submission is in flight (Contact.tsx:347 is the same). |
| `ContactForm.Form.Submitted` | src/components/ContactPage.tsx:63-87 | The state `handleSubmit` leaves at its `await`. The record, status and timers are unchanged. With a valid phone, the error is kept, the form is submitting and one request with `Payload` of the record is appended. With an invalid phone, the error is the submit message and no request is made. |
| `ContactForm.Form.ClickSubmit` | src/components/ContactPage.tsx:307-309 | A click while submitting does nothing, because the button is disabled. Otherwise it is `HandleSubmit`. Contact.tsx:347 is the same. |
| `ContactForm.Form.ResolveRequest` | src/components/ContactPage.tsx:89-108 | A 2xx response gives success and the empty record. Any other response, or a rejected request, gives error with the record kept. In every case the form stops submitting and one more reset timer is pending. Contact.tsx:83-94 is the same. |
| `ContactForm.Form.ResetTimerFires` | src/components/ContactPage.tsx:107 | A pending timer fires: the status becomes idle whatever it was, and one fewer timer is pending. Contact.tsx:93 is the same. |
| `ContactForm.SplitNameServerError` | src/components/ContactPage.tsx:63-109 | The page form with trimmed names, a valid phone and a non-2xx response sends exactly one request carrying the joined name and the phone. It ends in error with the typed values kept, and the timer returns it to idle. |
| `ContactForm.SingleNameSuccess` | src/components/Contact.tsx:63-95 | The section form refuses an invalid number: no request is sent and the submit message is shown. Once the number is corrected, it sends one request with the name and phone as typed. A 2xx response clears the record and the timer returns it to idle. |
| `ServiceCatalog.ServicesData` | src/data/servicesData.ts:21-222 | The `servicesData` literal, field for field: four categories holding 6, 6, 5 and 4 sub-services, built from the records `Service` and `SubService` of lines 4-19. The optional `duration?` is an `Option<string>` and each icon component is an `Icon` value. |
| `ServiceCatalog.Find` | src/data/servicesData.ts:227 | `Array.prototype.find`: there is no result exactly when no element satisfies the predicate. Otherwise the result is the element at the first index that does. |
| `ServiceCatalog.GetAllServices` | src/data/servicesData.ts:224 | The catalog itself: four categories, in the order lab-service, home-care, procedures, emergency. |
| `ServiceCatalog.GetServiceById` | src/data/servicesData.ts:226-227 | A category is returned exactly when some category has the id. It carries that id and is the first such category in list order. |
| `ServiceCatalog.FindSubService` | src/data/servicesData.ts:231 | Within one category: a sub-service is returned exactly when one has the id. It carries that id and is the first such one. |
| `ServiceCatalog.GetSubServiceById` | src/data/servicesData.ts:229-232 | An unknown category gives no result. Otherwise a result is present exactly when the category has a sub-service with that id, and the result is one of the category's sub-services carrying the id. |
| `ServiceCatalog.CatalogIdsDistinct` | src/data/servicesData.ts:21-222 | No two categories share an id, and no two sub-services of one category share an id. |
| `ServiceCatalog.ServiceLookupUnambiguous` | src/data/servicesData.ts:226-227 | Every category is found by its own id. |
| `ServiceCatalog.SubServiceLookupUnambiguous` | src/data/servicesData.ts:229-232 | Every sub-service is found by its category's id and its own id. |
| `ServiceCatalog.LabServiceHasSixSubServices` | src/data/servicesData.ts:22-77 | The "lab-service" category is "Laboratory Services" and has six sub-services. |
| `ServiceCatalog.CbgAnalysisPrice` | src/data/servicesData.ts:92-99 | The "cbg-analysis" sub-service of "home-care" exists and is priced at ₹100. |
| `ServiceCatalog.UnknownServiceAbsent` | src/data/servicesData.ts:226-232 | Any id that no category carries gives no category, and no sub-service whatever the sub-service id. |
| `ServiceCatalog.NotRealServiceAbsent` | src/data/servicesData.ts:226-232 | Example: "not-real" gives no category, and ("not-real", "cbg-analysis") gives no sub-service. |
| `ServiceCatalog.UnknownSubServiceAbsent` | src/data/servicesData.ts:229-232 | In every category, a sub-service id that none of its sub-services carries gives no result. |
| `ServiceCatalog.NotRealSubServiceAbsent` | src/data/servicesData.ts:229-232 | Example: ("home-care", "not-real") gives no result. |

## Left out

- The network request is not modelled. This covers `fetch`, the Formspree URL, the HTTP method and headers, and `JSON.stringify`. The request appears only as its body, a field-to-value map, so the model does not capture the order of keys in the sent JSON. The response is an input to `ResolveRequest`.
- The 5000 ms delay is not modelled. The model has no clock: a timer is a pending count, and firing it is an event the environment may send at any time.
- React's asynchronous state batching and stale closures are not modelled. Each handler is modelled as seeing the state the previous event left.
- Unmounting, and timers that fire after it, are not modelled. The model has no component lifecycle.
- The browser's built-in form checks are not modelled. These are `required`, `type="email"` and the phone input's `pattern="[0-9+\s-]{10,15}"`. The model assumes the submit event reaches `handleSubmit` whatever those attributes say.
- Rendering is not modelled: markup, styles, animations, the service-area list and all presentational components. None of it changes the modelled state.
- Catalog icons are modelled as enumeration values, not the icon components they name.
- `ContactForm.Form.HandleSubmit`: it requires the form not to be submitting. In the source, the disabled button is what keeps a second submission out. `ClickSubmit` is the event that has no such precondition.

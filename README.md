# Linkist core rules in Dafny

Linkist sells NFC business cards that come with a digital profile. The web application
takes card orders, verifies a customer's mobile number by SMS code, and stores one public
profile per customer. Every profile has a unique custom URL. This project models the
decision and transformation rules inside seven parts of that application:

- **`ProcessOrder`** (`process_order.dfy`): the order intake handler. This covers:
  - required data and pricing;
  - the pending/confirmed status;
  - the plan-type classifier;
  - the choice between a UUID lookup and an order-number lookup;
  - the update patch and the user-name split;
  - the payment record, voucher redemption, shipping address and lifecycle e-mails.

  All of these run against an `OrderDatabase` class whose tables are maps and sequences.
- **`ProfileSave`** (`profile_save.dfy`): the profile save handler. This covers:
  - the name slug (`[a-z0-9-]` only);
  - preservation of a claimed custom URL;
  - the smallest-free-suffix search, a loop proved against its specification;
  - the base-URL fallback chain;
  - the stored preference defaults and the services list.

  The `ProfileTable` class keeps custom URLs unique as an invariant.
- **`MobileOtp`** (`mobile_otp.dfy`): the mobile-code verification handler. This covers:
  - the input check;
  - the choice between the SMS service and stored codes;
  - the test-code gate;
  - the stored-code state machine over a keyed store: no record, expired (deleted), wrong, or right (marked verified);
  - the user lookup, first by e-mail cookie and then by phone;
  - the session cookie.
- **`ProfileGet`** (`profile_get.dfy`): the profile read handler. This covers:
  - its error answers;
  - the column fallbacks of the transformed profile;
  - `parseSocialLinks`;
  - the services mapping.

  It also states a save-then-read round trip for services.
- **`ProfilePreview`** (`profile_preview.dfy`): the profile preview page. This covers:
  - the database-to-preview mapping;
  - the three-level visibility flags;
  - the Social Profiles and Services sections;
  - the WhatsApp link;
  - the username and custom URL;
  - the local-storage fallback.
- **`NfcSuccess`** (`nfc_success.dfy`): the order success page. This covers:
  - which stored order it shows;
  - the consume-once handling of a payment confirmation, which modifies the browser storage in place;
  - the built order's defaults;
  - the profile URL, the digital-only test and the shipping country label.
- **`Dashboard`** (`dashboard.dfy`): the profile dashboard. This covers:
  - loading from the API or from local storage, with the per-user filter;
  - delete and duplicate, with persistence;
  - the statistics and the status colours.

`Common` (`common.dfy`) holds JSON values and the JavaScript operators the rules are written
with:
- truthiness, `||`, `??` and `?.`;
- ASCII `toLowerCase`/`toUpperCase`;
- `.replace(/\s+/g, '-')`;
- `split`/`join`;
- number-to-string.

A JSON object is kept in its serialized form: a key whose value would be `undefined` is
absent, and `Option<Json>`'s `None` stands for `undefined`.

Every database, SMS, e-mail, session, clock and random-number call is a parameter of the
operation that uses it. A database call that reads becomes a function argument or the
current state of a store class. A call that can fail becomes a boolean fault flag. A
generated id or timestamp is a given value.

## Model

| member | source | states |
|---|---|---|
| Common.Or | app/api/profiles/get/route.ts:56-72 | `a \|\| b` on JSON values: `a` when it is truthy, `b` otherwise |
| Common.Coalesce | app/profiles/preview/page.tsx:164-185 | `a ?? b`: `a` unless it is null or undefined, so `false`, `0` and `''` are kept |
| Common.StrOr | app/api/profiles/save/route.ts:99 | `a \|\| b` on optional strings: the empty string falls through like a missing one |
| Common.StrOrEmpty | app/api/profiles/save/route.ts:137-167 | `s \|\| ''`: the string when truthy, otherwise `''` |
| Common.GetPath | app/profiles/preview/page.tsx:155-185 | `j?.key` yields a value iff `j` is an object that has that key, and then it is that key's value |
| Common.ToLower | app/api/profiles/save/route.ts:57 | ASCII lowercasing maps each character on its own: `A`-`Z` move up by 32 to `a`-`z`, and every other character is kept. So the length and every whitespace position are kept and no upper-case letter is left |
| Common.ToUpper | app/api/process-order/route.ts:267 | ASCII uppercasing maps each character on its own: `a`-`z` move down by 32 to `A`-`Z`, and every other character is kept. So the length is kept and no lower-case letter is left |
| Common.DashSpacesNoSpace | app/profiles/preview/page.tsx:204 | after replacing each whitespace run by `-` no whitespace is left |
| Common.NameSlug | app/nfc/success/page.tsx:86-88 | a lowercased, dashed name has no whitespace and no upper-case letter, and is empty exactly when the name is (Common.NameSlugRun states what happens at each whitespace run) |
| Common.DashSpacesWord | app/profiles/preview/page.tsx:204 | a word without whitespace is copied as it is before the rest is processed |
| Common.DropSpacesRun | app/profiles/preview/page.tsx:204 | dropping leading whitespace removes a whole run up to the first other character |
| Common.DashSpacesSpaceRun | app/profiles/preview/page.tsx:204 | a maximal whitespace run becomes exactly one `-`, followed by the processing of the rest |
| Common.DashSpacesRun | app/profiles/preview/page.tsx:204 | word, whitespace run, rest: the word, one `-`, then the rest processed |
| Common.NameSlugRun | app/nfc/success/page.tsx:86-88 | the slug of word + whitespace run + rest is the lowercased word, one `-` and the slug of the rest |
| Common.TakeUntil | app/profiles/preview/page.tsx:207 | the text before the first separator is a prefix of the string, holds no separator, and is followed by the separator unless it is the whole string |
| Common.SplitHead | app/nfc/success/page.tsx:90 | `s.split(c)[0]` is the text before the first `c` |
| Common.JoinSplit | app/api/process-order/route.ts:79-80 | joining the parts of `split(c)` with `c` gives back the string |
| Common.ParseNatToString | app/api/profiles/get/route.ts:91 | a numeric id's `toString()` reads back as the same number |
| ProcessOrder.Prices | app/api/process-order/route.ts:45-62 | supplied pricing is copied field by field, each field defaulting to 0. Otherwise shipping is 5.00, tax is 5.75% of the subtotal, and the total is their sum |
| ProcessOrder.StatusFor | app/api/process-order/route.ts:98 | the status is confirmed exactly when payment data is present |
| ProcessOrder.PlanTypeOf | app/api/process-order/route.ts:164-181 | the first rule that matches wins: digital-only iff flagged and free; else digital-profile-app iff digital material and (flagged or paid); else nfc-card-full. The three conditions are given as three if-and-only-ifs |
| ProcessOrder.FreeDigitalWithoutFlagIsNfcCard | app/api/process-order/route.ts:168-181 | a free order of digital material without the digital-only flag is classified nfc-card-full |
| ProcessOrder.UuidPositions | app/api/process-order/route.ts:107 | the 8-4-4-4-12 case-insensitive hex pattern holds iff the id has 36 characters, with `-` at positions 8, 13, 18 and 23 and a hex digit everywhere else |
| ProcessOrder.LookupKey | app/api/process-order/route.ts:106-116 | an order id is looked up by internal id iff it is UUID-shaped, otherwise by order number, and the key carries the id unchanged |
| ProcessOrder.UpdatePatch | app/api/process-order/route.ts:131-141 | the patch always sets the status. It carries payment fields iff payment data is present: the payment method and id as given, the voucher code when truthy (else null), and the voucher discount when truthy (else 0) |
| ProcessOrder.ApplyPatch | app/api/process-order/route.ts:143-144 | applying a patch sets its status and voucher fields. A given payment method or id replaces the stored one, and an undefined one is dropped from the update, so the stored one stays. A patch without payment fields changes only the status |
| ProcessOrder.PatchTouchesOnlyPaymentFields | app/api/process-order/route.ts:131-144 | the update changes no order field except the status and the four payment fields. Without payment data it only sets the status to pending |
| ProcessOrder.FirstNameIsPrefix | app/api/process-order/route.ts:79 | the first name is the text of the full name before its first space and contains no space |
| ProcessOrder.SplitHasTwoParts | app/api/process-order/route.ts:79-80 | a string containing the separator splits into at least two parts |
| ProcessOrder.NameSplitRejoins | app/api/process-order/route.ts:79-80 | for a full name with a space, first name + " " + last name is the full name |
| ProcessOrder.NameWithoutSpace | app/api/process-order/route.ts:79-80 | a full name without a space is all first name, and the last name is empty |
| ProcessOrder.UserNamesRejoin | app/api/process-order/route.ts:79-80 | when neither part falls back to the card configuration, the user's first and last names rejoin to the full name |
| ProcessOrder.VoucherDiscountAmount | app/api/process-order/route.ts:272-278 | an explicit voucher amount wins. Otherwise a zero or missing percentage gives 0, and a percentage between 0 and 100 gives a discount between 0 and the total |
| ProcessOrder.CurrencyFor | app/api/process-order/route.ts:241 | the payment currency is INR iff the country is `IN` or `India`, otherwise USD |
| ProcessOrder.Round | app/api/process-order/route.ts:235 | `Math.round`: the result is within one half of its argument, and a half rounds up |
| ProcessOrder.NewOrder | app/api/process-order/route.ts:183-210 | a created order has the generated id and the order number generated for its plan type, and links to the upserted user. It carries the request's status and pricing and the checkout's name and e-mail. The phone defaults to `''`. It has the card configuration and a shipping snapshot of the checkout whose phone also defaults to `''`. It has no payment, voucher or e-mail audit |
| ProcessOrder.SnapshotMatchesAddressRecord | app/api/process-order/route.ts:198-207 | the order's shipping snapshot and the address record agree except for an empty second line or phone, which is `''` in the snapshot and absent in the record |
| ProcessOrder.PaymentKeepsCreatedOrder | app/api/process-order/route.ts:131-210 | paying for an order created earlier confirms it and sets its payment fields, and leaves every field it was created with |
| ProcessOrder.Emailed | app/api/process-order/route.ts:350-376 | the returned order is the stored one with, when paid, the e-mail audit written to it unless that write failed. Its id and status never change |
| ProcessOrder.OrderDatabase.UpsertUser | app/api/process-order/route.ts:75-95 | the upsert is keyed by e-mail and an existing user keeps its id. It writes the split names with their fallbacks, the phone number when given, `email_verified` true and `mobile_verified` iff a phone was given. A failed upsert changes nothing |
| ProcessOrder.OrderDatabase.FindOrder | app/api/process-order/route.ts:106-124 | a UUID is looked up by id and anything else by order number. The result is none exactly when no order matches, and any order found is stored under its own id |
| ProcessOrder.OrderDatabase.RecordPayment | app/api/process-order/route.ts:229-315 | best effort: exactly one payment row. The row has the `payment_<now>` fallback id, the rounded amount in cents, the country's currency, the `unknown` fallback method, and the voucher code and discount as given. With a truthy voucher code, the upper-cased voucher is tracked with a usage row for the computed discount. A payment failure writes nothing |
| ProcessOrder.OrderDatabase.TrackVoucher | app/api/process-order/route.ts:263-297 | an unknown voucher or a failed lookup changes nothing. For an existing voucher, two writes follow, and neither result is checked. One usage row is inserted unless that insert fails. `used_count` is written as the value read plus exactly one unless that update fails. Either write happens whether or not the other fails |
| ProcessOrder.OrderDatabase.RecordAddress | app/api/process-order/route.ts:317-348 | best effort: one shipping address row, never the default, with falsy optional fields dropped |
| ProcessOrder.OrderDatabase.SendEmails | app/api/process-order/route.ts:350-376 | both lifecycle e-mails are handed to the sender, and the outcome is written to the order's audit. If that write fails the unpatched order is returned |
| ProcessOrder.OrderDatabase.PlaceOrder | app/api/process-order/route.ts:100-227 | a 404 "Order not found" is given iff an order id is supplied and no order has it as id (UUID-shaped) or as order number (otherwise). A found order, the one the id names, is stored with the update patch applied. Without an order id the stored order is exactly `NewOrder` for the user, checkout and prices. A failed write gives the matching 500 and changes no order |
| ProcessOrder.OrderDatabase.RecordAndNotify | app/api/process-order/route.ts:229-376 | after an order is placed: the payment row when paid and not failed, voucher tracking for a truthy code, the address row unless it fails, both e-mails when paid, and the order table holding the order returned |
| ProcessOrder.OrderDatabase.Fulfil | app/api/process-order/route.ts:100-396 | placing the order and then recording it: success iff the write goes through and a named order exists. A failure writes no order, payment, voucher, address or e-mail. A success gives the new state `Post` states |
| ProcessOrder.OrderDatabase.Post | app/api/process-order/route.ts:10-416 | missing card or checkout data gives 400 "Missing required data", and a failed user upsert gives 500. Neither writes anything. The request succeeds iff the user is written and the order is found (when named) and written. After a success the user table holds the upserted user, and the order table holds the returned order. That order is `NewOrder` or the patched order, with the e-mail audit when paid. An address row is added unless its insert fails. A paid request adds exactly its payment row, tracks its voucher and sends both e-mails. An unresolvable order id gives 404 with no order, payment, voucher, address or e-mail written |
| ProfileSave.Slugify | app/api/profiles/save/route.ts:56-59 | the slug contains only `a`-`z`, `0`-`9` and `-`, and no whitespace |
| ProfileSave.SlugifyIdempotent | app/api/profiles/save/route.ts:56-59 | slugifying a slug again changes nothing |
| ProfileSave.SlugifyFixesSlugs | app/api/profiles/save/route.ts:56-59 | a string that is already a slug is its own slug |
| ProfileSave.BaseSlug | app/api/profiles/save/route.ts:56-59 | the slug of `first-last` is a slug with no whitespace |
| ProfileSave.CandidateSuffix | app/api/profiles/save/route.ts:79 | candidate `k` is longer than `base-`, and its suffix after `base-` reads back as `k` |
| ProfileSave.FindFreeUrl | app/api/profiles/save/route.ts:63-92 | the loop returns `base-k` for some `k` >= 1 that is not taken, and every smaller suffix is taken |
| ProfileSave.BaseUrl | app/api/profiles/save/route.ts:98-115 | the base URL is never empty. A parseable origin gives its `protocol//host`. With no origin header, a parseable referer gives its `protocol//host`. An origin that does not parse is not replaced by the referer: then, as when no header is usable, the site URL is used, else `https://linkist.ai` |
| ProfileSave.Preferences | app/api/profiles/save/route.ts:135-189 | the stored preferences hold exactly the 42 keys the handler writes: 20 flags, 16 text fields, 4 lists and 2 nullable images |
| ProfileSave.PreferenceFlags | app/api/profiles/save/route.ts:139-181 | an explicit flag, `false` included, is stored as given. An absent or null flag is true for contact, professional and image flags, and false for WhatsApp and the eight social networks |
| ProfileSave.ServiceRows | app/api/profiles/save/route.ts:209-221 | exactly the services with a truthy title are kept, in input order. `display_order` runs 0, 1, 2, ... over them, `is_active` is `showPublicly !== false`, and text fields default to `''` |
| ProfileSave.SavedServicesAreTitled | app/api/profiles/save/route.ts:212 | a service is saved iff it is in the request and has a truthy title |
| ProfileSave.TakenUrls | app/api/profiles/save/route.ts:68-84 | a URL is taken iff some profile row holds it as its custom URL |
| ProfileSave.ProfileTable.ChooseCustomUrl | app/api/profiles/save/route.ts:41-96 | an e-mail that already owns a custom URL reuses exactly it. Else the base slug is used when no other e-mail owns it. Else `base-k` with the smallest free `k` >= 1. No other e-mail owns the result |
| ProfileSave.RowFor | app/api/profiles/save/route.ts:117-190 | the upserted row carries the e-mail, the first and last name, the founder flag, the chosen custom URL, `profile_url` = base URL + "/" + custom URL, and the preferences the handler builds. User id, phone, company and avatar are each the request's value when it is truthy, otherwise null |
| ProfileSave.ProfileTable.StoreRow | app/api/profiles/save/route.ts:195 | the upsert by e-mail replaces exactly that row and keeps custom URLs unique |
| ProfileSave.ProfileTable.ReplaceServices | app/api/profiles/save/route.ts:199-234 | the delete's and the insert's results are not checked. After a delete the profile's services are the titled rows of the request, or none when the insert fails. After a failed delete the old rows stay, and the new rows, if inserted, follow them. Other profiles' services are untouched |
| ProfileSave.ProfileTable.Save | app/api/profiles/save/route.ts:8-260 | a missing e-mail gives 400 "Email is required" before the name check, and a missing first or last name gives 400. Neither writes anything. With both, the save fails iff the upsert fails, and then nothing is written. A save keeps an existing row's id, else the new id. It replaces exactly the caller's row with `RowFor` of the request, the chosen URL and the base URL. A claimed URL is kept. Otherwise the URL is the base slug or the smallest free `base-k`, as `ChosenForName` defines. Services given in the request are written as `ReplaceServices` states: the old rows are kept only when their delete fails, followed by the kept rows unless the insert fails |
| MobileOtp.UsesStoredCodes | app/api/verify-mobile-otp/route.ts:33 | stored codes are used iff any of the three SMS-service settings is missing |
| MobileOtp.DecideService | app/api/verify-mobile-otp/route.ts:35-140 | approved verifies and not approved is refused. A thrown error 60202 gives 429, 60200 gives 400, and any other thrown error falls back to stored codes (iff) |
| MobileOtp.HardcodedAccepted | app/api/verify-mobile-otp/route.ts:143-147 | the test code is accepted iff the switch is exactly `true`, the code is set and non-empty, and the submitted code equals it |
| MobileOtp.CheckStored | app/api/verify-mobile-otp/route.ts:152-176 | the four outcomes, each an iff: no record; expired iff now is strictly after the expiry; mismatch iff unexpired with a different code; match iff unexpired with the same code |
| MobileOtp.StillValidAtExpiry | app/api/verify-mobile-otp/route.ts:162 | at exactly the expiry time the right code still matches |
| MobileOtp.Route | app/api/verify-mobile-otp/route.ts:22-191 | missing input is refused before anything else. With the service configured, its answer verifies or refuses. The test code and the stored codes are consulted only without the service or after it threw |
| MobileOtp.VerificationBackend.CheckStoredOtp | app/api/verify-mobile-otp/route.ts:152-190 | no record or a wrong code: error, store unchanged. Expired: the record is deleted. Right code: the record is rewritten with `verified` true and nothing else changed. A failed write gives 500 |
| MobileOtp.VerificationBackend.SingleUser | app/api/verify-mobile-otp/route.ts:199-223 | `.single()`: a user is returned iff exactly one row matches the query, and it is that row |
| MobileOtp.VerificationBackend.FinishVerification | app/api/verify-mobile-otp/route.ts:193-258 | the user is found by the e-mail cookie first, then by phone. A found user gets `mobile_verified` true and the phone number, plus a session cookie with max age 604800 s. Otherwise nothing changes |
| MobileOtp.VerificationBackend.Post | app/api/verify-mobile-otp/route.ts:15-267 | a refused request changes nothing. Only the stored-code path touches the code store. On it: no record gives "no code" and a wrong code "invalid", both with the store unchanged. An expired record is deleted. A matching record is marked verified, and if that write fails the answer is 500. A verification always ends in the user step: the user found by cookie or phone gets `mobile_verified` and the number, plus the session cookie. With no user found nothing changes. A failure never updates a user |
| ProfileGet.Property | app/api/profiles/get/route.ts:126-133 | a property read yields a value iff the value is an object that has the key, and then it is that key's value |
| ProfileGet.ParseSocialLinks | app/api/profiles/get/route.ts:120-135 | a null or non-object value gives no links (iff). Otherwise all eight networks are present, each the short key when truthy, else the `*Url` key when truthy, else null |
| ProfileGet.SocialLinkSource | app/api/profiles/get/route.ts:125-134 | every parsed link is null or a value found under that network's short or `*Url` key |
| ProfileGet.KeyString | app/api/profiles/get/route.ts:91 | a numeric service id becomes a digit string that reads back as the id, and a text id is kept |
| ProfileGet.ViewService | app/api/profiles/get/route.ts:90-97 | the id is stringified (`KeyString`). Title and `showPublicly` = `is_active` are copied. Description, pricing and category are `''` exactly when the column is not truthy, otherwise the column |
| ProfileGet.ViewServices | app/api/profiles/get/route.ts:90-97 | rows map one to one and in order, and no rows give `[]` |
| ProfileGet.SavedServicesReadBack | app/api/profiles/get/route.ts:90-97 | services saved by the save handler read back in order, with the id the database gave them stringified. Title, description, pricing and category are the same, and `showPublicly` is the saved `is_active` |
| ProfileGet.Transform | app/api/profiles/get/route.ts:51-103 | `primaryEmail`, `mobileNumber`, `companyName` and `profilePhoto` prefer their first column when it is truthy, else the second. `skills`, `displaySettings` and `preferences` are the column when truthy, else `[]`, `{}` and `{}`. Social links and services are parsed. The 18 other columns are copied as read, named one by one (e-mail, names, `whatsappNumber`, `jobTitle`, company website, address and logo, industry, subdomain, summary, background image, custom and profile URL, founder flag, user id and timestamps) |
| ProfileGet.Handle | app/api/profiles/get/route.ts:7-117 | a missing e-mail gives 400. `PGRST116` gives "Profile not found" with the default 200 status. Any other database error gives 500. A found row gives the transformed profile with its services |
| ProfilePreview.SocialFlag | app/profiles/preview/page.tsx:174-181 | every social network's show flag defaults to false |
| ProfilePreview.ResolveFlag | app/profiles/preview/page.tsx:164-181 | the display-settings value unless null or undefined, else the preferences value, else the flag's default, so an explicit false wins |
| ProfilePreview.MediaFlag | app/profiles/preview/page.tsx:184-185 | the photo and background flags read only the preferences and default to true |
| ProfilePreview.Text | app/profiles/preview/page.tsx:140-154 | `col \|\| ''` is truthy exactly when the column is, and a missing text field maps to `''` |
| ProfilePreview.List | app/profiles/preview/page.tsx:153-187 | `col \|\| []` is always truthy, and missing skills or services map to `[]` |
| ProfilePreview.MapProfile | app/profiles/preview/page.tsx:139-188 | every flag is resolved by the three-level rule. Social URLs read only the short key. Media flags come from the preferences. Each of the 13 text fields, job title, company, website, address, industry, subdomain and summary included, is its column or `''`. Lists default to `[]`. Logo, photo and background image are copied |
| ProfilePreview.MediaFlagsIgnoreDisplaySettings | app/profiles/preview/page.tsx:184-185 | changing the display settings never changes the photo or background flag |
| ProfilePreview.FlagKeyListed | app/profiles/preview/page.tsx:164-181 | each flag the preview reads is a preference key the save handler writes, under the same default |
| ProfilePreview.SavedPreferencesPreviewed | app/profiles/preview/page.tsx:164-181 | with no display settings, a flag previews as the save handler stored it: the request's value unless null or undefined, else the same default the save handler uses |
| ProfilePreview.SocialSectionIff | app/profiles/preview/page.tsx:589-591 | the Social Profiles section shows iff some social network's flag is truthy |
| ProfilePreview.NoSettingsHidesSocial | app/profiles/preview/page.tsx:174-181 | a profile with neither display settings nor preferences shows no Social Profiles section |
| ProfilePreview.PublicServices | app/profiles/preview/page.tsx:688-692 | the services shown are exactly the stored services whose `showPublicly` is not `false`, never more than stored. When none is hidden, all are shown as stored (Common.Filter keeps their order) |
| ProfilePreview.PublicServicesInOrder | app/profiles/preview/page.tsx:688-692 | a public service is listed between the public services stored before it and those after it |
| ProfilePreview.ServicesSectionIff | app/profiles/preview/page.tsx:688-692 | a service is shown iff it is stored and its `showPublicly` is not `false`. The section appears iff some stored service is public |
| ProfilePreview.WhatsAppLink | app/profiles/preview/page.tsx:503 | the link is `https://wa.me/` followed by exactly the digits of the number, in order and with repetitions (the number filtered to its digits) |
| ProfilePreview.StrColumn | app/profiles/preview/page.tsx:199-207 | a column is read as text iff it holds a string, and the text is that string |
| ProfilePreview.UsernameOf | app/profiles/preview/page.tsx:197-208 | the precedence: custom URL; else the first name lowercased with whitespace runs dashed (non-empty, no whitespace); else the e-mail before `@`; else `your-profile` |
| ProfilePreview.Username | app/profiles/preview/page.tsx:197-208 | the `let username` chain computes the username that precedence defines |
| ProfilePreview.SourceOf | app/profiles/preview/page.tsx:113-135 | the database profile is used iff the request was answered and the first entry of its `profiles` (of a list, or the first character of a string) exists and is not null. The row is that entry's columns, or no columns for an entry that is not an object |
| ProfilePreview.FirstProfile | app/profiles/preview/page.tsx:133-135 | `profiles[0]` when `profiles.length > 0`. A profile is found iff `profiles` is a non-empty list or a non-empty string: the first item, or the first character. An empty list, as when the user has no profile yet, and any other value give nothing |
| ProfilePreview.StringProfilesGiveEmptyRow | app/profiles/preview/page.tsx:133-135 | a non-empty string in `profiles` selects the database branch with a profile that has no columns |
| ProfilePreview.LastStored | app/profiles/preview/page.tsx:118-125 | a profile is found iff storage parses to a non-empty list or a non-empty string. It is the last element, or the last character. An empty list, nothing stored and unparseable storage leave the profile unset |
| ProfilePreview.ShownAfterLoad | app/profiles/preview/page.tsx:109-236 | a database profile is shown mapped. Otherwise the last stored profile is shown as stored, and nothing is shown when local storage yields none |
| ProfilePreview.FallbackShowsLastSaved | app/profiles/preview/page.tsx:118-125 | when the API gives nothing usable, the profile saved last is shown, whatever was saved before it |
| ProfilePreview.DatabaseRowWins | app/profiles/preview/page.tsx:113-135 | a profile row from the API is shown, mapped, whatever local storage holds |
| ProfilePreview.UrlAfterLoad | app/profiles/preview/page.tsx:194-212 | a claimed username gives origin/claimed. Otherwise a database profile gives origin/username, and otherwise the URL stays empty |
| ProfilePreview.UrlAfterLoadAsWritten | app/profiles/preview/page.tsx:194-212 | the page as written: a database profile always sets origin/username, even over a claimed username. Without one a claimed username gives origin/claimed. The URL stays empty exactly when neither applies |
| ProfilePreview.ClaimedUsernameOverwritten | app/profiles/preview/page.tsx:194-212 | the page as written replaces the claimed `alice` with the database's `bob`, and the intended rule keeps `alice` |
| ProfilePreview.UrlAgreesWithoutClaim | app/profiles/preview/page.tsx:194-212 | without a claimed username, the page as written and the intended rule agree |
| ProfilePreview.PreviewPage.Load | app/profiles/preview/page.tsx:101-236 | after loading, the page shows what the load rule selects and holds the URL the corrected rule gives |
| NfcSuccess.BuildOrder | app/nfc/success/page.tsx:46-52 | the confirmation's own `orderNumber` overrides the generated one. `cardConfig` defaults to `{fullName: customerName}`, `shipping` to `{}` and `pricing` to `{total: amount}`. Other fields are copied and no other keys are added |
| NfcSuccess.GeneratedNumber | app/nfc/success/page.tsx:47 | the generated order number is `LFND` followed by as many characters as the random part, none of them lower-case |
| NfcSuccess.LoadFrom | app/nfc/success/page.tsx:40-76 | the precedence is `orderConfirmation`, then `lastCompletedOrder`, then `currentOrder`. Consuming a confirmation stores the built order as `lastCompletedOrder` and removes `orderConfirmation` and `pendingOrder`. With no order the page goes to `/`, and only then |
| NfcSuccess.ReloadShowsSameOrder | app/nfc/success/page.tsx:53-63 | a second load shows the same order, order number included, and leaves storage as it was, whatever its random number |
| NfcSuccess.BrowserStorage.LoadOrder | app/nfc/success/page.tsx:40-76 | the in-place load leaves storage and returns the order and navigation that the load rule gives |
| NfcSuccess.StrAt | app/nfc/success/page.tsx:85-90 | `order?.a?.b` read as text is a string iff one is found at that path, and then it is that string |
| NfcSuccess.UsernameFor | app/nfc/success/page.tsx:82-91 | the precedence: card name, then shipping name (each lowercased and dashed, non-empty, no whitespace); then the e-mail before `@`; else `your-profile` |
| NfcSuccess.ProfileUrl | app/nfc/success/page.tsx:81-93 | the URL is base + "/" + the username that precedence defines for the order |
| NfcSuccess.CustomerNameUsedForUrl | app/nfc/success/page.tsx:46-91 | a confirmation without a card configuration names the profile after its customer |
| NfcSuccess.BuildKeepsDigitalOnly | app/nfc/success/page.tsx:46-52 | building the order never changes whether it is digital only |
| NfcSuccess.IsDigitalOnly | app/nfc/success/page.tsx:213 | an order is digital only iff it is flagged `isDigitalOnly` or `isDigitalProduct` (truthy) or its card's base material is `digital`. A stored value that is not an object is never digital only |
| NfcSuccess.CountryLabel | app/nfc/success/page.tsx:286 | `United Arab Emirates` shows as `UAE`, a missing country as `AE`, any other country as itself. The label is never empty |
| Dashboard.SumAppend | app/profiles/dashboard/page.tsx:328-366 | the reduce-sum of a concatenation is the sum of the parts |
| Dashboard.Sum | app/profiles/dashboard/page.tsx:328-366 | the reduce-sum of no profiles is 0 and of one profile its counter. With non-negative counters the total is non-negative and at least each counter |
| Dashboard.ActiveCount | app/profiles/dashboard/page.tsx:385-393 | the active count never exceeds the total count shown beside it |
| Dashboard.StatusColor | app/profiles/dashboard/page.tsx:185-196 | active is green and draft is yellow. Grey is given iff the status is neither, so inactive and any unknown status are grey |
| Dashboard.Without | app/profiles/dashboard/page.tsx:164 | a profile remains after delete iff it was listed and its id differs |
| Dashboard.DeleteKeepsOthersInOrder | app/profiles/dashboard/page.tsx:164 | deleting keeps every other profile in its place relative to the rest |
| Dashboard.DeleteUnknownIdChangesNothing | app/profiles/dashboard/page.tsx:164 | deleting an id no profile has leaves the list unchanged |
| Dashboard.DeleteNeverAddsActive | app/profiles/dashboard/page.tsx:164 | deleting never raises the active count |
| Dashboard.CopyOf | app/profiles/dashboard/page.tsx:170-179 | the copy has the new id, name + " (Copy)", status draft, zero counters and `Just now`, and every other field copied |
| Dashboard.DuplicateKeepsStatistics | app/profiles/dashboard/page.tsx:169-183 | duplicating adds one profile but no views, clicks, shares or active profiles |
| Dashboard.VisibleTo | app/profiles/dashboard/page.tsx:145-147 | a stored profile is kept iff it has no owner e-mail or is owned by the signed-in e-mail |
| Dashboard.FromLocalStorage | app/profiles/dashboard/page.tsx:139-157 | nothing stored, or unparseable storage, gives `[]`. Otherwise the stored list filtered for the user |
| Dashboard.FromApi | app/profiles/dashboard/page.tsx:103-115 | an API profile becomes an active card with zero counters. The name defaults to `Unnamed Profile`. The title is title, else designation, else `''`. The public URL is domain + "/" + (username or id) |
| Dashboard.FromApiAll | app/profiles/dashboard/page.tsx:103 | the transform maps the API list one to one, in order |
| Dashboard.ApiCardsStartEmpty | app/profiles/dashboard/page.tsx:103-115 | cards loaded from the API show zero views, clicks and shares and are all active |
| Dashboard.ProfileDashboard.Load | app/profiles/dashboard/page.tsx:69-137 | an unauthenticated user is sent to the login page with the list unchanged, and only such a load redirects: a signed-in load and a load that threw leave the navigation as it was. An API list is transformed. A failed API falls back to the user's stored profiles. After an exception the stored list is shown unfiltered |
| Dashboard.ProfileDashboard.DeleteProfile | app/profiles/dashboard/page.tsx:162-167 | a confirmed delete sets the list to the list without that id and persists that list. A declined one changes nothing |
| Dashboard.ProfileDashboard.DuplicateProfile | app/profiles/dashboard/page.tsx:169-183 | duplicating appends exactly the copy at the end and persists the new list |
| Dashboard.ErrorFallbackSkipsUserFilter | app/profiles/dashboard/page.tsx:127-147 | for every stored list and signed-in e-mail: a stored profile owned by another e-mail is hidden by the regular fallback, so that list differs from the stored list, which `Load` shows unfiltered after an exception |
| Dashboard.FallbacksAgreeOnOwnProfiles | app/profiles/dashboard/page.tsx:139-157 | when every stored profile is the user's own or unowned, the regular fallback shows the stored list unchanged |

## Left out

- Network and storage I/O is not modelled as I/O. The database client, the SMS verification service, the e-mail sender, the session store, `fetch`, `getBaseUrl`/`getBaseDomain` and `new URL(...)` are parameters or fault flags. Their own behaviour is not modelled.
- Rate limiting of the mobile-code handler (`rateLimitMiddleware`, app/api/verify-mobile-otp/route.ts:17-20) is a foreign call. The model starts after it lets the request through.
- Prices are exact reals. IEEE double rounding of 29.99 × quantity, the 5.75% tax and `Math.round(total*100)` is not reproduced. The success page's reverse-VAT and discount display (app/nfc/success/page.tsx:260-273) is left out as display-only floating point.
- Clocks and randomness are inputs: `Date.now()`, the `Math.random` order-number part, the generated order number of `generateOrderNumber`, and new ids. `new Date(...)` is modelled as an optional integer expiry; `None` is a date that does not parse and never expires. `toLocaleDateString` is a function parameter.
- Lowercasing, uppercasing and `\s` are ASCII only. Unicode case mapping and Unicode whitespace are not modelled.
- Concurrency is not modelled: the non-atomic voucher counter update and the check-then-insert slug uniqueness race. Each request runs alone.
- ProfileSave.ProfileTable.ChooseCustomUrl: relies on custom URLs being unique, which the table invariant keeps. The `maybeSingle()` error that several rows sharing one URL would raise is therefore not modelled.
- The save handler's `GET` (app/api/profiles/save/route.ts:262-301), a plain read by e-mail, is not modelled.
- ProcessOrder.OrderDatabase.UpsertUser: a request without a checkout e-mail is modelled as a failed upsert. What the hosted database would do with it is not part of this model.
- Text columns used for usernames and URLs are read only when they hold a string. A non-string value counts as absent, where JavaScript would fail on `.toLowerCase()` or `.split`.
- NfcSuccess.LoadFrom: a stored confirmation that is not a JSON object is read as an object without fields.
- ProfilePreview.LastStored: a stored JSON object with its own `length` field is treated as no profile.
- ProfilePreview.SourceOf: an API body whose `profiles` is an object with its own positive `length` field is treated as no database profile. The page would read that object's `"0"` key.
- ProfileSave.ProfileTable.Save: the 500 answer for a failed upsert carries a fixed message. The handler sends the database error's own `message` (app/api/profiles/save/route.ts:253-256), which is not part of this model.
- ProcessOrder.NewOrder: the created order's `emailsSent: {}` is modelled as no audit (`None`), and the constant `estimatedDelivery` text is not modelled.
- ProcessOrder.OrderDatabase.Post: the request's `orderId` and the mobile handler's `otp` are modelled as strings. A JSON number in either field would behave differently under `.match` and `===`.
- Rows arrive from the database already ordered by `display_order`; the database's sort is not modelled.
- ProcessOrder.OrderDatabase.Post: the catch-all 500 "Failed to process order" (app/api/process-order/route.ts:398-414) for a store or e-mail sender that throws is not modelled. Every fault flag stands for a null result or an error value. An order update that throws would give that 500 instead of "Failed to update order". A lookup, `formatOrderForEmail` or `sendOrderLifecycleEmails` that throws would also give that 500.
- ProcessOrder.OrderDatabase.Fulfil: for the same reason, its success iff does not cover throws from the order lookups, the sender or the audit write. Those end in the catch-all 500 after whatever was already written.
- ProcessOrder.OrderDatabase.SendEmails: an audit write that returns null keeps the unpatched order, as modelled. An audit write that throws ends the request in the catch-all 500, after the order, payment, voucher, address and both e-mails are written, which is not modelled.
- MobileOtp.VerificationBackend.Post: the handler's catch-all 500 for a throwing store is not modelled, and neither are the session store's id generation and the `secure`/`sameSite` cookie options.
- Browser and page plumbing is not modelled: QR codes, clipboard, `navigator.share`, downloads, `alert`/`confirm` (the confirmation is a boolean input), React rendering and the loading spinners.
- `public/sw.js` (service-worker caching) is not part of this model.

## Findings

| source | as written | input that shows it | evidently intended | confidence | as-written member | corrected member |
|---|---|---|---|---|---|---|
| app/profiles/preview/page.tsx:194-212 | `if (!customUrl)` reads the URL state captured when the page mounted, which is always `''`. So a database profile always replaces the URL built from a claimed username | `claimedUsername` = `alice` in local storage, and the API returns a profile with `custom_url` = `bob`: the page ends on `https://linkist.ai/bob` | the database URL is used only when no username was claimed, as the comment at line 194 says, giving `https://linkist.ai/alice` | high, not executed | ProfilePreview.UrlAfterLoadAsWritten (shown by ProfilePreview.ClaimedUsernameOverwritten) | ProfilePreview.UrlAfterLoad (used by ProfilePreview.PreviewPage.Load) |

# ByteAxis site logic in Dafny

This project models the client-side logic of the ByteAxis marketing site and
proves properties of it. The site is a React application. The model has one
Dafny module per source file:

- `Quotation` models the quotation builder (`src/pages/Quotation.js`). It covers the
  fixed service catalog, the selection map, subtotal / 15% VAT / total, the
  catalog's categories, the quotation-request document, the hand-off to the
  payment page, and the page's state as a class.
- `AiClient` models the project-summary generator (`src/utils/aiClient.js`): a remote
  call with a templated fallback sentence.
- `Home` models the home page (`src/pages/Home.js`). It covers image-path
  resolution, the normalisation of fetched portfolio projects, the choice
  between fetched and built-in galleries, the project carousel (a class) and
  the newsletter form (a class).
- `AdminDashboard` models the admin dashboard (`src/pages/AdminDashboard.js`). It covers the
  admin check, the four headline figures, and the six monthly buckets of the
  request chart. The buckets are computed by an imperative method proved
  against a specification predicate.
- `Payment` models the payment page (`src/pages/Payment.js`): the prefilled form,
  field edits, the validation and the payment-request document, and the page
  state as a class.
- `Auth` models the sign-in / sign-up page (`src/pages/Auth.js`). It covers the
  destination default, the name split, the mode switch, the loading guard,
  the password check, and what the page does for each answer of the identity
  provider.
- `Company` models the contact links (`src/utils/company.js`).
- `Common` holds the shared vocabulary. It covers JavaScript truthiness of
  optional strings, `trim` and `\s` whitespace, `split`/`join` on one
  character, subsequences and substrings, the signed-in user record, and
  the form status.

How the JavaScript features are modelled:

- **Async handlers.** Each async handler is split in two methods. The first
  runs up to the first `await` and returns the call it issues, or `None`.
  The second takes how that call settled (an input datatype) and applies the
  rest of the handler. So the model shows the state between the two halves,
  for example `loading == true`.
- **Remote calls.** The document store, the summary endpoint and the
  identity provider are never called. What each call did is a parameter.
- **Process and platform values.** `process.env` values, the current date,
  `encodeURIComponent` and `parseFloat` are parameters as well.
- **Money.** Amounts are exact reals, so `0.15 * 4450 == 667.5` holds
  exactly.

Where the code behaves in ways a reader might not expect, the model follows
the code:

- **Toggling twice.** Toggling the same id twice restores what every id
  means. The map itself comes back only when the id was already a key. From
  an empty map, two toggles leave `id: false` behind (`Quotation.ToggleTwice`).
- **Summary errors.** The summary generator does not absorb every failure.
  A `fetch` that rejects (a network error, or a body that is not JSON)
  propagates out of `generateAiSummary`. The quotation page has no `catch`,
  so the old summary stays on screen (`AiClient.GenerateAiSummary`,
  `Quotation.QuotationPage.SummarySettled`).
- **Payment amount.** The payment amount is not checked to be non-negative.
  Any truthy amount is accepted and passed through `parseFloat`.
- **Success banner.** The quotation page never clears `requestSuccess`. After one successful
  submission, a later failed one shows the success banner and the error
  together (`Quotation.QuotationPage.RequestSettled`).

## Model

| member | source | states |
|---|---|---|
| Quotation.Toggle | src/pages/Quotation.js:43-45 | the toggled id now means the opposite of before; its key is added if missing; every other entry is unchanged |
| Quotation.ToggleTwice | src/pages/Quotation.js:43-45 | toggling twice restores the meaning of every id, and restores the map itself when the id was a key (otherwise it adds `id: false`) |
| Quotation.SelectedItems | src/pages/Quotation.js:47 | the selected items are a subsequence of the catalog (catalog order), and an item is in it iff it is in the catalog and flagged true |
| Quotation.UnknownIdsIgnored | src/pages/Quotation.js:47 | setting a key that names no catalog item does not change the selected items |
| Quotation.SubtotalOfSubsequence | src/pages/Quotation.js:48 | a subsequence of items never costs more than the sequence it is drawn from |
| Quotation.SubtotalStep | src/pages/Quotation.js:48 | the sum from any position is that item's price plus the sum after it |
| Quotation.CatalogTotal | src/pages/Quotation.js:24-39 | the 14 catalog prices add up to 16395 |
| Quotation.CatalogTailTotal | src/pages/Quotation.js:32-38 | the last seven catalog prices add up to 1075 |
| Quotation.CatalogPricesPositive | src/pages/Quotation.js:24-39 | every catalog item has a positive price |
| Quotation.SubtotalBounds | src/pages/Quotation.js:48 | any selection's subtotal lies between 0 and the price of the whole catalog |
| Quotation.NothingSelected | src/pages/Quotation.js:47 | a catalog of which no id is selected yields no items |
| Quotation.EmptySelectionCostsNothing | src/pages/Quotation.js:47-50 | with nothing selected, subtotal, VAT and total are all 0 |
| Quotation.SubtotalZeroIffEmpty | src/pages/Quotation.js:48-50 | with positive prices, the subtotal (and the total) is 0 exactly when no item is selected |
| Quotation.ExampleTailUnselected | src/pages/Quotation.js:24-39 | the ids `website` and `webapp` name none of the catalog items after the first two |
| Quotation.FirstTwoSelected | src/pages/Quotation.js:47 | selecting exactly the ids of a catalog's first two items picks those two items |
| Quotation.ExampleSelection | src/pages/Quotation.js:47 | selecting `website` and `webapp` yields the first two catalog items |
| Quotation.ExampleSubtotal | src/pages/Quotation.js:25-26 | the first two catalog items cost 4450 together |
| Quotation.WebsiteAndWebappExample | src/pages/Quotation.js:47-50 | website + web app: subtotal 4450, VAT 667.5, total 5117.5 |
| Quotation.FirstIndex | src/pages/Quotation.js:41 | the position returned holds the value, and no earlier position does |
| Quotation.Distinct | src/pages/Quotation.js:41 | `[...new Set(xs)]` has the same elements as `xs`, none twice, in order of first occurrence |
| Quotation.FirstIndexInPrefix | src/pages/Quotation.js:41 | appending a value does not move the first occurrence of any value already present |
| Quotation.FirstIndexAppend | src/pages/Quotation.js:41 | the first occurrence of a value present in a prefix stays where it is after an append |
| Quotation.CategoryColumn | src/pages/Quotation.js:41 | `catalog.map((item) => item.category)`, position by position |
| Quotation.Categories | src/pages/Quotation.js:41 | a category is listed iff some catalog item has it, each once, in order of first occurrence |
| Quotation.LineItems | src/pages/Quotation.js:93-97 | one line per selected item, carrying its title, category and price |
| Quotation.LineTotalMatches | src/pages/Quotation.js:84-97 | the line prices of the document add up to its subtotal |
| Quotation.BuildRequest | src/pages/Quotation.js:65-99 | a missing write client is reported first, then an empty selection; otherwise the document has status `new`, the defaulted project name, the form's fields, the computed amounts, the selected lines and the client block, and is internally consistent |
| Quotation.Handoff | src/pages/Quotation.js:108-118 | the state for the payment page: the project name or "Custom Project", the company name as typed, the selection's subtotal, 15% VAT and their sum as total |
| Quotation.ProceedEnabledIffSelection | src/pages/Quotation.js:313-318 | for any form, "Proceed to Payment" (disabled when the total is 0) is enabled exactly when an item is selected |
| Quotation.SummaryName | src/pages/Quotation.js:56 | the summary's project name is the project name, else the company name, else "Project"; never empty |
| Quotation.SelectedLabels | src/pages/Quotation.js:57 | the summary gets the selected items' labels, in order |
| Quotation.OfflineSummaryNamesSelection | src/pages/Quotation.js:52-63 | without an endpoint the summary names the project and every selected service |
| Quotation.SubmittedDocumentIsConsistent | src/pages/Quotation.js:78-99 | a document that is sent is consistent, its subtotal is between 1 and 16395, and its total is positive |
| Quotation.QuotationPage.constructor | src/pages/Quotation.js:11-20 | the page starts with empty inputs, no selection, no summary and no status |
| Quotation.QuotationPage.EditForm | src/pages/Quotation.js:11-14 | an input edit replaces the four text fields |
| Quotation.QuotationPage.ToggleItem | src/pages/Quotation.js:43-45 | the selection becomes the toggled map |
| Quotation.QuotationPage.SubmitRequest | src/pages/Quotation.js:65-78 | does nothing while a request is loading; otherwise shows a validation error and sends nothing, or sets loading, clears the error and returns the document |
| Quotation.QuotationPage.RequestSettled | src/pages/Quotation.js:100-105 | success sets the flag, failure sets its message; loading is cleared either way |
| Quotation.QuotationPage.GenerateSummary | src/pages/Quotation.js:52-58 | does nothing while loading; otherwise sets loading and returns the generator's arguments |
| Quotation.QuotationPage.SummarySettled | src/pages/Quotation.js:59-62 | a resolved summary is shown, a rejected call keeps the old one; loading is cleared |
| Quotation.QuotationPage.ProceedToPayment | src/pages/Quotation.js:108-118 | the hand-off state for the current form and selection; nothing while the button is disabled at total 0 (line 317), which happens exactly when nothing is selected |
| AiClient.Scope | src/utils/aiClient.js:2 | the items joined by ", ", or "core build" when there are none |
| AiClient.FallbackSummary | src/utils/aiClient.js:1-4 | starts with the lead, the project name (or "your project") and the fixed text; contains the scope and every item; ends with a period |
| AiClient.GenerateAiSummary | src/utils/aiClient.js:6-24 | no base: fallback and no request; otherwise one POST to `<base>/api/ai/summary`; a rejection propagates; a non-ok answer or a falsy `summary` gives the fallback; a truthy one is returned |
| AiClient.SummaryIsRemoteOrFallback | src/utils/aiClient.js:6-24 | a resolved summary is the fallback or the remote text, non-empty, from an ok answer |
| AiClient.FallbackNamesProjectAndItems | src/utils/aiClient.js:1-10 | with no endpoint, "Acme" and "Website" both appear in the summary |
| Home.EncodeAll | src/pages/Home.js:20 | applies the encoder to each segment, position by position |
| Home.ImageKeepsSegments | src/pages/Home.js:19-20 | the image URL starts with the base and "/", and the rest splits into exactly the encoded segments of the path |
| Home.ResolveImage | src/pages/Home.js:21-28 | an empty path stays empty; http, https, data and rooted paths pass through; anything else becomes an image under the base |
| Home.ResolveImageIdempotent | src/pages/Home.js:19-28 | with a rooted base, resolving a resolved path changes nothing |
| Home.GalleryUrls | src/pages/Home.js:156-158 | the URLs kept are exactly the present, non-empty ones, all of them, in their order |
| Home.MapProject | src/pages/Home.js:154-167 | a row is kept iff it has a cover or a gallery URL; the images are the gallery or else the cover; the cover falls back to the first image; the category defaults to "Project" |
| Home.NormalizeProjects | src/pages/Home.js:154-167 | every kept entry is displayable and comes from a row, every row that maps is kept, and no entries are added |
| Home.DisplayProjects | src/pages/Home.js:226 | the fetched entries when there are any, otherwise the built-in galleries; never empty; displayable when the fetched ones are |
| Home.DisplayedEntriesDisplayable | src/pages/Home.js:154-226 | every entry the page shows has a cover, at least one image and a category |
| Home.NextIndex | src/pages/Home.js:196 | the next index wraps from the last image to the first and stays in range |
| Home.PrevIndex | src/pages/Home.js:191 | the previous index wraps from the first image to the last and stays in range |
| Home.NextPrevInverse | src/pages/Home.js:189-197 | next and previous undo each other |
| Home.SingleImageFixed | src/pages/Home.js:189-197 | with a single image both arrows keep the index |
| Home.Carousel.constructor | src/pages/Home.js:133-134 | no project open, index 0 |
| Home.Carousel.CurrentImage | src/pages/Home.js:140 | no image without an open project, otherwise its image at the active index |
| Home.Carousel.OpenProject | src/pages/Home.js:184-187 | the clicked project is open at its first image |
| Home.Carousel.Close | src/pages/Home.js:553 | the viewer closes |
| Home.Carousel.Next | src/pages/Home.js:194-197 | no-op without a project; otherwise the next index; the index stays in range |
| Home.Carousel.Prev | src/pages/Home.js:189-192 | no-op without a project; otherwise the previous index; the index stays in range |
| Home.Carousel.SelectImage | src/pages/Home.js:628 | a thumbnail click selects that image |
| Home.BuildSignup | src/pages/Home.js:201-217 | a missing write client first, then an empty email; otherwise the signup with source "home" |
| Home.NewsletterForm.constructor | src/pages/Home.js:136-138 | empty inputs, idle status |
| Home.NewsletterForm.Edit | src/pages/Home.js:136-137 | the inputs take the typed values |
| Home.NewsletterForm.Submit | src/pages/Home.js:199-211 | does nothing while loading; otherwise a failed check shows its message, a valid signup sets loading and is returned |
| Home.NewsletterForm.SubmitSettled | src/pages/Home.js:218-223 | success clears both inputs and thanks; failure keeps them and reports; never loading afterwards |
| AdminDashboard.MonthsBefore | src/pages/AdminDashboard.js:70 | `new Date(y, m - i, 1)`: a valid month exactly `i` months before (years roll over) |
| AdminDashboard.IsAdmin | src/pages/AdminDashboard.js:13 | admin iff loaded, signed in and the primary email is the admin email |
| AdminDashboard.PendingRequests | src/pages/AdminDashboard.js:56 | the pending count never exceeds the number of requests |
| AdminDashboard.PendingComplementsCompleted | src/pages/AdminDashboard.js:56 | pending and completed requests add up to all requests; a missing status counts as pending |
| AdminDashboard.RevenueAppend | src/pages/AdminDashboard.js:58 | revenue adds up over concatenated lists |
| AdminDashboard.RevenueAppendOne | src/pages/AdminDashboard.js:58 | one more payment adds its amount, and one without an amount adds 0 |
| AdminDashboard.RevenueNonNegative | src/pages/AdminDashboard.js:58 | revenue is non-negative when every present amount is |
| AdminDashboard.ComputeStats | src/pages/AdminDashboard.js:54-65 | requests and payments are counted; pending is at most the total and equals the total minus the completed ones |
| AdminDashboard.CountInAppend | src/pages/AdminDashboard.js:78-83 | one more request adds one to its month's count and nothing to the others |
| AdminDashboard.FindBucket | src/pages/AdminDashboard.js:81 | the first bucket with the key, or none |
| AdminDashboard.BucketKeysDistinct | src/pages/AdminDashboard.js:69-70 | the six bucket months are pairwise different |
| AdminDashboard.MonthlyRequests | src/pages/AdminDashboard.js:67-85 | six buckets, oldest first, for the five months before now and now, each counting exactly the requests created in it |
| AdminDashboard.SumCountsCons | src/pages/AdminDashboard.js:78-83 | a request in front adds to the sum of counts once per bucket holding its month |
| AdminDashboard.OccurrencesDistinct | src/pages/AdminDashboard.js:69-77 | a month occurs at most once among distinct keys |
| AdminDashboard.OccurrencesAbsent | src/pages/AdminDashboard.js:69-77 | a month that is not a key occurs nowhere |
| AdminDashboard.SumCountsBound | src/pages/AdminDashboard.js:78-83 | over distinct months, the counts add up to at most the number of requests |
| AdminDashboard.SumCountsEmpty | src/pages/AdminDashboard.js:78-83 | no requests, no counts |
| AdminDashboard.Keys | src/pages/AdminDashboard.js:71 | the buckets' months, position by position |
| AdminDashboard.CountSumIsSumCounts | src/pages/AdminDashboard.js:67-85 | the sum of the bucket counts is the sum of the per-month counts |
| AdminDashboard.MonthlyTallyFacts | src/pages/AdminDashboard.js:67-85 | the last bucket is the current month, consecutive buckets are consecutive months, and the bars count no more requests than there are |
| AdminDashboard.MaxCount | src/pages/AdminDashboard.js:87 | at least 1, at least every count, and equal to 1 or to some count |
| Payment.ParseAmount | src/pages/Payment.js:51 | a number amount is itself; a text amount is parsed |
| Payment.With | src/pages/Payment.js:30-33 | the edited field reads back the new text; every other field is unchanged |
| Payment.WithTwice | src/pages/Payment.js:30-33 | the second edit of a field wins |
| Payment.WithCommutes | src/pages/Payment.js:30-33 | edits of different fields commute |
| Payment.InitialForm | src/pages/Payment.js:10-20 | name and email from the user, amount, project and company from the quote, the rest empty; the amount is truthy iff a quote with a non-zero total was handed over |
| Payment.BuildPaymentRequest | src/pages/Payment.js:35-64 | a missing write client first, then a falsy amount or email; otherwise a pending USD Paynow request with the defaulted project name, the parsed amount, the form's fields and the client block with fallbacks |
| Payment.QuoteTotalReachesPayment | src/pages/Quotation.js:108-118 | after a quotation with items, by a user with an email, the payment request is accepted and carries the quote's total and project name |
| Payment.EmptyFormRejected | src/pages/Payment.js:16-44 | a form opened without a quote cannot be submitted unedited |
| Payment.PaymentPage.constructor | src/pages/Payment.js:12-22 | the initial form and an idle status |
| Payment.PaymentPage.HandleChange | src/pages/Payment.js:30-33 | the form becomes the edited form |
| Payment.PaymentPage.Submit | src/pages/Payment.js:35-45 | does nothing while loading; otherwise a failed check shows its message alone, a valid form sets loading and returns the document; the status stays well formed |
| Payment.PaymentPage.SubmitSettled | src/pages/Payment.js:65-67 | the success message alone, or the failure message alone |
| Auth.Destination | src/pages/Auth.js:43 | the redirect-from path when present, otherwise "/quotation"; never empty |
| Auth.WithField | src/pages/Auth.js:45-48 | only the named field takes the new value |
| Auth.Defined | src/pages/Auth.js:123-129 | `x \|\| undefined`: defined iff non-empty |
| Auth.SplitName | src/pages/Auth.js:121-123 | the first name is the trimmed name up to its first space; the last name is what follows that space, undefined without a space; with a space, first + " " + last is the trimmed name |
| Auth.NamePartsFacts | src/pages/Auth.js:121-123 | the split of a string without surrounding spaces, part by part |
| Auth.SplitAtFirstSpace | src/pages/Auth.js:122-123 | the first part is the text before the first space, and the other parts rejoined are the text after it |
| Auth.ErrorMessage | src/pages/Auth.js:142 | the provider's message when present, else the fallback; never empty with a non-empty fallback |
| Auth.Activate | src/pages/Auth.js:94-98 | an activated session navigates to the destination; a failed activation reports its message |
| Auth.SignInDispatch | src/pages/Auth.js:89-115 | `complete` navigates to the destination, and nothing else navigates; `needs_first_factor` with an email-code factor awaits the code; `needs_second_factor` shows its error; other statuses do nothing; a rejected `create`, `setActive` or `prepareFirstFactor` shows its message or "Authentication failed. Please try again." |
| Auth.SignUpDispatch | src/pages/Auth.js:125-143 | `complete` navigates to the destination, and nothing else navigates; any other status awaits the email code; a rejected `create`, `setActive` or `prepareEmailAddressVerification` shows its message or "Authentication failed. Please try again." |
| Auth.VerificationDispatch | src/pages/Auth.js:153-183 | `complete` navigates to the destination; any other status asks to try again; a rejected attempt or `setActive` shows its message or "Verification failed. Please try again." |
| Auth.SignUpRequest | src/pages/Auth.js:121-131 | email and password as typed; username, first and last name undefined when empty |
| Auth.SignInRequest | src/pages/Auth.js:89-92 | the identifier trimmed (only whitespace around it, none at either end), the password as typed |
| Auth.AuthPage.constructor | src/pages/Auth.js:26-43 | sign-in mode, empty form and codes, nothing pending, idle |
| Auth.AuthPage.HandleChange | src/pages/Auth.js:45-48 | the form becomes the edited form |
| Auth.AuthPage.SetVerificationCode | src/pages/Auth.js:360 | the sign-up code takes the typed value |
| Auth.AuthPage.SetSignInCode | src/pages/Auth.js:373 | the sign-in code takes the typed value |
| Auth.AuthPage.HandleModeChange | src/pages/Auth.js:50-57 | the new mode, with the error, both pending flags and both codes cleared |
| Auth.AuthPage.BeginAuth | src/pages/Auth.js:79-131 | does nothing while loading; otherwise clears the error; stops if the current client is unloaded; a sign-up with differing passwords reports the mismatch and creates nothing; otherwise sets loading and returns the account call |
| Auth.AuthPage.Apply | src/pages/Auth.js:94-140 | navigates, marks a verification pending, or shows an error, and changes nothing else |
| Auth.AuthPage.SignInSettled | src/pages/Auth.js:89-146 | applies the sign-in dispatch; loading is cleared |
| Auth.AuthPage.SignUpSettled | src/pages/Auth.js:125-146 | applies the sign-up dispatch; loading is cleared |
| Auth.AuthPage.BeginVerification | src/pages/Auth.js:149-173 | does nothing while unloaded or loading; otherwise clears the error, sets loading and returns the code |
| Auth.AuthPage.VerificationSettled | src/pages/Auth.js:153-186 | applies the verification dispatch; loading is cleared |
| Auth.AuthPage.BeginOAuth | src/pages/Auth.js:59-71 | does nothing while the mode's client is unloaded or a redirect is in progress; otherwise clears the error, marks the strategy and returns the redirect request |
| Auth.AuthPage.OAuthFailed | src/pages/Auth.js:72-76 | a failed redirect shows its message and frees the buttons |
| Company.NonWhitespaceSkipsRun | src/utils/company.js:15 | dropping a leading whitespace run keeps the non-whitespace characters |
| Company.RunsRemoveWhitespace | src/utils/company.js:15 | replacing every `\s+` run by nothing removes exactly the whitespace characters |
| Company.NonWhitespaceFacts | src/utils/company.js:15 | the stripped string has no whitespace, is a subsequence of the input, and is shorter by the number of whitespace characters |
| Company.NonWhitespaceOfClean | src/utils/company.js:15 | a string without whitespace is unchanged by stripping |
| Company.StripIdempotent | src/utils/company.js:15 | stripping twice is stripping once |
| Company.GetTelLink | src/utils/company.js:15 | starts with "tel:"; the rest has no whitespace, keeps the number's other characters in order, and is shorter by exactly the number of whitespace characters |
| Company.TelLinkOfStripped | src/utils/company.js:15 | an already stripped number gives the same link |
| Company.GetWhatsAppLink | src/utils/company.js:1-13 | "https://wa.me/" followed by the international number |
| Common.Or | src/pages/Quotation.js:89-91 | `x \|\| d` for an optional string |
| Common.OrElse | src/pages/Quotation.js:80 | `s \|\| d` for a string |
| Common.TrimStart | src/pages/Auth.js:90 | drops exactly the leading whitespace run |
| Common.TrimEnd | src/pages/Auth.js:90 | drops exactly the trailing whitespace run |
| Common.Trim | src/pages/Auth.js:121 | the block between the leading and trailing whitespace runs, starting and ending with non-whitespace |
| Common.TrimmedAtSuffix | src/pages/Auth.js:121 | a block taken from a suffix behind whitespace, with only whitespace after it, is the trimmed block of the whole string |
| Common.IndexOf | src/pages/Auth.js:122 | the first position of the character, or the length when absent |
| Common.Split | src/pages/Auth.js:122 | at least one part, none containing the separator |
| Common.JoinSplit | src/pages/Auth.js:122-123 | splitting and rejoining with the separator gives back the string |
| Common.JoinCons | src/pages/Auth.js:123 | joining a part in front of further parts puts the separator between them |
| Common.SplitJoin | src/pages/Home.js:20 | joining separator-free parts and splitting again gives back the parts |
| Common.IndexOfAbsent | src/pages/Auth.js:122 | an absent character is found at the end |
| Common.IndexOfPrefix | src/pages/Auth.js:122 | the separator after a separator-free prefix is found right after it |
| Common.SubsequenceDropHead | src/pages/Quotation.js:47 | a subsequence of the tail is a subsequence of the whole |
| Common.SubsequenceTail | src/pages/Quotation.js:47 | dropping the first element of a subsequence keeps it one |
| Common.SubsequenceCons | src/pages/Quotation.js:47 | the same head on both sides keeps the relation |
| Common.SubstringOfConcat | src/utils/aiClient.js:3 | a substring of one side is a substring of the concatenation |
| Common.SubstringSelf | src/utils/aiClient.js:3 | a string occurs in itself |
| Common.PartInJoin | src/utils/aiClient.js:2 | every part occurs in the join |

## Left out

- Rendering, styling and animation (JSX and `framer-motion`) are not modelled. The model keeps only the `disabled` attributes that gate handlers.
- Routing is left out: `App.js`, the `RequireAuth` guard and bootstrapping. Navigation is recorded as the path it goes to.
- The `create`/`fetch` calls to the document store, the summary `fetch`, and every identity-provider call (`signIn.create`, `setActive`, `prepareFirstFactor`, `attemptFirstFactor`, `signUp.create`, `prepareEmailAddressVerification`, `attemptEmailAddressVerification`, `authenticateWithRedirect`) are not made. How each settles is an input datatype.
- `useEffect` loading on the home page and the dashboard is left out, and so are `Promise.all` and the `isMounted` guards. The model takes the fetched rows as inputs. A failed fetch gives an empty list, and the model covers that case.
- `ADMIN_EMAIL` lives in `src/utils/admin`, which is not part of this model. It is a parameter of `AdminDashboard.IsAdmin`.
- Dates are abstracted to (year, month) pairs. A `_createdAt` that does not parse has no month, so it matches no bucket. The model does not cover time zones or `toISOString` (timestamps are opaque strings).
- Month labels (`toLocaleString`), `toFixed(2)` display strings and the `formattedAmount` memo of the payment page are presentation and are left out.
- Money is exact: binary floating-point rounding of `subtotal * 0.15` is not modelled.
- `encodeURIComponent` and `parseFloat` are parameters. The model assumes only that the encoder leaves no `/` in its output. `NaN` is modelled as a missing amount.
- `AiClient.GenerateAiSummary`: a `summary` field that is present but not a string is not modelled. The field is an optional string.
- `Home.Carousel.OpenProject` requires a displayable entry, since only displayed entries can be clicked.
- `Home.NormalizeProjects`: the contract states membership in both directions and the length bound, but not that the query order is kept.
- `AdminDashboard.ComputeStats`: the revenue figure is `TotalRevenue` itself; its properties are the lemmas `RevenueAppend`, `RevenueAppendOne` and `RevenueNonNegative`.
- Two things on the auth page are not modelled: the OAuth redirect itself, and what happens after a successful redirect (the page is left).
- The `loading` guards of the quotation, newsletter and payment forms come from each button's `disabled` attribute. The model treats a click on a disabled button as a no-op.

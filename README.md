# Bill splitting and receipt bookkeeping, modelled in Dafny

This project models the logic at the heart of a small receipt-scanning and
bill-splitting app.

- The server half is an exchange-rate service. It keeps a rate cache with a
  one-hour lifetime, converts amounts between currencies and adds a card
  surcharge. Its `/split-bill` route adds the payer's card fee to a bill,
  divides it evenly among the participants, converts each share into that
  participant's currency and rounds it to cents.
- The client half covers:
  - the manual-entry screen's receipt draft (items, subtotal, total, save);
  - the receipt store's reducer;
  - the profile form's validators;
  - the receipt list's search and delete;
  - the way the scan screen names and types the photo it uploads.

Modules, one per source file:

| module | file | models |
|---|---|---|
| `CurrencyService` | `currency_service.dfy` | `server/src/services/currencyService.js`: the cache key, the rate lookup as a function `LookupRate` of the cache, and the class `RateService` whose two map fields are the module's dictionaries |
| `Payments` | `payments.dfy` | `server/src/routes/payments.js`: the split as a function `SplitBillSpec` of the entry-time cache, and the method `SplitBill` that drives a `RateService` |
| `ReceiptContext` | `receipt_context.dfy` | `client/src/contexts/ReceiptContext.js`: the reducer and `addReceipt` |
| `ManualEntry` | `manual_entry.dfy` | `client/app/screens/ManualEntryScreen.js`: the class `Draft` with add, remove and save |
| `Validation` | `validation.dfy` | `client/utils/validation.utils.ts` |
| `ReceiptOverview` | `receipt_overview.dfy` | `client/app/screens/ReceiptOverviewScreen.js` |
| `ScanReceipt` | `scan_receipt.dfy` | `client/app/screens/ScanReceiptScreen.js` |

`Wrappers` (Option, Result), `Seqs` (an order-preserving `Filter`, the model
of `Array.prototype.filter`) and `Text` (ASCII `trim`, `toLowerCase` and
`includes`) are shared helpers.

Inputs the source takes from its environment are passed in as parameters:

- the exchange-rate provider is an oracle `(from, to) -> reply`;
- `Date.now()` and the generated ids and timestamps are plain values;
- `parseFloat` and `parseInt` are oracles returning `Option` (None is NaN).

Behaviour of the code worth knowing:

- An empty participant list is not rejected. The split succeeds with no entries.
- Shares are rounded one by one and the remainder is never redistributed.
  `Payments.SplitSameCurrency` bounds the resulting drift.
- No currency code is validated. An unknown code simply fails at the provider.
- Negative prices are rejected. Negative quantities, taxes, tips and fees are accepted.
- The username message says "less than 20 characters", but 20 characters are accepted.

## Model

| member | source | states |
|---|---|---|
| CurrencyService.CacheKey | server/src/services/currencyService.js:11 | the key is the source code, then '_', then the target code |
| CurrencyService.IsFresh | server/src/services/currencyService.js:15 | a pair missing from either map is never fresh; a fresh pair has a non-zero rate fetched less than an hour ago |
| CurrencyService.FailureStaysMiss | server/src/services/currencyService.js:15-43 | after a failed fetch the pair is still a miss, so the next lookup asks the provider again |
| CurrencyService.CacheKeyInjective | server/src/services/currencyService.js:11 | two currency pairs whose source codes contain no '_' share a cache key exactly when they are the same pair |
| CurrencyService.CacheKeyTargetInjective | server/src/services/currencyService.js:11 | for one source currency, different target currencies always get different keys |
| CurrencyService.ReversePairSeparate | server/src/services/currencyService.js:11 | (A, B) and (B, A) are separate entries, so a cached rate is never reused inverted |
| CurrencyService.RateFromReply | server/src/services/currencyService.js:24-38 | a reply yields a rate exactly when it is ok and its result is "success"; a non-ok reply is an API error carrying its status |
| CurrencyService.LookupRate | server/src/services/currencyService.js:10-44 | the provider is asked exactly when the entry is missing, zero or an hour old; a hit returns the stored rate and changes nothing; a failure leaves both maps unchanged; a success writes the rate and the entry-time `now` under the key only; both maps keep the same keys |
| CurrencyService.Convert | server/src/services/currencyService.js:46-53 | equal currencies give the amount back with no cache access; otherwise amount times the looked-up rate, with a lookup failure passed on |
| CurrencyService.CacheTtl | server/src/services/currencyService.js:10-34 | a rate fetched at t is served unchanged, with no request, by every later lookup before t + 3600000 ms, and fetched again from then on |
| CurrencyService.ZeroRateIsMiss | server/src/services/currencyService.js:15-17 | a stored rate of 0 is falsy, so the pair is fetched again however recent it is |
| CurrencyService.LookupTouchesOnlyItsKey | server/src/services/currencyService.js:30-34 | a lookup changes no entry of any other key, in either map |
| CurrencyService.LookupKeepsAnswers | server/src/services/currencyService.js:15-34 | after a lookup, every pair with the same source currency gets the same answer as before it |
| CurrencyService.ConvertAnswersAs | server/src/services/currencyService.js:46-53 | a conversion against a cache that answers like the entry-time cache gives the entry-time result |
| CurrencyService.ApplyCardFee | server/src/services/currencyService.js:56-61 | a falsy fee (missing or 0) leaves the amount unchanged; otherwise the amount grows by fee percent of itself |
| CurrencyService.FeeDirection | server/src/services/currencyService.js:60 | on a positive amount, a positive fee strictly raises it and a negative fee lowers it |
| CurrencyService.RateService.constructor | server/src/services/currencyService.js:7-8 | both dictionaries start empty |
| CurrencyService.RateService.GetExchangeRate | server/src/services/currencyService.js:10-44 | returns what LookupRate returns, leaves the maps as LookupRate leaves them, and records a request exactly when LookupRate fetches |
| CurrencyService.RateService.ConvertAmount | server/src/services/currencyService.js:46-53 | matches Convert in result, cache and requests; equal currencies return the amount and change nothing |
| Payments.RoundCentsNonNegative | server/src/routes/payments.js:33 | a non-negative amount rounds to a whole number of cents within half a cent of it |
| Payments.Round2 | server/src/routes/payments.js:33 | toFixed(2) on reals: a whole number of cents within half a cent; an exact half cent rounds away from zero (up for a non-negative input, down for a negative one); never negative for a non-negative input |
| Payments.PerPersonShare | server/src/routes/payments.js:19 | with participants, the shares of all of them add up to the total with the card fee applied |
| Payments.Entries | server/src/routes/payments.js:30-35 | one entry per participant, in order, carrying that participant's id, name and currency and owing the converted amount rounded to cents (within half a cent) |
| Payments.SplitBillSpec | server/src/routes/payments.js:6-54 | no participants gives an empty successful split with no lookup; a failure carries the fixed error message; a success has one entry per participant |
| Payments.FeeOrZero | server/src/routes/payments.js:43 | the reported fee is the input fee, or 0 when it is falsy |
| Payments.ConvertShares | server/src/routes/payments.js:22-37 | one conversion result per participant |
| Payments.SplitBill | server/src/routes/payments.js:6-54 | the response, the cache afterwards and the requests made are those of SplitBillSpec on the entry-time cache |
| Payments.ConvertSharesAsOnEntry | server/src/routes/payments.js:22-37 | converting in order while threading the cache gives every participant the result a lookup against the entry-time cache gives, as the concurrent map does |
| Payments.SplitEntriesFollowParticipants | server/src/routes/payments.js:16-45 | a successful response echoes the amount, rounds the surcharged total and reports the fee or 0. It has one entry per participant in order, with id, name and currency copied and the converted share rounded to cents |
| Payments.SplitAllOrNothing | server/src/routes/payments.js:47-53 | the split fails exactly when some participant's conversion fails, and then the response is only the error message, with no entries |
| Payments.SameCurrencyNoLookup | server/src/routes/payments.js:24-28 | when every participant uses the bill's currency, the cache is untouched, nothing is requested and every share comes back unconverted |
| Payments.SameCurrencyShares | server/src/routes/payments.js:19-34 | when nobody converts, the split succeeds and every entry owes the even share of the surcharged total rounded to cents |
| Payments.EvenSplitDrift | server/src/routes/payments.js:19-33 | n entries each owing the rounded even share of an amount sum to within n half-cents of it |
| Payments.SplitSameCurrency | server/src/routes/payments.js:16-45 | in a single-currency split, no lookup happens, everyone owes round2(total with fee / n), and the entries miss the total by at most half a cent each |
| Payments.SplitExample | server/src/routes/payments.js:16-45 | 100 USD with a 5% fee split between two USD payers: 105.00 in total, 52.50 each, summing to 105.00 |
| ReceiptContext.InitialState | client/src/contexts/ReceiptContext.js:15-20 | no receipts, nothing selected, not loading, no error |
| ReceiptContext.ReplaceById | client/src/contexts/ReceiptContext.js:35-37 | UPDATE's map keeps the list's length |
| ReceiptContext.Reduce | client/src/contexts/ReceiptContext.js:23-68 | no action changes `loading` or `error` |
| ReceiptContext.FlagsNeverChange | client/src/contexts/ReceiptContext.js:23-68 | after any sequence of actions, `loading` and `error` are still their initial values |
| ReceiptContext.AddAppends | client/src/contexts/ReceiptContext.js:25-30 | ADD puts the payload last, keeps the earlier receipts in place and selects it |
| ReceiptContext.UpdateReplacesMatching | client/src/contexts/ReceiptContext.js:32-39 | UPDATE keeps the length and every id, replaces exactly the receipts with the payload's id, and selects the payload even when none matched |
| ReceiptContext.UpdateIdempotent | client/src/contexts/ReceiptContext.js:32-39 | updating twice with one payload is updating once |
| ReceiptContext.DeleteRemovesExactly | client/src/contexts/ReceiptContext.js:41-51 | DELETE leaves no receipt with the id and keeps every other one as often as before, in order; the selection is cleared exactly when it has that id |
| ReceiptContext.DeleteIdempotent | client/src/contexts/ReceiptContext.js:41-51 | deleting an id twice is deleting it once |
| ReceiptContext.SelectionActionsKeepReceipts | client/src/contexts/ReceiptContext.js:53-66 | SET_CURRENT and CLEAR_CURRENT change only the selection; an unknown action changes nothing |
| ReceiptContext.AddReceiptData | client/src/contexts/ReceiptContext.js:75-83 | the returned receipt is the data stamped with the given id and time, and that same receipt is appended and selected |
| ManualEntry.NumberOrZero | client/app/screens/ManualEntryScreen.js:70-72 | text that does not parse counts as 0; otherwise the parsed number |
| ManualEntry.QuantityOrOne | client/app/screens/ManualEntryScreen.js:41 | the parsed quantity, or 1 when it is NaN or 0; never 0, and negatives are kept |
| ManualEntry.ItemFromDraft | client/app/screens/ManualEntryScreen.js:34-54 | a blank name or price is refused first; an item is accepted exactly when both are non-blank and the price parses to a positive number; it gets the trimmed name and subtotal price times quantity |
| ManualEntry.Subtotal | client/app/screens/ManualEntryScreen.js:64-66 | 0 for no items, and never negative when no item subtotal is |
| ManualEntry.SubtotalConcat | client/app/screens/ManualEntryScreen.js:64-66 | the subtotal of two lists joined is the sum of their subtotals |
| ManualEntry.SubtotalAfterRemoval | client/app/screens/ManualEntryScreen.js:60-66 | removing an id lowers the subtotal by exactly the subtotals of the removed items |
| ManualEntry.Total | client/app/screens/ManualEntryScreen.js:68-74 | with no parsable tax, tip or card fee the total is the subtotal; together with ManualEntry.ManualReceiptData, the total is the subtotal plus each of tax, tip and card fee read as its parsed value, or 0 when it does not parse, so each field contributes on its own |
| ManualEntry.TotalsExample | client/app/screens/ManualEntryScreen.js:64-74 | coffee 3.50 x 2 and muffin 2.25 give subtotal 9.25, and with 0.50 tax and 1.00 tip a total of 10.75 |
| ManualEntry.Draft.constructor | client/app/screens/ManualEntryScreen.js:20-32 | no items, the item inputs at name '', price '', quantity '1', the detail inputs empty |
| ManualEntry.Draft.EditItem | client/app/screens/ManualEntryScreen.js:133-163 | the item inputs change and nothing else does |
| ManualEntry.Draft.EditTax | client/app/screens/ManualEntryScreen.js:219-220 | only the tax input changes; merchant, total, tip, card fee, items and item inputs keep their values |
| ManualEntry.Draft.EditTip | client/app/screens/ManualEntryScreen.js:233-234 | only the tip input changes; everything else keeps its value |
| ManualEntry.Draft.EditCardFee | client/app/screens/ManualEntryScreen.js:247-248 | only the card-fee input changes; everything else keeps its value |
| ManualEntry.WithoutItem | client/app/screens/ManualEntryScreen.js:61 | an item survives exactly when its id differs, and each survivor occurs as often as before |
| ManualEntry.ManualReceiptData | client/app/screens/ManualEntryScreen.js:82-92 | the saved record has kind 'manual', the items and date given, the subtotal of the items, tax, tip and card fee each stored as the parsed value of its own text, or 0 when that text does not parse, the merchant trimmed ('' when blank), and a total equal to subtotal plus tax, tip and card fee, which is the on-screen Total |
| ManualEntry.Draft.AddItem | client/app/screens/ManualEntryScreen.js:34-58 | a refused draft changes nothing; an accepted item is appended last, raising the subtotal by its own, and the item inputs are reset |
| ManualEntry.Draft.RemoveItem | client/app/screens/ManualEntryScreen.js:60-62 | exactly the items with the id go, the rest keep their order, and the subtotal drops by the removed subtotals |
| ManualEntry.Draft.SaveReceipt | client/app/screens/ManualEntryScreen.js:76-99 | refused exactly when there are no items; otherwise a 'manual' receipt whose total is subtotal plus the parsed tax, tip and card fee is stored and selected through addReceipt |
| Validation.EmailPattern | client/utils/validation.utils.ts:14 | a string the pattern accepts contains '@' and '.' and is at least five characters long |
| Validation.NumericOnly | client/utils/validation.utils.ts:49 | only digits remain, and each digit occurs as often as in the input |
| Validation.PatternNotBlank | client/utils/validation.utils.ts:10-16 | an address the pattern accepts is never blank, so the blank check never hides a valid address |
| Validation.ValidateEmail | client/utils/validation.utils.ts:9-20 | blank gives 'Email is required'; otherwise accepted exactly when the anchored pattern matches, else 'Invalid email format' |
| Validation.PatternHasShape | client/utils/validation.utils.ts:14 | a match of the pattern has no white space, exactly one '@' with text before it, and a '.' after it with text on both sides |
| Validation.ShapeHasPattern | client/utils/validation.utils.ts:14 | any string of that shape matches the pattern |
| Validation.EmailAcceptedIffShape | client/utils/validation.utils.ts:9-20 | an email is accepted exactly when it has that shape |
| Validation.ValidateUsername | client/utils/validation.utils.ts:25-39 | accepted exactly when not blank and 3 to 20 characters long, untrimmed; blank, too short and too long give their messages in that order |
| Validation.BlankHasNoDigits | client/utils/validation.utils.ts:45-53 | blank text has no digits |
| Validation.ValidatePhone | client/utils/validation.utils.ts:44-61 | accepted exactly when it has at least 10 digits and only digits, white space and - + ( ); blank, too few digits and a bad character are reported in that order |
| Validation.ValidatePassword | client/utils/validation.utils.ts:66-88 | accepted exactly when at least 8 characters with a lowercase letter, an uppercase letter and a digit; the first failing check's message wins |
| Validation.ValidatePasswordMatch | client/utils/validation.utils.ts:93-98 | an error exactly when the two strings differ |
| Validation.ValidateProfileForm | client/utils/validation.utils.ts:103-125 | a field's key is present exactly when its validator fails, holding that message; the map is empty exactly when every field passes |
| Validation.FormValidIff | client/screens/CreateProfile.tsx:98-102 | the form is valid exactly when the username, email shape, phone, password and confirmation conditions all hold |
| ReceiptOverview.OrEmpty | client/app/screens/ReceiptOverviewScreen.js:53-54 | a missing vendor or note reads as '' |
| ReceiptOverview.MatchesQuery | client/app/screens/ReceiptOverviewScreen.js:51-54 | the empty query matches every receipt |
| ReceiptOverview.NormalizeQuery | client/app/screens/ReceiptOverviewScreen.js:48 | the normalised query is empty exactly when the typed query is blank |
| ReceiptOverview.Filtered | client/app/screens/ReceiptOverviewScreen.js:47-56 | a blank query lists every receipt unchanged; any result is drawn from the list |
| ReceiptOverview.FilteredMembership | client/app/screens/ReceiptOverviewScreen.js:50-55 | for a non-blank query a receipt is listed exactly when it is in the list and its lower-cased title, vendor or note contains the query |
| ReceiptOverview.FilteredCount | client/app/screens/ReceiptOverviewScreen.js:50-55 | a matching receipt is listed as often as it occurs, a non-matching one never |
| ReceiptOverview.FilteredKeepsOrder | client/app/screens/ReceiptOverviewScreen.js:50-55 | filtering a joined list is joining the filtered halves, so order is kept |
| ReceiptOverview.MissingFieldsNeverMatch | client/app/screens/ReceiptOverviewScreen.js:53-54 | with vendor and note missing, a non-empty query matches only through the title |
| ReceiptOverview.QueryCaseInsensitive | client/app/screens/ReceiptOverviewScreen.js:48 | lower-casing the query first does not change the listing |
| ReceiptOverview.DeleteReceipt | client/app/screens/ReceiptOverviewScreen.js:74-76 | deletion never lengthens the list |
| ReceiptOverview.DeleteRemovesExactly | client/app/screens/ReceiptOverviewScreen.js:74-76 | a receipt survives exactly when its id differs, as often as before, in the same order |
| ReceiptOverview.FindById | client/app/screens/ReceiptOverviewScreen.js:67-70 | nothing exactly when no receipt has the id; otherwise the first receipt with it |
| ScanReceipt.LastSegment | client/app/screens/ScanReceiptScreen.js:83 | the longest suffix without '/': all of the URI, or what follows its last '/' |
| ScanReceipt.LastSegmentOf | client/app/screens/ScanReceiptScreen.js:83 | a name after a final '/' is the segment |
| ScanReceipt.TrailingWord | client/app/screens/ScanReceiptScreen.js:84 | the longest suffix of word characters |
| ScanReceipt.TrailingWordOf | client/app/screens/ScanReceiptScreen.js:84 | word characters after a non-word character are the trailing word |
| ScanReceipt.Extension | client/app/screens/ScanReceiptScreen.js:84 | a capture is never empty |
| ScanReceipt.MatchGivesExtension | client/app/screens/ScanReceiptScreen.js:84 | a '.' at which the pattern matches yields the text after it as the extension |
| ScanReceipt.ExtensionIsRegexCapture | client/app/screens/ScanReceiptScreen.js:84 | a position matches `\.(\w+)$` exactly when it is the '.' before the extension, so the match is unique and the capture is the text after it |
| ScanReceipt.MimeType | client/app/screens/ScanReceiptScreen.js:85 | always starts with image/; image/ plus the extension when there is one, else image/jpeg |
| ScanReceipt.DottedName | client/app/screens/ScanReceiptScreen.js:84-85 | a name ending in '.' and word characters is typed image/ plus those characters |
| ScanReceipt.UndottedName | client/app/screens/ScanReceiptScreen.js:84-85 | a trailing word after another non-word character, or a bare final '.', gives image/jpeg |
| ScanReceipt.NestedDotsExample | client/app/screens/ScanReceiptScreen.js:83-85 | .../a.b.jpg uploads as image/jpg |
| ScanReceipt.FallbackExamples | client/app/screens/ScanReceiptScreen.js:84-85 | a.jp-g and photo. upload as image/jpeg |
| ScanReceipt.PrepareUpload | client/app/screens/ScanReceiptScreen.js:70-91 | no image stops with an error and no upload; otherwise the part carries the URI, its last segment and an image/ type derived from it |
| Text.Trim | client/app/screens/ManualEntryScreen.js:35 | trimmed text is empty exactly when the input is blank, and otherwise starts and ends with non-space |
| Text.TrimKeepsMiddle | client/app/screens/ManualEntryScreen.js:35 | trimmed text is a contiguous slice of the input and everything outside that slice is white space |
| Text.ToLower | client/app/screens/ReceiptOverviewScreen.js:48 | same length; every upper-case ASCII letter becomes the letter 32 code points above it, every other character is kept, and no upper-case letter remains |
| Seqs.Filter | client/app/screens/ManualEntryScreen.js:61 | the filtered list is no longer than the input and holds only elements of the input that pass the test |
| Text.TrimLower | client/app/screens/ReceiptOverviewScreen.js:48 | trimming and lower-casing commute |

## Left out

- The HTTP call to the exchange-rate provider is an oracle, a function from the currency pair to a reply. A network error or a reply that cannot be decoded is the reply `Unreachable`, which the lookup turns into `RequestFailed`. The API key, the URL and the JSON layout are not modelled.
- The OCR proxy routes are not part of this model. Neither are the database, password hashing, sign-up route and server wiring.
- The scan screen's `fetch`/`FormData` upload and its response handling are left out. So are all React rendering, navigation, alerts and loading flags.
- Payments.SplitBill: `Promise.all` runs the conversions concurrently. The model runs them in participant order, threading the cache, and its provider is a deterministic function of the pair. On a cold cache the source sends one request per participant of a currency to a provider that is rate-limited, and any one of those failing fails the split; in the model, after one success the later participants of that currency are served from the cache, so a failure of those extra requests is not captured. The model is not limited to one request per pair, though: after a failed or zero-rate fetch the pair stays a miss (`CurrencyService.FailureStaysMiss`), so each later participant of that currency asks again. `Payments.ConvertSharesAsOnEntry` shows that, with a deterministic provider, every participant gets the entry-time answer.
- Payments.SplitBill: the source reads `Date.now()` separately inside each lookup. The model uses a single `now` for the whole split.
- Payments.Round2: JavaScript numbers are modelled as reals. `toFixed(2)` is idealised as rounding half away from zero at cents, so binary floating-point effects are not captured. Likewise, dividing by an empty participant list (Infinity or NaN) has no counterpart: that share is never used, because there are no entries.
- CurrencyService.ApplyCardFee: a NaN fee is falsy in JavaScript and is modelled as None. A fee that is not a number at all is not modelled.
- ManualEntry.NumberOrZero and ManualEntry.QuantityOrOne: `parseFloat` and `parseInt` are oracles, so their lenient prefix parsing is not modelled.
- Text.Trim and Text.ToLower: `trim`, `\s` and `toLowerCase` are modelled on ASCII only. JavaScript also folds Unicode white space and letters.
- Validation.ValidateUsername and Validation.ValidatePassword: JavaScript string length counts UTF-16 code units. The model counts characters, so both length bounds (3 to 20 for a username, at least 8 for a password) are on characters; a character outside the Basic Multilingual Plane counts twice in the source and once here.
- ManualEntry.Draft.AddItem: the id comes from `Date.now()` and is a parameter here. Two items can share an id, and RemoveItem then removes both, as the source does.
- CurrencyService.CacheKeyInjective: keys are proved distinct only for codes without '_'. Codes containing '_' can collide in the source as well.
- The receipt list starts from fixed sample receipts. The model takes any list.
- Payments.SplitBill: the failure response's HTTP status 500 is not modelled; `SplitFailed` carries only the error message. The `console.error` logging of a failed split and of a failed rate fetch is left out as well, since it changes nothing the caller sees.

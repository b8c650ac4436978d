# pizza-voucher client core in Dafny

This project models the voucher-handling core of the `pizza` command-line client for
pizza.de vouchers, and proves properties of the model. The client has two commands.
`list` shows the account's vouchers. `redeem` adds a voucher code and then shows the
list. Both first get a password (from `--password` or a prompt), hash it, and log in.
The client exists in two variants, and both are modelled side by side:

- `src/pizza.ts`, the current one. It uses needle, and its errors carry the service's code and description.
- `lib/pizza.ts`, the earlier one. It uses `request` with a cookie jar.

Modules, in dependency order:

- `Interfaces` (interfaces.dfy) holds the records of `lib/Interfaces.ts`: vouchers, responses and error payloads. A JavaScript number is an exact `real`. A `valid_from`/`valid_until` field is either its wire text or a parsed Date (`DateField`). `undefined` is `Option.None`. `Thrown` is what a rejected promise or a `throw` carries: an Error with a message, a raw error payload, or `undefined`.
- `Currency` (currency.dfy) models `toFixed(2)` on exact values and `currencyPrinter`.
- `Normalise` (normalise.dfy) models `fixVouchers`. The method works in place on an array and is proved against the value-level `FixList`. Further lemmas cover repeated passes.
- `PasswordHash` (password_hash.dfy) models `getPasswordHash`: the `while` loop that strips the `=` padding, proved against `StripPadding`.
- `Report` (report.dfy) models `printVouchers`. It gives what the table holds (rows, order and total) and the fixed message for an empty list.
- `Process` (process.dfy) holds what both variants share: the options, `requestPassword`, the observable events of a run, and the `errors` handlers with the nested `try`/`catch` of the commands.
- `SrcClient` (src_client.dfy) and `LibClient` (lib_client.dfy) hold each variant's requests, response checks, and `list` and `redeem` commands.

A run is a `Run(events, exitCode)`: the events in the order they happen, each event
one of a prompt shown, a request sent, a stdout line, a stderr line, or a printed table.

The prompt's answer, the service's replies, the MD5+base64 encoder and the date parser are inputs of the run. They are collected in a `World`.

The copies of `fixVouchers`, `getPasswordHash`, `currencyPrinter` and `printVouchers` in `lib/pizza.ts` are the same as those in `src/pizza.ts`. Their line ranges are lib/pizza.ts:206-219, 231-237, 179-182 and 184-204. The one model of each serves both variants.

Behaviour of the code worth knowing:

- **Money is divided on every pass.** `fixVouchers` guards only the date conversion, so a second pass divides the money amounts by 100 again (`Normalise.SecondPass`): normalisation is not idempotent for money.
- **The empty-list message** is exactly "No vouchers redeemed. :(", printed instead of a table (`Process.Show`, `SrcClient.EmptyListMessage`).
- **The `redeem` output** is the confirmation line, then "Current vouchers:", then the table. If the reply has `success` but no list, both lines are printed before `printVouchers` throws. The run then ends in the redeem handler with exit 3.
- **A list reply with `success` but no `vouchers` array** makes `printVouchers` throw a TypeError. The run ends with exit 2 for `list`.
- **Currency cells are never padded.** `currencyPrinter` pads only when `width` is 0, and padding to width 0 adds nothing.
- **A cancelled prompt** exits with 4, after printing "Login cancelled.". The prompt callback resolves whenever its error argument is falsy, so only an error object cancels.
- **A handler that reads `.message` of `undefined` itself throws.** Its `try` is nested inside an outer one, so the outer `catch` runs next. That is why `lib`'s login failure without a payload ends as a cancelled login.

## Model

| member | source | states |
|---|---|---|
| Currency.RoundedCents | src/pizza.ts:193 | toFixed(2) of a non-negative value shows the integer nearest to 100x, within half a hundredth |
| Currency.Fixed2UnsignedRoundTrip | src/pizza.ts:193 | the "<digits>.<two digits>" text reads back as the same count of hundredths and has no sign |
| Currency.ToFixed2Denotes | src/pizza.ts:193 | every toFixed(2) text parses, and the hundredths it shows are within half a hundredth of 100x, negative values included |
| Currency.CurrencyPrinter | src/pizza.ts:192-195 | the cell is exactly the toFixed(2) text for every width: the padding branch adds nothing |
| Currency.ConversionExample | src/pizza.ts:192-195 | 1050 hundredths, divided by 100, print as "10.50" |
| Normalise.FixDate | src/pizza.ts:226-229 | a date still held as text becomes the parsed Date; a Date is left as it is |
| Normalise.FixVoucher | src/pizza.ts:225-233 | one pass parses the dates, divides both money amounts by 100 and leaves every other field as it was |
| Normalise.FixList | src/pizza.ts:221-234 | `undefined` stays `undefined`, and the list keeps its length with each voucher passed once through the loop body |
| Normalise.FixVouchers | src/pizza.ts:221-234 | in place on the array (`null` for `undefined`): each slot becomes FixVoucher of its old value, so length, order and untouched fields are kept; the result is FixList of the old contents |
| Normalise.PassesEffect | src/pizza.ts:225-233 | after n passes the dates are those of the first pass, the money amounts are divided by 100^n, and nothing else changed |
| Normalise.SecondPass | src/pizza.ts:226-232 | a second pass keeps the dates and divides money by 100 again: it changes the voucher unless both amounts are 0 |
| Normalise.TotalScalesOnce | src/pizza.ts:231-232 | the total remaining value of a list after one pass is the received total divided by 100 |
| Normalise.TotalScalesTwice | lib/pizza.ts:216-217 | after two passes the total is the received total divided by 10000 |
| PasswordHash.StripPaddingIsStrip | src/pizza.ts:239-240 | dropping trailing `=` one at a time gives a prefix of the digest that does not end in `=`, with only `=` after it |
| PasswordHash.StripUnique | src/pizza.ts:239-240 | only one string has those three properties, so they determine the hash |
| PasswordHash.GetPasswordHash | src/pizza.ts:236-242 | the loop returns the digest with its trailing `=` removed: a prefix of the digest, not ending in `=`, followed in it only by `=` |
| PasswordHash.Md5DigestHash | src/pizza.ts:237-241 | for the 24-character base64 text of a 16-byte digest the hash is its 22 data characters |
| Report.PrintResult | src/pizza.ts:197-203 | an undefined list throws the TypeError of reading `length`; a defined one prints ReportOf of it |
| Report.TotalCell | src/pizza.ts:214-217 | the total cell starts with "Total: " and the rest reads back as the total to within half a hundredth |
| Report.RowCells | src/pizza.ts:205-210 | a row's Description and Code cells are the voucher's `desc` and `code`, and its Original Value and Remaining Value cells are the toFixed(2) texts of its amounts |
| Report.PrintVouchers | src/pizza.ts:197-219 | the row-building loop followed by sort and total yields ReportOf of the vouchers |
| Report.SortRowsCorrect | src/pizza.ts:213 | the sort on Valid Until returns the rows ordered by date and as a permutation of its input |
| Report.SortRowsStable | src/pizza.ts:213 | rows with the same date keep their input order |
| Report.SumSorted | src/pizza.ts:213-217 | the total does not depend on the order the sort leaves |
| Report.SumRows | src/pizza.ts:214-217 | the total of the rows equals the sum of the vouchers' remaining values |
| Report.ReportShape | src/pizza.ts:197-219 | NoVouchers (written as the fixed message) exactly for an empty list; otherwise one row per voucher, sorted, a permutation of the vouchers' rows, stable, total = sum of remaining values |
| Report.RowsComeFromVouchers | src/pizza.ts:205-212 | every row shown is the row of one of the input vouchers |
| Report.SortAndTotalExample | src/pizza.ts:204-217 | dates 3, 1, 2 are shown in order 1, 2, 3, and remaining values 12.34 and 0.66 total "13.00" |
| Process.ExitCode | src/pizza.ts:60-80 | the handlers exit with 4, 1, 2, 3 for the password, login, list and redeem stages, and no two stages share a code |
| Process.Fail | src/pizza.ts:60-80 | a failing stage adds only stderr lines: its lead-in line, then the error's message (quoted when the variant quotes it, "undefined" for a payload without one); reading the message of `undefined` hands a TypeError to the handler one `try` out, so a login handler given `undefined` ends with "Login cancelled." and exit 4 |
| Process.RequestPassword | src/pizza.ts:86-98 | a supplied password is used with no prompt; otherwise the prompt is shown once and its answer, or the Error it fails with, is the outcome |
| Process.Show | src/pizza.ts:200-203 | an empty report is written as exactly the line "No vouchers redeemed. :(", a non-empty one as the table |
| SrcClient.ApiErrorMessage | src/pizza.ts:82-84 | the ApiError message is "Pizza.de responded with code C: D", or the default text when there is no payload |
| SrcClient.ApiErrorMessageInformative | src/pizza.ts:83 | a message built from a payload ends with its description and differs from the default text |
| SrcClient.LoginCall | src/pizza.ts:135-142 | login posts exactly the user name and the hash to user/auth, with no cookies |
| SrcClient.ListCall | src/pizza.ts:155-161 | the list request is a GET to voucher/list carrying the login cookies |
| SrcClient.RedeemCall | src/pizza.ts:175-182 | the redeem request posts exactly the code to voucher/add carrying the login cookies |
| SrcClient.CheckLogin | src/pizza.ts:141-149 | login resolves exactly when a reply came with `success`, with that reply's cookies; a transport error rejects with itself, a failed body with the ApiError |
| SrcClient.GetVoucherList | src/pizza.ts:160-168 | resolves exactly on a successful reply, with its list normalised once; otherwise rejects with the transport error or the ApiError |
| SrcClient.RedeemVoucher | src/pizza.ts:181-189 | as GetVoucherList, for the redeem reply |
| SrcClient.ShowList | src/pizza.ts:107-110 | exit 0 exactly when the reply succeeded with a list, and then only the report of that list (normalised once) is printed; otherwise exit 2 after diagnostics only |
| SrcClient.RedeemAndShow | src/pizza.ts:120-125 | exit 0 exactly when the reply succeeded with a list, printing the confirmation for the returned code, "Current vouchers:" and the report; otherwise exit 3 |
| SrcClient.List | src/pizza.ts:100-113 | `list` starts with the prompt events of the password stage and exits with 0, 1, 2 or 4 |
| SrcClient.Redeem | src/pizza.ts:115-129 | `redeem` starts with the prompt events of the password stage and exits with 0, 1, 3 or 4 |
| SrcClient.SuppliedPasswordSkipsPrompt | src/pizza.ts:89-90 | with `--password` the run does not depend on the prompt, and the first event is the login request with that password's hash |
| SrcClient.PromptedPasswordIsHashed | src/pizza.ts:86-98 | without `--password` the prompt comes first and the typed text is what is hashed for login |
| SrcClient.ListOutcomes | src/pizza.ts:100-113 | `list` exits 4, 1 or 2 exactly when the password, login or list stage is the first to fail, and otherwise 0; after a failure only diagnostics follow the requests already made |
| SrcClient.RedeemOutcomes | src/pizza.ts:115-129 | `redeem` exits 4, 1 or 3 exactly when the password, login or redeem stage is the first to fail, and 0 otherwise; only diagnostics follow a failed login or a refused redeem |
| SrcClient.EmptyListMessage | src/pizza.ts:200-203 | a successful empty list reply makes `list` write the login and list requests, then exactly "No vouchers redeemed. :(", and exit 0 |
| SrcClient.ListNormalisesOnce | src/pizza.ts:107-110 | a successful `list` prints the report of the received list normalised once: its total is the received total divided by 100 |
| SrcClient.RedeemNormalisesOnce | src/pizza.ts:120-125 | a successful `redeem` ends with the confirmation, "Current vouchers:" and the report of the returned list normalised once |
| SrcClient.RedeemConfirmsBeforeMissingList | src/pizza.ts:121-125 | a success reply without a list prints both confirmation lines, then the redeem handler's lines, and exits 3 |
| SrcClient.LoginReportsDescription | src/pizza.ts:145 | a refused login exits 1 and its detail line ends with the service's description |
| LibClient.ApiErrorMessage | lib/pizza.ts:85-87 | the ApiError message is the description alone, or the default text |
| LibClient.GetRequestOptions | lib/pizza.ts:221-229 | the options carry the given uri, method and jar, only the app's User-Agent header, `json` set and no form |
| LibClient.LoginOptions | lib/pizza.ts:141-146 | login posts exactly user name and hash to user/auth with the fresh jar |
| LibClient.ListOptions | lib/pizza.ts:158 | the list request is a GET to voucher/list with the login's jar |
| LibClient.RedeemOptions | lib/pizza.ts:168-169 | the redeem request posts exactly the code to voucher/add with the login's jar |
| LibClient.RawError | lib/pizza.ts:150-151 | login rejects with the raw payload, or with `undefined` when there is none |
| LibClient.CheckLogin | lib/pizza.ts:148-154 | login resolves exactly on `success`, with the jar its request used; otherwise it rejects with the raw error |
| LibClient.GetVoucherList | lib/pizza.ts:159-164 | resolves exactly on `success` with the body untouched (no normalisation); otherwise the ApiError |
| LibClient.RedeemVoucher | lib/pizza.ts:170-176 | resolves exactly on `success` with the list normalised once; otherwise the ApiError |
| LibClient.ShowList | lib/pizza.ts:106-112 | exit 0 exactly for a successful reply with a list, printing its report after one pass; otherwise exit 2 after diagnostics only |
| LibClient.RedeemAndShow | lib/pizza.ts:128-134 | exit 0 exactly for a successful reply with a list, printing the confirmation lines and the report of the list after two passes; otherwise exit 3 |
| LibClient.List | lib/pizza.ts:101-121 | `list` starts with the prompt events of the password stage and exits with 0, 1, 2 or 4 |
| LibClient.Redeem | lib/pizza.ts:123-138 | `redeem` starts with the prompt events of the password stage and exits with 0, 1, 3 or 4 |
| LibClient.SessionReused | lib/pizza.ts:140-158 | login is made with a fresh jar, and the list request carries that same jar |
| LibClient.ListOutcomes | lib/pizza.ts:101-121 | a cancelled prompt exits 4; a refused login exits 1 with a payload and 4 without; exit 2 and exit 0 exactly as the list stage fails or succeeds |
| LibClient.RedeemOutcomes | lib/pizza.ts:123-138 | `redeem` exits 4 for a cancelled prompt or a login refused without payload, 1 for one refused with a payload, 3 exactly when the redeem stage fails, 0 otherwise; only diagnostics follow a refused login or redeem |
| LibClient.EmptyListMessage | lib/pizza.ts:185-188 | a successful empty list body makes `list` write the login and list requests, then exactly "No vouchers redeemed. :(", and exit 0 |
| LibClient.LoginLosesDescription | lib/pizza.ts:150-151 | a refused login's detail line is "undefined" in quotes whatever the service said; without a payload the run ends "Login cancelled." with exit 4 |
| LibClient.ListNormalisesOnce | lib/pizza.ts:107-109 | a successful `list` prints the received list normalised once: total divided by 100 |
| LibClient.RedeemNormalisesTwice | lib/pizza.ts:128-133 | a successful `redeem` prints the returned list normalised twice: total divided by 10000 |
| LibClient.RedeemShowsHundredth | lib/pizza.ts:173 | a voucher with 1000 on the wire shows "10.00" after one pass and "0.10" after the two of `redeem` |

## Findings

| source | as written | input that shows it | evidently intended | confidence | as-written member | corrected member |
|---|---|---|---|---|---|---|
| lib/pizza.ts:132 | `redeem` calls `fixVouchers` on a list `redeemVoucher` already normalised (lib/pizza.ts:173), so money is divided by 10000 | a redeem reply with one voucher whose `remaining_value` is 1000 shows 0.10 instead of 10.00 | normalise once, as `list` does and as the current variant does | high, not executed | LibClient.RedeemNormalisesTwice | SrcClient.RedeemNormalisesOnce |
| lib/pizza.ts:151 | `login` rejects with the raw `body.error` payload, which has no `message` | reply `{success: false, error: {code: "E1", description: "bad credentials"}}` prints `"undefined"` as the detail line; a reply `{success: false}` ends as "Login cancelled." with exit 4 | reject with an ApiError so the description reaches the detail line and the exit code is 1 | high, not executed | LibClient.LoginLosesDescription | SrcClient.LoginReportsDescription |

## Left out

- Command-line parsing (yargs declarations, help text, terminal width) is not modelled. The parsed `--user`/`--password` values are the input `Args`.
- The `promptly` prompt is not modelled beyond its outcome: a typed text or an error object.
- HTTP transport is not modelled. The needle and `request` libraries, TLS and the cookie jars' contents are left out. Replies are inputs, and a jar is an opaque identity.
- In `lib/pizza.ts`, a request whose body is missing makes `body.success` throw inside the callback. That crash path is not modelled: lib replies are always bodies.
- In `src/pizza.ts`, a reply without a transport error is assumed to carry a parsed JSON object body (src/pizza.ts:144, 163, 184). A body that is not an object, where reading `success` throws or yields `undefined`, is not modelled.
- MD5 (RFC 1321) and base64 (section 4 of RFC 4648) are the `md5Base64` parameter. `new Date(text)` is the `parseDate` parameter, and a Date is its time value.
- The relative-time text of the Valid Until column (moment's `fromNow`) is not modelled. The easy-table layout is not modelled either: column widths, separators and the text of the table. The report holds the rows, their order and the total.
- Report.RowCells: gives only the four cells whose printers are modelled, not the Valid Until cell.
- Floating point is not modelled. Money is an exact `real`, so `/= 100` and toFixed(2) are exact. A binary double can round differently near a tie. Values of 1e21 or more, which toFixed writes in exponent form, are not modelled.
- `console.assert` calls are left out. They only print diagnostics and do not change control flow.
- `process.exit` becomes the run's exit code. `console.log`/`console.error` become stdout and stderr events.
- The text of a TypeError is given in the current V8 wording ("Cannot read properties of undefined (reading 'length')").
- Normalise.FixVouchers: rewrites each array slot with a new voucher value rather than mutating a shared object. Aliasing of a voucher object between two slots is not captured.
- The singular `voucher` list field of `IVoucherListResponse` is not read by either variant and is not modelled. The redeem reply's `voucher` string is modelled.
- `lib/pizza.ts` assigns `options.form` on a freshly built options object. It is modelled as a record update, because the object is not shared.

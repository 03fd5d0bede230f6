# Wingstop POS loyalty gateway — a Dafny model

This project models the core of the Wingstop point-of-sale loyalty
integration. The core has four parts:

- the Express gateway (`index.js`), with:
  - its three upstream adapters: the Rivo JSON call, the Rivo form call
    and the Resend email call;
  - the three handlers that carry business rules: `/redeem-points`,
    `/checkout` and `/notify-point-redemption`;
- the React point-of-sale form (`client/src/App.js`);
- the CSV order import (`import.js`);
- the CSV points export (`export.js`).

The JavaScript semantics these files lean on are written out as a small
value model in `js_value.dfy` and `js_text.dfy`:

- truthiness and `||` fallback chains;
- optional property reads, and the TypeError message a read of `null` or
  `undefined` throws;
- template-literal stringification and `+`;
- `JSON.stringify`;
- `String.prototype.trim`, `split` and `join`.

Every upstream call is an input to the model, never performed:

- the gateway handlers take the raw HTTP outcome (`Adapters.Fetched`) and
  run the adapter logic over it;
- the client takes the parsed reply or the error its fetch threw;
- the import takes one message per order for each of its two calls;
- the export takes the parsed reply and a clock function `now`.

Modules, file by file:

| file | module | models |
|---|---|---|
| `wrappers.dfy` | `Wrappers` | `Option`, `Result` |
| `js_text.dfy` | `JsText` | whitespace trim, split/join, integer text |
| `js_value.dfy` | `JsValues` | JavaScript values, truthiness, property reads, `+`, `JSON.stringify` |
| `rivo_adapters.dfy` | `Adapters` | `rivoAPI`, `rivoAPIForm`, `sendEmailViaResend` |
| `redeem.dfy` | `Redemption` | `/redeem-points` |
| `checkout.dfy` | `Checkout` | `/checkout` |
| `webhook.dfy` | `Webhook` | `/notify-point-redemption` |
| `pos_app.dfy` | `PosApp` | the POS form's state and its handlers |
| `order_import.dfy` | `OrderImport` | `import.js` |
| `points_export.dfy` | `PointsExport` | `export.js` |

The client state is a class, `PosApp.PosForm`. Its fields are the eight
`useState` slots, and its methods update them as the handlers do. The
import's main loop is a method with loop invariants. It is proved against
recursive specification functions that give the results, the draft orders
and the points events of its first `k` passes.

## Model

| member | source | states |
|---|---|---|
| `Adapters.Snippet` | `index.js:83` | An error body over 200 characters is cut to its first 200 followed by `...`, so 203 in all. A shorter body is kept whole. |
| `Adapters.RivoApi` | `index.js:63-96` | It succeeds exactly on a JSON content type with a 2xx status and a body that parses, and then returns that body. A non-JSON reply fails with the status and the snippet of its text. Every failure message starts with `Rivo API Error: `. |
| `Adapters.RivoApiForm` | `index.js:98-126` | It succeeds exactly on a 2xx status whose body, when declared JSON, parses. Non-JSON text is wrapped as `{message: text}`. Every failure message starts with `Rivo API Error: `. |
| `Adapters.FormErrorPrecedence` | `index.js:120-122` | On a non-2xx reply the thrown message is the body's truthy `error`, else its truthy `message`, else `HTTP <status>`. |
| `Adapters.FormNonJsonError` | `index.js:111-122` | A non-2xx reply that is not JSON fails with its own text as the message, or with `HTTP <status>` when the text is empty. |
| `Adapters.SendViaResend` | `index.js:164-183` | A missing API key fails before any call. Otherwise it succeeds exactly on a 2xx reply whose body parses, and returns that body. A non-2xx reply fails with `Resend API Error <status>: <body text>`. The reply's content type is not checked and no prefix is added. |
| `Redemption.SearchParams.Append` | `index.js:496-505` | Appending adds exactly one `(name, String(value))` entry at the end. |
| `Redemption.BuildForm` | `index.js:496-505` | The form holds `customer_identifier` and `reward_id`, in that order. `points_amount` and `credits_amount` follow only when they are truthy. |
| `Redemption.Project` | `index.js:507-541` | It fails exactly on a null or undefined provider reply, with the TypeError of reading `data`. Otherwise each field of the receipt is read through `\|\| {}` from the redemption record, its customer or its reward. The reward name prefers the redemption's own name, and the VIP tier defaults to `null`. |
| `Redemption.RedeemPoints` | `index.js:483-550` | A falsy email or reward id gives 400 and no upstream call. Otherwise exactly the form of `BuildForm` is posted. An adapter error gives 500 with its message, and a reply gives the projected receipt with status 200. |
| `Redemption.MissingDataProjectsUndefined` | `index.js:508-540` | A reply without `data` still succeeds. Every projected field is `undefined`, and the VIP tier is `null`. |
| `Redemption.RewardNamePrecedence` | `index.js:526` | A truthy name on the redemption record wins. Otherwise the name comes from the nested reward. |
| `Redemption.ExampleReceipt` | `index.js:507-541` | A reply redeeming 100 points for `a@b.com`, who keeps 400, projects to those three values. |
| `Checkout.TotalIsSum` | `index.js:572` | When every item has an integer quantity, `totalItems` is the arithmetic sum of the quantities. |
| `Checkout.TotalFailsOnNullishItem` | `index.js:572` | The total fails exactly when some item is null or undefined, with the read error of the first such item. |
| `Checkout.ExampleTotal` | `index.js:572` | Quantities 2, 1 and 3 total 6. |
| `Checkout.PlaceOrder` | `index.js:552-639` | Null or undefined items fail at `items.length` (500). An empty or falsy cart is rejected (400), and so is a falsy email (400). A cart that is not an array fails at `reduce` (500). A cart with a null or undefined item fails at reading its `quantity` (500). Every other cart is placed (200), even when the accrual call fails; then `pointsAdded` is false, the balance is `null` and no email is sent. For a placed order, accrual is attempted exactly when the points are truthy and positive, `pointsAdded` holds exactly when that call succeeded, and the total is the reduced sum. The email goes out only after a successful accrual with a non-null reply and a configured key, and it carries the new balance. Nothing is sent for a refused cart. |
| `Checkout.ZeroBalanceIsNull` | `index.js:628` | A new balance of 0 points is reported as `null`, because `\|\|` treats 0 as missing. |
| `Checkout.PositiveIsTruthy` | `index.js:580` | `pointsEarned && pointsEarned > 0` holds exactly when `pointsEarned > 0`. |
| `Checkout.HexPointsAccrue` | `index.js:580` | Points sent as the text `"0x10"` pass the accrual guard. |
| `Webhook.CustomerName` | `index.js:646-648` | The name is non-empty and trimmed. It is the trimmed `first last`, or `Valued Customer` when that is empty. |
| `Webhook.AnonymousCustomer` | `index.js:646-648` | Falsy first and last names greet a `Valued Customer`. |
| `Webhook.ExtractEvent` | `index.js:645-664` | Each field is read from its source path. The reward name and code are the `\|\|` chains over their candidates, in source order, ending in `null`. |
| `Webhook.RewardNameFallback` | `index.js:652-658` | The reward name is the first truthy candidate, or `null` when none is truthy. |
| `Webhook.RewardCodeFallback` | `index.js:659-664` | The reward code is the first truthy candidate, or `null` when none is truthy. |
| `Webhook.NotifyRedemption` | `index.js:641-868` | A falsy email, a falsy points amount or an undefined remaining balance gives 400 and no email. Otherwise a missing email key gives 500 and no email. An email is attempted exactly when both checks pass; it carries the extracted values and `Reward` as the default name. A send error is 500, and so is a null send reply, which throws at reading `id`. A sent email answers 200 with the values and the message id, or `null` when there is none. |
| `Webhook.ZeroPointsRefused` | `index.js:666` | A zero points amount is refused as missing. |
| `Webhook.ZeroRemainingAccepted` | `index.js:666` | A zero remaining balance passes the guard, so with a configured key the email is attempted. |
| `PosApp.PointRecordsAtKeptIndices` | `client/src/App.js:25-26` | The filter keeps exactly the records at the kept positions, in order. |
| `PosApp.KeptIndicesExact` | `client/src/App.js:26` | The kept positions are increasing. They are exactly the positions of the enabled `points` rewards. |
| `PosApp.PointRewards` | `client/src/App.js:25-33` | It throws exactly when the list is not an array or some record lacks `attributes`. Otherwise it maps each kept record, in order, to its five displayed fields. |
| `PosApp.FullName` | `client/src/App.js:89` | The displayed name is trimmed. |
| `PosApp.FirstNameOnly` | `client/src/App.js:89` | A first name alone is shown without the separating space. |
| `PosApp.LoadEffect` | `client/src/App.js:18-43` | The list is replaced only when `success` and `rewards` are both truthy and the list maps. It is kept untouched when either is falsy. Every throw becomes the load error. |
| `PosApp.SubmitEffect` | `client/src/App.js:80-101` | The result is a redemption exactly when the reply's `success` is truthy. A refusal shows the reply's truthy `error`, else the fallback text. A failed fetch or a null reply shows the network error. |
| `PosApp.SuccessShowsSummary` | `client/src/App.js:82-96` | A successful reply shows the discount code, the reward name and the points as sent, with the trimmed full name. |
| `PosApp.PosForm.constructor` | `client/src/App.js:5-12` | The initial state: empty email, no reward, no rewards, loading, not submitting, no message, no error and no result. It satisfies `Valid`: the success message is shown exactly when a redemption summary is, a property every handler keeps. |
| `PosApp.PosForm.EditEmail` | `client/src/App.js:191` | Only the email changes. |
| `PosApp.PosForm.SelectReward` | `client/src/App.js:208` | Only the selected reward changes. |
| `PosApp.PosForm.FetchRewards` | `client/src/App.js:18-43` | Loading ends. The rewards and the error change as `LoadEffect` says, and nothing else changes. |
| `PosApp.PosForm.ResetForm` | `client/src/App.js:45-51` | It clears the email, the reward, the result, the message and the error, and keeps the list and the flags. |
| `PosApp.PosForm.BeginSubmit` | `client/src/App.js:53-78` | A request is sent exactly when the email is non-empty and a reward is selected, and an enabled submit button always sends one. Sending sets `submitting` and clears the message, the error and the result. The request carries the email and the reward's id, name and points. A guarded submit only sets the error. |
| `PosApp.PosForm.FinishSubmit` | `client/src/App.js:80-104` | `submitting` always ends. A redemption sets the result and the success message; a refusal sets the error. |
| `PosApp.PosForm.HandleSubmit` | `client/src/App.js:53-105` | The whole submit. An incomplete form only sets the guard error and leaves the message, the result and `submitting` as they were. Otherwise `submitting` ends false, and a redemption shows its summary and the success message with no error, while a refusal shows its error with no message and no result. |
| `OrderImport.EntriesExact` | `import.js:11` | `Object.fromEntries` has exactly the given keys. A key whose later occurrences differ holds its own cell. |
| `OrderImport.RowRecordByIndex` | `import.js:11` | With distinct trimmed headers, a record's keys are those headers. Each header holds the trimmed cell at its index, or `undefined` past the row's end. |
| `OrderImport.RecordCount` | `import.js:9-12` | There is one record per line after the header of the trimmed text: as many as the line breaks in it. |
| `OrderImport.HeaderOnly` | `import.js:10` | A text without a line break has no records. |
| `OrderImport.NameParts` | `import.js:62` | The first and last names are the first two space-separated pieces of the name, with `''` for a missing second piece. |
| `JsText.RadixDigit` | `import.js:61` | Digit values go up to 36. A character is a decimal digit exactly when its value is below 10. |
| `OrderImport.DigitRunLongest` | `import.js:61` | `parseInt` reads the longest prefix of digits valid in the radix. |
| `OrderImport.ParseInt` | `import.js:61` | `parseInt` yields an integer or `NaN`, and `NaN` for a missing cell. |
| `OrderImport.ParseIntPrefix` | `import.js:61` | The decimal text of any integer, followed by a non-digit tail and without a `0x` prefix, parses back to that integer. |
| `OrderImport.RecordCell` | `import.js:11` | Under the name of a header cell that no later header cell repeats, a record holds the trimmed cell of that column, or `undefined` past the row's end. |
| `OrderImport.RecordMissing` | `import.js:11` | A record reads `undefined` under a name no header cell has. |
| `OrderImport.OrderColumn` | `import.js:43-71` | Each field of the k-th order is the trimmed cell of line k + 1 under the header column of that name. The quantity and the points are that cell through `parseInt`. |
| `OrderImport.MissingNameColumn` | `import.js:46-62` | A file whose header has no `customer_name` column fails on its first order, at `split`, before any call, so no results are written. |
| `OrderImport.FirstFailureExact` | `import.js:46-83` | Every order before the first failure goes through, and the order at it throws. |
| `OrderImport.ResultsInOrder` | `import.js:73` | The k-th result is that of the k-th order. |
| `OrderImport.AttemptedDrafts` | `import.js:58-64` | A draft order is requested for every order up to the failing one, the failing one included when it has a customer name. |
| `OrderImport.AttemptedEvents` | `import.js:67-71` | A points event is posted for every order before the failing one, and for the failing one when its name split and its shop call returned. |
| `OrderImport.ProcessOrder` | `import.js:58-73` | One pass: a missing name throws at `split` before any call. The shop call's error comes before the points call's. |
| `OrderImport.ProcessOrders` | `import.js:41-84` | The results are those of the orders before the first failure. The run ends without error exactly when no order fails. The results are saved only then. The drafts and events attempted are as above. |
| `OrderImport.ImportOrders` | `import.js:41-84` | The whole script: one `success` result per order processed before the first error. The results are written exactly when no error occurred. |
| `PointsExport.CustomerList` | `export.js:25` | It throws exactly on a null reply. Otherwise it is `customers`, else `data`, else `[]`, by truthiness. |
| `PointsExport.LineIsJoin` | `export.js:31` | A line is its four fields joined by commas. |
| `PointsExport.CustomerLinesInOrder` | `export.js:30-32` | There is one line per customer, in order, each with its own timestamp. |
| `PointsExport.LinesFailOnNullishCustomer` | `export.js:30-32` | The lines fail exactly when some customer is null, with the read error of the first such customer. |
| `PointsExport.ExportCsv` | `export.js:21-41` | A failed call, a null reply, a list without `map` or a null customer stops the script before anything is written. Otherwise the text is the header and the lines joined by line breaks. |
| `PointsExport.HeaderColumns` | `export.js:29` | The header is one line that splits into the four column names. |
| `PointsExport.ExportLineCount` | `export.js:28-33` | For any reply whose customer list is found, when no customer field holds a line break, the export splits into the header and exactly one line per customer, in order. |
| `PointsExport.EmptyExport` | `export.js:25-33` | An empty list exports the header alone. |
| `PointsExport.LineFields` | `export.js:31` | Fields without commas are recovered by splitting the line. No quoting is applied. |
| `PointsExport.NameParts` | `export.js:31` | The name field always holds a space. A customer without names gets a lone space. |
| `PointsExport.PointsDefault` | `export.js:31` | A falsy balance, 0 included, is written `0`. A non-zero integer balance is written as its decimal text. |
| `JsValues.OrChainFirstTruthy` | `index.js:652-664` | A `\|\|` chain yields its first truthy operand, or its last operand when none is truthy. |
| `JsValues.OrEmptyGet` | `index.js:651` | Reading through `x \|\| {}` reads the same as reading `x` optionally. |
| `JsValues.PrefixedNumber` | `index.js:580` | A string holding a `0x`, `0o` or `0b` literal, with white space around it, compares as its value in that radix. |
| `JsValues.HexLiteral` | `index.js:580` | `"0x10"` compares as 16. |
| `JsValues.BinaryLiteral` | `index.js:580` | `" 0B101\n"` compares as 5. |
| `JsValues.OctalLiteral` | `index.js:580` | `"0o17"` compares as 15. |
| `JsValues.SignedHexIsNaN` | `index.js:580` | A prefixed literal takes no sign: `"-0x10"` is `NaN`. |
| `JsValues.NumberTextRoundTrip` | `index.js:580` | The comparison `> 0` reads an integer's decimal text as that integer. |
| `JsText.TrimSlice` | `client/src/App.js:89` | `trim` removes exactly the leading and trailing whitespace. |
| `JsText.SplitJoin` | `export.js:33` | Pieces without the separator split back from their join. |

## Left out

- Network transport, headers, URL building and URL encoding are not
  modelled. Each call is replaced by its outcome, given as an input.
- `rivoAPI` in `import.js` and `export.js`, and `shopifyAPI`, only call
  `res.json()`. Their outcome is an input: the message each call throws,
  or the parsed reply. The shop reply is ignored by the import and is not
  modelled.
- The `.env` and `process.env` configuration reading is not modelled.
  `Adapters.Config` stands for the three settings the handlers read.
- File reading and writing in the scripts is not modelled. The import
  takes the file's text and the export returns the text it would write. A
  failing `readFileSync` or `writeFileSync` is not modelled.
- Console logging is not modelled, including the export's customer count
  and the import's progress lines.
- Numbers are integers. `totalPrice`, `toFixed(2)`, `price * quantity`
  and fractional amounts are not modelled.
- `JsValues.StringToNumber` reads decimal integers and the `0x`, `0o`
  and `0b` literals. It gives `NaN` for every form with a `.` or an
  exponent, integer-valued or not, and for `Infinity`. A string such as
  `"1e3"`, `"5."`, `"1.5"` or `"Infinity"` is positive in the source, but
  not in the model, so `/checkout` does not accrue it.
- The gateway handlers require the request body to be an object or an
  array, which is what the JSON body parser always supplies. A `null` or
  `undefined` body is not modelled. The source would answer it with 500,
  at the destructuring in `/redeem-points` and `/checkout` and at the
  first property read in `/notify-point-redemption`.
- Every number (`JsValues.Num`) is an unbounded integer, not a double.
  This holds for `OrderImport.ParseInt`, for `+` in `Checkout.SumQuantities`
  and `Checkout.TotalIsSum`, and for `ToStr` through `IntToString`. The
  rounding past 2^53, the exponent form JavaScript prints for values of
  1e21 and above, and the `-0` of `parseInt("-0")` are not modelled.
- Strings are sequences of characters, not UTF-16 code units, so
  `length` and `substring` count characters.
- The HTML and text email templates are not modelled. Only the values
  that fill them are.
- Timestamps (`new Date().toISOString()`) are left out of replies. The
  export takes them as a function `now` from the customer's index.
- `JSON.stringify` of objects with repeated keys is not modelled.
- The Shopify mutation text is not modelled. Only the variables of
  `draftOrderCreate` are.
- The `/`, `/health`, `/customers`, `/points/:email` and `/rewards`
  endpoints are outside this model. So are the unknown-route and error
  middlewares, and `sendPurchaseConfirmationEmail`'s body beyond the
  values it is given.
- React rendering (JSX), effects and the asynchronous batching of state
  updates are not modelled. A handler's updates are applied in order,
  with the fetch outcome given as an input.
- `PosApp.PosForm.FetchRewards`: the `setLoading(true)` at its start is
  not visible, because the model applies the whole handler at once.

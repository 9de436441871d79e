# HelloWorld-Bank: a verified model of the server's handlers

HelloWorld-Bank is a small Express and MongoDB banking server. A customer
registers and receives a random 10-digit account number and an opening
balance of 20000. They then log in, transfer money to another account
number, read their transaction history, and can reset a forgotten password
through a one-time password (OTP) sent by email.

This project models the server's handlers as methods of one Dafny class,
`Bank.Bank`. The class has three fields:

- `accounts`: the `users` collection, a sequence of documents in insertion order;
- `transactions`: the `transactions` collection, which is only appended to;
- `session`: one browser session, holding the logged-in user's snapshot,
  the OTP challenge, `isOtpVerified`, `resetEmail` and `userEmail`.

Each handler is atomic. It returns a result enum in place of the response
text. The clock (`now`), the random draws, the password hash function and
the outcome of sending the email are all parameters.

The modules follow the server's structure:

- `Decimal`: decimal rendering of naturals, which is JavaScript's `String(n)` on the integers the server renders (all below 10^10), and reading the string back.
- `Generators`: `generateAccountNumber` and `generateOtp`.
- `Store`: the account documents, and `findOne` / `updateOne` / `findOneAndUpdate` by username, account number or email.
- `Funds`: the two balance updates of `/transfer`, with conservation and the exact effect.
- `Ledger`: the transaction record and the `/transactions-data` aggregation (`$match`, `$lookup`, `$project`, `$sort`).
- `Bank`: the session, the invariants and the class with one method per handler.
- `Scenarios`: the handlers run through four flows: a transfer then an overdraft attempt, an OTP reset with a mistyped code, an expired OTP, and a second reset without re-verifying.

The model follows the code as written, including its weak points:

- `/transfer` checks the login, then the destination, then the password.
- The funds check and the sender's new balance come from the session's snapshot of the user, not from the stored document.
- Neither a non-positive amount nor a transfer to one's own account is refused.
- The reset authorisation is checked and consumed, and the password of the first account with `resetEmail` is rewritten. No email is compared with a submitted one.
- A failed email send deletes the challenge just stored, and with it any earlier one.

Lemmas exhibit two consequences of this on concrete tables:

- `Funds.NegativeAmountOverdrawsDestination`: a negative amount drives the destination negative.
- `Funds.StaleSnapshotCreatesMoney`: a stale snapshot creates money.

Some properties of the `Bank` class are invariants:

- `Valid()`: usernames and account numbers are unique, account numbers are 10-digit strings, and the OTP fields of the session are consistent. Every handler keeps `Valid()`.
- `SnapshotFresh()`: the session snapshot's balance and account number agree with the stored document. Login, registration and a successful transfer re-establish it, and the other handlers keep it. Conservation of the total balance holds for transfers made while it is true.

## Model

| member | source | states |
|---|---|---|
| Decimal.NatToDecimal | server.js:314 | `String(n)` of a natural below 2^53 (the server renders values below 10^10) is a non-empty string of decimal digits with no leading zero unless it is `0` |
| Decimal.ParseRendered | server.js:314 | reading back the decimal rendering of `n` gives `n` |
| Decimal.RenderingInjective | server.js:136-137 | two numbers have the same rendering exactly when they are equal, so the string lookup tells candidates apart |
| Decimal.RenderedLength | server.js:314 | a number in `[10^(k-1), 10^k)` renders with exactly `k` digits |
| Generators.GenerateAccountNumber | server.js:128-130 | `floor(1000000000 + r * 9000000000)` lies in `[1000000000, 9999999999]` for every draw `r` in `[0, 1)` |
| Generators.RenderedAccountNumber | server.js:128-130 | the stored account number is a 10-digit string without a leading zero that reads back as the drawn number |
| Generators.OtpValue | server.js:312 | `floor(100000 + r * 900000)` lies in `[100000, 999999]` |
| Generators.GenerateOtp | server.js:311-315 | the OTP is a 6-digit decimal string of a value in `[100000, 999999]`, namely the rendering of the drawn value |
| Store.FindFirst | server.js:121 | `findOne` yields the first document in insertion order that matches the filter, or nothing exactly when no document matches |
| Store.Lookup | server.js:167 | the document `findOne` returns: present exactly when some document matches, and then the first match |
| Store.SetBalance | server.js:212-215 | `$set` gives the first matching document the new balance, leaves every other document as it was and changes no identity |
| Store.IncBalance | server.js:217-220 | `$inc` adds the amount to the first matching document's balance, leaves every other document as it was and changes no identity |
| Store.SetPasswordHash | server.js:438-441 | `findOneAndUpdate` gives the first document with the email the new hash, leaves every other document as it was and changes no identity |
| Store.FindFirstSameIdentities | server.js:212-220 | tables that differ only in balances and password hashes answer every query alike |
| Store.FindFirstAppend | server.js:154 | after `save`, a query finds the earlier document if there was one, else the new one if it matches |
| Store.UniqueUsernameFound | server.js:167 | with unique usernames, `findOne({ username })` finds that user's document |
| Store.AppendKeepsUnique | server.js:120-154 | appending a document whose username and account number no query finds keeps both keys unique |
| Store.TotalUpdate | server.js:212-220 | rewriting one document changes the sum of balances by the difference of its balances |
| Store.TotalAppend | server.js:154 | saving a new document raises the sum of balances by its balance |
| Funds.MoveFunds | server.js:212-220 | the two updates of a transfer change balances only: usernames, account numbers and emails stay in place |
| Funds.MoveFundsEffect | server.js:212-220 | the sender holds snapshot balance minus amount, the destination gains the amount (a self-transfer leaves the snapshot balance), every other document is untouched, no identity changes |
| Funds.MoveFundsBetween | server.js:212-220 | between two different users, `findOne` sees the sender at snapshot balance minus amount and the destination at old balance plus amount |
| Funds.MoveFundsConserves | server.js:207-220 | when the snapshot balance is the stored one, a transfer keeps the total of all balances, self-transfer included, for every amount in exact integer arithmetic (for the server's doubles: amounts and balances below 2^53 in magnitude) |
| Funds.MoveFundsKeepsNonNegative | server.js:207-220 | with `0 <= amount <= snapshot balance` and no negative balance before, none after |
| Funds.NegativeAmountOverdrawsDestination | server.js:209-220 | a transfer of -30000 from 20000 passes the funds guard and leaves the destination at -10000 |
| Funds.StaleSnapshotCreatesMoney | server.js:207-214 | a snapshot of 20000 over a stored 0 lets a transfer of 5000 raise the total by 20000 |
| Funds.AliceSendsBob | server.js:212-220 | 5000 from alice (20000) to bob (20000) leaves 15000 and 25000 and the same total |
| Ledger.UsernameOf | server.js:279-297 | the `$lookup` and `$arrayElemAt` give a username of an account with that number, or nothing exactly when no account has it |
| Ledger.Insert | server.js:302 | insertion into a newest-first list keeps it newest-first and puts the entry first or keeps the old head |
| Ledger.InsertPermutes | server.js:302 | insertion adds exactly the new entry to the multiset |
| Ledger.SortNewestFirst | server.js:302 | `$sort: { timestamp: -1 }` yields a permutation ordered by non-increasing timestamp |
| Ledger.MatchingMembers | server.js:273-301 | an entry is in the filtered projection exactly when some logged record with `from` or `to` equal to the account projects to it |
| Ledger.Project | server.js:295-300 | a history entry keeps the record's amount and timestamp, and each party is the username of an account with that number, absent exactly when no account has it |
| Ledger.Matching | server.js:273-301 | at most one entry per logged record, and none exactly when no record has the account as `from` or `to` |
| Ledger.History | server.js:272-303 | the history is a newest-first permutation of the matching entries |
| Ledger.HistoryMembers | server.js:272-303 | an entry is in the history exactly when some record of the account projects to it |
| Bank.NewAccount | server.js:141-152 | the new document carries the request's fields and the hash, `terms` exactly when the field is `"on"`, the number as a decimal string that reads back as the number, and the default balance 20000 (server.js:47-50) |
| Bank.PickAccountNumber | server.js:132-139 | the retry loop returns the number of the first draw whose rendering no document has; it is in range and unused |
| Bank.RegisterKeepsInvariants | server.js:141-155 | appending the new document keeps the key invariants and the OTP state valid, makes the new snapshot agree with the store, and adds its balance to the total |
| Bank.TransferKeepsInvariants | server.js:207-228 | the balance updates keep the key invariants and the OTP state valid, conserve the total for a current snapshot, and keep balances non-negative for a covered non-negative amount |
| Bank.Bank.constructor | server.js:32-53 | the bank starts with no documents, no transactions and an empty session |
| Bank.Bank.Register | server.js:100-161 | mismatch and taken username are reported exactly when they occur and change nothing; otherwise exactly one document is appended (hash of the password, `terms == "on"`, balance 20000, the first unused drawn number) and becomes the session user |
| Bank.Bank.Login | server.js:163-184 | unknown username and wrong password are reported exactly when they occur and change nothing; success stores the found document as the session user |
| Bank.Bank.Transfer | server.js:186-234 | each rejection holds exactly under its guard in source order and changes nothing; success applies both updates, appends one record `{snapshot number, destination, amount, now}`, refreshes the snapshot, conserves the total for a current snapshot and keeps balances non-negative for a non-negative amount |
| Bank.Bank.SendMoney | server.js:212-228 | the success path of a transfer: the two updates, the record and the refreshed snapshot, keeping the invariants |
| Bank.Bank.TransactionsData | server.js:265-309 | without a session user the result is the 401 case; otherwise the history of the snapshot's account number |
| Bank.Bank.CurrentUser | server.js:88-97 | the snapshot's username and account number, or the 401 case |
| Bank.Bank.CheckBalance | server.js:236-251 | the snapshot's balance, which is the stored balance while the snapshot is current |
| Bank.Bank.ForgotPassword | server.js:355-393 | empty or unknown email changes nothing; otherwise a fresh challenge (the OTP of the draw, the email, `now + 300000`) replaces any earlier one and, if sending fails, no challenge remains |
| Bank.Bank.VerifyOtp | server.js:395-424 | an empty code or no challenge changes nothing; past expiry (strictly) the challenge is deleted; a wrong code keeps it; the right code deletes it and sets `isOtpVerified` and `resetEmail` to its email |
| Bank.Bank.ResetPassword | server.js:428-452 | refused with no change unless verified with a reset email; otherwise the first document with that email gets the new hash and both flags are cleared |
| Scenarios.SendFiveThousand | server.js:186-234 | alice at 20000 sends 5000 to bob at 20000: 15000 and 25000, one record, the snapshot refreshed |
| Scenarios.TransferThenOverdraw | server.js:207-211 | after that, a transfer of 99999 is refused for insufficient funds and changes nothing |
| Scenarios.ResetFlow | server.js:355-452 | OTP sent, a wrong code is Incorrect, the right one is Verified, the reset succeeds, the owner then logs in with the new password and not with the old one |
| Scenarios.ExpiredCode | server.js:408-411 | a matching code entered after expiry is Expired and the challenge is gone |
| Scenarios.ResetIsSingleUse | server.js:431-445 | a second reset right after a successful one is Unauthorized |

## Left out

- Express routing, the HTML pages, redirects and response texts (server.js:55-86 and the `res.send` bodies) become result enums; `app.listen` is not modelled.
- The MongoDB connection and Mongoose schema machinery are replaced by in-memory sequences. The aggregate pipeline is modelled by its filter, lookup, projection and sort semantics only. `$project` also keeps each record's `_id` by default, which `HistoryEntry` leaves out because no document identifiers are modelled.
- `sendOtpEmail` (nodemailer, a network call) is the boolean parameter `sendSucceeded`.
- bcrypt is the class constant `hash`: a password matches exactly when the stored hash is `hash(password)`; salting and the cost factor are not modelled.
- `Math.random()` draws are reals in `[0, 1)` and `Date.now()` is the natural `now`; floating-point rounding is not modelled.
- Request fields are strings and an absent field is `""`; the transfer amount is an integer, so `Number()` coercion of non-numeric input and fractional amounts are left out.
- Balances and amounts are exact unbounded integers, while the source computes `balance - amount` and `$inc` on JavaScript Numbers, which are doubles that round beyond 2^53. With no sign check, an amount of `-1e300` passes the funds guard, the `$set` writes `20000 + 1e300` rounded to `1e300`, and the total falls from 40000 to 0. So conservation, and every other balance property, holds for the server only while balances and amounts stay below 2^53 in magnitude.
- Decimal.NatToDecimal: matches `String(n)` only below 2^53 and 10^21, since `String` switches to exponent form from 10^21; the server renders only account numbers and OTP values, all below 10^10.
- The `try`/`catch` 500 responses (storage failures, bcrypt failing on an absent password) are not modelled: storage never fails.
- Concurrent requests and several sessions are not modelled: each handler runs atomically against one session, so the cross-request race on the balance is out of scope beyond the stale snapshot itself.
- `userEmail` is written by `/forgotPassword` and read by no handler; the model sets it as the code does and no property depends on it.
- Bank.Bank.Register: requires that some draw yields an unused account number, because the source loop has no bound and never stops otherwise.
- Bank.PickAccountNumber: the same requirement on the draws, for the same reason.
- Ledger.SortNewestFirst: the model sorts stably, but only sortedness and permutation are promised, because MongoDB does not specify the order among equal timestamps.
- Conservation of a transfer is stated only while the snapshot agrees with the store, because the code writes the snapshot-based balance and otherwise creates or destroys money (see `Funds.StaleSnapshotCreatesMoney`).
- A reset email that no document holds would be accepted by the source without any update; the session invariant rules this case out, because documents are never deleted and a challenge is only issued for an email some document holds.

# DailyPay payroll core in Dafny

DailyPay is an earned-wage platform. An organisation adds its employees, each with a monthly gross
salary. The server computes a Nepali payroll breakdown for every salary: Social Security Fund
(SSF) shares, income tax over five marginal brackets, net monthly salary, and daily and weekly
payouts. Employees draw on their wallet, and can lock a share of their earnings for the month.

This project models the logic at the centre of the system and proves properties about it:

- **`PayrollCalculator`**: the payroll calculator. The slab walk is a loop method proved equal to a
  recursive walk. That walk is proved equal to an independent closed-form bracket sum, which is
  monotone and bounded by the top rate. Three breakdowns are computed exactly: the seeded salary
  of 60,000, a salary of 1,000,000 and a salary of 0.
- **`UserRoutes`**: the payroll block the user routes attach to a request body before a document is
  created or updated, and the field-by-field update of a stored document.
- **`TransactionRoutes`**: the transaction route's withdrawal rule, over a ledger of wallet
  balances and saved transactions.
- **`AuthRoutes`**: the login decision.
- **`AppContext`**: the client's shared store. Methods replace its lists by appending, prepending
  and mapping.
- **`Dashboard`**: the employee dashboard's lock state, its locked and withdrawable amounts, and
  the chart's accumulation loop.
- **`AddEmployeeModal`**: the add-employee dialog's CSV import and its single-employee form.
- **`OrgPayroll`**: the payroll page's CSV reports and its displayed net salary.

There are also three helper modules:

- `Wrappers` holds `Option`.
- `Text` holds `split`, `join`, `trim` and decimal integer text.
- `JsNumber` holds `Math.round`, the subset of `Number(string)` the import relies on, and number-to-text.

Money and rates are exact `real` numbers. `Math.round(x)` is `Floor(x + 1/2)`, which is JavaScript's
rule for negative numbers and ties as well. Values JavaScript treats as falsy (`undefined`, `0`, `""`)
are modelled with `Option` and explicit tests against zero or the empty string.

Three kinds of value are arguments rather than effects:

- the lookups the server performs;
- the clock (`Date.now()`, `new Date().toISOString()`) and the text of each `Math.random()` id;
- the browser's `window.confirm` answer.

## Model

| member | source | states |
|---|---|---|
| JsNumber.Round | server/src/utils/PayrollCalculator.ts:70-76 | `Math.round`: the unique integer within one half below and strictly less than one half above |
| JsNumber.RoundUnique | server/src/utils/PayrollCalculator.ts:70-76 | any integer that close to x is `Round(x)` |
| JsNumber.RoundMonotone | server/src/utils/PayrollCalculator.ts:70-76 | rounding preserves order |
| JsNumber.ParseNumber | src/components/AddEmployeeModal.tsx:89 | `Number(s)` of a blank text is 0 |
| JsNumber.ParseShowInteger | src/components/AddEmployeeModal.tsx:89 | reading back the text of an integer gives that integer |
| JsNumber.ShowNumberPlain | src/pages/OrgPayroll.tsx:16 | the text of a number holds only digits, `.` and `-` |
| Text.Split | src/components/AddEmployeeModal.tsx:81-83 | `split` gives at least one piece and no piece holds the separator |
| Text.SplitJoin | src/pages/OrgPayroll.tsx:14-17 | splitting a join of separator-free pieces gives the pieces back |
| Text.JoinSplit | src/components/AddEmployeeModal.tsx:81-83 | joining the pieces of a split gives the text back |
| Text.SplitAfterCut | src/pages/OrgPayroll.tsx:16 | one separator inside one piece makes the split one piece longer than the join |
| Text.TrimEmptyIff | src/components/AddEmployeeModal.tsx:82 | a line trims to the empty text exactly when it is whitespace only |
| Text.TrimStrips | src/components/AddEmployeeModal.tsx:83 | a trimmed text neither starts nor ends with whitespace |
| PayrollCalculator.Portion | server/src/utils/PayrollCalculator.ts:54 | the slab's share is never more than what remains or than a finite width, and is one of the two |
| PayrollCalculator.SlabWalk | server/src/utils/PayrollCalculator.ts:48-57 | the loop's tax and leftover are the recursive walk's; an open-ended table leaves nothing for non-negative income; no income pays no tax |
| PayrollCalculator.Calculate | server/src/utils/PayrollCalculator.ts:36-78 | the method's breakdown is `Payroll(g)`, the breakdown the lemmas below describe |
| PayrollCalculator.TaxSlabsOpenEnded | server/src/utils/PayrollCalculator.ts:23-29 | the table ends with the unbounded slab |
| PayrollCalculator.WalkConsumesAll | server/src/utils/PayrollCalculator.ts:48-57 | over an open-ended table and non-negative income nothing is left, the shares sum to the income, and each share is within its slab's width |
| PayrollCalculator.WalkMatchesBrackets | server/src/utils/PayrollCalculator.ts:23-57 | the walk's tax equals the closed-form marginal sum at 1 %, 10 %, 20 %, 30 % and 36 % over widths 500000, 200000, 300000, 1000000 and the rest |
| PayrollCalculator.BracketTaxMonotone | server/src/utils/PayrollCalculator.ts:23-29 | the bracket sum never decreases as income grows |
| PayrollCalculator.BracketTaxBounds | server/src/utils/PayrollCalculator.ts:23-29 | the bracket sum is between 0 and 36 % of the income, and 0 for no income |
| PayrollCalculator.AnnualTaxIsBracketSum | server/src/utils/PayrollCalculator.ts:38-57 | annual taxable income is `12·(g − 0.11·g) = 10.68·g`, and annual tax is the bracket sum of it |
| PayrollCalculator.AnnualTaxMonotone | server/src/utils/PayrollCalculator.ts:44-72 | annual tax, unrounded and rounded, never decreases with the salary |
| PayrollCalculator.AnnualTaxBounds | server/src/utils/PayrollCalculator.ts:44-57 | `0 ≤ annualTax ≤ 0.36·annualTaxable` for g ≥ 0; g ≤ 0 pays no tax |
| PayrollCalculator.SlabWalkAccounting | server/src/utils/PayrollCalculator.ts:44-57 | for a salary g ≥ 0 the calculator's own walk consumes the whole annual taxable income within the widths |
| PayrollCalculator.BoundaryExact | server/src/utils/PayrollCalculator.ts:51-57 | income exactly at the first boundary is taxed in that slab alone and the loop stops after it |
| PayrollCalculator.PayrollNonNegative | server/src/utils/PayrollCalculator.ts:59-77 | for g ≥ 0 every rounded field is non-negative, employee SSF ≤ employer SSF and daily ≤ weekly ≤ net |
| PayrollCalculator.NetNearRoundedDifference | server/src/utils/PayrollCalculator.ts:59-74 | the rounded net is within 1.5 of gross minus the rounded SSF and rounded monthly tax, because each field is rounded once from unrounded values |
| PayrollCalculator.PayrollOfZero | server/src/utils/PayrollCalculator.ts:36-77 | `calculate(0)` is all zeros |
| PayrollCalculator.PayrollOf60000 | server/src/utils/PayrollCalculator.ts:36-77 | `calculate(60000)` is 6600, 12000, 19080, 1590, 51810, 1727, 12953 |
| PayrollCalculator.PayrollOf1000000 | server/src/utils/PayrollCalculator.ts:36-77 | a salary of 1,000,000 fills all five slabs and gives 110000, 200000, 3509800, 292483, 597517, 19917, 149379 |
| PayrollCalculator.PayoutsUseUnroundedNet | server/src/utils/PayrollCalculator.ts:62-75 | the daily payout is rounded from the unrounded net: for a salary of 51 it is 1, where dividing the rounded net would give 2 |
| UserRoutes.CreateBody | server/src/routes/userRoutes.ts:34-43 | the create handler's body keeps the role, salary and every other field |
| UserRoutes.UpdateBody | server/src/routes/userRoutes.ts:63-72 | the update handler's body keeps the role, salary and every other field |
| UserRoutes.Override | server/src/routes/userRoutes.ts:75 | a field present in the update replaces the stored one, otherwise the stored one stays |
| UserRoutes.Merge | server/src/routes/userRoutes.ts:75 | the updated document has every stored and every updated key; updated keys take the new value, the rest keep the old one |
| UserRoutes.RequestBody.AttachOnCreate | server/src/routes/userRoutes.ts:34-43 | the body after the in-place assignment is `CreateBody` of the body before |
| UserRoutes.RequestBody.AttachOnUpdate | server/src/routes/userRoutes.ts:63-72 | the body after the in-place assignment is `UpdateBody` of the body before |
| UserRoutes.UserStore.Create | server/src/routes/userRoutes.ts:29-51 | the saved document is the prepared body, stored under its new id, and nothing else changes |
| UserRoutes.UserStore.Update | server/src/routes/userRoutes.ts:58-77 | a known id gets the prepared body merged over the stored document; an unknown id gives 404 and changes nothing |
| UserRoutes.CreateAttachesIff | server/src/routes/userRoutes.ts:34-43 | on create a block is attached exactly for role `employee` with a present, non-zero salary, and it is the calculator's |
| UserRoutes.UpdateAttachesIff | server/src/routes/userRoutes.ts:63-72 | on update a present, non-zero salary recomputes the block whatever the role; otherwise the body is untouched |
| UserRoutes.StoredMatchesCalculator | server/src/routes/userRoutes.ts:35-43 | the six stored fields are the calculator's, `netSalary` taken from `netMonthlySalary` |
| UserRoutes.StoredNonNegative | server/src/routes/userRoutes.ts:35-43 | for a non-negative salary the stored figures are non-negative and ordered |
| UserRoutes.StoredFor60000 | server/src/routes/userRoutes.ts:35-43 | the block stored for 60,000 |
| UserRoutes.CreateAndUpdateAgree | server/src/routes/userRoutes.ts:34-72 | for an employee both handlers prepare the same body |
| UserRoutes.UpdateBodyIdempotent | server/src/routes/userRoutes.ts:63-72 | preparing an update body twice is the same as once |
| UserRoutes.MergeIdempotent | server/src/routes/userRoutes.ts:75 | applying the same update twice is the same as once |
| UserRoutes.FalsySalaryKeepsBreakdown | server/src/routes/userRoutes.ts:63-75 | an update with a missing or zero salary leaves the stored block as it was |
| UserRoutes.ZeroSalaryLeavesStaleBreakdown | server/src/routes/userRoutes.ts:63-75 | setting a salary of 60,000 to 0 leaves salary 0 beside the 60,000 breakdown |
| UserRoutes.TruthySalaryRecomputes | server/src/routes/userRoutes.ts:63-75 | an update with a truthy salary stores that salary with its fresh block |
| TransactionRoutes.Debit | server/src/routes/transactionRoutes.ts:27-31 | refused exactly when the balance is below the amount; otherwise the new balance plus the amount is the old balance |
| TransactionRoutes.Record | server/src/routes/transactionRoutes.ts:35-41 | every recorded transaction is `completed` |
| TransactionRoutes.Ledger.Post | server/src/routes/transactionRoutes.ts:18-44 | 404 on an unknown user and 400 on an uncovered withdrawal, each with no change; otherwise a withdrawal debits exactly that wallet, other types change no balance, the saved transaction carries the request's fields, and non-negative balances stay non-negative |
| TransactionRoutes.DebitNeverNegative | server/src/routes/transactionRoutes.ts:28-31 | a debit that goes through never leaves the wallet negative |
| TransactionRoutes.DebitNeverRaises | server/src/routes/transactionRoutes.ts:28-31 | a non-negative withdrawal never raises the balance |
| TransactionRoutes.NegativeWithdrawalCredits | server/src/routes/transactionRoutes.ts:28-31 | the check has no lower bound, so a negative withdrawal credits the wallet |
| TransactionRoutes.DebitExactBalance | server/src/routes/transactionRoutes.ts:28-31 | the whole balance can be withdrawn, one unit more cannot |
| AuthRoutes.Login | server/src/routes/authRoutes.ts:12-36 | a login as a stored user returns that user; the fallback reply happens only without a stored user and is the fixed administrator |
| AuthRoutes.FallbackIff | server/src/routes/authRoutes.ts:14-27 | without a stored user exactly (`admin@dailypay.np`, `admin123`) succeeds, as `admin-001` with role `admin`; anything else is 401 |
| AuthRoutes.PasswordIff | server/src/routes/authRoutes.ts:31-36 | a stored user with a password logs in exactly when the supplied password equals it |
| AuthRoutes.NoPasswordAcceptsAny | server/src/routes/authRoutes.ts:31-36 | a stored user without a password, or with an empty one, logs in with any password |
| AuthRoutes.DatabaseTakesPrecedence | server/src/routes/authRoutes.ts:12-16 | a stored user shadows the built-in administrator, even given the built-in credentials |
| AuthRoutes.EmailIgnoredOnceFound | server/src/routes/authRoutes.ts:31-36 | once a user is found the reply depends only on that user and the password |
| AuthRoutes.ReplyCarriesPassword | server/src/routes/authRoutes.ts:36 | the reply returns the stored document, its plaintext password included |
| AppContext.StatusOf | src/context/AppContext.tsx:132 | a decision is never `Pending` |
| AppContext.ApplyAll | src/context/AppContext.tsx:112 | an empty update leaves the record as it is |
| AppContext.ApplyOne | src/context/AppContext.tsx:112 | one key sets its own field and leaves every other field and the payroll block unchanged |
| AppContext.ApplyAllKeeps | src/context/AppContext.tsx:112 | a field no key of the update names keeps its value |
| AppContext.ApplyAllSets | src/context/AppContext.tsx:112 | a field takes the value of the last key that names it |
| AppContext.ChangeItems | src/context/AppContext.tsx:104 | one `k: old -> new` entry per key, in key order, against the record before the update |
| AppContext.UpdateDetails | src/context/AppContext.tsx:110 | the update log's details start with the reason |
| AppContext.UpdateDetailsOneKey | src/context/AppContext.tsx:104-110 | the details of a one-key update, written out |
| AppContext.UndefinedKeyLogged | src/context/AppContext.tsx:104-112 | a key copied as `undefined` is listed as `phone: undefined -> undefined` and the spread writes `undefined` |
| AppContext.NewLog | src/context/AppContext.tsx:91-96 | the new log takes its id from the clock's milliseconds, its time stamp from the clock, and every other field from the entry |
| AppContext.CountMatches | src/context/AppContext.tsx:102 | at most the list's length, and 0 exactly when no record's id is `===` the target |
| AppContext.UpdateMatching | src/context/AppContext.tsx:101-115 | the same length and positions; matching records overridden, every other record unchanged |
| AppContext.UpdateLogs | src/context/AppContext.tsx:102-111 | one `Update Employee` log per match, each with the target id, `changedBy` the admin name and details starting with the reason |
| AppContext.Decide | src/context/AppContext.tsx:133-165 | the same length; requests with the id take the new status, all others unchanged |
| AppContext.MatchedEmployeeIds | src/context/AppContext.tsx:133-138 | exactly the employee ids of the requests with the id |
| AppContext.StreamingOn | src/context/AppContext.tsx:137-139 | records whose id text equals the employee id get streaming on, all others unchanged |
| AppContext.StreamingOnAsWritten | src/context/AppContext.tsx:137-139 | the map as written fails exactly when a record has no id, and otherwise agrees with `StreamingOn` |
| AppContext.StreamingForAll | src/context/AppContext.tsx:133-139 | after all the queued updates of one approval, a record has streaming on exactly when one matched request names it; others unchanged |
| AppContext.UnlockLogs | src/context/AppContext.tsx:140-146 | one `Unlock Salary` log by `Admin` per matched request, each targeting a matched employee id |
| AppContext.RequesterName | src/context/AppContext.tsx:120 | the user's name when there is one and it is not empty, else never empty |
| AppContext.NewRequest | src/context/AppContext.tsx:121-128 | a new request is `Pending`, with the given employee id and amount |
| AppContext.AppState.SetUser | src/context/AppContext.tsx:79 | the user is replaced and nothing else changes |
| AppContext.AppState.Logout | src/context/AppContext.tsx:78-81 | the user becomes null and nothing else changes |
| AppContext.AppState.AddEmployee | src/context/AppContext.tsx:83-85 | the record is appended and nothing else changes |
| AppContext.AppState.AddEmployees | src/context/AppContext.tsx:87-89 | the records are appended in order and nothing else changes |
| AppContext.AppState.AddAuditLog | src/context/AppContext.tsx:91-98 | the new log is prepended and nothing else changes |
| AppContext.AppState.UpdateEmployee | src/context/AppContext.tsx:100-116 | for a defined target: the same length; records with the id are overridden, the others unchanged; the update logs are prepended |
| AppContext.UpdateMatchingAsWritten | src/context/AppContext.tsx:101-115 | with an `undefined` target the map as written fails exactly when some record has no id, and otherwise leaves the records alone; with a defined target it is `UpdateMatching` |
| AppContext.AppState.RequestUnlock | src/context/AppContext.tsx:118-130 | the new request is prepended and nothing else changes |
| AppContext.AppState.HandleUnlockRequest | src/context/AppContext.tsx:132-166 | statuses are decided; an approval switches streaming on for the matched employees and prepends their logs; a rejection leaves employees and logs alone |
| AppContext.AppState.SendNotification | src/context/AppContext.tsx:168-185 | an unread notification and a `Send Notification` log targeting the recipient are prepended |
| AppContext.UpdateWithoutMatch | src/context/AppContext.tsx:101-115 | with no match no record changes and no log is written |
| AppContext.UpdateUniqueMatch | src/context/AppContext.tsx:101-115 | with exactly one match that record is overridden and exactly one log is written |
| AppContext.CountUnique | src/context/AppContext.tsx:102 | a unique id is matched once |
| AppContext.CountNone | src/context/AppContext.tsx:102 | an id no record carries is matched never |
| AppContext.DecidePreserves | src/context/AppContext.tsx:133-165 | a decision changes only the status, and only of requests with the id |
| AppContext.ApproveStartsStreaming | src/context/AppContext.tsx:136-139 | an approval switches streaming on for an employee that a matched request names |
| AppContext.ApproveLeavesOthers | src/context/AppContext.tsx:136-139 | an approval leaves every employee that no matched request names unchanged |
| AppContext.StreamingAsWrittenAgrees | src/context/AppContext.tsx:137-139 | when every record has an id, the map as written and the corrected one agree |
| AppContext.RequesterNameFallback | src/context/AppContext.tsx:120 | no user, or a user with an empty name, gives `Unknown Employee` |
| AppContext.RequestDate | src/context/AppContext.tsx:127 | the request's date is the time stamp's date part |
| Dashboard.DailyRate | src/pages/Dashboard.tsx:96 | the user's non-zero daily rate, else 2000 |
| Dashboard.Withdrawable | src/pages/Dashboard.tsx:106 | never negative, and at least the balance less the locked amount |
| Dashboard.LockPanel.SyncFromUser | src/pages/Dashboard.tsx:50-55 | the stored lock settings are copied where present, otherwise kept |
| Dashboard.LockPanel.HandleLockChange | src/pages/Dashboard.tsx:57-65 | while locked nothing changes; otherwise the percentage and the user's preference take the new value; the lock flag never changes |
| Dashboard.LockPanel.HandleConfirmLock | src/pages/Dashboard.tsx:67-81 | nothing at 0 %; otherwise on confirmation with a user the lock is set and the user records it at the kept percentage; it never unlocks |
| Dashboard.PointAt | src/pages/Dashboard.tsx:128-138 | the point carries its day, with `available` never negative |
| Dashboard.ChartData | src/pages/Dashboard.tsx:109-141 | one point per day from 1 to `currentDay`, in order, each the day's accumulated point |
| Dashboard.LockedAmountExact | src/pages/Dashboard.tsx:92-99 | the locked amount is exactly 320 per percentage point |
| Dashboard.LockedAmountRange | src/pages/Dashboard.tsx:99 | on the slider's range the lock holds between 0 and 16000 |
| Dashboard.WithdrawableBounds | src/pages/Dashboard.tsx:105-106 | at most the non-negative balance, exact when the balance covers the lock, 0 exactly when it does not |
| Dashboard.WithdrawableAntitone | src/pages/Dashboard.tsx:99-106 | locking more leaves less to withdraw |
| Dashboard.EarnedClosedForm | src/pages/Dashboard.tsx:118-119 | earned at day d is d times the daily rate |
| Dashboard.WithdrawnClosedForm | src/pages/Dashboard.tsx:116-126 | withdrawn at day d is 5000 per withdrawal day up to d |
| Dashboard.EarnedMonotone | src/pages/Dashboard.tsx:119 | at a non-negative rate earned never decreases |
| Dashboard.WithdrawnMonotone | src/pages/Dashboard.tsx:123-126 | withdrawn never decreases |
| Dashboard.ChartMonotone | src/pages/Dashboard.tsx:118-139 | along the chart the days increase, and withdrawn and (at a non-negative rate) earned never decrease |
| Dashboard.LastDefaultPoint | src/pages/Dashboard.tsx:92-129 | the default chart's last point has earned 32000, withdrawn 15000 and the page's locked amount |
| AddEmployeeModal.SubmittedEmployee | src/components/AddEmployeeModal.tsx:52-64 | the form's record: no id, `Active`, streaming, with the form's fields and the parsed salary |
| AddEmployeeModal.NonBlank | src/components/AddEmployeeModal.tsx:82 | only lines that do not trim to empty are kept, each one of the input's |
| AddEmployeeModal.TrimAll | src/components/AddEmployeeModal.tsx:83 | every cell trimmed, position by position |
| AddEmployeeModal.OrDefault | src/components/AddEmployeeModal.tsx:86-92 | a present, non-empty cell, else the default |
| AddEmployeeModal.SalaryOf | src/components/AddEmployeeModal.tsx:89 | a missing or unparseable salary is 0 |
| AddEmployeeModal.ParseRecord | src/components/AddEmployeeModal.tsx:83-97 | every record is `Active` and streaming, with a `temp-` id, and never an empty name, role, salary type or payment type |
| AddEmployeeModal.ParseLines | src/components/AddEmployeeModal.tsx:82-98 | one record per data line |
| AddEmployeeModal.ParseCsv | src/components/AddEmployeeModal.tsx:81-98 | as many records as data lines |
| AddEmployeeModal.HandleFileUpload | src/components/AddEmployeeModal.tsx:100-107 | the records are appended exactly when there is at least one; otherwise nothing changes |
| AddEmployeeModal.HandleSubmit | src/components/AddEmployeeModal.tsx:48-66 | the form's record is appended and nothing else changes |
| AddEmployeeModal.HeaderIgnored | src/components/AddEmployeeModal.tsx:81-82 | the first line is discarded whatever it says |
| AddEmployeeModal.HeaderOnly | src/components/AddEmployeeModal.tsx:81-82 | a one-line text gives no records |
| AddEmployeeModal.NonBlankAppend | src/components/AddEmployeeModal.tsx:82 | filtering keeps order across blocks of lines |
| AddEmployeeModal.NonBlankOne | src/components/AddEmployeeModal.tsx:82 | a whitespace-only line is dropped, any other kept |
| AddEmployeeModal.ParseRecordPositional | src/components/AddEmployeeModal.tsx:83-92 | fields are taken by position from the comma-joined cells: name, email, phone, salary, role, salary type, payment type |
| AddEmployeeModal.RecordOfCells | src/components/AddEmployeeModal.tsx:83-92 | with seven non-empty trimmed cells, the fields are those cells; extra cells are ignored |
| AddEmployeeModal.CellsOfJoin | src/components/AddEmployeeModal.tsx:83 | splitting and trimming comma-joined trimmed cells gives the cells back |
| AddEmployeeModal.ParseRecordDefaults | src/components/AddEmployeeModal.tsx:86-96 | two vectors: the line `,,,,,,` gives `Unknown`, `Employee`, salary 0, `Monthly`, `Bank Transfer` and the `User` avatar; the line `Asha` gives name `Asha`, no email or phone, salary 0 and role `Employee` |
| AddEmployeeModal.SalaryOfInteger | src/components/AddEmployeeModal.tsx:89 | an integer salary cell is read as that integer |
| AddEmployeeModal.SalaryOfInvalid | src/components/AddEmployeeModal.tsx:89 | a cell that is no number, or no cell, counts as 0 |
| AddEmployeeModal.SubmittedRecordBreaksApproval | src/components/AddEmployeeModal.tsx:52-66 | once a submitted record is in the list, the approval map as written fails, while the corrected one goes through |
| AddEmployeeModal.SubmittedRecordBreaksUpdate | src/components/AddEmployeeModal.tsx:52-64 | editing a submitted record passes its missing id as the target, and the update map as written fails |
| OrgPayroll.CellTexts | src/pages/OrgPayroll.tsx:16 | one text per cell, by position |
| OrgPayroll.RowTexts | src/pages/OrgPayroll.tsx:16 | one line per row, by position |
| OrgPayroll.StoredOrZero | src/pages/OrgPayroll.tsx:38-42 | a stored figure, or 0 without a payroll block |
| OrgPayroll.AuditRow | src/pages/OrgPayroll.tsx:32-43 | an audit row has the header's 10 columns |
| OrgPayroll.TaxRow | src/pages/OrgPayroll.tsx:49-61 | a tax row has the header's 7 columns |
| OrgPayroll.AuditRows | src/pages/OrgPayroll.tsx:32-43 | one audit row per employee, in order |
| OrgPayroll.TaxRows | src/pages/OrgPayroll.tsx:49-62 | one tax row per employee, in order |
| OrgPayroll.DisplayedNet | src/pages/OrgPayroll.tsx:109 | the stored net when there is a block, else 80 % of the salary |
| OrgPayroll.CsvRoundTrip | src/pages/OrgPayroll.tsx:13-17 | with no `,` or line break in any header or cell, the text has rows + 1 lines, the header first, and each line splits into exactly its cells |
| OrgPayroll.EmptyReport | src/pages/OrgPayroll.tsx:14-17 | the report of no employees is the header line alone |
| OrgPayroll.NumberCellsPlain | src/pages/OrgPayroll.tsx:37-42 | the number cells of an audit row never hold a comma or a line break |
| OrgPayroll.AuditRowCellsAvoid | src/pages/OrgPayroll.tsx:32-43 | only the id, name, role and status can carry a comma or a line break into an audit line |
| OrgPayroll.AuditLineFields | src/pages/OrgPayroll.tsx:31-43 | an employee without commas in those fields gets exactly ten fields, as many as the header |
| OrgPayroll.CommaInNameShiftsColumns | src/pages/OrgPayroll.tsx:34 | the quotes do not protect a comma in the name: the line splits into one field more than the header |
| OrgPayroll.TaxRowArithmetic | src/pages/OrgPayroll.tsx:50-60 | annual gross is 12 × salary, taxable is gross less SSF, annual tax is 12 × the stored monthly tax; without a block SSF and tax are 0 |
| OrgPayroll.TaxRowNearCalculator | src/pages/OrgPayroll.tsx:50-60 | for a record carrying its own salary's block, the report's annual tax is within 6 of the calculator's, and so is its taxable estimate |
| OrgPayroll.DisplayedNetCases | src/pages/OrgPayroll.tsx:109 | a stored 0 is shown as 0; only a missing block falls back to 80 % of the salary |

The code and the usual reading of it differ in two places. The model follows the code in both:

- `src/pages/OrgPayroll.tsx:109` falls back to 80 % of the salary only when the payroll block is
  missing. A stored net salary of 0 is formatted to the text `"0"`, which is truthy, so it is
  shown as 0 (`OrgPayroll.DisplayedNetCases`).
- An update whose salary is 0 attaches no block (`server/src/routes/userRoutes.ts:63`), so the
  document keeps the breakdown of its previous salary (`UserRoutes.ZeroSalaryLeavesStaleBreakdown`).

## Left out

- Database, HTTP and storage:
  - The MongoDB lookups and saves, Express request parsing and Mongoose validation are not
    modelled. A lookup is an input or a map.
  - The replies on exceptions are not modelled: 400 from the user create and update handlers
    (`server/src/routes/userRoutes.ts:53`, `:79`) and 500 from the transaction and login handlers
    (`server/src/routes/transactionRoutes.ts:46`, `server/src/routes/authRoutes.ts:38`). The one
    exception kept is a transaction whose type falls outside the schema's enum
    (`server/src/models/Transaction.ts:15`).
  - `localStorage`, the loading flag, the transactions list and the store's initial loading effect
    are not modelled.
  - The GET routes and the CRUD-only routes are not modelled.
- Browser APIs: `window.confirm` is a boolean argument and `FileReader` gives the text as an
  argument. `alert`, `Blob`, the download link and all rendering are left out.
- Clock and randomness:
  - `Date.now()` and `toISOString()` are a `Clock` argument of each operation. Within one call the
    clock is taken not to move.
  - The text of each `Math.random()` is an argument.
- React: setters are applied at once, in call order. StrictMode's double invocation of updater
  functions is not modelled.
- Number semantics and formatting:
  - IEEE-754 floating point is not modelled. All arithmetic is exact, so no binary rounding
    artefacts appear.
  - `Number(string)` is modelled for blank text and plain decimals with an optional sign.
    Exponents, hexadecimal, `Infinity` and `NaN` inputs are treated as no number.
  - A salary sent to the server as a string is not modelled. `Number(userData.salary)` is applied
    to a JSON number.
- JsNumber.ShowNumber: JavaScript's shortest round-trip number printing is replaced by the exact
  decimal expansion. It is cut after 21 fraction digits, and larger magnitudes never switch to
  exponent notation. The proofs only need that the text is made of digits, `.` and `-`.
- Only the user fields the core reads are modelled (role, salary, payroll block, wallet balance,
  lock settings, daily rate). Every other field is carried as an opaque map or not at all.
- PayrollCalculator.PayrollNonNegative: stated only for a non-negative salary, because the calculator does not handle negative or non-finite salaries.
- PayrollCalculator.SlabWalkAccounting: stated only for a non-negative salary, for the same reason.
- UserRoutes.StoredNonNegative: stated only for a non-negative salary, for the same reason.
- AddEmployeeModal.SubmittedEmployee: requires the salary text to parse as a number. The form's
  input is a required number field (`src/components/AddEmployeeModal.tsx:208`), so the browser
  will not submit anything else.
- TransactionRoutes.Ledger.Post: each request is modelled as running alone, in one atomic step. The
  handler reads the user, checks the balance and saves with no session or transaction
  (`server/src/routes/transactionRoutes.ts:20-43`), so two interleaved withdrawals can both pass the
  balance check and one debit can be lost.
- The UI-only state of the dialogs (`isSubmitting`, `isSuccess`, the form reset) is not modelled.

## Findings

| source | as written | input that shows it | evidently intended | confidence | as-written member | corrected member |
|---|---|---|---|---|---|---|
| src/context/AppContext.tsx:137-139 | approving a request maps the employees with `e.id.toString()`, and throws on a record without an `id` | any approval once the single-employee form (src/components/AddEmployeeModal.tsx:52-66, which sets no `id`) has added a record | records without an id simply do not match | high, by reading; not executed | AppContext.StreamingOnAsWritten (exhibited by AddEmployeeModal.SubmittedRecordBreaksApproval) | AppContext.StreamingOn, used by AppContext.StreamingForAll and AppContext.AppState.HandleUnlockRequest |
| src/context/AppContext.tsx:101-107 | with an `undefined` target, `emp.id === id` holds for every record without an `id`, and `id.toString()` then throws | editing a record the single-employee form (src/components/AddEmployeeModal.tsx:52-64) added: the dashboard saves with `updateEmployee(editingEmp.id, …)` (src/pages/AdminDashboard.tsx:53) and that id is `undefined` | every record carries an id, so the target is defined and matches only its own record | high, by reading; not executed | AppContext.UpdateMatchingAsWritten (exhibited by AddEmployeeModal.SubmittedRecordBreaksUpdate) | AppContext.UpdateMatching, used by AppContext.AppState.UpdateEmployee (AppContext.UpdateUniqueMatch states the intended result) |

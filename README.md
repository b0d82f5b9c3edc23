# Bank statement parsers, modelled in Dafny

The system converts Argentine bank statements into spreadsheets. A PDF statement is turned
into lines of text, and a per-bank parser reads those lines into a ledger: dated movements
with a description and a signed amount, an opening balance and a closing balance. Each
spreadsheet sheet shows the credits, the debits and the control value
`opening + credits - debits - closing`, which is zero when the statement adds up.

This project models the per-bank parsers on the already-extracted lines (`seq<string>`).
Shared modules hold what the parsers have in common:

- `Optional` is the option type.
- `Text` models the Python string methods the parsers call.
- `Amounts` models `float()` on a decimal literal in integer cents. It also holds the
  Argentine (`1.234,56`) and US (`1,234.56`) literal recognisers, their canonical formatters,
  and `re.finditer`/`re.search` over a hand-written matcher.
- `Ledger` holds the balance arithmetic: sums, the credit/debit partition, the control
  value, telescoping balance differences, and reversal of newest-first listings.
- `Lines` finds the first line that mentions a heading and slices the lines between two
  such lines, as Python's `next(...)` and list slicing do.

Each bank format modelled has a module of its own; the Macro line layout is split off into a
second module, `Macro2Lines`. Each regular expression a parser uses is written out as
a recogniser over strings. Line-by-line scans that update state are methods with loops; the
per-line decisions are functions whose contracts state the parser's rules.

## Model

| member | source | states |
|---|---|---|
| Amounts.ParseFormatDecimal | comafi.py:30-31 | `float()` of the canonical decimal literal of any amount gives that amount back, in cents |
| Amounts.ArFormatShape | comafi.py:37 | the canonical Argentine literal has the shape `d{1,3}(.ddd)*,dd` |
| Amounts.ArRoundTrip | comafi.py:30-31 | dropping the dots and reading the comma as the decimal point gives a canonical Argentine literal's amount back |
| Amounts.ArLiteralValue | comafi.py:30-31 | every Argentine literal reads as its integer digits (dots dropped) times 100 plus its two decimals |
| Amounts.UsFormatShape | galicia_mas.py:47 | the canonical US literal has the shape `d{1,3}(,ddd)*.dd` |
| Amounts.UsRoundTrip | galicia_mas.py:47 | dropping the commas gives a canonical US literal's amount back |
| Amounts.UsLiteralValue | galicia_mas.py:47 | every US literal reads as its integer digits (commas dropped) times 100 plus its two decimals |
| Amounts.GroupedAt | comafi.py:37 | a match tried at a position is a whole grouped literal starting there |
| Amounts.Spans | comafi.py:292 | `finditer`: every span is a match, spans are in order and do not overlap, and no match starts before the first span |
| Amounts.Search | comafi.py:206-212 | `re.search`: the leftmost match, or none when no position matches |
| Amounts.Negate | comafi.py:29-30 | a negated reading fails exactly when the reading fails, and is its opposite otherwise |
| Ledger.CreditsMinusDebits | comafi.py:518-519 | credits and debits partition the non-zero amounts, so credits minus debits is the net movement |
| Ledger.ControlOfMovements | comafi.py:617 | the control value is zero exactly when opening plus the net movement is the closing balance |
| Ledger.DiffsTelescope | galicia.py:130-139 | opening plus the balance differences is the last balance |
| Ledger.RunningEnds | comafi.py:409-418 | the running balances end at opening plus the net movement |
| Ledger.DiffsOfRunning | galicia.py:130-139 | differencing running balances gives the amounts back |
| Ledger.RunningOfDiffs | galicia.py:130-139 | accumulating balance differences gives the balances back |
| Ledger.StepsAreRunning | comafi.py:409-418 | balances that each step by their movement from the opening are the running balances |
| Ledger.SumReverse | icbc_2.py:113-127 | reversing a listing keeps its net movement |
| Ledger.InferredOpening | icbc_2.py:113-127 | with the opening inferred as the oldest balance minus its amount, chained rows are the running balances and opening plus the net movement is the newest balance |
| Comafi.TrailingMinus | comafi.py:25-33 | `parse_ar_number` (`ParseArNumber`): a trailing `-` negates the reading of the rest |
| Comafi.NoTrailingMinus | comafi.py:25-33 | a literal ending in a digit is read as it stands |
| Comafi.ArNumberRoundTrip | comafi.py:25-33 | the canonical literal of `m` reads as `m`, and with a trailing `-` as `-m` |
| Comafi.MontoParses | comafi.py:37 | every matched amount parses; it is non-negative without a trailing `-` and non-positive with one |
| Comafi.MontoAt | comafi.py:37 | a match is an Argentine literal with an optional trailing `-`, with no digit right before or after it |
| Comafi.Montos | comafi.py:292 | every amount found on a line has the amount shape |
| Comafi.NoDigitsNoMontos | comafi.py:292 | a line without digits has no amounts |
| Amounts.NoMatchNoSpans | comafi.py:292 | when no position matches, `finditer` finds nothing |
| Comafi.FechaMatch | comafi.py:40 | a dated line starts with `dd/mm/yy` followed by whitespace, and the rest is what follows that whitespace |
| Comafi.HeaderAt | comafi.py:43-46 | a header match is an account kind followed by whitespace and a currency word |
| Comafi.HeaderSearch | comafi.py:43-46 | the leftmost header in the upper-cased line, or none when no position has one |
| Comafi.HeaderIgnoresCase | comafi.py:43-46 | header recognition does not depend on letter case |
| Comafi.NroSearch | comafi.py:206-212 | an account number found after `NRO`/`NUMERO` has the shape `dddd-ddddd-d` |
| Comafi.FindNro | comafi.py:206-212 | the number comes from a window of lines starting at the header, and has twelve characters |
| Comafi.SaldoAlSearch | comafi.py:52 | a `Saldo al:` match gives the amount text after the date |
| Comafi.MixedCaseHeadingNeverMatches | comafi.py:398-406 | as written, the lower-case heading in the list can never be found in an upper-cased line, so the list behaves as if it were absent |
| Comafi.DepositHeadingEndsSection | comafi.py:404 | with the heading upper-cased, a deposits heading in any case ends the listing |
| Comafi.ClassifyIgnoresCase | comafi.py:108-117 | `clasificar_movimiento` (`Classify`): keyword classification does not depend on letter case |
| Comafi.ByBalance | comafi.py:309-314 | with no keyword, a positive amount is a credit iff the balance rose, a negative one iff it fell, and a zero amount is a debit (ties go to debit) |
| Comafi.Book | comafi.py:316-322 | a credit fills only the credit column and a debit only the debit column |
| Comafi.LastKnownBalance | comafi.py:120-125 | the balance of the last movement that has one, or the opening balance when none has |
| Text.CutAtLast | comafi.py:295-300 | cutting at the last occurrence of each amount leaves a prefix of the text |
| Comafi.FromAmounts | comafi.py:302-348 | with two or more amounts the last is the balance and the one before it the amount; the keyword class wins, else the balance comparison; one amount with no keyword is a debit with no balance; every movement is one-sided |
| Comafi.DatedLine | comafi.py:274-348 | a `SALDO ANTERIOR` line sets the opening balance and adds no movement; any other dated line appends one movement |
| Comafi.AppendText | comafi.py:362-368 | continuation text is appended after the description, which is unchanged exactly when the text is empty or a rule of dashes |
| Comafi.Continued | comafi.py:352-395 | a continued movement keeps its date and stays one-sided |
| Comafi.ReplaceLast | comafi.py:352-395 | continuing a movement changes only the last movement of the account |
| Comafi.Register | comafi.py:214-226 | a known account number is re-selected and left unchanged; a new one is appended once, with an empty account |
| Comafi.Update | comafi.py:255-348 | replacing an account keeps the order of account numbers |
| Comafi.StepOk | comafi.py:189-407 | no line breaks the registry: account numbers stay distinct, every listed number has an account, movements stay one-sided and the current account is registered |
| Comafi.RunOk | comafi.py:189-407 | the same holds after any number of lines |
| Comafi.DatedLineRecorded | comafi.py:255-348 | inside a listing, a dated line that is not noise, not a closing balance and not the previous-balance line appends exactly one movement, built from that line, to the current account; the other accounts, the order and the open listing are unchanged |
| Comafi.DepositLineKeepsListing | comafi.py:398-406 | as written, before the first movement, an undated deposit-guarantee line with no other heading leaves the listing open and changes nothing |
| Comafi.DepositLineClosesListing | comafi.py:398-406 | with the heading upper-cased, that line closes the listing and changes nothing else |
| Comafi.RunDates | comafi.py:274-395 | every movement recorded so far carries the date of one of the dated lines read so far (continuations keep the date) |
| Comafi.ScanDates | comafi.py:189-407 | every movement of a statement carries the date of one of its dated lines |
| Comafi.Scan | comafi.py:189-407 | the loop over the lines computes exactly the line-by-line scan (`ScanAll`), stopping at an unreadable closing balance; its accounts are registered once and their movements are one-sided |
| Comafi.FillBalances | comafi.py:409-418 | a movement without a balance gets the previous balance plus its credit minus its debit; a printed balance is kept |
| Comafi.FilledOneSided | comafi.py:409-418 | filling keeps every movement one-sided |
| Comafi.FilledIsRunning | comafi.py:409-418 | when no balance was printed, the filled balances are the running balances of the net movements |
| Comafi.SheetName | comafi.py:452-459 | a sheet name has at most 31 characters |
| Comafi.MakeSheet | comafi.py:510-617 | an account with no movements has no control value; otherwise the control is opening + credits - debits - closing |
| Comafi.Sheets | comafi.py:421 | there is no workbook exactly when no account has movements |
| Comafi.ColumnsAreCreditsAndDebits | comafi.py:518-519 | the credit and debit columns are the credits and debits of the net movements |
| Comafi.ControlOfFilled | comafi.py:617 | after filling, the control value is the last filled balance minus the closing balance |
| Comafi.FillAll | comafi.py:409-418 | every account's movements are filled and complete |
| Comafi.Process | comafi.py:189-621 | the accounts are registered once, filled and complete, and the sheets are made from them |
| Ledger.OneSidedColumns | galicia_mas.py:418-420 | with one-sided rows, the credit and debit columns are the credits and debits of the net movements |
| Ledger.OneSidedCredits | galicia_mas.py:419 | with one-sided rows, the positive credits are the credits of the net movements |
| Ledger.OneSidedDebits | galicia_mas.py:420 | with one-sided rows, the positive debits are the debits of the net movements |
| GaliciaMas.CuentaAt | galicia_mas.py:43 | an account-number match at a position has the shape `ddd`, up to four digits or dashes, `ddddd-d` |
| GaliciaMas.CuentaSearch | galicia_mas.py:43 | the account number found in a line has the account shape and occurs in the line |
| GaliciaMas.CuentaStandard | galicia_mas.py:43 | a `dddd-ddddd-d` number is matched whole |
| GaliciaMas.CuentaWithBranch | galicia_mas.py:43 | a `ddd-d-ddddd-d` number is matched whole |
| GaliciaMas.MontoAt | galicia_mas.py:45-47 | an amount match is a US literal or bare `.dd` cents, with no digit right before or after it |
| GaliciaMas.Montos | galicia_mas.py:115 | every amount found in a text has the amount shape |
| GaliciaMas.CentsOnly | galicia_mas.py:45-47 | bare `.dd` cents read as that many cents |
| GaliciaMas.MontoParses | galicia_mas.py:117-120 | every matched amount reads as a non-negative number, so the guarded conversion never fails |
| GaliciaMas.MontoValue | galicia_mas.py:196-197 | the value of an amount is what reading it with the commas dropped gives, and is non-negative |
| GaliciaMas.MontoRoundTrip | galicia_mas.py:47 | every amount printed in the canonical US form is recognised and reads back as itself |
| GaliciaMas.MinusAfterLiteral | galicia_mas.py:201-207 | a minus sign right after the last amount makes the balance negative |
| GaliciaMas.DashRest | galicia_mas.py:44 | the text after the dash starts at least two characters after it and is not empty |
| GaliciaMas.TrxMatch | galicia_mas.py:44 | a transaction match gives a non-empty text that ends the line and, when dated, a six-character `dd-MMM` date |
| GaliciaMas.TrxDated | galicia_mas.py:44 | `dd-MMM - text` gives the date and the text |
| GaliciaMas.TrxUndated | galicia_mas.py:44 | `- text` gives no date and the text |
| GaliciaMas.YearFrom | galicia_mas.py:60-66 | a year found in a line is four digits |
| GaliciaMas.YearOf | galicia_mas.py:59-68 | the statement year is always four digits: the period's end year, else its start year, else 2024 |
| GaliciaMas.YearOfPeriod | galicia_mas.py:60-63 | a page opening with the full period takes the year of the period's end date |
| GaliciaMas.ProductName | galicia_mas.py:105-111 | the product name is stripped of surrounding whitespace |
| GaliciaMas.Record | galicia_mas.py:113-125 | two or more amounts give the opening and closing balances, one amount a zero opening and that closing, none leaves the balances; the product is recorded and a new account appended once |
| GaliciaMas.SummaryRow | galicia_mas.py:102-125 | a row without an account number changes nothing; a row with one records that account with the row's product and keeps the summary valid |
| GaliciaMas.SummaryStep | galicia_mas.py:88-101 | the header opens the table and a closing line closes it; only a line inside the open table changes the summary, which stays valid |
| GaliciaMas.SummaryAfter | galicia_mas.py:86-125 | after any number of lines each account is listed once and balances come in pairs for listed accounts |
| GaliciaMas.SummaryRowRecorded | galicia_mas.py:102-113 | a line inside the open table holding an account number records that account with its product and leaves the table open |
| GaliciaMas.OutsideTableIgnored | galicia_mas.py:88-94 | outside the table, a line that does not open it changes nothing |
| GaliciaMas.NumbersIn | galicia_mas.py:102-104 | every number collected is the account number found on one of the lines read |
| GaliciaMas.SummaryFound | galicia_mas.py:102-113 | every account of the summary is an account number found on one of the lines read |
| GaliciaMas.ReadSummary | galicia_mas.py:86-125 | the loop ends in the summary the line-by-line scan reaches, which lists each account once with its balances in pairs |
| GaliciaMas.IsCredit | galicia_mas.py:217-226 | an exact debit step is a debit and an exact credit step a credit; within one peso the nearer step wins, ties going to debit; otherwise whether the text holds a credit keyword decides |
| GaliciaMas.CleanDescription | galicia_mas.py:228-233 | the description neither starts nor ends with whitespace |
| GaliciaMas.MovementOf | galicia_mas.py:192-197 | a transaction text gives a movement exactly when it has two or more amounts |
| GaliciaMas.MovementIn | galicia_mas.py:196-233 | the amount is the second-to-last amount and is non-negative, the balance the last one negated by a trailing minus, the description the text cut before its amounts, and the keyword flag whether the upper-cased text holds a credit keyword |
| GaliciaMas.Booking | galicia_mas.py:217-241 | the amount goes in exactly one column, the one consistent with the previous balance, with the movement's date, description and balance |
| GaliciaMas.Retitle | galicia_mas.py:269-270 | a continuation line extends only the last description |
| GaliciaMas.BookedSnoc | galicia_mas.py:212-215 | a movement consistent with the last balance keeps the listing booked |
| GaliciaMas.RetitleOk | galicia_mas.py:269-270 | extending a description keeps the movements one-sided, dated and booked |
| GaliciaMas.AccountStep | galicia_mas.py:176-270 | a balance line does nothing; a transaction line adds its movement when it has one; another line continues the last description unless it is junk or there is none |
| GaliciaMas.SnocOk | galicia_mas.py:242 | appending a one-sided, dated and consistent movement keeps the invariant |
| GaliciaMas.AccountStepOk | galicia_mas.py:176-270 | every line keeps an account's movements one-sided, dated in the statement year and booked |
| GaliciaMas.TrxDate | galicia_mas.py:186-190 | a dated transaction gets its day and month with the statement year; an undated one inherits the last date; either way the date is `dd-MMM-yyyy` of the statement year when the last date was |
| GaliciaMas.DataUpdate | galicia_mas.py:242 | replacing one account's movements by valid ones keeps every account valid |
| GaliciaMas.ReadStepOk | galicia_mas.py:163-270 | every line keeps every account's movements valid, the last date in the statement year and the selected account a summary account |
| GaliciaMas.ReadAfterOk | galicia_mas.py:155-276 | after any number of lines every account's movements are one-sided, dated in the statement year and booked, and only summary accounts have movements |
| GaliciaMas.ReadStepGrows | galicia_mas.py:176-270 | a line keeps the set of accounts and adds at most one movement, and only a transaction line that is not a balance line adds one |
| GaliciaMas.MovementsFromLines | galicia_mas.py:176-242 | every movement comes from its own transaction line: no account has more movements than the listing has transaction lines |
| GaliciaMas.TrxLineRecorded | galicia_mas.py:176-242 | under a selected account, a transaction line with a movement appends exactly that movement, booked against the previous balance and dated from the line or the last date, and changes no other account |
| GaliciaMas.ReadMovements | galicia_mas.py:155-276 | the loop ends in the movements the line-by-line scan reaches, every one recorded under a summary account, one-sided, dated in the statement year and booked against the balances |
| GaliciaMas.SheetName | galicia_mas.py:357-366 | a sheet name has at most 30 characters |
| GaliciaMas.SheetNameOfCuenta | galicia_mas.py:361-366 | an account number is kept whole after the `USD`/`ARS` prefix |
| GaliciaMas.CleanName | galicia_mas.py:10-13 | a name of letters, spaces, digits and dashes is unchanged by the cell-text filter |
| GaliciaMas.MakeSheet | galicia_mas.py:386-512 | the sheet holds the summary balances (zero when absent), the positive credits and debits, and, when there are movements, the control opening + credits - debits - closing |
| GaliciaMas.SheetControl | galicia_mas.py:512 | with one-sided movements the control is opening plus the net movement minus closing |
| GaliciaMas.ExactSteps | galicia_mas.py:212-226 | balances that each follow from the one before step by the net movements |
| GaliciaMas.ExactLast | galicia_mas.py:212-226 | when every balance follows from the one before, the last is opening plus the net movement |
| GaliciaMas.ControlOfExact | galicia_mas.py:512 | then the control is the last printed balance minus the closing balance |
| GaliciaMas.Sheets | galicia_mas.py:334-366 | no workbook exactly when no account has movements; otherwise one sheet per summary account, in order |
| GaliciaMas.Process | galicia_mas.py:15-522 | the summary is the line-by-line summary scan of the first page and the movements the line-by-line movement scan of the listing under that summary and the statement year; both keep their invariants and the sheets are made from them |
| Mercadopago.CleanSheetName | mercadopago.py:8-20 | replacing each forbidden character in turn and cutting to 31 characters gives the specified sheet name |
| Mercadopago.SheetNameValid | mercadopago.py:8-20 | a cleaned sheet name has at most 31 characters and none of `\ / * [ ] : ?` |
| Mercadopago.SheetNameKeepsValid | mercadopago.py:8-20 | a name that is already valid is kept unchanged |
| Mercadopago.SheetNameIdempotent | mercadopago.py:8-20 | cleaning a cleaned name changes nothing |
| Mercadopago.SheetTitle | mercadopago.py:325-332 | a non-empty CVU is the sheet title |
| Mercadopago.Unsigned | mercadopago.py:276-279 | an amount text that starts and ends with a digit reads as its decimal literal, and a leading minus negates it |
| Mercadopago.ArLiteralNumber | mercadopago.py:281-291 | an Argentine literal `1.234,56`, signed or not, reads as the value of dropping its points and taking the comma as the decimal point |
| Mercadopago.GroupedNumber | mercadopago.py:292-296 | a literal grouped by points without decimals reads as its digits, signed or not |
| Mercadopago.NumberRoundTrip | mercadopago.py:271-302 | `ToNumber`: reading the canonical Argentine literal of any amount, with or without a minus, gives the amount back |
| Mercadopago.UnreadableIsZero | mercadopago.py:298-302 | a text whose decimal literal `float()` rejects reads as zero |
| Mercadopago.Fragments | mercadopago.py:135 | every number fragment is a non-empty run of digits, points and commas |
| Mercadopago.ValidAmounts | mercadopago.py:137-159 | the cursor loop over the fragments rebuilds exactly the amounts the recursive definition gives |
| Mercadopago.RebuildShape | mercadopago.py:143-157 | every rebuilt amount is an Argentine amount or a comma fragment joined with its two decimals |
| Mercadopago.AmountEndsInDigit | mercadopago.py:156 | an amount never ends in a comma, so it is never joined with the next fragment |
| Mercadopago.RebuildKeepsAmounts | mercadopago.py:155-157 | fragments that are all amounts are kept unchanged and in order |
| Mercadopago.RebuildJoins | mercadopago.py:144-153 | a fragment ending in a comma followed by two digits is one amount |
| Mercadopago.DateFragments | mercadopago.py:129-135 | the fragments of a text that starts with a date are its day, month and year, then those of the rest |
| Mercadopago.DateAmounts | mercadopago.py:135-159 | the day and the month of the leading date always pass as amounts, the year never does |
| Mercadopago.DateNumbers | mercadopago.py:156 | a date's day and month match the amount pattern and its year does not |
| Mercadopago.RebuildThree | mercadopago.py:155-159 | two amounts and a non-amount rebuild to the two amounts |
| Mercadopago.RebuildCons | mercadopago.py:155-159 | a fragment not ending in a comma is kept exactly when it is an amount |
| Mercadopago.MonthTakenAsAmount | mercadopago.py:161-162 | as written, a movement with a single amount after its date has three amounts and takes the date's month |
| Mercadopago.SingleAmountTaken | mercadopago.py:214-216 | counting the amounts after the date, a single amount is the one taken |
| Mercadopago.DateDoesNotMatter | mercadopago.py:161-162 | with two or more amounts after the date, skipping the date's numbers does not change the amount taken |
| Mercadopago.ChosenAfter | mercadopago.py:162 | the second to last amount does not depend on amounts in front of two others |
| Mercadopago.DateFrom | mercadopago.py:91 | the leftmost `dd-dd-dddd` date, or none anywhere |
| Mercadopago.AmountFrom | mercadopago.py:101 | the leftmost `$` amount mark, or none anywhere |
| Mercadopago.Counted | mercadopago.py:100-121 | the extra lines merged are at most the lines looked at |
| Mercadopago.RowOf | mercadopago.py:47-111 | a row keeps the stripped line, whether it is a page header, where its first date begins and the fields it holds, with the holder test made on the line above |
| Mercadopago.MergeRun | mercadopago.py:99-123 | the merge ends at or after the row it starts from, within the rows, and never takes back a counted line |
| Mercadopago.MergeRunShape | mercadopago.py:119-121 | the merged text is the start text followed by the non-header lines used |
| Mercadopago.MergeRunCount | mercadopago.py:119-121 | the count of added lines is the number of non-header lines used |
| Mercadopago.MergeRunStops | mercadopago.py:101-123 | the merge adds at most 20 lines and stops only when the loop condition fails |
| Mercadopago.MergeRunPasses | mercadopago.py:105-115 | every row the merge passes over is a page header or does not start a new movement |
| Mercadopago.MergeOf | mercadopago.py:99-123 | the merged text is the start line followed by every later non-header line up to where the loop stops; it stops at an amount, after 20 extra lines, at the last line or before a line that starts a new movement; every line passed over was a header or did not start a movement |
| Mercadopago.MergeLines | mercadopago.py:99-123 | the loop returns the text and last row of the merge, and so has every property `MergeOf` states |
| Mercadopago.Signed | mercadopago.py:164-172 | the amount gets a minus exactly when the text before its first occurrence ends in `$`, spaces and a minus |
| Mercadopago.FirstAfter | mercadopago.py:166 | an amount starting with a digit is first found right after a digit-free prefix and mark |
| Mercadopago.SignedAfterDollar | mercadopago.py:166-172 | an amount written after `$ -` is negative and one after `$ ` is not |
| Mercadopago.SignedAfter | mercadopago.py:166-172 | the sign an amount gets follows the mark written before it |
| Mercadopago.RStripEnds | mercadopago.py:171 | a text ending in `$ -` matches the minus pattern and one ending in `$ ` does not |
| Mercadopago.ReferenceFrom | mercadopago.py:183 | the leftmost run of ten digits, or none anywhere |
| Mercadopago.NoReferenceSlice | mercadopago.py:186-188 | a slice of a text without a reference has none |
| Mercadopago.NoReferenceStrip | mercadopago.py:188 | stripping keeps a text free of references |
| Mercadopago.NoReferenceBefore | mercadopago.py:183-188 | the text before the leftmost reference has no reference |
| Mercadopago.Description | mercadopago.py:174-205 | the description is stripped and holds no ten-digit reference |
| Mercadopago.BeforeReference | mercadopago.py:185-191 | the text before the reference, without a trailing comma, is stripped and reference-free |
| Mercadopago.BeforeAmount | mercadopago.py:194-201 | the text before the amount, without the `$`, is stripped and reference-free |
| Mercadopago.MovementOf | mercadopago.py:129-258 | a movement has the text's leading date, a signed amount of the rebuilt shape and a clean description; there is none without an amount after the date |
| Mercadopago.ChosenOk | mercadopago.py:161-162 | the chosen amount is a rebuilt amount without a sign |
| Mercadopago.ValueAt | mercadopago.py:75-87 | a captured CVU is a non-empty run of digits, a captured balance a non-empty run of digits, points and commas |
| Mercadopago.RunFrom | mercadopago.py:75-87 | a captured run is non-empty and every character matches the class |
| Mercadopago.MatchesIn | mercadopago.py:75-87 | marks each position of the line where the labelled pattern matches |
| Mercadopago.FirstMatch | mercadopago.py:75-87 | the leftmost marked position, or none anywhere |
| Mercadopago.ValueIn | mercadopago.py:75-87 | a value is found exactly when the pattern matches somewhere, and then the label is in the line |
| Mercadopago.MatchAtStart | mercadopago.py:75-87 | a match at the start of the line is the one found |
| Mercadopago.LabelledBalance | mercadopago.py:81-83 | a line `label $ amount` gives that amount |
| Mercadopago.NumberRun | mercadopago.py:81 | a run of number characters to the end is taken whole |
| Mercadopago.LabelledCvu | mercadopago.py:74-77 | a line `CVU: digits` gives those digits |
| Mercadopago.DigitRun | mercadopago.py:75 | a run of digits to the end is taken whole |
| Mercadopago.FieldsOf | mercadopago.py:60-88 | the holder test is whether the line above holds `RESUMEN DE CUENTA`; the CVU is searched only on a line starting with `CVU:`; the balances are the labelled values the line holds |
| Mercadopago.ReadFields | mercadopago.py:59-89 | the holder is set from the line after `RESUMEN DE CUENTA` only while none is known; a later CVU or balance replaces an earlier one; the movements are untouched |
| Mercadopago.ReadFieldsOk | mercadopago.py:59-89 | setting the fields of a line keeps the statement valid |
| Mercadopago.WithMovement | mercadopago.py:212 | the movement goes at the end (as here and at line 258) and the other fields are unchanged |
| Mercadopago.WithMovementOk | mercadopago.py:212 | appending a valid movement keeps the statement valid |
| Mercadopago.FactOfOk | mercadopago.py:47-123 | the facts of a line keep its text and fields, start a movement exactly when the line does, and end the movement at or after the line |
| Mercadopago.Facts | mercadopago.py:47-123 | one well formed fact per line |
| Mercadopago.Advance | mercadopago.py:46-258 | each turn of the scan moves forward, and no further than past the lines the movement merged |
| Mercadopago.AdvanceOk | mercadopago.py:46-258 | a turn appends at most one movement, keeps a holder once known and keeps the statement valid |
| Mercadopago.ScanFrom | mercadopago.py:46-258 | movements are only appended, at most one per line; a known holder is kept; the statement stays valid |
| Mercadopago.StartRecords | mercadopago.py:94-258 | a line that starts a movement whose merged text reads as one records that movement next, and the scan goes on after the merged lines |
| Mercadopago.NoDateNoMovement | mercadopago.py:91-94 | lines that start no movement add none |
| Mercadopago.MergeMovement | mercadopago.py:99-126 | the last row merged and the movement read from the normalised merged text |
| Mercadopago.ReadFact | mercadopago.py:47-123 | what the loop reads at a line are the facts of that line |
| Mercadopago.ReadLine | mercadopago.py:46-258 | one turn of the loop does what `Advance` says |
| Mercadopago.Scan | mercadopago.py:44-260 | the statement is what the scan of the lines' facts gives from an empty statement; every movement read is dated, signed and described cleanly, the holder is a stripped line, the CVU digits and the balances number texts; at most one movement per line |
| Mercadopago.Values | mercadopago.py:304-306 | one amount per movement |
| Mercadopago.MakeSheet | mercadopago.py:263-333 | a sheet exists exactly when both balances were found; its name has at most 31 characters; credits are the positive amounts and debits the negative ones |
| Mercadopago.SheetControl | mercadopago.py:583-588 | the control is the opening balance plus the net movement minus the closing balance |
| Mercadopago.Process | mercadopago.py:23-333 | the statement is the scan of the lines' facts, it satisfies its invariant, and the sheet is made from it |
| Macro3.MontoRoundTrip | macro_3.py:18-26 | `parse_monto` (`ParseMonto`): reading a canonical Argentine literal gives its amount back, and with a leading minus its opposite |
| Macro3.MontoSign | macro_3.py:18-26 | a matched amount without a minus reads as a non-negative amount; with one it reads as the opposite of the amount after the minus |
| Macro3.MontoNegative | macro_3.py:21-24 | a minus in front of an Argentine literal negates its reading |
| Macro3.MontoOfStripped | macro_3.py:21-24 | a text with no blank at either end reads as its plain Argentine reading, or zero when it is not one |
| Macro3.ArLiteralPlain | macro_3.py:21-24 | an Argentine literal starts and ends with a digit and reads as a non-negative amount, stripping changing nothing |
| Macro3.MontoAt | macro_3.py:338 | a match of the amount pattern is an optional minus and an Argentine literal |
| Macro3.Montos | macro_3.py:338 | every amount `findall` returns matches the amount pattern |
| Macro3.HeaderThresholdBounds | macro_3.py:28-41 | a header's threshold lies between the end of `DEBITOS` and the end of `CREDITOS`, which comes after it |
| Macro3.ThresholdFrom | macro_3.py:28-41 | the threshold from a line on is the threshold of some column header at or after it, or the default 90; with no header it is 90 |
| Macro3.Threshold | macro_3.py:28-41 | `_detectar_umbral`: the statement's threshold is some column header's threshold or the default 90, and 90 when no line is a header |
| Macro3.FirstHeaderDecides | macro_3.py:30-40 | the first line that is a column header decides the threshold |
| Macro3.NoHeaderDefault | macro_3.py:41 | without a column header the threshold is 90 |
| Macro3.SheetBase | macro_3.py:72-87 | the short name has at most 31 characters; `DOLAR` takes precedence; a name with none of the keywords gets `Cuenta` and its position |
| Macro3.CandidateShape | macro_3.py:494 | a retry name is the base, a space and the counter's digits |
| Macro3.UniqueName | macro_3.py:490-496 | the name given is not used yet; it is the base when that is free, else the base with the first counter from 2 on whose name is free |
| Macro3.TryNext | macro_3.py:493-495 | each retry is a name not tried before, so the retries end |
| Macro3.SheetNames | macro_3.py:486-496 | each account gets, in turn, the first free name for its short name against the names given before it (the short name when free, else the short name, a space and the first counter from 2 on that is free); the names are all different |
| Macro3.NamedInTurnDistinct | macro_3.py:490-496 | names given in turn by the first-free rule are pairwise distinct |
| Macro3.FusedAt | macro_3.py:53 | a match of the fused-date pattern lies inside the line |
| Macro3.FusedSpans | macro_3.py:53 | `finditer` gives non-overlapping matches, left to right |
| Macro3.CutOf | macro_3.py:54-65 | a match cuts the line only when it starts at column 20 or later, and then at its date, after column 20 |
| Macro3.CutsOf | macro_3.py:53-65 | at most one cut per match |
| Macro3.Pieces | macro_3.py:64-67 | a line with `n` cuts falls into `n + 1` parts |
| Macro3.NonBlank | macro_3.py:68 | only the parts that are not blank are kept |
| Macro3.CutLine | macro_3.py:51-67 | the cursor loop produces exactly the parts between the cuts |
| Macro3.SplitFused | macro_3.py:43-70 | the result is `SplitLines`: the parts of each line in order, blank parts dropped |
| Macro3.NoEarlyCuts | macro_3.py:55-56 | matches that start before column 20 cut nothing |
| Macro3.UnfusedLineKept | macro_3.py:43-70 | a line with no fused date from column 20 on is kept unchanged, or dropped when blank |
| Macro3.CutsFrom | macro_3.py:58-65 | cuts never come before the matches they are drawn from |
| Macro3.CutsAreDated | macro_3.py:53-65 | every cut starts a `dd/mm/yy` date, and the cuts are at least a date and a blank apart |
| Macro3.SpansAscend | macro_3.py:53 | a match ends before every later match starts |
| Macro3.PiecesStartDated | macro_3.py:64-67 | every part after the first starts with the date it was cut at |
| Macro3.FirstPieceDated | macro_3.py:64-65 | removing trailing blanks from a part keeps the date it starts with |
| Macro3.FusedPartsStartDated | macro_3.py:43-70 | every line split off a fused line starts with its `dd/mm/yy` date |
| Macro3.NroFrom | macro_3.py:336 | the lazy `.*?` stops at the first `NRO.:` followed by a number |
| Macro3.HeaderAt | macro_3.py:336 | a header match has `CUENTA`, blanks and `CORRIENTE` before its `NRO.:` |
| Macro3.HeaderFrom | macro_3.py:336 | `search` finds the leftmost header match |
| Macro3.AccountHeader | macro_3.py:350-353 | a header is found exactly when the header pattern matches somewhere; its number is a non-empty run of non-blanks |
| Macro3.HeaderFields | macro_3.py:352-353 | the account number is a non-empty word |
| Macro3.UpperKeepsSpace | macro_3.py:336 | ignoring case does not change which characters are blanks |
| Macro3.LastMonto | macro_3.py:417-420 | the last amount found on a line matches the amount pattern |
| Macro3.BalanceOf | macro_3.py:417-425 | a balance exists exactly when the line has an amount; its size is that of the last amount, and it is negative or zero when a minus precedes that amount |
| Macro3.UnsignedBalance | macro_3.py:432-440 | a balance printed without any minus is not negative |
| Macro3.DropTrailingZero | macro_3.py:457 | removing a lone final `0` only shortens the description from the end |
| Macro3.CollapseBlanks | macro_3.py:458 | after collapsing there are no two blanks in a row |
| Macro3.Describe | macro_3.py:454-458 | a description has no blank at either end and no two blanks in a row |
| Macro3.StripKeepsSingles | macro_3.py:458 | stripping keeps a text free of doubled blanks |
| Macro3.DatedAt | macro_3.py:337 | a movement line starts, after blanks, with a `dd/mm/yy` date and a blank |
| Macro3.MovementOf | macro_3.py:445-469 | a movement exists exactly when the line is dated and has an amount; its size is that of the first amount; it is a debit when that amount ends at or before the threshold, else a credit; its date is the `dd/mm/yy` text |
| Macro3.Classify | macro_3.py:346-469 | a line is a header exactly when the header pattern matches; a balance line carries its balance and a dated line its movement |
| Macro3.Register | macro_3.py:350-368 | a header selects its account; a new number is registered at the end of the order, a known one leaves the accounts as they are |
| Macro3.Advance | macro_3.py:414-475 | only the first opening balance read is kept; a closing balance read replaces the one before; a movement is appended at the end; nothing else changes |
| Macro3.Apply | macro_3.py:373-475 | a closing line ends the section; any other line advances the current account only |
| Macro3.Step | macro_3.py:346-475 | a line keeps every account registered once and keeps all it recorded |
| Macro3.Run | macro_3.py:346-475 | after any lines every account is registered once and the current one is an account |
| Macro3.Scan | macro_3.py:346-475 | the scan loop computes the scan of all the lines |
| Macro3.FirstSeen | macro_3.py:357-367 | first-appearance order lists each element once and nothing else |
| Macro3.StepOrder | macro_3.py:357-367 | a line appends to the order exactly when it is a header of a new number |
| Macro3.OrderStep | macro_3.py:357-367 | each line keeps the order the first-appearance order of the header numbers |
| Macro3.HeaderNrosStep | macro_3.py:350-354 | a line adds its number to the header numbers exactly when it is a header |
| Macro3.FirstSeenSnoc | macro_3.py:357-367 | a number is added to the order exactly when it is new |
| Macro3.OrderOfFirstAppearance | macro_3.py:350-368 | the accounts are in the order their numbers first appear in a header, each once |
| Macro3.KeepsChain | macro_3.py:346-475 | what is kept from line to line is kept across many lines |
| Macro3.ScanKeeps | macro_3.py:415-442 | once read, an opening balance never changes; accounts and their movements so far are never lost |
| Macro3.StepMovement | macro_3.py:471-475 | a line adds at most its own movement |
| Macro3.MovementsFromLines | macro_3.py:445-475 | every recorded movement is the movement of one of the lines |
| Macro3.MakeSheet | macro_3.py:109-116 | the sheet shows the account's balances, its positive amounts as credits and its negative ones as debits |
| Macro3.SheetControl | macro_3.py:283-285 | the control is the opening balance plus the net movement minus the closing balance, zero exactly when they agree |
| Macro3.Shorts | macro_3.py:490 | one short name per account |
| Macro3.BuildSheets | macro_3.py:486-509 | one sheet per account, in order, made from that account, its name the first free name for the account's short name against the names before it; the names are distinct |
| Macro3.Process | macro_3.py:301-517 | no result when no account is found; otherwise one sheet per account the scan of the split lines finds, in order, each named by the first-free-name rule against the names before it, so the names are distinct |
| Ledger.ListingSheet | santander.py:222-339 | a sheet shows the given balances, the positive amounts as credits and the negative ones as debits, and a control equal to opening plus the net movement minus closing |
| Santander.FindBounds | santander.py:62-71 | the scan finds the first line with each heading, and the first end mark once the dollars heading (for dollars) or only the pesos heading (for pesos) has been seen |
| Santander.BothListings | santander.py:73-84 | with both headings, pesos run from after their heading up to the dollars heading, and dollars from after their heading up to the first end mark or the end |
| Santander.PesosOnly | santander.py:73-84 | without a dollars heading, pesos run from after their heading up to the first end mark or the end, and there are no dollar lines |
| Santander.PesosLinesClean | santander.py:77-80 | no pesos line holds the dollars heading, and none holds an end mark when the statement has no dollars heading |
| Santander.DolaresLinesClean | santander.py:82-84 | no dollars line holds an end mark |
| Santander.Listings | santander.py:73-84 | the two slices are the pesos and dollars listings the bounds define |
| Santander.CurrencyEnd | santander.py:97 | a currency (`$` or `U$S`) match ends inside the text |
| Santander.SaldoMatchAt | santander.py:97 | a balance match is a `d.ddd,dd` literal after the currency, and it is negative exactly when it starts with `-` |
| Santander.SaldoSpans | santander.py:97 | every span `findall` returns is a balance match |
| Santander.SaldoParses | santander.py:106 | a matched balance always converts: its digits without dots times 100 plus its two decimals |
| Santander.SaldoLineRoundTrip | santander.py:96-121 | a printed balance at the end of a line with no other currency sign reads back as itself, in pesos or dollars, positive or negative |
| Santander.LastSaldoSet | santander.py:99-121 | a line with a balance match sets the balance whatever it was, since the last match wins |
| Santander.BalanceFromLast | santander.py:94-121 | the balance is the one read from the last line with the key that has a match |
| Santander.NoBalance | santander.py:90-91 | with no line holding the key, the balance stays zero |
| Santander.Join | santander.py:87-130 | the joining loop gives the records of all the lines, the opening balance of the `Saldo Inicial` lines and the closing one of the `Saldo total` lines |
| Santander.SaldoTotalNotJoined | santander.py:111-122 | `Saldo total` lines take no part in the records: joining gives the same result without them |
| Santander.JoinedCount | santander.py:124-130 | there is one record per dated line, plus one for leading undated text |
| Santander.RecordsPerDate | santander.py:124-130 | the number of records is the number of dated lines, plus one when the first kept line is undated |
| Santander.JoinInvariant | santander.py:124-129 | once a record is finished, every later record and the current one start with a date |
| Santander.LaterRecordsDated | santander.py:124-130 | every record after the first starts with a `dd/mm/yy` date |
| Santander.MontoAt | santander.py:150 | an amount match lies inside the text |
| Santander.MinusIffNegative | santander.py:159 | a printed amount holds a `-` exactly when it is negative |
| Santander.SignsRemoved | santander.py:160 | dropping `$` and `-` from a printed amount leaves a blank and its literal |
| Santander.ShownImporteRoundTrip | santander.py:159-163 | `ImporteOf`: a printed movement amount reads back as itself, in cents |
| Santander.LiteralImporte | santander.py:159-163 | an optional minus, `$`, a blank and an Argentine literal read as the literal's value, negated exactly when the minus is there |
| Santander.MovementOf | santander.py:134-189 | a record yields a movement exactly when it is not a heading or `Saldo Inicial` record and has two or more amounts; its amount is the second-to-last amount and its date the first eight characters |
| Santander.Yielded | santander.py:189 | a record adds at most one movement, exactly when it has one |
| Santander.ParseRecords | santander.py:133-197 | the parsing loop gives the movements of the records, in order |
| Santander.MovementsFromRecords | santander.py:134-189 | every movement is the movement of one of the records |
| Santander.MovementsBound | santander.py:133-197 | there are no more movements than records |
| Santander.Extract | santander.py:87-197 | a section's listing is the movements of its joined records and its two balances |
| Santander.Process | santander.py:200-351 | the `Pesos` sheet always, then the `Dolares` sheet exactly when that listing has movements or a non-zero balance |
| Credicoop2.ParseFloatDecimal | credicoop_2.py:19-24 | `parse_float` (`ParseFloat`): a plain decimal-point literal reads as its amount |
| Credicoop2.ParseFloatAr | credicoop_2.py:25-28 | an Argentine literal fails `float()` and reads as its amount through the fallback |
| Credicoop2.CommaNotDecimal | credicoop_2.py:24-26 | `float()` refuses any text holding a comma |
| Credicoop2.AmountEnd | credicoop_2.py:72 | an amount `-?\d+\.\d{2}` matched at a position ends after it, inside the line |
| Credicoop2.FieldAt | credicoop_2.py:72 | a blank-led amount column starts after its blanks and ends inside the line |
| Optional.FirstHit | credicoop_2.py:72 | the lazy search finds the first hit: none before it, and when none is found, none at all |
| Credicoop2.FirstTail | credicoop_2.py:72 | the lazy description stops at a position where the three columns and the code match |
| Credicoop2.DescSpan | credicoop_2.py:72 | the description starts no earlier than column 11 and no later than where the search began, is non-empty, and ends where the columns match |
| Credicoop2.MatchRow | credicoop_2.py:72-115 | a matched line starts with a `dd/mm/yyyy` date and a blank, the row's date is that date and its amount is the `Importe` of its debit and credit |
| Credicoop2.LaidOutMatches | credicoop_2.py:72-106 | a line laid out as a date, a plain description, three amount columns and a code matches, giving back that date and description, the balance column, and the debit and credit columns with their `Importe` |
| Credicoop2.ColumnValues | credicoop_2.py:89-96 | each amount column of a laid-out line reads as the amount written there |
| Credicoop2.FirstTailIs | credicoop_2.py:72 | the description stops at the first position where the columns match |
| Credicoop2.NoEarlierTail | credicoop_2.py:72 | inside a plain description the columns never match |
| Credicoop2.LineRoundTrip | credicoop_2.py:72-115 | a movement line printed from a date, a plain description, debit, credit, balance and code reads back as exactly that row |
| Credicoop2.ImporteSign | credicoop_2.py:102-106 | the amount is positive exactly when there is a credit, negative exactly when there is a debit and no credit, and zero when neither |
| Credicoop2.ImporteNet | credicoop_2.py:102-106 | for a one-sided row with non-negative columns the amount is credit minus debit |
| Credicoop2.StartIffMatch | credicoop_2.py:79-86 | a line starts a row exactly when it is not a header or blank and the movement pattern matches it |
| Credicoop2.Scan | credicoop_2.py:76-121 | the line loop gives the rows of all the lines |
| Credicoop2.Apply | credicoop_2.py:85-121 | a matched line appends its row; a continuation line extends the last description, and is dropped when there is no row yet |
| Credicoop2.StepExtends | credicoop_2.py:85-121 | one line adds at most one row and only extends the last row's description |
| Credicoop2.ScanKeeps | credicoop_2.py:76-121 | rows once recorded stay in place with the same date and figures; their descriptions only grow |
| Credicoop2.RowsPerMatch | credicoop_2.py:76-115 | there is one row per movement line |
| Credicoop2.RowsDated | credicoop_2.py:85-87 | every row is dated `dd/mm/yyyy` |
| Credicoop2.Process | credicoop_2.py:123-156 | there is no sheet exactly when no movement line was found; otherwise the sheet is the report of the rows read |
| Credicoop2.Report | credicoop_2.py:130-156 | the closing balance is the newest row's, the opening is the oldest row's balance minus its credit plus its debit, and the rows are reversed into date order |
| Credicoop2.ReversedRows | credicoop_2.py:148 | reversed, the amounts and balances are those of the rows from the last back |
| Credicoop2.ReversedChain | credicoop_2.py:143-148 | when each row's balance is the next older one's plus its amount, the reversed balances chain forward |
| Credicoop2.SheetControl | credicoop_2.py:353 | the control value is the inferred opening plus the net movement minus the closing balance |
| Credicoop2.BalancedSheet | credicoop_2.py:130-156 | when the balances chain and the oldest row is one-sided with non-negative columns, the control value is zero |
| Macro2.SignedChars | macro_2.py:60 | an amount printed as the statement prints it is a literal of the shape the amount pattern reads, and starts with `-` exactly when the amount is negative |
| Macro2.ParseDollar | macro_2.py:19-29 | `parse_amount` of a peso sign, a blank and a literal is the literal's value with the thousands dots dropped and the comma read as the decimal point |
| Macro2.SignedRoundTrip | macro_2.py:19-29 | an amount printed in the Argentine format reads back as itself |
| Macro2.ParseShown | macro_2.py:19-29 | `parse_amount` (`ParseAmount`) of an amount printed as `$ 50.000,00` or `$ -269,33` is that amount |
| Macro2.ShownInjective | macro_2.py:97-104 | two amounts print alike only when they are equal |
| Macro2.ShownPrefix | macro_2.py:104 | one printed amount is the start of another only when they are equal |
| Macro2.MontoAt | macro_2.py:95 | a match of the amount pattern at a position ends after it, inside the line |
| Macro2.MontoSpans | macro_2.py:95 | `findall` gives matches in order that do not overlap, each a match of the pattern where it starts |
| Macro2.NoMontoBefore | macro_2.py:95 | no match of the amount pattern starts before a peso sign when no comma lies in between |
| Macro2.MontoAtLiteral | macro_2.py:95 | the pattern matches a peso sign, a blank and an amount literal whole |
| Macro2.FirstNonRef | macro_2.py:120-127 | from a position, the first word that is not a reference number; every word skipped is one |
| Macro2.DescStart | macro_2.py:120-127 | the description starts at the first word that is not a reference number (all digits, more than two); when every word is one it starts at the first word |
| Macro2.StartDesc | macro_2.py:120-127 | the loop over the words finds where the description starts |
| Macro2.CutDescription | macro_2.py:107-129 | the description is what precedes the cut, less the date and the leading reference numbers, joined by blanks |
| Macro2.LineRow | macro_2.py:71-139 | a stripped line gives a row exactly when it starts with `dd/mm/yyyy`, has five words or more and two amounts or more; the row's date is a `dd/mm/yyyy` text |
| Macro2.LineRowAsWritten | macro_2.py:95-139 | the line cut where the amount's text last occurs gives a row only when the line is read as a movement |
| Macro2.ReadLine | macro_2.py:72-139 | the loop body gives the row of the stripped line |
| Macro2.RowsOf | macro_2.py:71-139 | each line gives at most one row |
| Macro2.ReadRows | macro_2.py:71-139 | one line's rows, as the loop body appends them |
| Macro2.Scan | macro_2.py:71-139 | the line loop gives the rows of all the lines, in order |
| Macro2.ScanStep | macro_2.py:71-139 | one more line adds its rows at the end |
| Macro2.RowsPerCandidate | macro_2.py:71-139 | there is one row per line read as a movement |
| Macro2.FirstWordDated | macro_2.py:73-83 | in a line that starts with `dd/mm/yyyy`, the first word is dated too |
| Macro2.DateTextValid | macro_2.py:150 | a `dd/mm/yyyy` text converts exactly when it is a calendar day within the timestamp range |
| Macro2.Process | macro_2.py:141-171 | there is no sheet exactly when no line was read as a movement or a row's date does not convert; otherwise the sheet is the report of the rows read |
| Macro2.BalancedSheet | macro_2.py:156-166 | when each row's balance is the older row's plus its amount, the control value is zero |
| Macro2.SheetOrder | macro_2.py:156 | the sheet lists the amounts from the oldest row to the newest |
| Macro2Lines.LaidPlaced | macro_2.py:60 | a line made of the leading words, `$ amount` and `$ balance` holds each part where it is written |
| Macro2Lines.LaidSpans | macro_2.py:95 | `findall` finds exactly the two printed amounts of such a line when its words hold no comma |
| Macro2Lines.LaidSplit | macro_2.py:80-83 | splitting such a line gives its words, the two peso signs and the two literals |
| Macro2Lines.DescriptionOf | macro_2.py:107-129 | when the text before the cut is the date, reference numbers and words, the description is the words joined by blanks |
| Macro2Lines.LaidRFind | macro_2.py:104 | the amount's text last occurs where the balance starts when the two literals are the same, and where the amount starts otherwise |
| Macro2Lines.LaidDescriptionAtBalance | macro_2.py:104-129 | cut where the balance starts, the description is the words, a peso sign and the amount's literal |
| Macro2Lines.RowFromFacts | macro_2.py:71-139 | the row of a line is its first word, its description, its amount and its balance as the reader finds them |
| Macro2Lines.RowFromFactsAsWritten | macro_2.py:95-139 | the same, with the description cut where the amount's text last occurs |
| Macro2Lines.PrintedFacts | macro_2.py:80-132 | in a printed movement line the reader finds the date, exactly the two amounts with the movement's values, and the description |
| Macro2Lines.PrintedCuts | macro_2.py:104-129 | the amount's text last occurs where the balance starts exactly when the two amounts are equal, and the description then takes the amount's text along |
| Macro2Lines.PrintedRoundTrip | macro_2.py:71-139 | a printed movement line reads back as exactly that movement: its date, description, amount and balance |
| Macro2Lines.PrintedAsWritten | macro_2.py:95-139 | read as written, a printed line whose amount and balance are equal gives the description with the amount's text appended; any other printed line reads back as its movement |
| Hipotecario.FloatUs | hipotecario.py:31 | `float()` reads the canonical US literal of any amount, commas dropped, as that amount, and with a minus in front as its opposite (`FloatUsMinus`) |
| Hipotecario.FloatUsMinus | hipotecario.py:31 | `float()` of a minus and a canonical US literal, commas dropped, is the amount's opposite |
| Hipotecario.ParsePlain | hipotecario.py:19-34 | a text that starts and ends with a digit, so has no minus and no blank at either end, reads as what `float()` gives for it |
| Hipotecario.ParseLeadingMinus | hipotecario.py:26-31 | a minus before a text that starts and ends with a digit negates what `float()` gives for the text |
| Hipotecario.ParseTrailingMinus | hipotecario.py:23-31 | a minus after a text that does not start with a blank negates what `float()` gives for the text, whatever is at its front |
| Hipotecario.ParseAmountForms | hipotecario.py:19-34 | every printed amount reads back: plain as itself, with a minus on either side as its opposite |
| Hipotecario.BothMinusesCancel | hipotecario.py:23-31 | a minus on both sides reads as the positive amount: the trailing one is taken off first and `float()` reads the leading one |
| Hipotecario.NoDigitsZero | hipotecario.py:19-34 | a text without a digit reads as zero: `float()` refuses it and the `except` branch gives zero |
| Hipotecario.NoDigitsNoFloat | hipotecario.py:30-34 | `float()` refuses a text without a digit, so it reads as zero |
| Hipotecario.UsPlainReads | hipotecario.py:31 | the canonical US literal with its commas dropped is a decimal literal of the same amount, and with a minus in front one of its opposite |
| Hipotecario.PlainForm | hipotecario.py:19-34 | a canonical US literal reads as its amount |
| Hipotecario.LeadingMinusForm | hipotecario.py:26-31 | a canonical US literal after a minus reads as the amount's opposite |
| Hipotecario.TrailingMinusForm | hipotecario.py:23-31 | a canonical US literal before a minus reads as the amount's opposite |
| Hipotecario.AmountAt | hipotecario.py:81 | a match of `-?[\d,]+\.\d{2}-?` at a position ends inside the line and covers an amount text: an optional minus, digits and commas, a point, two digits, an optional minus |
| Hipotecario.AmountMatchesWhole | hipotecario.py:81 | a printed amount, plain or with a minus on either side, is matched whole |
| Hipotecario.AmountSpans | hipotecario.py:81 | every span found from a position starts at or after it, lies inside the line and is the pattern's match at its start |
| Hipotecario.LineAmounts | hipotecario.py:81 | every amount `findall` returns has the amount shape |
| Hipotecario.FirstSummary | hipotecario.py:76-86 | the line found is at or after the position, is not the header and holds at least five amounts, and no line between is such a line; when none is found, no line from the position is one |
| Hipotecario.SummaryAmounts | hipotecario.py:75-86 | the summary amounts, when found, are at least five |
| Hipotecario.FindSummary | hipotecario.py:75-86 | the loop over the lines returns what `SummaryAmounts` specifies: the amounts of the first summary line, or none |
| Hipotecario.FirstSummaryIs | hipotecario.py:76-86 | a summary line with none before it is the one found |
| Hipotecario.SummaryDecides | hipotecario.py:76-86 | when line `k` is a summary line and none before it is, the summary amounts are the amounts of line `k`, whatever the later lines hold |
| Hipotecario.PesoAmountAt | hipotecario.py:93 | `\$\s+` and an amount at a position: the amount starts after the sign and at least one blank, ends inside the text and has the amount shape |
| Hipotecario.RunAt | hipotecario.py:93 | a run of `n` peso amounts gives `n` amounts in order, each of the amount shape |
| Hipotecario.FiveFrom | hipotecario.py:93 | the fallback search's first and last captured spans lie inside the text and have the amount shape |
| Hipotecario.FallbackTexts | hipotecario.py:92-96 | the fallback's two captured texts have the amount shape |
| Hipotecario.TextsOfSummary | hipotecario.py:88-90 | with summary amounts found, the texts read are their first and their last, whatever the fallback would give |
| Hipotecario.NoSummaryZero | hipotecario.py:51-52 | without a summary line and without five peso amounts in a row, both balances stay zero |
| Hipotecario.NoRunNoFive | hipotecario.py:93 | a text with no run of five peso amounts at any position gives no fallback match from any position |
| Hipotecario.ReadBalanceTexts | hipotecario.py:75-96 | computes `BalanceTexts`: the summary's first and last amount, or else the fallback's (`TextsOfSummary`, `NoSummaryZero`) |
| Hipotecario.ReadBalances | hipotecario.py:48-96 | computes `BalancesOf`: those texts read as amounts, or zero when none was found |
| Hipotecario.CreditByKeyword | hipotecario.py:101-135 | a description is a credit exactly when its upper-cased form holds a credit keyword; the cheque rule adds nothing, since `ACREDITACION` holds `ACRED` |
| Hipotecario.CreditIgnoresCase | hipotecario.py:126 | the polarity does not depend on how the description is capitalised |
| Hipotecario.Between | hipotecario.py:123 | for two words or more, the words after the first and before the last; none for fewer than two words |
| Hipotecario.FirstWordDate | hipotecario.py:107-115 | a line that starts with a date splits into words, the first of which starts with it |
| Hipotecario.LineMovement | hipotecario.py:104-143 | a line gives a movement exactly when its stripped form starts with `dd/mm/yyyy` and is not a daily balance; the movement's date starts `dd/mm/yyyy` |
| Hipotecario.WordsMovement | hipotecario.py:114-116 | the movement's date is the line's first word (its amount and description: `PrintedWords`) |
| Hipotecario.LineMovementOf | hipotecario.py:105-123 | a stripped line that starts with a date and is not a daily balance has words, and its movement is the movement of those words |
| Hipotecario.PrintedParts | hipotecario.py:105-114 | words joined by blanks, the first being a date, are already stripped, start with the date and split back into the same words |
| Hipotecario.PrintedWords | hipotecario.py:114-143 | the words of a printed line (a date, the description's words, a canonical amount) make the movement with that date, the description joined by blanks, and the amount kept for a credit keyword and negated otherwise |
| Hipotecario.PrintedRoundTrip | hipotecario.py:104-143 | a printed movement line reads back as its movement: the date, the description's words joined by blanks, and the amount, positive exactly when the description holds a credit keyword |
| Hipotecario.Scan | hipotecario.py:104-143 | the loop collects, in order, the movement of every line that `LineMovement` accepts (`ScanAll`) |
| Hipotecario.MovementsPerLine | hipotecario.py:104-143 | the movements number the lines that are movements, and each movement's date starts `dd/mm/yyyy` |
| Hipotecario.Process | hipotecario.py:36-147 | there is no sheet exactly when no line is a movement; otherwise the sheet is `SheetOf`, the balances read and the movements in order |
| Hipotecario.SheetTotals | hipotecario.py:173-176 | credits are the positive amounts and debits the magnitudes of the negative ones; credits less debits is the net movement; the control `ROUND(B3+credits-debits-B4)` of line 329 is zero exactly when opening plus net movement is the closing balance |
| Icbc2.ParseShown | icbc_2.py:20-29 | `parse_importe` (`ParseImporte`) reads every amount as the statement prints it (`$ 50.000,00`, `$ -0,63`) back as that amount |
| Icbc2.DateEnd | icbc_2.py:79 | the date group matched at a position is two digits, a dash, a run of word characters and dots, a dash and four digits |
| Icbc2.CoreEnd | icbc_2.py:79 | the balance's number, as the regular-expression engine first finds it, is a text of up to three digits, thousands groups and a mark with two decimals |
| Icbc2.Tail | icbc_2.py:79 | after a description ending at a position, the amount starts at the first non-blank and the amount and balance lie in order, each a peso sign, blanks, an optional minus and a number |
| Icbc2.FirstTail | icbc_2.py:79 | the lazy description stops only where the amount and balance can follow |
| Icbc2.MatchAt | icbc_2.py:79 | a match tried at a position has a date group and two amount texts |
| Icbc2.SearchFrom | icbc_2.py:84 | the first match found from a position has a date group and two amount texts |
| Icbc2.LineRow | icbc_2.py:84-99 | a line gives a row exactly when the pattern matches it; the row's date has the date group's shape and its description is stripped |
| Icbc2.RowsOf | icbc_2.py:84-99 | a line gives one row when the pattern matches it and none otherwise |
| Icbc2.Scan | icbc_2.py:83-99 | the line loop's rows are the rows of the matched lines, in order |
| Icbc2.ScanStep | icbc_2.py:83-99 | reading one more line appends that line's row, if any |
| Icbc2.RowsPerMatch | icbc_2.py:83-99 | there is one row per matched line, and every row's date has the date group's shape |
| Icbc2.MonthNumber | icbc_2.py:137-140 | each Spanish month abbreviation maps to a two-digit month number |
| Icbc2.FormatFecha | icbc_2.py:142-159 | a date is either left as it is or rewritten as `dd/mm/yyyy` |
| Icbc2.FormatNamed | icbc_2.py:146-151 | `dd-mmm-20yy` and `dd-mmm.-20yy`, in any case, with a known month, become `dd/MM/20yy` |
| Icbc2.FormatNumeric | icbc_2.py:154-156 | `dd-mm-20yy` becomes `dd/mm/20yy` |
| Icbc2.FormatDashless | icbc_2.py:158 | a text without a dash is returned unchanged |
| Icbc2.MovementOf | icbc_2.py:161 | a row becomes a sheet movement with the same amount |
| Icbc2.Movements | icbc_2.py:161 | the rows become sheet movements one for one, in order |
| Icbc2.Process | icbc_2.py:101-127 | there is no sheet exactly when no line matches; otherwise the sheet lists the rows oldest first, opens at the oldest row's balance less its amount and closes at the newest row's balance |
| Icbc2.BalancedSheet | icbc_2.py:121-127 | when each balance is the older balance plus the amount, the control value is zero |
| Icbc2.SheetColumns | icbc_2.py:113-190 | the sheet lists the amounts oldest first; credits are the positive amounts, debits the magnitudes of the negative ones, credits less debits is the net movement, and zero amounts are in neither column |
| Nacion.Range | nacion.py:26-37 | there is no range exactly when no line holds "SALDO ANTERIOR" or no line holds "SALDO FINAL" |
| Nacion.RangeAround | nacion.py:26-37 | with the first opening line at `i >= 1` and the first closing line at `f >= i - 1`, the range runs from the line before the opening line through the closing line |
| Nacion.RangeFromFirstLine | nacion.py:37 | when the opening keyword is on the first line, `inicio - 1` is -1 and the slice counts from the end: the range has at most one line, and none unless the first closing line is the last line |
| Nacion.Polarized | nacion.py:85-95 | the recorded amount keeps the magnitude read; it is the amount as read when no balance is known or the balance did not move, and otherwise it is negative exactly when the balance went down |
| Nacion.PolarityMatchesBalance | nacion.py:85-98 | when the magnitude read is the size of the balance change, the previous balance plus the recorded amount is the new balance |
| Nacion.PartsRoundTrip | nacion.py:69-80 | the words date, description words, reference, amount and balance read back as the date, the description words joined by blanks (the reference dropped), and the signed amount and balance |
| Nacion.LineRoundTrip | nacion.py:45-80 | the same for the line printed with single blanks between those words |
| Nacion.Recorded | nacion.py:46-83 | a line yields an entry only when it holds neither "SALDO ANTERIOR" nor "FECHA MOVIMIENTOS", and the entry is the one its words give |
| Nacion.Step | nacion.py:44-98 | the opening line adds no movement and leaves the closing balance; no other line changes the opening balance; a line with no entry adds no movement; a line with an entry adds exactly one movement and its balance becomes the previous balance |
| Nacion.Scan | nacion.py:44-98 | the loop's state after the range is the fold of `Step` over its lines |
| Nacion.RunQuiet | nacion.py:44-98 | lines with neither the opening keyword nor an entry change neither the movements nor the balances |
| Nacion.RunTelescopes | nacion.py:85-98 | over lines whose amounts have the size of their balance changes, the movements added sum to the last balance minus the balance before the first line |
| Nacion.ReachOpening | nacion.py:44-54 | when nothing before the opening line is read, the scan is the rest of the range run from the state the opening line sets: both balances the opening value and no movement |
| Nacion.ScanBalances | nacion.py:44-157 | with nothing read before the opening line and consistent balances after it, the movements sum to the last balance minus the opening balance, and the control value is the last balance minus the closing balance |
| Nacion.ControlOfRun | nacion.py:154-157 | when the movements sum to the balance change since the opening, the control value is the last balance minus the closing balance |
| Nacion.SheetOf | nacion.py:100-157 | the control value is the opening balance plus the net movement minus the closing balance, a missing balance counting as zero |
| Nacion.Process | nacion.py:26-161 | no sheet without both marker lines or without movements; otherwise the sheet of the scan of the range |
| Provincia.Range | provincia.py:26-39 | there is no range exactly when no line holds "SALDO ANTERIOR" or no line holds "Todas las comisiones"; a non-empty range starts with an opening line |
| Provincia.NumberAt | provincia.py:48 | a match of `[-+]?\d+\.\d{2}` at a position is a text that `float()` reads |
| Provincia.NumberParses | provincia.py:55 | `float()` of a signed decimal-point literal with two decimals is its digits in cents, negated exactly when it starts with a minus |
| Provincia.OpeningFrom | provincia.py:53-56 | `re.search` of the opening pattern: a value found is the reading at some position from the start on, and none means no position matches |
| Provincia.TailAt | provincia.py:48 | where the pattern's tail (blanks, the `dd-dd` code, blanks and the balance) matches, the balance starts after it and reaches the end of the record |
| Provincia.FirstTail | provincia.py:48 | the lazy `(.*?)` stops at the first position where the tail matches, and fails when none does |
| Provincia.RecordOf | provincia.py:48-67 | a record read starts with a `dd/dd/dddd` date, which is its date, and its balance is where `float()` reads the number that ends it; its description is the lazy group: the text from the end of the blanks after the date up to the first place where the code-and-balance tail matches, or empty when the tail matches only by giving back a blank after the date (the step then strips it) |
| Provincia.Close | provincia.py:61-74 | reading the pending record leaves the opening balance and the pending text, and changes nothing unless a previous balance is known and the record matches |
| Provincia.Step | provincia.py:51-77 | a line without "SALDO ANTERIOR" leaves the opening balance |
| Provincia.Scan | provincia.py:51-77 | the loop's state after the range is the fold of `Step` over its lines |
| Provincia.Finish | provincia.py:79-90 | after the loop, a closing balance is found only from the last record, and it is then the previous balance |
| Provincia.CloseBalanced | provincia.py:64-70 | reading a record keeps the movements summing to the previous balance minus the opening balance, since each amount is the balance change |
| Provincia.StepBalanced | provincia.py:51-77 | every line keeps that balance, provided an opening line comes before any movement |
| Provincia.RunBalanced | provincia.py:51-77 | lines none of which holds "SALDO ANTERIOR" keep that balance |
| Provincia.ScanBalanced | provincia.py:39-77 | over a range whose only opening line is its first, the loop keeps that balance |
| Provincia.FinishBalanced | provincia.py:79-146 | after a balanced loop, whenever the last record gives a closing balance, the movements sum to the closing balance minus the opening balance and the control value is zero |
| Provincia.SheetOf | provincia.py:92-146 | the control value is the opening balance plus the net movement minus the closing balance, a missing balance counting as zero |
| Provincia.Process | provincia.py:26-151 | no sheet without both marker lines or without movements; otherwise the sheet of the finished scan of the range |
| Galicia.Clean | galicia.py:23 | the stripped, non-blank lines: no more lines than before, none of them empty |
| Galicia.DollarLiteral | galicia.py:34-59 | a `$` amount reads, `$` dropped, sign taken and thousands dots removed, as its Argentine literal's value, and as its opposite after a minus |
| Galicia.DollarSigns | galicia.py:43-49 | dropping the `$` and stripping a `$` amount leaves its literal, with the minus in front when it had one |
| Galicia.DollarReadLiteral | galicia.py:46-59 | the sign test and `lstrip("-")` read a literal as its value and a minus and a literal as its opposite |
| Galicia.BalanceStep | galicia.py:31-85 | a line with neither "Saldos" nor the `$a-$b-Saldos` layout leaves the balances as they are |
| Galicia.ReadBalances | galicia.py:31-85 | the balance loop gives the fold of `BalanceStep` over every line, starting from zero balances and stopping at a number that does not read |
| Galicia.NoBalanceLines | galicia.py:26-31 | lines that set no balance leave the balances at their defaults |
| Galicia.Range | galicia.py:88-100 | there is no range exactly when no line holds "Movimientos" or no line holds "Total" |
| Galicia.JoinRecords | galicia.py:103-115 | the joining loop gives the records of the fold of `JoinStep`, the last one pushed when not empty |
| Galicia.RecordsDated | galicia.py:105-115 | every record after the first starts with a `dd/dd/dd` date |
| Galicia.SaldoMatchReads | galicia.py:120-136 | every match of the balance pattern reads as a number, its minuses dropped and its sign taken from them |
| Galicia.SaldoReads | galicia.py:132-136 | a literal with a minus before it, after it or both reads as a number |
| Galicia.MinusesDropped | galicia.py:133 | dropping the minuses around such a literal leaves the literal |
| Galicia.Saldos | galicia.py:120 | every balance-like amount of a record reads as a number, so taking the last never fails |
| Galicia.PointNumberFrom | galicia.py:126 | `re.split(r"\d+\.\d+", ..., maxsplit=1)[0]` ends at the first point number at or after the start, or at the end of the text |
| Galicia.EntryOf | galicia.py:118-143 | a record yields a row exactly when it holds a balance-like amount; the balance is the reading of the last one, negative when it holds a minus; the date is the record's first eight characters when it is dated and empty otherwise; the description is the text after the date up to the first point number, with the numbers and every dash removed |
| Galicia.ReadEntries | galicia.py:118-150 | the first half of the movement loop gives the row of every record that holds an amount, in order |
| Galicia.EntriesSnoc | galicia.py:118-150 | one more record adds its row exactly when it holds an amount |
| Galicia.SheetOf | galicia.py:153-208 | the control value is the account balance plus the net movement minus the final balance |
| Galicia.SheetControl | galicia.py:130-208 | when the account balance is the running start, as the first layout sets them, the control value is the last record's balance minus the final balance |
| Galicia.Process | galicia.py:12-216 | a sheet exactly when the balances read, both section lines exist and some record holds an amount; it is then the sheet of the balance differences of the records after the header |
| Supervielle.AccountMatchAt | supervielle.py:34 | a match of `NUMERO DE CUENTA\s+(\d{2}-\d{8}/\d)` ends with an account number of the `dd-dddddddd/d` shape |
| Supervielle.AccountNumber | supervielle.py:34-37 | the captured number is 13 characters of the `dd-dddddddd/d` shape |
| Supervielle.TrailingAmount | supervielle.py:43 | the match of `([\d\.]+,\d{2})$` is a suffix of the line of at least four characters |
| Supervielle.TrailingReads | supervielle.py:43-46 | whatever that pattern captures reads as a non-negative number, so `float()` cannot fail there |
| Supervielle.FindAccount | supervielle.py:47-55 | `next(...)` finds the first account with the number, or reports that none has it |
| Supervielle.Capture | supervielle.py:27-30 | while capturing, a line that starts with a date once stripped is appended, stripped, to the kept lines; otherwise the kept lines are unchanged; the accounts, the capture flag and the current number never change |
| Supervielle.OpenAccount | supervielle.py:32-40 | the account line turns capturing on; when it holds a number, an account with that number and nothing else is appended after the existing ones, which are unchanged, and the number becomes current; without a number the accounts and the current number stay |
| Supervielle.SetOpening | supervielle.py:42-56 | the value read becomes the opening balance of the first account whose number is the current one, and nothing else changes; with no such account nothing changes at all |
| Supervielle.CloseAccount | supervielle.py:58-85 | capturing stops; when the current account exists it takes the kept lines, which are then cleared, and the line's trailing amount, when there is one, becomes its closing balance; no other account changes; otherwise nothing else changes |
| Supervielle.StepNumbers | supervielle.py:26-85 | one pass adds an account exactly for an account line with a number and never changes the numbers already there |
| Supervielle.Scan | supervielle.py:26-85 | the loop's state is the fold of `Step` over the lines |
| Supervielle.RunDated | supervielle.py:27-30 | every line an account receives starts with a `dd/dd/dd` date |
| Supervielle.RunKeepsNumbers | supervielle.py:32-40 | accounts are only ever added, so the numbers found keep their order |
| Supervielle.RowOf | supervielle.py:91-107 | a row is read exactly when the stripped text from column 85 on reads as a balance, negative when it holds a minus; its date is columns 0-7 and its description columns 9-39, stripped |
| Supervielle.RowsRead | supervielle.py:89-118 | the rows are there exactly when every kept line's balance reads; there is then one per line, in order |
| Supervielle.ReadRows | supervielle.py:89-118 | the movement loop gives the rows of `RowsOf` |
| Supervielle.PageOf | supervielle.py:134-150 | an account without kept lines gets the "No tiene movimientos" sheet |
| Supervielle.ListingControl | supervielle.py:109-219 | the amounts are balance differences from the opening balance, so the control value is the last printed balance minus the closing balance |
| Supervielle.PageListing | supervielle.py:148-151 | an account with kept lines past the first, all of which read, gets the listing of those lines' rows, the first one dropped |
| Supervielle.PagesRead | supervielle.py:133-151 | the workbook is there exactly when every account's sheet is, with one sheet per account in the order the accounts were found |
| Supervielle.Process | supervielle.py:123-151 | no workbook without accounts; otherwise the sheets of the accounts of the scan |
| Supervielle.PageFor | supervielle.py:134-151 | the workbook loop's body gives the account's sheet as `PageOf` defines it |
| Icbc.ClosingAt | icbc.py:30 | `(\d{1,3}(?:\.\d{3})*,\d{2})\s*$` matches at a position exactly as a literal there followed only by whitespace, and the match runs to the end of the line |
| Icbc.ClosingLiteral | icbc.py:30-32 | `re.search` finds a literal exactly when the pattern matches at some position, and what it finds is an Argentine literal |
| Icbc.SignedAt | icbc.py:55-57 | a match of `(\d{1,3}(?:\.\d{3})*,\d{2}-?)` is a literal, with the minus right after it when there is one |
| Icbc.SignedLiteral | icbc.py:55-59 | `re.search` finds an amount exactly when a literal starts somewhere, and what it finds is a literal, perhaps with a trailing minus |
| Icbc.SignedLiteralValue | icbc.py:63-67 | the amount matched reads as the literal's value, negated exactly when a minus trails it |
| Icbc.AmountFound | icbc.py:55-70 | a region holds an amount exactly when it holds an Argentine literal; the amount then always reads |
| Icbc.Apply | icbc.py:27-40 | a balance a line sets replaces the value before it, and a balance it does not set is kept |
| Icbc.ScanBalances | icbc.py:27-40 | the balance loop gives the fold of what each line sets over all lines, from zero balances |
| Icbc.LastClosingWins | icbc.py:28-34 | the last line with "SALDO FINAL AL" and an amount ending it decides the closing balance |
| Icbc.LastOpeningWins | icbc.py:35-40 | the last line with "SALDO ULTIMO EXTRACTO AL", no closing key and an amount decides the opening balance |
| Icbc.NoBalanceLines | icbc.py:23-24 | without a line that sets one, both balances stay zero |
| Icbc.DatedLines | icbc.py:43-45 | the lines kept are exactly those that start with `d{1,2}-dd` |
| Icbc.KeepDated | icbc.py:43-45 | the comprehension gives the dated lines in order |
| Icbc.EntryOf | icbc.py:49-70 | a dated line's date is columns 0-4, its description columns 6-49, and its amount the signed literal found from column 62 on, or none |
| Icbc.ReadEntries | icbc.py:48-72 | the movement loop gives exactly one movement per dated line, in order |
| Icbc.SheetOf | icbc.py:83-142 | the control value is the opening balance plus the amounts found minus the closing balance; a line without an amount counts for nothing |
| Icbc.Process | icbc.py:77-146 | no sheet exactly when no line is dated; otherwise the sheet of the balances and of every dated line's movement |
| Icbc.ReadAll | icbc.py:43-72 | one movement per dated line, each being that line's reading |
| Frances.RemoveFirstPrefix | frances.py:119 | `replace(".", "", n)` with `n` the number of points of a prefix drops every point of that prefix and keeps the rest |
| Frances.ConvertValue | frances.py:115-122 | a sign, grouped digits with either mark, a mark and two decimals convert to the digits (marks dropped) times 100 plus the decimals, negated after a minus |
| Frances.AmountConverts | frances.py:115-122 | every amount text the pattern can take converts, so the conversion never fails on a match |
| Frances.AmountEnd | frances.py:73 | the amount group tried at a position, when it matches, ends before a blank |
| Frances.AmountEndText | frances.py:73 | what the amount group takes is an amount text: an optional minus, grouped digits, a mark and two decimals |
| Frances.DescriptionEnd | frances.py:73 | the greedy description gives back characters until a blank and an amount follow: the end found is the last such position, and none means no position works |
| Frances.MatchLine | frances.py:73-113 | a match opens with the `dd/dd` date and a blank, and the date group is the first five characters |
| Frances.MatchGroups | frances.py:73 | the description group is the longest run of class characters after the date that a blank and an amount follow |
| Frances.MatchAmount | frances.py:73 | the amount group of a match is an amount text |
| Frances.MatchedMoves | frances.py:111-123 | every line the pattern matches gives a movement with the line's date and the stripped description group |
| Frances.Cut | frances.py:104-109 | a line without "SIRCREB" is kept; a SIRCREB line with "F:" loses the ten characters from the first "F:", and one without it makes the parse fail |
| Frances.Section | frances.py:21-35 | the section exists exactly when both marker lines exist, and is the lines strictly between the first start line and the first end line |
| Frances.PyPrefix | frances.py:46-48 | `movimiento[:corte]` with Python's slice rules: the first `n` characters, or all but the last `-n` for a negative `n` |
| Frances.BlockAt | frances.py:44-59 | a block starts at a line exactly when it is a `CA`/`CC` account line and a "TOTAL MOVIMIENTOS" line follows, the first of which ends the block |
| Frances.Blocks | frances.py:44-59 | the blocks found are exactly the lines where a block starts, in order |
| Frances.FindEnd | frances.py:55-59 | the inner loop finds the first "TOTAL MOVIMIENTOS" line from the account line on |
| Frances.FindBlocks | frances.py:44-59 | the outer loop gives every block of the section, in order |
| Frances.FoldReads | frances.py:78-123 | a block reads exactly when no line fails the cut, and its movements are then those of its matched lines, in order |
| Frances.LastOpening | frances.py:80-89 | the last "SALDO ANTERIOR" line with an amount decides the opening balance |
| Frances.LastClosing | frances.py:92-101 | the last "SALDO AL" line with an amount decides the closing balance |
| Frances.ReadAccount | frances.py:74-123 | the block loop gives the account of the fold of its lines' facts |
| Frances.PageOf | frances.py:126-191 | a block without movements gets the "No tiene movimientos" sheet; otherwise the control value is the opening balance plus the net movement minus the closing balance |
| Frances.PageNameRefused | frances.py:135-137 | replacing only `/`, the sheet name is refused by the spreadsheet writer exactly when the account's name is empty or holds one of `\ * ? : [ ]` |
| Frances.PageFor | frances.py:126-191 | a block gives no sheet exactly when its lines fail or the writer refuses its sheet name; otherwise it gives the block's sheet |
| Frances.PagesPerBlock | frances.py:61-199 | the workbook holds one sheet per account block, in order, exactly when there is a block, no block's lines fail and the writer accepts every block's sheet name; a refused name makes the outer `except` return nothing |
| Frances.ReadSection | frances.py:61-199 | the workbook loop gives the sheets of the section's blocks, stopping with nothing at a block that fails or whose sheet name the writer refuses |
| Frances.Process | frances.py:12-199 | the parser gives the sheets of the blocks of the section, or nothing when a marker line is missing, a block fails or a sheet name is refused |
| Frances.FindFirst | frances.py:21-27 | `next(...)` finds the first line holding the key |
| Macro.FirstTail | macro.py:20-21 | the lazy `(.*?)` stops at the first position from which the rest matches, and fails when none does |
| Macro.AmountStart | macro.py:20-21 | the amount group starts at the first position from which the rest of the line is a signed Argentine literal |
| Macro.SplitLine | macro.py:19-27 | a line without a trailing amount gives its stripped text and no amount |
| Macro.SplitValue | macro.py:22-25 | with a trailing amount, the description is the stripped text before it, and the amount reads in cents with a minus for a negative value |
| Macro.SignedArValue | macro.py:24-25 | a signed literal always reads, non-negative without a minus and the opposite of the literal after one |
| Macro.SplitTail | macro.py:19-25 | a stripped description, a blank and a signed literal split back into that description and the literal's value |
| Macro.SplitRoundTrip | macro.py:19-25 | a stripped description, a blank and an amount printed as an Argentine literal split back into that description and that amount |
| Macro.PrintedIsAmount | macro.py:20-25 | an amount printed as an Argentine literal, after a minus when negative, is a signed literal and reads back as that amount |
| Macro.Cut | macro.py:36-40 | the text is cut before the first line holding "Transferencias entre Cuentas", and kept whole without one |
| Macro.Body | macro.py:42 | after the cut, the first 20 lines are skipped |
| Macro.BodyLines | macro.py:36-42 | every body line is the original line 20 places further on, and none holds the cut key |
| Macro.CutText | macro.py:37-40 | the cutting loop gives the cut text |
| Macro.WordAr | macro.py:47 | a match of `\b(\d{1,3}(?:\.\d{3})*,\d{2})\b` is an Argentine literal with no word character on either side, word characters including `² ³ ¹ ¼ ½ ¾` as in Python's `\w` |
| Macro.SuperscriptTouches | macro.py:47 | in `²1.000,00` no literal starts at the `1`, which the superscript touches; the match starts at `000,00` |
| Macro.FirstWordAr | macro.py:47-48 | `re.search` finds a literal exactly when one matches somewhere |
| Macro.BalanceOf | macro.py:47-57 | a balance line gives a value exactly when a literal is found, and that value is never negative |
| Macro.LastClosingWins | macro.py:46-51 | the last line with "Saldos Finales" and a literal decides the closing balance |
| Macro.LastOpeningWins | macro.py:52-57 | the last line with "Saldos Anteriores", no closing key and a literal decides the opening balance |
| Macro.NoBalanceLines | macro.py:16-17 | without a line that sets one, both balances stay unset |
| Macro.MovementLines | macro.py:58-59 | the lines kept are exactly those with no balance key, a `dd/dd/dddd` date and no "Saldos" |
| Macro.Scan | macro.py:44-59 | the loop gives the balances of the balance lines and the movement lines, in order |
| Macro.EntryOf | macro.py:64-69 | a line gives a movement exactly when it is not blank and holds a blank |
| Macro.EntryParts | macro.py:67-68 | the date is the text before the first blank, and the rest after it splits into the description and the amount |
| Macro.EntriesCount | macro.py:63-71 | when every line is not blank and holds a blank, every line gives a movement |
| Macro.ReadEntries | macro.py:62-71 | the movement loop gives the movements of the movement lines, in order |
| Macro.SheetOf | macro.py:77-128 | the "Movimientos" sheet's control value is the opening balance plus the amounts found minus the closing balance, an unset balance counting as zero |
| Macro.Process | macro.py:12-133 | the parser gives the sheet of the body's balances and movements, or nothing |
| Macro.ParseFindsMovements | macro.py:73-75 | there is a sheet exactly when some movement line of the body is not blank and holds a blank |
| Macro.EntriesNone | macro.py:62-75 | no movement is read exactly when every line is blank or holds no blank |
| IcbcFormato3.ImporteOfLiteral | icbc_formato_3.py:19-24 | `parse_importe` reads an Argentine literal as its integer digits (dots dropped) times 100 plus its two decimals, never as the 0 fallback |
| IcbcFormato3.LiteralReads | icbc_formato_3.py:19-24 | an Argentine literal reads as a non-negative number, and `parse_importe` gives that number |
| IcbcFormato3.ImporteRoundTrip | icbc_formato_3.py:19-24 | `parse_importe` of the canonical Argentine literal of an amount gives the amount back |
| IcbcFormato3.HolderOf | icbc_formato_3.py:45-46 | a line gives a holder exactly when it is not blank and lacks the spaced-out period heading; the holder is the stripped line |
| IcbcFormato3.Holder | icbc_formato_3.py:39-47 | the holder is "Sin Especificar" when none of the first five lines gives one |
| IcbcFormato3.HolderIsFirst | icbc_formato_3.py:44-47 | otherwise it is the first of the first five lines that gives one |
| IcbcFormato3.FindHolder | icbc_formato_3.py:44-47 | the holder loop gives `Holder` |
| IcbcFormato3.Dates | icbc_formato_3.py:55 | every date `findall` finds is ten characters of the `dd/dd/dddd` shape |
| IcbcFormato3.YearOfDate | icbc_formato_3.py:58 | the last part after `/` of such a date is its four-digit year |
| IcbcFormato3.PeriodOf | icbc_formato_3.py:51-59 | a line gives a period only when, blanks removed, it mentions "PERIODO" and holds two dates; the year then has four digits |
| IcbcFormato3.StatementPeriod | icbc_formato_3.py:40-59 | the period is "Sin Especificar" and the year 2024 when none of the first twenty lines gives one |
| IcbcFormato3.PeriodIsFirst | icbc_formato_3.py:51-59 | otherwise the period and year come from the first of the first twenty lines that gives them |
| IcbcFormato3.PeriodYear | icbc_formato_3.py:41-58 | the year in every full date has four digits |
| IcbcFormato3.FindPeriod | icbc_formato_3.py:51-59 | the period loop gives `StatementPeriod` |
| IcbcFormato3.LineMatch | icbc_formato_3.py:63-76 | `^(\d{2}-\d{2})\s+(.*)$` matches exactly a line opening with `dd-dd` and a blank; the first group is the first five characters and the rest is a suffix that does not start with a blank |
| IcbcFormato3.ArAmounts | icbc_formato_3.py:64-79 | every amount `findall` finds in the rest is an Argentine literal |
| IcbcFormato3.RowFrom | icbc_formato_3.py:79-110 | a row exactly when the rest holds an amount; its amount is the last one's non-negative value and its date is the day and month with `/` and the year |
| IcbcFormato3.RowOf | icbc_formato_3.py:68-110 | every movement amount is non-negative |
| IcbcFormato3.RowSkipped | icbc_formato_3.py:68-81 | a line is skipped exactly when it is a header, the line pattern does not match, or its rest holds no amount |
| IcbcFormato3.RowRoundTrip | icbc_formato_3.py:68-110 | a printed line `dd-mm description amount` reads back as the date `dd/mm/year`, the description and the amount, unless it is a header |
| IcbcFormato3.RestAmounts | icbc_formato_3.py:79-89 | a description without commas followed by an amount holds exactly that amount |
| IcbcFormato3.RestRemoved | icbc_formato_3.py:101 | removing every occurrence of the amount from such a rest and stripping leaves the description |
| IcbcFormato3.ReadRows | icbc_formato_3.py:66-110 | the movement loop gives the rows of the lines that read, in order |
| IcbcFormato3.RowsEmpty | icbc_formato_3.py:112-114 | there are no rows exactly when no line reads as a movement |
| IcbcFormato3.RowsNonNegative | icbc_formato_3.py:89-109 | every row's amount is non-negative |
| IcbcFormato3.TotalsPartition | icbc_formato_3.py:172-188 | each row goes to exactly one column, so the debit and credit totals add up to the sum of the amounts |
| IcbcFormato3.TotalsNonNegative | icbc_formato_3.py:169-188 | with non-negative amounts both totals are non-negative |
| IcbcFormato3.Totals | icbc_formato_3.py:169-188 | the totals loop gives the debits of the rows without a credit keyword and the credits of the rows with one |
| IcbcFormato3.Parse | icbc_formato_3.py:26-208 | no report exactly when no line reads as a movement; otherwise the two totals are non-negative and add up to the sum of the amounts |
| IcbcFormato3.Process | icbc_formato_3.py:26-218 | the parser gives the report of `Parse`: holder, period, rows and totals |
| IcbcFormato3.HolderCandidates | icbc_formato_3.py:44 | one candidate per line among the first five, each the holder that line gives |
| IcbcFormato3.PeriodCandidates | icbc_formato_3.py:51 | one candidate per line among the first twenty, each the period that line gives |
| Hsbc.ReplacedUpTo | hsbc.py:16-17 | each `replace` keeps the name's length |
| Hsbc.SheetNameOf | hsbc.py:11-23 | a cleaned sheet name has at most 31 characters, and exactly 31 when the name is longer |
| Hsbc.SheetNameChars | hsbc.py:11-23 | the cleaned name holds no illegal character, and each character is the name's own or `_` in place of an illegal one |
| Hsbc.SheetNameIdempotent | hsbc.py:11-23 | cleaning a cleaned name changes nothing |
| Hsbc.SheetNameKeepsValid | hsbc.py:11-23 | a name of at most 31 characters without an illegal one is kept as it is |
| Hsbc.CleanSheetName | hsbc.py:11-23 | the replace loop and the cut give `SheetNameOf` |
| Hsbc.ScanTokens | hsbc.py:78-103 | the loop over the words gives the scan of all the words |
| Hsbc.ScanUnchanged | hsbc.py:85-103 | words that start no account type leave the type and the currency as they were |
| Hsbc.LastTypeDecides | hsbc.py:85-103 | the last account type among the words decides the type, and the word after it the currency |
| Hsbc.NoTypeNoScan | hsbc.py:80-103 | without an account type among the words, the type and the currency stay empty |
| Hsbc.DollarIgnoresCase | hsbc.py:127-132 | the dollar test does not depend on letter case |
| Hsbc.CurrencyMark | hsbc.py:127-135 | the mark is `U$D` exactly for a dollar currency |
| Hsbc.SheetName | hsbc.py:124-135 | the sheet name is empty exactly when no type was found; otherwise it starts with `CC` for a checking and `CA` for a savings account and ends with a blank and the number |
| Hsbc.NumberMatch | hsbc.py:106 | a match of the account-number pattern ends after its start and inside the line |
| Hsbc.AccountNumber | hsbc.py:105-108 | a number exactly when the line holds the pattern `ddd-d-ddddd-d`; it is thirteen characters of the line at such a place |
| Hsbc.UsAmounts | hsbc.py:111 | every amount `findall` finds is a US literal |
| Hsbc.LastTwo | hsbc.py:111-114 | the last two amounts exist exactly when the line holds two or more |
| Hsbc.ExtendsTransitive | hsbc.py:149-194 | adding accounts after accounts keeps the earlier ones |
| Hsbc.AccountStep | hsbc.py:61-150 | an account line adds exactly one account after the ones found so far |
| Hsbc.AccountLineAdds | hsbc.py:61-150 | the account added holds the line's number, its sheet name and the line's last and last-but-one amounts as opening and closing, or the ones an earlier account line left |
| Hsbc.CarriedStep | hsbc.py:152-161 | a "SALDO ANTERIOR" checking line touches neither the accounts nor the account-line balances |
| Hsbc.NumberRunEnd | hsbc.py:174 | the run of digits and dashes ends at the first other character or at the end of the line |
| Hsbc.NroAt | hsbc.py:174 | a match of `NRO\.\s+` is followed by a digit or a dash |
| Hsbc.NroMatch | hsbc.py:174 | a match of `NRO\.\s+([\d-]+)` ends after its start and inside the line |
| Hsbc.NroNumber | hsbc.py:174-176 | a number exactly when the line holds `NRO.`, blanks and a digit or a dash; the number is non-empty and made of digits and dashes |
| Hsbc.NroStep | hsbc.py:169-195 | a "CUENTA CORRIENTE EN" line with a number adds exactly one account after the others, and any other line adds none |
| Hsbc.Step | hsbc.py:53-205 | one line keeps the accounts found so far and only adds after them |
| Hsbc.OtherLineAddsNothing | hsbc.py:53-205 | a line that is neither an account line nor a "CUENTA CORRIENTE EN" line adds no account |
| Hsbc.AccountBlock | hsbc.py:61-150 | the first block gives `AccountStep` on an account line and leaves the state alone on any other |
| Hsbc.CarriedBlock | hsbc.py:152-167 | the second block gives `CarriedStep` |
| Hsbc.NroBlock | hsbc.py:169-195 | the third block gives `NroStep` |
| Hsbc.ReadAccounts | hsbc.py:47-205 | the loop over the lines gives the accounts of `Run` |
| Hsbc.SheetOf | hsbc.py:218-238 | every sheet's name has at most 31 characters |
| Hsbc.Workbook | hsbc.py:207-254 | no workbook exactly when no account was found or some account line named no account type, whose empty sheet title the writer refuses; otherwise one sheet per account, in order, none with an empty name |
| Hsbc.WriteSheets | hsbc.py:207-251 | the writing loop gives `Workbook`, stopping with nothing at an empty sheet name |
| Hsbc.Process | hsbc.py:26-254 | the parser gives the workbook of the accounts the line loop finds, and nothing when one of them has no sheet name |
| Optional.FirstSome | icbc_formato_3.py:44-47 | a `for ... break` search finds nothing exactly when no candidate has a value, and what it finds is one of the candidates |
| Optional.FirstSomeAt | icbc_formato_3.py:44-47 | the search settles on the first candidate that has a value |
| Optional.Values | icbc_formato_3.py:68-110 | the lines that read give at most one value each |
| Optional.ValuesEmpty | icbc_formato_3.py:112-114 | no value is kept exactly when no entry has one |
| Optional.ValuesFrom | icbc_formato_3.py:106-110 | every value kept is the value of some entry |
| Optional.CollectSnoc | frances.py:61-191 | one more entry adds its value after the others, or makes the whole list fail |
| Optional.CollectAll | frances.py:61-191 | the list holds each entry's value, in order, exactly when no entry is missing |
| Optional.FirstHitIs | credicoop_2.py:72 | the lazy search settles on the first position that hits |
| Lines.FirstIn | frances.py:21-28 | `next(i for i, l in enumerate(lines) if key in l)`: the first line in the range with a key, none before it, and none at all when nothing is found |
| Lines.FirstInExtends | frances.py:21-28 | searching further finds the same first line once one was found |
| Lines.FirstInAt | frances.py:21-28 | a line with a key and none before it in the range is the one found |
| Lines.Sub | frances.py:35 | Python's `lines[a:b]`: the lines from `a` up to `b`, and none when `a` lies past `b` |
| Ledger.SumAppend | icbc_formato_3.py:169-188 | the total of two listings one after the other is the sum of their totals |
| Ledger.SumAmountsSnoc | icbc_formato_3.py:184-188 | one more movement adds its amount to the total |
| Ledger.FromBalancesControl | galicia.py:130-139 | with amounts taken as balance differences, the control value is the last balance minus the closing balance |
| Ledger.NewestFirstBalanced | icbc_2.py:113-127 | a newest-first listing whose balances chain, reversed, with the opening inferred from the oldest row and the closing from the newest, has a zero control value |

## Left out

- Text extraction from the PDF, the Streamlit messages and the spreadsheet styling are not modelled. The model starts from the extracted lines and ends with the sheet values.
- Amounts are integer cents. A literal with more than two decimals reads as no value. The exponent, underscore and surrounding-whitespace forms `float()` also accepts are not modelled, nor are its special values `inf`, `infinity` and `nan`, in any case and with or without a sign. Such a word reads here as no value, or as zero where the source falls back to zero. For example, the Nacion line `01/02/2024 PAGO 123 inf 1.000,00` gives no entry in `Nacion.EntryOfParts`, while nacion.py:75-97 records an infinite amount; Hipotecario reads a last word `INF` as zero where the source reads infinity.
- Only the specific regular expressions each parser uses are modelled, each as a recogniser. `\d` and `\s` are ASCII digits and Python's whitespace set; `upper()` covers ASCII and Latin-1 letters only.
- The broad `try/except` around each parser is modelled only where a parse can fail inside the scan; the failure then makes the result `None`.
- The statement holder name and period (comafi.py:154-170) are display metadata. They are not modelled.
- `clean_for_excel` is modelled on the descriptions of the movements and rows that Credicoop2, Hipotecario, Icbc2, Macro2 and Santander build, on the dates of `Icbc2.MovementOf`, and on the sheet names of Comafi and GaliciaMas. The cleaned descriptions and dates stop at those movements and rows: `Ledger.ListingSheet` keeps only the amounts, so no sheet holds them. The other parsers apply it to dates matched as digits and separators, which it leaves unchanged, so it is not applied there. It is not modelled on the holder, account and period texts of the title cells (for example hipotecario.py:181-214), which are display output.
- Comafi.MakeSheet: the sheet holds the amounts of the credit and debit columns only; the dates and the descriptions written beside them, passed through `clean_for_excel` at comafi.py:548 and 592, are not modelled.
- GaliciaMas.MakeSheet: the sheet holds the amounts of the credit and debit columns only; the dates and the descriptions written beside them, passed through `clean_for_excel` at galicia_mas.py:447 and 488, are not modelled.
- Macro3.MakeSheet: the sheet holds the amounts of the credit and debit columns only; the dates and the descriptions written beside them, passed through `clean_for_excel` at macro_3.py:220-261, are not modelled.
- Comafi.Scan: follows the corrected section-end list of the Findings row, with the deposit heading upper-cased; the list as written is `SectionEndsAsWritten`, and `DepositLineKeepsListing` states what it does instead.
- Comafi.Process: builds on `Scan`, so it follows the same corrected section-end list.
- Comafi.Scan: each line's closing-balance reading, noise test and date match are computed once per line (`KindOf`) rather than at the point of the loop where the source tests them; each depends on the line alone, so the result is the same.
- GaliciaMas: `.` in the transaction pattern is taken as any character, since extracted lines hold no line break.
- GaliciaMas: the one-peso tolerance of the balance comparison is 100 cents; the floating-point rounding of the differences is not modelled.
- GaliciaMas: the statement holder (galicia_mas.py:70-83), the period text shown on the sheets and the debug listing are display output and are not modelled.
- GaliciaMas.ProductName: states only that the name is stripped; the dropped currency word is captured by `WithoutCurrencyWord`, whose result has no separate contract.
- GaliciaMas.MovementIn: the guarded `float()` conversions cannot fail on matched amounts (`MontoParses`), so the `continue` on failure is never taken and is not modelled.
- app.py (the bank-name dispatcher), credicoop.py (which only shows the text) and repro_regex.py (a scratch script) are not part of this model.
- Mercadopago: the period text (mercadopago.py:66-71) is display output and is not modelled.
- Mercadopago: `float()` of a literal with more than two decimals is not in cents, so such an amount reads as zero here.
- Mercadopago.MergeLines: receives the rows of the stripped lines, with their page-header and date tests computed once before the scan, rather than stripping and testing each line as it looks at it.
- Mercadopago.MovementOf: reads the amounts counted after the leading date, the corrected reading under Findings, not those of the whole text as written.
- Mercadopago.Scan: its movements come from `MovementOf`, so they follow the corrected amount reading under Findings.
- Mercadopago.Process: builds the sheet from `Scan`, so it follows the corrected amount reading under Findings.
- Mercadopago.MovementOf: the whitespace normalisation keeps a leading date in place, but this is not proved; a movement is read only when the date survives it.
- Mercadopago.FieldsOf: the `in` test before each balance search is left out, because a match implies it (`ValueIn`).
- Macro3: the holder and period (macro_3.py:317-330) appear only in the sheet title; they are not modelled.
- Macro3.AccountHeader: ignoring case is modelled by upper-casing ASCII and Latin-1 letters; wider Unicode case folding is not modelled.
- Macro3.DatedAt: `(.*)` stops at a line break; the lines come from `splitlines` and hold none.
- Macro3.CutOf: the test that the date starts after column 20 is kept, though a match from column 20 always satisfies it.
- Santander: the holder and period (santander.py:33-54) appear only in the sheet title; they are not modelled.
- Santander.MovementOf: the description is cut as in the source (the `rfind` index in the currency-normalised text applied to the original record), but no property of the description is stated.
- Santander.SaldoLineRoundTrip: states the round trip for a line whose only currency sign is the printed balance; lines with several balances are covered by `LastSaldoSet` and `BalanceFromLast`.
- Credicoop2: the holder, account and period (credicoop_2.py:44-66) are display output and are not modelled.
- Credicoop2: the sheet layout, fills and fonts (credicoop_2.py:158-371) are not modelled; the sheet holds the balances, the amounts of the credit and debit columns and the control value; the dates and descriptions written beside the amounts are not modelled.
- Credicoop2.BalancedSheet: states a zero control only when the oldest row is one-sided with non-negative columns, since the opening is inferred from the raw columns while the amount uses their absolute values.
- Credicoop2.LineRoundTrip: covers lines with single blanks between parts and a description that has no blank-led digit or `-` word; other lines are covered by `MatchRow`'s contract only.
- Credicoop2.MatchRow: `.` in the pattern is taken as any character, since the lines come from `splitlines` and hold no line break.
- Macro2: the holder and account (macro_2.py:47-55) and the period (macro_2.py:168-171) are display output and are not modelled.
- Macro2: the sheet layout, fills and fonts (macro_2.py:173-373) are not modelled; the sheet holds the balances, the amounts of the credit and debit columns and the control value; the dates and descriptions written beside the amounts are not modelled.
- Macro2.ParseAmount: amounts are integer cents; `float()` is modelled only on the literals the amount pattern can match, which always end in a comma and two digits.
- Macro2.LineRow: cuts the description where the amount's match starts, the corrected reading under Findings, not at the last occurrence of the amount's text as written; `LineRowAsWritten` keeps the cut as written.
- Macro2.ReadLine: gives `LineRow`'s row, so it follows the corrected cut under Findings.
- Macro2.RowsOf: built on `LineRow`, so it follows the corrected cut under Findings.
- Macro2.ReadRows: gives `RowsOf`'s rows, so it follows the corrected cut under Findings.
- Macro2.Scan: gives the rows of `RowsOf` for every line, so it follows the corrected cut under Findings.
- Macro2.Process: builds the sheet from `Scan`, so it follows the corrected cut under Findings.
- Macro2Lines.PrintedRoundTrip: covers lines with single blanks between parts, whose description has no comma and does not start with a reference number; other lines are covered by `LineRow`'s contract only.
- Icbc2: the holder and period (icbc_2.py:44-66) and the debug output are display output and are not modelled.
- Icbc2: the sheet layout, fills and fonts (icbc_2.py:192-388) are not modelled; the sheet holds the balances, the amounts of the credit and debit columns and the control value; the dates and descriptions written beside the amounts are not modelled.
- Icbc2: amounts are integer cents; a literal with more than two decimals reads as no value, and `float()` of a malformed literal gives zero, as in `parse_importe`.
- Icbc2.DateEnd: `\w` is taken as ASCII and Latin-1 letters, digits, `_`, superscript digits and the vulgar fractions; wider Unicode word characters are not modelled.
- Icbc2.LineRow: no round trip of a printed movement line is proved; the contract states when a row is read and the shape of its fields.
- Icbc2.Process: the outer `try/except` returns no sheet on an exception; the modelled operations cannot fail, so that path is not modelled.
- Ledger.ListingSheet: a sheet holds its name, the two balances, the amounts of the credit and debit columns and the control value only. The dates and descriptions that Nacion, Provincia, Galicia, Supervielle, Icbc, Frances, Macro, Hipotecario, Santander, Mercadopago, Credicoop2, Icbc2 and Macro2 write beside the amounts (for example frances.py:153-170) are not modelled in the sheet.
- Nacion, Provincia, Galicia, Supervielle, Icbc, Frances and Macro: the sheet layout, column widths, fills, fonts and number formats are not modelled.
- IcbcFormato3 and Hsbc: the layout, column widths, fills, fonts and number formats are not modelled; the report and the sheets hold the values these parsers write.
- Nacion.Process: a description holding a control character (`\x00`-`\x08`, `\x0b`, `\x0c`, `\x0e`-`\x1f`) is refused by the spreadsheet writer, which raises, and the outer `except` returns no workbook; the model keeps no descriptions in the sheet and gives the sheet.
- Provincia.Process: the same for a description holding a control character, written without `clean_for_excel`.
- Galicia.Process: the same for a description holding a control character, written without `clean_for_excel`.
- Supervielle.Process: the same for a description holding a control character, written without `clean_for_excel`.
- Icbc.Process: the same for a description holding a control character, written without `clean_for_excel`.
- Frances.Process: the same for a description holding a control character, such as the `\x1f` that the `\s` of the movement pattern accepts.
- Macro.Process: the same for a description holding a control character, written without `clean_for_excel`.
- IcbcFormato3.Process: the same for a description holding a control character, written without `clean_for_excel` at icbc_formato_3.py:174.
- Mercadopago.Process: the same for a description holding a control character, written without `clean_for_excel` at mercadopago.py:515 and 557.
- Galicia and Supervielle: amounts are differences of balances in integer cents, so the `round(..., 2)` of galicia.py:138 and supervielle.py:113 is exact here and is not modelled separately. Provincia takes the same differences, with no rounding in the source.
- Nacion: the amount is the printed amount (the second-to-last word), only signed by whether the balance fell or rose; the source does not round it, and in cents nothing needs rounding.
- Macro2.IsRef: a reference word is tested with ASCII digits; Python's `str.isdigit()` also accepts other Unicode digits, such as superscripts, which are not modelled.
- Nacion.ScanBalances: states the amounts and the zero control only for a range whose balances are consistent with the opening balance; other ranges are covered by `Step`'s contract only.
- Provincia.FinishBalanced: states the zero control only for a state whose records chain from the opening balance (`Balanced`); other states are covered by `Finish`'s contract only.
- Frances, Supervielle and Hsbc: each account gives a sheet of its own in the list, even when two sheet names coincide; what the spreadsheet writer does with a repeated name is not modelled.
- IcbcFormato3.ParseImporte: `float()` is modelled on the plain decimal literal the comma and dot replacements leave; any other text reads as the 0 fallback.
- IcbcFormato3: the holder and period are modelled as the report carries them; `clean_for_excel` on them in the title cells is not modelled.
- Hsbc: no round trip of a printed account line is proved; `AccountLineAdds` states what an account line adds in terms of its words, number and amounts.
- Hsbc: the balances stay as the printed text, as the source writes them; they are not read as numbers.
- Hsbc: the text area, the first-ten-lines listing, the warnings for unprocessed "CORRIENTE" lines and the per-line `try/except` are display or debug output and are not modelled; no modelled step can fail.

## Findings

| source | as written | input that shows it | evidently intended | confidence | as-written member | corrected member |
|---|---|---|---|---|---|---|
| comafi.py:404 | the section-end keyword "Los depósitos en pesos" is looked up in `line.upper()`, where a lower-case letter can never occur | after an account header, its `NRO` line and `DETALLE DE MOVIMIENTOS`, and before the first movement, the line `Los depósitos en pesos están garantizados` leaves the listing open, so a following `01/02/24 PAGO 100,00 900,00` is recorded as a movement (once the account has a movement, such a line is read as a continuation whichever way the keyword is written) | the keyword upper-cased, so that heading closes the listing and the `PAGO` line is not recorded | not executed | Comafi.DepositLineKeepsListing | Comafi.DepositLineClosesListing |
| mercadopago.py:135-162 | the amount fragments are collected from the whole movement text, date included, so the date's day and month always count as amounts | a line "05-03-2024 Pago $ 1.500,00" has amounts 05, 03 and 1.500,00, and the movement takes 03 (the month); the one-amount branch at lines 214-216 can never run | the amounts counted after the date, so a single amount is the one taken | not executed | Mercadopago.MonthTakenAsAmount | Mercadopago.SingleAmountTaken |
| macro_2.py:104 | the description is cut at `line.rfind(importe_str)`, the last place where the amount's text occurs, though the comment says it looks for where the amount starts | a line `01/02/2024 123456 PAGO $ 1.000,00 $ 1.000,00` (amount equal to the balance) gives the description `PAGO $ 1.000,00` | the cut where the amount's match starts, so the description is `PAGO` | not executed | Macro2Lines.PrintedAsWritten | Macro2Lines.PrintedRoundTrip |

# A verified model of the ledger

This project models the double-entry ledger of a small accounting system and proves what it keeps
over every run: how documents in any currency become balanced journal entries, how payments and
credit notes are applied oldest first and realize exchange differences, how posting is undone
without ever touching the journal, how fiscal years are closed and reopened, what the financial
statements then satisfy, and how bank statements and orders follow along. Four self-contained
algorithms that ship with the system are verified too: the PDF writer, its line wrapping and number
printing, and the lockfile walk.

Check it with `dafny verify dfyconfig.toml` (Dafny 4.11).

## How it is built

Money is an integer count of 10^-4 units, a rate an integer count of 10^-8, a date a day number.
`tables.dfy` holds the tables; a row's number is its id, and a deleted row leaves a gap. Invoices,
bills, both credit notes and both payments share one table, because the source mirrors every
operation across the two sides; `Tables.ArSide`, `Tables.IsCharge` and `Entries.DebitsControl` say
where they differ.

Each operation is a function from the tables to new tables or an error (`ledger.dfy`,
`settlement.dfy`, `yearend.dfy`, `banking.dfy`), and `machine.dfy` runs them as transactions: success
commits, an error leaves everything as it was. The source works statement by statement on tables, so
`database.dfy` has the same operations as methods of a class whose fields are the tables, with the
source's loops, each proved to do what its function does; `Transact` commits or rolls back and is
exactly one step of the machine. `orderbook.dfy` does the same for orders.

On top of that:

- `live.dfy`, `live_runs.dfy`: every operation is a chain of three moves (nothing linked changes, a new
  entry is claimed, an entry is reversed and released), so the ever-growing journal always equals the
  entries something posted still links.
- `subledger.dfy`, `applying.dfy`, `unposting.dfy`, `topups.dfy`: applications, and what they keep.
- `control.dfy`: control accounts, whole or one party's part, against open documents, with exact
  error bounds.
- `ordering.dfy`, `calendarruns.dfy`: the order of years, periods and postings in every run.
- `swept.dfy`, `gaps.dfy`, `linked.dfy`: swept years, how a gap unsweeps one, the income of a year.
- `roundtrips.dfy`: what undoing restores.
- `statements.dfy`: balance sheet and cash flow.
- `bankruns.dfy`, `bankguard.dfy`, `bankmatching.dfy`: reconciliation, the entries it pins, and why
  greedy matching is maximum.
- `orders.dfy`, `orderbook.dfy`: fulfilment.
- `shop.dfy`: the small ledger the example runs use.
- `pdf.dfy`, `pdfstrings.dfy`, `wrapping.dfy`, `decimals.dfy`, `dependencies.dfy`: the algorithms.

## Where the code does less than it says

Each of these is proved with a run or an input that shows it and the exact condition under which the
promise holds.

- Applying again can fail. `internal/posting/apply.go` promises to allocate the remainder over the
  open documents. When another payment on the same invoice was unposted, a settler that has already
  paid into that invoice cannot have more of it: the unique constraint on the pair
  (`db/migrations/000005_sales.up.sql:215`) refuses the row and the whole application
  (`TopUps.TopUpAfterUnpost`; a run of eleven steps gets there, `TopUps.TopUpHappens`). The rows go in
  exactly when no charge that would receive money already has a row from the settler
  (`Applying.RowsSucceed`); booking the exchange differences afterwards can still refuse, for want of
  an account or an open period.
- Rolling a closed year forward looks only at the following day (`internal/posting/yearend.go:183-199`).
  With a gap between years the added year can run into a later one; once it is closed too, posting
  into the later one leaves a closed year that is no longer at zero. `Gaps.GapUnsweeps` runs it,
  whatever day the first year ends on. Years stay disjoint exactly when no year starts later inside the added
  one (`Swept.RollForwardDisjoint`). A close leaves no closed year that another starts inside of
  exactly when none starts inside the year being closed (`Swept.CloseYearClear`), and nothing dated in
  an open year can disturb a closed one exactly when every open year begins after all closed ones have
  ended (`Swept.SafeIffClear`). That closed years come before open ones, that periods stay in order and
  that every entry is dated inside a year hold in every run (`Ordering.EveryRunOrdered`); only that
  closed years stay swept, and the year's-income claims built on it, assume that nobody closes a year
  that another one starts inside of (`Swept.CleanRun`).
- Requested rows are capped one by one (`internal/orders/fulfil.go:238-246`, `:315-325`), so several
  rows for one order line can ship or receive more than was ordered: six of an order for four in
  `Orders.ShipsSixOfFour`. It cannot happen exactly when, for each line, nothing is left, or at most
  one row asks for something, or together they ask for no more than is left (`Orders.MoveKeepsCaps`).
  Over-billing is refused by a trigger.
- Opening cash plus net cash flow is closing cash for every journal exactly when the bounds are in
  order (`Statements.ArticulatesIffInOrder`); the dates are not checked.
- The base amount of a gross line is a net of rounded lines and can be negative
  (`Entries.ControlBaseCanBeNegative`); the table accepts the entry exactly when it is not
  (`Entries.DocLinesAccepted`).

The comment at `internal/posting/creditnotes.go:16-18` is out of date: applying a credit note does book
exchange differences (`:305`), as the model does.

## Assumptions

- Account types, cash flags and each party's control account are fixed during a run; only an asset can
  be cash (`Tables.ConfigOk`).
- Fiscal years are added after all existing ones and never re-dated; a period lies inside its year and
  is open only in an open year; periods may be edited within that.
- Line subtotals, taxes and movement costs are inputs. Header totals are sums over the lines, as the
  triggers keep them.
- The query that selects applications needing an FX entry has no ORDER BY; the model takes them by
  charge id. Bank statement lines are matched in the order they were added.
- Zlib is any function on byte strings; text widths are any non-negative integers per character.

## Model

| member | source | states |
|---|---|---|
| Entries.GroupByPartitions | internal/posting/posting.go:171-214 | Grouping by account with zero groups dropped keeps every account's amount and the total, has one row per account in order, and exactly the accounts whose sum is not zero |
| Entries.DocLinesBalance | internal/posting/posting.go:171-239 | The entry of any postable document of the six kinds balances exactly in transaction and in base currency, negative-net groups included |
| Entries.DocLinesOf | internal/posting/posting.go:171-239 | On every account, in both currencies, the entry moves exactly the total on the control account, on the side the kind says, and opposite to it each line's amount, tax or cash on that line's own account, converted once per group |
| Entries.ControlDrift | internal/posting/posting.go:216-231 | The gross line's base amount is within half a unit per rounded line of total x rate, and equals the total at rate 1 |
| Entries.DocLinesAccepted | internal/posting/posting.go:216-231 | The line constraints accept a document's entry if and only if the gross line's base amount is not negative |
| Entries.ControlBaseCanBeNegative | internal/posting/posting.go:222-231 | A concrete sale with discounts whose gross line would be negative in base currency |
| Entries.MirrorCancels | internal/posting/unpost.go:72-78 | A mirror entry takes back its original's net on every set of accounts, in both currencies |
| Money.Round | conformance/cases_arithmetic.go:29-37 | The nearest integer, ties away from zero |
| Money.RoundUnique | conformance/cases_arithmetic.go:29-37 | No other integer is that |
| Periods.OpenPeriod | internal/posting/posting.go:71-80 | The open period with the lowest id containing the date, or none exists |
| Periods.OpenYear | internal/posting/posting.go:98-107 | The open year containing the date that starts first, or none exists |
| Periods.PeriodForDateKeeps | internal/posting/posting.go:70-117 | Posting lands in an open period of an open year containing the date, and periods stay disjoint and inside their years |
| Periods.ClosedPeriodRefuses | internal/posting/posting.go:83-94 | A date under a closed period is refused and never given a sibling period |
| Periods.PeriodForDateSucceeds | internal/posting/posting.go:70-117 | For any calendar in order, exactly when a date can be posted to |
| Periods.OnDemandComplete | internal/posting/posting.go:62-69 | With only on-demand periods every date of an open year that no closed period covers posts |
| CalendarRuns.PostableDates | internal/posting/posting.go:62-117 | In every run without hand-made periods, while no two years share a day, a date can be posted to if and only if an open year contains it and no closed period does |
| Databases.Database.PeriodForDate | internal/posting/posting.go:70-117 | Select, insert the clipped month unless something conflicts, select again: the same period, table and error as the specification |
| Databases.Database.InsertEntry | internal/posting/posting.go:123-139 | Appends exactly this entry, or refuses with nothing appended when a line breaks a constraint |
| Databases.Database.PostDocument | internal/posting/posting.go:143-473 | Posting any of the six kinds: every guard in order, the entry, the link; returns the new entry's id |
| Databases.Database.PostMovement | internal/posting/posting.go:479-656 | Posting a stock issue or receipt |
| Linked.PostMoveOk | internal/posting/posting.go:479-631 | Posting an issue moves the absolute cost from the inventory account to cost of goods, posting a receipt from the clearing account the caller names to inventory, in base currency at rate 1 on its date, and links that entry |
| Linked.EveryRunLinked | internal/posting/posting.go:479-656 | In every reachable state a posted movement links an entry for its cost on its date, between its own accounts where the item names them, and a closed year links a closing entry on its last day at rate 1 whose lines are exactly what the income accounts held in the journal before it and their sum on an equity account |
| Databases.Database.ReverseEntry | internal/posting/unpost.go:16-80 | Refuses a second reversal and a bank-matched entry, else appends the mirror at the original's rate, date and closing flag |
| Databases.Database.ReverseEach | internal/posting/unpost.go:85-109 | Reversing a list one by one is the specified fold, first error included |
| Databases.Database.UnpostDocument | internal/posting/unpost.go:114-222 | Refusals for applied invoices, bills and credit notes; a payment takes its FX entries and applications along |
| Databases.Database.UnpostMovement | internal/posting/unpost.go:227-248 | Unposting a stock movement |
| LiveEntries.ClaimKeeps | internal/posting/posting.go:123-139 | A new balanced entry linked by one owner that linked nothing keeps journal, links and live sums in agreement |
| LiveEntries.ReleaseKeeps | internal/posting/unpost.go:16-80 | Reversing a linked entry and letting go of it keeps them in agreement |
| LiveRuns.EveryRunAgrees | internal/posting/unpost.go:11-109 | In every reachable state all entries balance, none is reversed twice, each unreversed entry has exactly one owner, and every balance - any accounts, dates, currency, closing entries in or out - is the sum over the live entries alone |
| RoundTrips.LinksDetermineBalances | internal/posting/unpost.go:11-15 | Two states of one ledger with the same links have the same balances for every question |
| RoundTrips.DocumentRoundTrip | internal/posting/unpost.go:82-222 | However often a draft is posted, applied and unposted, in any order, once it is a draft again all documents, applications and balances are what they were |
| RoundTrips.CloseReopenRestores | internal/posting/yearend.go:202-257 | Closing then reopening a year puts every balance at every date back |
| RoundTrips.CloseKeepsIncome | internal/reporting/reporting.go:69-90 | Closing a year changes no profit-and-loss figure for any dates |
| RoundTrips.ReopenKeepsIncome | internal/posting/unpost.go:58-63 | Nor does reopening it |
| Settlement.OpenCharges | internal/posting/apply.go:167-180 | Exactly the posted charges of the settler's side, party and currency with something available |
| Settlement.OpenChargesByDate | internal/posting/apply.go:175-180 | They come strictly by date, then id |
| Settlement.Greedy | internal/posting/apply.go:174-185 | The oldest-first loop computes the window-function form and what is left over |
| Settlement.AllocIsFifo | internal/posting/apply.go:174-185 | The closed form hands out min(remaining, total available), at most what each can take, and nothing to a charge while an older one is short |
| Settlement.FifoIsUnique | internal/posting/apply.go:174-185 | Any oldest-first division is the closed form |
| Settlement.FreshApps | internal/posting/apply.go:186-189 | Every row inserted is the settler's, to an open charge, positive and without an FX entry; old rows stay |
| Databases.Database.PostOneFx | internal/posting/apply.go:82-115 | One realized difference booked on the settlement date and linked |
| Databases.Database.PostSettlementFx | internal/posting/apply.go:43-117 | Candidates first, then the loop that books them; missing FX account refused |
| Databases.Database.ApplyDocument | internal/posting/apply.go:147-210 | Applying a payment or credit note: rows, then differences |
| Applying.ApplySpendsOldestFirst | internal/posting/apply.go:138-189 | The open charges gain exactly the oldest-first division of what was left; nothing else is settled, no other settler drawn on, the settler keeps the rest |
| Applying.ApplyTwiceIsOnce | internal/posting/apply.go:130-132 | A second application changes nothing at all: no row and no FX entry |
| Applying.SettlementFxBooks | internal/posting/apply.go:38-117 | Afterwards each of the settler's differences is booked and every other application is as it was |
| Applying.RowsSucceed | db/migrations/000005_sales.up.sql:215 | The rows go in exactly when no charge that would receive money already has one from this settler |
| Applying.TopUpRefused | db/migrations/000012_credit_notes.up.sql:199 | A settler with money left whose oldest open charge it has paid into is refused |
| TopUps.TopUpAfterUnpost | internal/posting/unpost.go:171-194 | After another payment on a shared charge is unposted, applying again fails though money and room are both there |
| TopUps.TopUpHappens | internal/posting/apply.go:142-189 | A run of the machine that gets to where this happens |
| Unposting.EveryRunKeepsSubledger | internal/posting/creditnotes.go:247-309 | In every reachable state applications join posted documents of one side, party and currency, nothing is over-applied, drafts carry none, entries are what posting writes, and a difference is booked exactly when there is one |
| Unposting.ApplicationsJoin | internal/posting/apply.go:160-189 | Spelled out for any application in any reachable state: both documents posted, kinds matching, same party and currency, positive, neither side over-applied |
| Unposting.DropSettlerSums | internal/posting/unpost.go:171-194 | Unposting a payment gives each charge back exactly what the payment had put on it |
| ControlAccounts.ControlReconciles | internal/posting/apply.go:38-117 | Whatever keeps the subledger's rules: the control lines of an account, or of one party on it, add up to its open documents at their own rates, within half a unit per rounding ever made |
| ControlAccounts.EveryRunReconciles | internal/posting/apply.go:38-136 | In every reachable state that is what an account, or any one party's part of it, holds once the lines that are not control lines are set aside; a whole account's part is its balance |
| ControlAccounts.ResidueBound | internal/posting/apply.go:82-136 | In every reachable state, once a party's documents, or all of an account, are exhausted against each other at any mix of rates, what is left of its control lines is at most half a unit per converted line, per payment and twice per application |
| ControlAccounts.ExactAtOne | internal/posting/posting.go:383-397 | With all of them at rate 1 the control lines hold exactly the open documents, settled or not |
| ControlAccounts.PureAccount | internal/posting/apply.go:82-136 | Both of an account's whole balance, when it carries nothing but control lines |
| Swept.SweepItemsNet | internal/posting/yearend.go:94-103 | The amounts to sweep are each income account's cumulative base balance |
| Swept.ClosingLinesOf | internal/posting/yearend.go:144-169 | The closing entry takes each swept balance away and gives the sum to retained earnings |
| Databases.Database.OpenPeriodUp | internal/posting/yearend.go:131-136 | Reopens a closed period, refused in a closed year |
| Databases.Database.PostClosingEntry | internal/posting/yearend.go:105-171 | The sweep: nothing to do, or the covering period found, made or reopened, and the entry |
| Databases.Database.CloseFiscalYear | internal/posting/yearend.go:39-200 | Closing a year: guards, sweep, periods and year closed, next year added; returns both ids |
| Databases.Database.ReopenFiscalYear | internal/posting/yearend.go:212-257 | Reopening a year: guards, year and period reopened, closing entry reversed |
| Swept.NextYearIsTwelveMonths | internal/posting/yearend.go:183-193 | A year that ends with a month is followed by exactly the next twelve months, open |
| Swept.RollForwardDisjoint | internal/posting/yearend.go:183-199 | Years stay disjoint after a close if and only if no year starts later inside the added one |
| Gaps.GapUnsweeps | internal/posting/yearend.go:183-199 | A run with a day between two years, both closes and a sale after which a closed year is no longer swept |
| Swept.CloseYearClear | internal/posting/yearend.go:56-66 | A close leaves no year starting inside a closed one if and only if none starts inside the year being closed |
| Swept.DisjointIsClear | internal/posting/yearend.go:183-199 | While no two years share a day every close is of that kind |
| Swept.SafeIffClear | internal/posting/posting.go:98-107 | Closed years stay swept whatever entry is dated in an open year if and only if every open year begins after every closed one has ended |
| Swept.CloseYearSweeps | internal/posting/yearend.go:86-171 | After a close the year's income accounts stand at zero through its end, and so do all earlier ones |
| Swept.ReopenYearKeeps | internal/posting/yearend.go:212-257 | Reopening the latest closed year leaves all others swept |
| Ordering.LedgerStepPosts | internal/posting/posting.go:70-117 | Every posting, applying and unposting adds entries dated in open years only |
| Ordering.CloseYearOrder | internal/posting/yearend.go:56-66 | A close, whatever it rolls forward to, keeps closed years before open ones, year starts distinct, periods in order and entries dated |
| Ordering.EveryRunOrdered | internal/posting/yearend.go:23-38 | In every run no open year starts before a closed one, periods never overlap, lie inside their years and are open only in open years, and every entry is dated inside some year |
| Swept.EveryRunStaysSwept | internal/posting/yearend.go:30-33 | While nobody closes a year that another one starts inside of, every closed year stays swept until it is reopened, whatever is posted, unposted, applied, closed and reopened |
| Linked.SweptAmount | internal/posting/yearend.go:91-93 | What a close sweeps from an account is exactly that year's own activity |
| Linked.CloseMovesNetIncome | internal/posting/yearend.go:16-38 | After any such run a close leaves income accounts at zero and moves exactly the year's profit-and-loss figure into retained earnings |
| Statements.RowsAddUp | internal/reporting/reporting.go:75-90 | Report rows have distinct accounts, each with its own balance, and add up to the whole |
| Statements.SheetBalances | internal/reporting/reporting.go:93-130 | Assets = liabilities + equity + current earnings for any journal of balanced entries, as of any date |
| Statements.BalanceSheetBalances | internal/reporting/reporting.go:93-130 | Assets = liabilities + equity + current earnings in every reachable state, as of any date |
| Statements.NoCashInClosing | internal/reporting/reporting.go:160-163 | Closing entries and their reversals never move cash |
| Statements.CashFlowAddsUp | internal/reporting/reporting.go:145-228 | Net income plus the non-cash rows is the change in cash, though only some queries leave closing entries out |
| Statements.CashArticulates | internal/reporting/reporting.go:214-228 | Opening plus movement is closing when from is at most a day after to, or a bound is absent |
| Statements.CashGap | internal/reporting/reporting.go:214-228 | Otherwise they differ by exactly the cash moved strictly between the bounds |
| Statements.ArticulatesIffInOrder | internal/reporting/reporting.go:150-152 | The identity holds for every balanced journal if and only if the bounds are in order |
| Banking.Nearest | internal/banking/banking.go:325-337 | The unused journal line on the account with the amount that is dated nearest, or none exists |
| Databases.Database.AutoMatch | internal/banking/banking.go:295-351 | The loop over unmatched lines, and a count that is exactly the number of matches made |
| BankMatching.AutoMatchIsMaximum | internal/banking/banking.go:289-351 | What it makes is a matching, and no matching of the statement's unmatched lines to free journal lines has more pairs |
| BankMatching.CountPerAmount | internal/banking/banking.go:319-349 | For each amount it matches min(unmatched lines, free journal lines) |
| Databases.Database.MatchLine | internal/banking/banking.go:263-277 | Matching one line by hand: an unmatched line of an open statement, to a journal line on the account with its amount that no line uses |
| Databases.Database.UnmatchLine | internal/banking/banking.go:281-288 | Releasing a match |
| Databases.Database.Reconcile | internal/banking/banking.go:356-380 | Counting unmatched rows, a lineless statement having one, and adding up, then freezing |
| BankRuns.EveryRunKeepsBank | db/migrations/000017_bank_reconciliation.up.sql:14-20 | In every reachable state matches pair equal amounts on the statement's account one to one over all statements, and reconciled statements add up |
| BankRuns.ReconciledMeansLedger | internal/banking/banking.go:353-380 | A reconciled statement's closing balance is its opening balance plus debit minus credit over the distinct journal lines it is matched to |
| BankRuns.ReconciledStays | db/migrations/000017_bank_reconciliation.up.sql:65-82 | Through any steps but its own reopening it stays exactly as it is |
| BankGuards.StepSpares | internal/posting/unpost.go:37-49 | No step reverses an entry some bank line is matched to |
| BankGuards.ReconciledEntriesStand | internal/posting/unpost.go:37-49 | The entries behind a reconciled statement that are not reversed stay so through any steps but its reopening |
| BankGuards.ReconciledEntriesCount | internal/posting/unpost.go:37-49 | And something posted links them, so every balance still counts them |
| Databases.Database.EditDocument | internal/documents/mutate.go:60-82 | Exactly an unlinked draft of the same kind is rewritten; no other row changes |
| Databases.Database.DeleteDocument | internal/documents/mutate.go:85-94 | Exactly a draft is removed; no other row changes |
| Databases.Database.Transact | internal/db/tx.go:10-24 | One transaction is one step of the machine: it commits exactly when the operation succeeds, else everything is as before |
| Databases.Database.Replay | internal/db/tx.go:10-24 | A database that has run a sequence of transactions is where the machine is |
| Orders.TakenFits | internal/orders/fulfil.go:84-88 | Capping each row on its own stays within what is left if and only if the rows fit |
| Orders.Conserved | db/migrations/000013_orders.up.sql:311-345 | On each axis a line takes part in, fulfilled plus remaining is ordered; draft and cancelled orders have nothing fulfilled |
| Orders.MoveKeepsCaps | internal/orders/fulfil.go:301-359 | Shipping or receiving keeps every line within what was ordered if and only if the requested rows fit |
| Orders.ShipsSixOfFour | internal/orders/fulfil.go:315-325 | A run and a request with the same line twice that ships six of four |
| Orders.DistinctFits | internal/orders/fulfil.go:10-16 | Requests for distinct lines, and for everything, fit |
| Orders.BillStepKeeps | db/migrations/000013_orders.up.sql:207-268 | Billing keeps every line within what was ordered, whatever was requested |
| Orders.BookStepKeeps | internal/documents/mutate.go:7-13 | Every step keeps the caps and never rewrites an order line that is drawn on |
| Orders.EveryRunConserves | internal/orders/orders.go:116-137 | Through any interleaving of steps whose requests fit, what is drawn and what is left of a line make up its quantity on each axis it takes part in |
| Orders.DistinctRunsConserve | internal/orders/fulfil.go:10-16 | So in every run whose shipments and receipts name each line at most once |
| OrderBooks.OrderBook.ConfirmOrder | internal/orders/orders.go:55-73 | Exactly a draft with lines becomes open, its lines as they were |
| OrderBooks.OrderBook.CloseOrder | internal/orders/orders.go:88-98 | Exactly an open order becomes closed, its lines as they were |
| OrderBooks.OrderBook.CancelOrder | internal/orders/orders.go:116-137 | A draft cancels freely, an open order only while nothing is drawn |
| OrderBooks.OrderBook.MoveGoods | internal/orders/fulfil.go:301-359 | One movement for each picked row, and their ids |
| OrderBooks.OrderBook.BillOrder | internal/orders/fulfil.go:54-106 | One draft document with the picked rows, refused when a line is over-billed |
| OrderBooks.OrderBook.DeleteDraft | internal/documents/mutate.go:85-94 | A draft fulfilment document goes and its quantities return |
| Pdf.Bytes | internal/pdf/pdf.go:166-210 | The writer's loops produce the specified file |
| Pdf.PageObjects | internal/pdf/pdf.go:176-190 | Read back from the page tree there are as many references as pages, as its count says; the i-th leads to page i, object 5 + 2i, and from there to its contents, 6 + 2i |
| Pdf.EntrySize | internal/pdf/pdf.go:203-206 | A table entry has 20 bytes if and only if its offset is below 10^10, and then reads back as the offset |
| Pdf.ObjectAt | internal/pdf/pdf.go:171-174 | Object k begins at its noted offset |
| Pdf.TableFindsObjects | internal/pdf/pdf.go:202-206 | Following object k's 20-byte entry leads to where object k begins, for any number of pages while the file is under 10^10 bytes |
| Pdf.StartsAtTable | internal/pdf/pdf.go:207-209 | The file ends with startxref and the place where the table begins |
| PdfStrings.EscapeString | internal/pdf/pdf.go:144-160 | The loop writes the specified literal string |
| PdfStrings.EscapeRoundTrip | internal/pdf/pdf.go:144-160 | Any bytes read back as themselves under the rules of section 7.3.4.2 of ISO 32000-1 |
| Wrapping.Wrap | internal/printing/render.go:293-312 | The loop fills each line as far as it goes |
| Wrapping.WrapIsOptimal | internal/printing/render.go:292-312 | Words stay in order, a line overflows only with a single word, and no valid wrap has fewer lines |
| Wrapping.Truncate | internal/printing/render.go:281-290 | Text that fits is unchanged; else the longest prefix whose ellipsis fits |
| Decimals.FormatAmount | internal/printing/render.go:317-337 | The loops produce sign, grouped digits and padded fraction |
| Decimals.AmountKeepsValue | internal/printing/render.go:314-337 | Without its commas an amount is the same number, with two or more decimals and no zero beyond them |
| Decimals.FromLeftIsThousands | internal/printing/render.go:328-334 | Counting from the left puts a comma before every third digit from the right |
| Decimals.QtyKeepsValue | internal/printing/render.go:339-346 | A quantity is the same number with every insignificant digit of its fraction gone |
| Dependencies.Closure | tools/dependencies.py:162-173 | The worklist ends on any graph and returns exactly what is reachable through installable packages |
| Dependencies.ClosureDistributes | tools/dependencies.py:162-173 | The closure of several root sets is the union of their closures |
| Dependencies.Split | tools/dependencies.py:244-245 | Runtime and build sets are disjoint and together are the closure of all roots |

## Left out

- HTTP, authentication, mail, migrations, configuration, the web front end and the command line: no ledger logic.
- SQL and concurrency: a transaction is one atomic step, so waiting on locks and the retry after a concurrent insert are not modelled.
- Database.PeriodForDate: the insert that another transaction wins is one of its conflicts here.
- Settlement.OpenCharges: the width of numeric(19,4) is not modelled; sums are unbounded.
- Database.PostDocument: memos, references, document numbers and due dates have no effect on the ledger and are left out.
- Database.UnpostDocument: returns the reversal's id like the source; audit columns are left out.
- BankRuns.ReconciledMeansLedger: a matched line may belong to an entry that was already reversed before it was matched, which the source allows.
- Bank statement CSV import and line numbers: lines are added one by one and keep their order.
- Linked.EveryRunLinked: a receipt's clearing account is recorded nowhere but in its entry, so only Linked.PostMoveOk, at posting, says which one it is.
- OrderBook.MoveGoods: movement cost, warehouse and the exchange rate of a foreign purchase order are inputs to posting and not part of fulfilment quantities.
- Orders.Conserved: a product's stock flag is fixed during a run; whether it is active may differ at every step.
- Wrapping.Wrap: splitting text at white space happens before; words are non-empty.
- Pdf.Bytes: compression is an arbitrary function, page sizes are already formatted, and drawing operators are opaque bytes.
- Encoding text as WinAnsi, page layout coordinates, row pagination and address formatting: table lookups and placement.
- Dependencies.Closure: lockfile parsing and registry metadata are input and output.
- Aging views, stock valuation, trial balance and account ledger listings: sums and lists that add no identity of their own.

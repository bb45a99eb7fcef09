# Finance tracker transaction store, modelled in Dafny

This project models the backend core of a personal finance tracker. Each user
keeps a collection of transactions: income or expense entries with an amount,
a category, a date and a description. A second, smaller collection holds
notes. HTTP handlers list, read, create, update and delete these documents,
and compute statistics over the transactions. Every handler is scoped to the
authenticated caller. A document owned by someone else is treated exactly
like a missing one.

Modules:

- `Wrappers` defines `Option`. `Responses` defines the handler outcomes:
  200 with a document, 201, 200 after a delete, 400 with a message, 404 and 500.
- `DocumentQuery` covers what the handlers ask of the document store.
  - `Scan` is `find`: it selects the documents a filter accepts, in ascending id order.
  - `SortDesc` is `sort`: an insertion sort, descending on a two-part key.
- `TransactionSchema` is the transaction document, the constraints its
  validators enforce, and the defaults its constructor fills in.
- `TransactionFilter` has the query parameters and the filter document the
  handler builds from them. `Matches` says how the store evaluates that
  filter. `Admits` is the reference meaning of a query: the caller's records
  that satisfy every given parameter, combined with AND.
- `TransactionStats` is the statistics fold, with its order-independence.
- `TransactionRequests` has the request bodies, create's three checks in
  order, update's checks, and how an update document changes a stored record.
- `TransactionController.TransactionStore` is a class that holds the
  collection as `map<Id, Transaction>`, with the next id and a clock. Each
  handler is a method on it.
- `NotesController.NoteStore` is the same structure for notes.
- `Scenarios` calls the handlers in sequence and proves the outcomes.

Representation choices:

- Amounts are exact `real`s.
- Dates and timestamps are integers that preserve the order of the instants
  they stand for. The scenarios write days as yyyymmdd numbers.
- Ids and user ids are natural numbers.
- The wall clock is a counter that each write advances. So a new document's
  `createdAt` is later than every existing one.
- The caller's id is a plain parameter. Authentication happens before the
  handlers run.

Behaviour of the code worth knowing:

- The schema sets a minimum of 0 for `amount`, so it accepts 0. Only the
  create and update handlers demand an amount greater than 0, so no
  document the handlers store has an amount of 0. The store's invariant
  records this.
- Update checks `type` only when it is truthy. An empty `type`, an empty
  `category` and an empty `date` pass the handler's own checks. The
  schema's validators, which the update runs, then reject them: the
  enumeration refuses the empty `type`, and `required` refuses the empty
  `category` and the empty `date`, which is cast to null. The catch block
  turns that rejection into a 500, and the store is unchanged. The
  validators run before the query is sent, so this 500 comes before any 404.

## Model

| member | source | states |
|---|---|---|
| `Responses.StatusCode` | backend/src/controller/transactionController.js:115-125 | every response has an HTTP status in 200..599; 404 exactly for not-found and 400 exactly for a refused request |
| `DocumentQuery.Scan` | backend/src/controller/transactionController.js:20 | the store's `find` yields only documents the filter accepts, and no more than the ids scanned |
| `DocumentQuery.ScanCount` | backend/src/controller/transactionController.js:20 | `find` yields each stored document the filter accepts exactly once, and nothing else |
| `DocumentQuery.Insert` | backend/src/controller/transactionController.js:20 | placing one document into a listing adds exactly that document |
| `DocumentQuery.InsertKeepsDescending` | backend/src/controller/transactionController.js:20 | placing a document into a descending listing keeps it descending |
| `DocumentQuery.SortDesc` | backend/src/controller/transactionController.js:20 | `sort` returns a permutation of its input, in descending key order |
| `TransactionSchema.KindName` | backend/src/models/Transaction.js:6-10 | a kind's name is one of exactly "income" and "expense" |
| `TransactionSchema.ParseKind` | backend/src/models/Transaction.js:6-10 | a `type` string is a kind if and only if it is "income" or "expense", and then it names that kind |
| `TransactionSchema.KindNameRoundTrip` | backend/src/models/Transaction.js:6-10 | naming a kind and reading the name back gives the same kind |
| `TransactionSchema.NewTransaction` | backend/src/models/Transaction.js:20-35 | an absent date defaults to now, an absent description to ""; both timestamps are the creation time; the document satisfies the schema exactly when its amount is at least 0 and its category is non-empty |
| `TransactionSchema.SchemaValid` | backend/src/models/Transaction.js:11-19 | the schema's validators: an amount of at least 0 and a non-empty category; also the invariant, kept by the `timestamps` option (Transaction.js line 35), that `createdAt` is not after `updatedAt` |
| `TransactionSchema.SchemaAdmitsZeroAndAnyCategory` | backend/src/models/Transaction.js:11-19 | the schema admits an amount of 0 and any non-empty category |
| `TransactionFilter.DatesOnly` | backend/src/controller/transactionController.js:151-160 | the statistics query keeps the date range and drops `category` and `type` |
| `TransactionFilter.CompileFilter` | backend/src/controller/transactionController.js:6-18 | the filter document built step by step matches a transaction exactly when the caller owns it and every given parameter holds (start <= date, date <= end, equal category, equal type) |
| `TransactionFilter.InvertedRangeAdmitsNothing` | backend/src/controller/transactionController.js:11-15 | a start date after the end date admits no transaction, without an error |
| `TransactionFilter.UnknownKindAdmitsNothing` | backend/src/controller/transactionController.js:18 | a `type` parameter naming neither kind admits no transaction |
| `TransactionStats.Total` | backend/src/controller/transactionController.js:166-172 | a total over transactions none of which has the kind is 0, the `reduce` starting value |
| `TransactionStats.KindCountsCoverAll` | backend/src/controller/transactionController.js:166-180 | the income count plus the expense count is the number of transactions |
| `TransactionStats.TotalNonNegative` | backend/src/controller/transactionController.js:166-172 | with every amount at least 0, as the schema demands, no total is negative |
| `TransactionStats.TotalAppend` | backend/src/controller/transactionController.js:166-172 | the total of two listings joined is the sum of their totals |
| `TransactionStats.TotalPermutation` | backend/src/controller/transactionController.js:163-172 | a total does not depend on the order of the transactions |
| `TransactionStats.Summarize` | backend/src/controller/transactionController.js:166-180 | balance = totalIncome - totalExpense; transactionCount is the size of the set and equals income count + expense count; the totals are not negative when no amount is; an empty set gives all zeros |
| `TransactionStats.SummarizePermutation` | backend/src/controller/transactionController.js:163-180 | the statistics are the same whatever order the store returns the transactions in |
| `TransactionStats.SummarizeAddOne` | backend/src/controller/transactionController.js:166-172 | one more transaction adds one to the count and its amount to its own kind's total only |
| `TransactionRequests.DescriptionOrEmpty` | backend/src/controller/transactionController.js:76 | a falsy description is stored as "", and any other description is kept |
| `TransactionRequests.ValidateCreate` | backend/src/controller/transactionController.js:53-69 | the first failing check decides: a falsy type, amount (0 included), category or date gives "required"; otherwise a type outside {income, expense} gives the type message; otherwise an amount <= 0 gives "greater than 0"; if all pass, the accepted fields are the submitted ones, with a positive amount |
| `TransactionRequests.ZeroAmountIsMissing` | backend/src/controller/transactionController.js:53-57 | an amount of 0 is reported as a missing field |
| `TransactionRequests.KindCheckedBeforeAmount` | backend/src/controller/transactionController.js:59-69 | a bad type is reported before a negative amount |
| `TransactionRequests.ValidateUpdate` | backend/src/controller/transactionController.js:97-107 | a truthy type outside {income, expense} gives the type message; otherwise an amount that is present and <= 0 gives "greater than 0"; when both pass, any amount given is positive |
| `TransactionRequests.UpdateViolatesSchema` | backend/src/controller/transactionController.js:109-113 | once update's own checks pass, the body fails the schema's validators exactly when it sets an empty `type`, an empty `category` or an empty `date`; one that passes them names a known kind whenever its `type` is truthy |
| `TransactionRequests.ApplyUpdate` | backend/src/controller/transactionController.js:109-113 | fields the body leaves out keep their values (an empty `date` never reaches it: the validators refuse it first); id, owner and createdAt never change; updatedAt becomes now; a schema-valid record stays schema-valid |
| `TransactionRequests.EmptyUpdateOnlyTouchesUpdatedAt` | backend/src/controller/transactionController.js:109-113 | an update with an empty body changes nothing but updatedAt |
| `TransactionController.TransactionStore.FindAdmitted` | backend/src/controller/transactionController.js:9-20 | the store's `find`, with the compiled filter, yields each admitted stored transaction exactly once |
| `TransactionController.TransactionStore.GetAll` | backend/src/controller/transactionController.js:4-26 | the list holds each of the caller's stored transactions that the query admits exactly once, and nothing else; for every two positions, the earlier has the later date, or the same date and a createdAt at least as late; an inverted date range or an unknown type gives an empty list |
| `TransactionController.TransactionStore.GetById` | backend/src/controller/transactionController.js:29-45 | 200 with the record if and only if the caller owns it; otherwise 404, never a permission error |
| `TransactionController.TransactionStore.Statistics` | backend/src/controller/transactionController.js:149-186 | the result is the summary of the caller's transactions in the date range, whatever their order, with category and type ignored; balance = income - expense; the totals are not negative |
| `TransactionController.TransactionStore.Create` | backend/src/controller/transactionController.js:48-89 | a failed check gives 400 with its message and leaves the store unchanged; otherwise 201 with one new record under a fresh id, owned by the caller, holding the submitted fields and the defaulted description, created after every existing record; no other record changes |
| `TransactionController.TransactionStore.Update` | backend/src/controller/transactionController.js:92-127 | a failed check gives 400, and a schema failure (an empty type, category or date) gives 500, before the store is touched; with no owned record it gives 404 and the store is unchanged; otherwise only that record changes, as ApplyUpdate says, and its owner stays the caller; no record is ever added or removed |
| `TransactionController.TransactionStore.Delete` | backend/src/controller/transactionController.js:130-146 | removes exactly the caller-owned record with that id; with no such record it gives 404 and the store is unchanged |
| `NotesController.NoteStore.GetAll` | backend/src/controller/notesController.js:3-11 | each of the caller's notes appears exactly once and no other note does; for every two positions, the earlier has a createdAt at least as late |
| `NotesController.NoteStore.GetById` | backend/src/controller/notesController.js:13-22 | the note if and only if the caller owns it; otherwise 404 |
| `NotesController.NoteStore.Create` | backend/src/controller/notesController.js:24-36 | 201 with a new note under a fresh id, holding the given title and content, owned by the caller; no other note changes |
| `NotesController.NoteStore.Update` | backend/src/controller/notesController.js:38-53 | only the title and content of the caller-owned note change (an absent one is kept), and the owner never changes; with no owned note it gives 404 and the store is unchanged |
| `NotesController.NoteStore.Delete` | backend/src/controller/notesController.js:55-65 | removes only the caller-owned note with that id; otherwise 404 and nothing changes |
| `Scenarios.ExpenseThenStatistics` | backend/src/controller/transactionController.js:166-180 | creating a 50 expense gives 201 with amount 50, and that day's statistics are income 0, expense 50, balance -50, count 1 |
| `Scenarios.ZeroAmountRejected` | backend/src/controller/transactionController.js:53-57 | a create with amount 0 gives 400 "required", and nothing is stored |
| `Scenarios.OtherOwnerSeesNotFound` | backend/src/controller/transactionController.js:31-38 | another user's get, update and delete all give 404, and the owner's record is unchanged |
| `Scenarios.ListOrderExample` | backend/src/controller/transactionController.js:20 | records dated 1 Jan, 1 Mar and 1 Feb are listed 1 Mar, 1 Feb, 1 Jan |

## Left out

- Rate limiting (backend/src/config/upstash.js) is out. It is configuration of an external sliding-window service.
- Authentication (`protectRoute`) is out. The caller's user id is a plain parameter.
- Express wiring is out: CORS, the JSON and cookie middleware, the route tables and server start-up.
- The static category list (backend/src/controller/categoryController.js) is out. It has no logic.
- Id casting is out. In the source, a malformed id raises a cast error, which becomes a 500. Ids here are plain numbers.
- Store failures are out. The generic 500 that the catch blocks send when the store fails is not modelled. The only 500 modelled is the update validator's rejection.
- Floating point is out. Amounts are exact reals, so the IEEE rounding of the sums in getStatistics is not reproduced.
- Date parsing and time zones are out. Dates arrive already parsed as integers. An unparsable date string is not modelled, and neither is a numeric date of 0, which is falsy.
- Some JSON values are out: `null`, numbers sent as strings, `NaN`, and arrays from repeated query parameters. Each field is either absent or a string or number of the expected kind.
- Note.js is not part of this model. Notes are built from the given title and content with no schema validation. So a note's title and content are plain strings, and a request that omits them is not modelled.
- The success messages ("Transaction created successfully!" and the others) are out. Each response carries only its status and document.
- Concurrency is out. Handlers run one at a time, each as one atomic step, so races between requests on the same record are not modelled.
- Update validators are only partly modelled. The model keeps the three failures that can still happen after the handler's checks: an empty `type`, an empty `category` and an empty `date`.
- TransactionController.TransactionStore.Create: the promise that a new record is created after every existing one rests on the model's clock, which advances with every write. A wall clock that repeats or goes back, giving equal or earlier timestamps, is not modelled.

# Cinema ticket service — a Dafny model

This project models the ticket service of a cinema booking exercise. One
purchase is a call `purchaseTickets(accountId, ...requests)`. It does four
things in order:

- It rejects a non-positive account id.
- It walks once over the requests. Each request is an ADULT, CHILD or INFANT
  type with a number of tickets. The walk keeps four running totals: amount,
  seats, adult tickets and child-or-infant tickets.
- After every request it refuses the purchase if more than 20 seats are
  taken or if child and infant tickets outnumber adult tickets.
- After the walk it refuses child or infant tickets bought without an adult.

If nothing was refused, it asks the payment gateway to charge the amount
and then asks the seat booking service to reserve the seats.

The model has three files:

- `Pricing.dfy` (module `Pricing`) defines the ticket types, the request
  pair and the running totals. The totals after the first k requests are
  `Fold(requests[..k])`, a left fold of the loop body `Step`. Lemmas tie
  the fold to independent per-type sums (`Count`). They give the closed-form
  price and seat formulas and show that the totals never decrease. They
  also show that the recursive prefix check `AllPrefixesWithin` means
  "every prefix is within the limits".
- `TicketService.dfy` (module `Purchase`) holds `Decide`, the pure meaning
  of one purchase: the error raised, or the amount and seat count handed to
  the collaborators. It also holds the class `TicketService`, whose method
  `PurchaseTickets` runs the loop as the source does and is proved to agree
  with `Decide`. The field `calls` logs every call the service makes to the
  two collaborators, in order.
- `Scenarios.dfy` (module `PurchaseScenarios`) states the worked examples
  as lemmas. It also has one client method that drives the class.

Exceptions become values. `PurchaseTickets` returns `Completed` or
`Failed(InvalidAccount)` / `Failed(InvalidPurchase)`. `InvalidAccount` stands
for the source's `TypeError`, and `InvalidPurchase` for its
`InvalidPurchaseException`.

## Model

| member | source | states |
|---|---|---|
| `Pricing.Step` | src/pairtest/TicketService.js:27-37 | defines one pass of the loop body: folds one request into the four running totals |
| `Pricing.StepEffect` | src/pairtest/TicketService.js:27-37 | one request changes each total by its own type only: an adult request adds its count to adult tickets and seats and 20 per ticket to the amount; a child request adds its count to child-or-infant tickets and seats and 10 per ticket; an infant request adds its count to child-or-infant tickets only |
| `Pricing.Fold` | src/pairtest/TicketService.js:18-37 | defines the running totals after a prefix of the requests: the loop body applied to each request in order, starting from four zeros |
| `Pricing.FoldSeatsAndAmount` | src/pairtest/TicketService.js:18-37 | after any prefix the seats lie between the adult tickets and all tickets, and the amount is 10 per seat plus 10 more per adult |
| `Pricing.WithinLimits` | src/pairtest/TicketService.js:39 | defines the per-request test: at most 20 seats and no more child-or-infant tickets than adult tickets |
| `Pricing.AllPrefixesWithin` | src/pairtest/TicketService.js:23-42 | defines the fail-fast loop check: the totals after each request, from the first to the last, pass the per-request test |
| `Pricing.FoldClosedForm` | src/pairtest/TicketService.js:18-37 | after any prefix, amount = 20 × adult tickets + 10 × child tickets, seats = adult + child tickets (infants take no seat), adults and child-or-infant counts are the per-type sums |
| `Pricing.CountSnoc` | src/pairtest/TicketService.js:23-37 | appending one request adds its count to the sum of its own type only |
| `Pricing.FoldMonotone` | src/pairtest/TicketService.js:23-37 | a longer prefix never has fewer seats, a smaller amount or fewer adult tickets than a shorter one |
| `Pricing.AllPrefixesWithinIff` | src/pairtest/TicketService.js:23-42 | the recursive per-request check holds iff the totals after every prefix are within the seat limit and the ratio limit |
| `Pricing.PrefixStep` | src/pairtest/TicketService.js:39-41 | folding request i into the totals of the first i requests gives the totals of the first i+1, and the check on that prefix adds exactly one limit test |
| `Pricing.AllPrefixesWithinPrefix` | src/pairtest/TicketService.js:39-41 | passing the per-request check on a batch implies passing it on every prefix of that batch |
| `Pricing.SeatLimitPrefixIff` | src/pairtest/TicketService.js:29-39 | some prefix exceeds 20 seats iff the whole batch does, so later requests cannot dilute an excess |
| `Purchase.Decide` | src/pairtest/TicketService.js:13-50 | the purchase is refused with the account error iff the account id is not positive, whatever the requests; when the purchase pays, the amount is 20 × adults + 10 × children, the seats are adults + children and at most 20, and minors do not outnumber adults |
| `Purchase.FinalCheckRedundant` | src/pairtest/TicketService.js:39-46 | once every prefix passes the per-request check, the post-loop "minors without an adult" guard cannot fire, so removing it changes no decision |
| `Purchase.InvalidPurchaseIffSomePrefixViolates` | src/pairtest/TicketService.js:23-46 | with a positive account id: the account error never arises; the purchase is refused as invalid iff some prefix exceeds 20 seats or holds more child-or-infant than adult tickets; it pays iff every prefix is within both limits |
| `Purchase.ValidBatchPays` | src/pairtest/TicketService.js:44-49 | with a positive account id and every prefix within limits, the purchase pays the amount and seats of the whole batch |
| `Purchase.InvalidPrefixRefused` | src/pairtest/TicketService.js:39-41 | with a positive account id, one prefix outside the limits makes the whole purchase refused as invalid, whatever follows it |
| `Purchase.TooManySeatsRejected` | src/pairtest/TicketService.js:39-41 | a valid account asking for more than 20 adult and child tickets in total is refused |
| `Purchase.MinorsWithoutAdultRejected` | src/pairtest/TicketService.js:39-46 | a valid account asking for child or infant tickets with no adult ticket is refused |
| `Purchase.EmptyBatchSucceeds` | src/pairtest/TicketService.js:18-49 | an empty request list with a valid account pays 0 for 0 seats |
| `Purchase.TicketService.constructor` | src/pairtest/TicketService.js:10-11 | a new service has made no collaborator call |
| `Purchase.TicketService.MakePaymentCall` | src/pairtest/TicketService.js:48 | a payment call appends exactly one payment entry, with its account id and amount, to the call log |
| `Purchase.TicketService.ReserveSeatCall` | src/pairtest/TicketService.js:49 | a reservation call appends exactly one reservation entry, with its account id and seat count, to the call log |
| `Purchase.TicketService.PurchaseTickets` | src/pairtest/TicketService.js:13-50 | the outcome is the one `Decide` gives. On success the log grows by exactly one payment followed by one reservation, both for the caller's account id, carrying `Decide`'s amount and seats. On any error the log is unchanged |
| `PurchaseScenarios.Repeat` | src/pairtest/TicketService.test.js:83 | n copies of one request form a list of length n whose every element is that request |
| `PurchaseScenarios.CountRepeat` | src/pairtest/TicketService.test.js:83 | n copies of a request hold n times its count of its own type and none of any other |
| `PurchaseScenarios.TwoAdultsOneChild` | src/pairtest/TicketService.test.js:95-101 | two adults and one child pay 50 for 3 seats |
| `PurchaseScenarios.AdultWithInfant` | src/pairtest/TicketService.js:27-37 | one adult and one infant pay 20 for 1 seat |
| `PurchaseScenarios.TwentyOneAdultsRejected` | src/pairtest/TicketService.test.js:82-85 | twenty-one single-adult requests are refused as invalid |
| `PurchaseScenarios.LoneMinorRejected` | src/pairtest/TicketService.test.js:87-93 | a single child ticket, or a single infant ticket, is refused as invalid |
| `PurchaseScenarios.NonPositiveAccountRejected` | src/pairtest/TicketService.test.js:76-78 | account ids 0 and -1 are refused with the account error whatever the requests |
| `PurchaseScenarios.MinorsAheadOfAdultsRejected` | src/pairtest/TicketService.js:39-41 | [1 adult, 2 children, 1 adult] is refused although its final totals are within limits: the ratio is checked after every request |
| `PurchaseScenarios.PurchaseThenRefuse` | src/pairtest/TicketService.test.js:95-101 | a client of the class: [2 adults, 1 child] for account 1 completes and logs exactly a payment of 50 then a reservation of 3 for account 1; a following call with account 0 fails with the account error and adds no call |
| `PurchaseScenarios.AdultsFirstAccepted` | src/pairtest/TicketService.js:23-49 | the same tickets ordered [adult, adult, 2 children] pay 60 for 4 seats |

## Left out

- The `Number.isInteger(accountId)` test of the account check: `accountId` is a
  typed `int` here, so only the `accountId <= 0` branch is modelled. The
  string `'1'` case of the test file has no counterpart.
- `TicketTypeRequest` and `InvalidPurchaseException` are defined in files that
  are not part of this model. A request is a pair of a ticket type and a
  `nat` count, so negative counts cannot occur. The source does not check
  counts itself. The type is a three-value datatype, so the source's silent
  skip of an unknown type string (no `else` after the INFANT branch) cannot
  occur.
- The payment gateway and the seat booking service are external and not
  part of this model. Their calls are log entries with no behaviour and
  no failure. The source's two separate collaborator objects share one
  ordered log, `calls`, so that "payment before reservation" can be stated.
- Error message strings.
- JavaScript number arithmetic: counts and totals are unbounded integers.
  The source uses double-precision numbers, so it loses precision only for
  counts far beyond the seat limit.
- The copy of the service class inside the test file
  (src/pairtest/TicketService.test.js:25-67) repeats the source class and is
  modelled once. The jest mocks around it are test scaffolding.

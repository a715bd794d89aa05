/**
  The ticket service: validates a batch of ticket requests for one account,
  prices it, and on success asks the payment gateway to take the money and
  the seat booking service to reserve the seats.

  `Decide` is the pure meaning of one purchase: which error it raises, or
  which amount and seat count it hands to the two collaborators. The class
  `TicketService` runs the purchase step by step, as the source does, and is
  proved to agree with `Decide`; its field `calls` records, in order, every
  call it has made to the two collaborators.
 */
module Purchase {
  import opened Pricing

  /** The two ways a purchase can fail: a bad account id (the source's
      TypeError) or a request batch that breaks the purchase rules. */
  datatype PurchaseError = InvalidAccount | InvalidPurchase

  /** What a purchase decides: charge `amount` and reserve `seats`, or refuse. */
  datatype Decision = Pay(amount: nat, seats: nat) | Refuse(error: PurchaseError)

  /** A call to one of the two collaborators, with its arguments. */
  datatype Call =
    | MakePayment(accountId: int, amount: nat)
    | ReserveSeat(accountId: int, seats: nat)

  /** What the caller of `PurchaseTickets` sees: a normal return or an error. */
  datatype Outcome = Completed | Failed(error: PurchaseError)

  /** The decision for one purchase: the account check first, then the
      per-request limits on every prefix, then the final "no minors without
      an adult" check, and otherwise the totals of the whole batch. */
  function Decide(accountId: int, requests: seq<TicketTypeRequest>): (d: Decision)
    ensures d == Refuse(InvalidAccount) <==> accountId <= 0
    ensures d.Pay? ==> accountId > 0
    ensures d.Pay? ==> d.amount == 20 * Count(requests, Adult) + 10 * Count(requests, Child)
    ensures d.Pay? ==> d.seats == Count(requests, Adult) + Count(requests, Child) <= MaxSeats
    ensures d.Pay? ==> Count(requests, Child) + Count(requests, Infant) <= Count(requests, Adult)
  {
    FoldClosedForm(requests);
    var totals := Fold(requests);
    if accountId <= 0 then Refuse(InvalidAccount)
    else if !AllPrefixesWithin(requests) then Refuse(InvalidPurchase)
    else if totals.childOrInfantTickets > 0 && totals.adultTickets == 0 then Refuse(InvalidPurchase)
    else Pay(totals.amount, totals.seats)
  }

  /** The same decision with the final "minors without an adult" check removed. */
  function DecideWithoutFinalCheck(accountId: int, requests: seq<TicketTypeRequest>): Decision
  {
    if accountId <= 0 then Refuse(InvalidAccount)
    else if !AllPrefixesWithin(requests) then Refuse(InvalidPurchase)
    else Pay(Fold(requests).amount, Fold(requests).seats)
  }

  /** The final check never fires once every prefix has passed the
      per-request check, so removing it changes no outcome. */
  lemma FinalCheckRedundant(accountId: int, requests: seq<TicketTypeRequest>)
    ensures AllPrefixesWithin(requests)
        ==> !(Fold(requests).childOrInfantTickets > 0 && Fold(requests).adultTickets == 0)
    ensures Decide(accountId, requests) == DecideWithoutFinalCheck(accountId, requests)
  {
  }

  /** With a valid account id, the purchase is refused as invalid exactly when
      the totals after some prefix exceed the seat limit or hold more minors
      than adults; otherwise it pays for the whole batch. The account error
      never arises for a positive id. */
  lemma InvalidPurchaseIffSomePrefixViolates(accountId: int, requests: seq<TicketTypeRequest>)
    requires accountId > 0
    ensures Decide(accountId, requests) == Refuse(InvalidPurchase)
        <==> exists k :: 0 <= k <= |requests| && !WithinLimits(Fold(requests[..k]))
    ensures Decide(accountId, requests) != Refuse(InvalidAccount)
    ensures Decide(accountId, requests).Pay?
        <==> forall k :: 0 <= k <= |requests| ==> WithinLimits(Fold(requests[..k]))
  {
    AllPrefixesWithinIff(requests);
    FinalCheckRedundant(accountId, requests);
  }

  /** With a valid account id, a batch whose every prefix is within limits
      pays the totals of the whole batch. */
  lemma ValidBatchPays(accountId: int, requests: seq<TicketTypeRequest>)
    requires accountId > 0
    requires AllPrefixesWithin(requests)
    ensures Decide(accountId, requests) == Pay(Fold(requests).amount, Fold(requests).seats)
  {
    FinalCheckRedundant(accountId, requests);
  }

  /** With a valid account id, a batch with a prefix outside the limits is
      refused as invalid. */
  lemma InvalidPrefixRefused(accountId: int, requests: seq<TicketTypeRequest>, k: nat)
    requires accountId > 0
    requires k <= |requests| && !WithinLimits(Fold(requests[..k]))
    ensures Decide(accountId, requests) == Refuse(InvalidPurchase)
  {
    AllPrefixesWithinIff(requests);
  }

  /** A batch that needs more than MaxSeats seats in total is refused. */
  lemma TooManySeatsRejected(accountId: int, requests: seq<TicketTypeRequest>)
    requires accountId > 0
    requires Count(requests, Adult) + Count(requests, Child) > MaxSeats
    ensures Decide(accountId, requests) == Refuse(InvalidPurchase)
  {
  }

  /** Child or infant tickets without any adult ticket are refused. */
  lemma MinorsWithoutAdultRejected(accountId: int, requests: seq<TicketTypeRequest>)
    requires accountId > 0
    requires Count(requests, Adult) == 0
    requires Count(requests, Child) + Count(requests, Infant) > 0
    ensures Decide(accountId, requests) == Refuse(InvalidPurchase)
  {
  }

  /** An empty batch with a valid account pays nothing for no seats. */
  lemma EmptyBatchSucceeds(accountId: int)
    requires accountId > 0
    ensures Decide(accountId, []) == Pay(0, 0)
  {
  }

  class TicketService {
    /** Every call made so far to the payment gateway and the seat booking
        service, oldest first. */
    var calls: seq<Call>

    constructor ()
      ensures calls == []
    {
      calls := [];
    }

    /** Stands for the payment gateway's makePayment. */
    method MakePaymentCall(accountId: int, amount: nat)
      modifies this
      ensures calls == old(calls) + [MakePayment(accountId, amount)]
    {
      calls := calls + [MakePayment(accountId, amount)];
    }

    /** Stands for the seat booking service's reserveSeat. */
    method ReserveSeatCall(accountId: int, seats: nat)
      modifies this
      ensures calls == old(calls) + [ReserveSeat(accountId, seats)]
    {
      calls := calls + [ReserveSeat(accountId, seats)];
    }

    /** Validates and prices `requests` for `accountId` in one pass, failing
        fast, then pays and reserves. On success exactly one payment and then
        exactly one reservation are made, both for `accountId`; on any error
        no collaborator is called. */
    method PurchaseTickets(accountId: int, requests: seq<TicketTypeRequest>) returns (outcome: Outcome)
      modifies this
      ensures outcome == Completed <==> Decide(accountId, requests).Pay?
      ensures Decide(accountId, requests).Pay? ==>
        calls == old(calls) + [MakePayment(accountId, Decide(accountId, requests).amount),
                               ReserveSeat(accountId, Decide(accountId, requests).seats)]
      ensures Decide(accountId, requests).Refuse? ==>
        outcome == Failed(Decide(accountId, requests).error) && calls == old(calls)
    {
      if accountId <= 0 {
        return Failed(InvalidAccount);
      }

      var totalAmount: nat, totalSeats: nat := 0, 0;
      var adultTickets: nat, childOrInfantTickets: nat := 0, 0;

      for i := 0 to |requests|
        invariant Totals(totalAmount, totalSeats, adultTickets, childOrInfantTickets) == Fold(requests[..i])
        invariant AllPrefixesWithin(requests[..i])
        invariant calls == old(calls)
      {
        var request := requests[i];
        var noOfTickets := request.noOfTickets;
        ghost var before := Totals(totalAmount, totalSeats, adultTickets, childOrInfantTickets);
        match request.ticketType {
          case Adult =>
            totalAmount := totalAmount + noOfTickets * 20;
            totalSeats := totalSeats + noOfTickets;
            adultTickets := adultTickets + noOfTickets;
            assert Totals(totalAmount, totalSeats, adultTickets, childOrInfantTickets) == Step(before, request);
          case Child =>
            totalAmount := totalAmount + noOfTickets * 10;
            totalSeats := totalSeats + noOfTickets;
            childOrInfantTickets := childOrInfantTickets + noOfTickets;
            assert Totals(totalAmount, totalSeats, adultTickets, childOrInfantTickets) == Step(before, request);
          case Infant =>
            childOrInfantTickets := childOrInfantTickets + noOfTickets;
            assert Totals(totalAmount, totalSeats, adultTickets, childOrInfantTickets) == Step(before, request);
        }

        PrefixStep(requests, i);
        if totalSeats > MaxSeats || childOrInfantTickets > adultTickets {
          InvalidPrefixRefused(accountId, requests, i + 1);
          return Failed(InvalidPurchase);
        }
        assert WithinLimits(Fold(requests[..i + 1]));
      }
      assert requests[..|requests|] == requests;

      if childOrInfantTickets > 0 && adultTickets == 0 {
        return Failed(InvalidPurchase);
      }

      ValidBatchPays(accountId, requests);
      MakePaymentCall(accountId, totalAmount);
      ReserveSeatCall(accountId, totalSeats);
      outcome := Completed;
    }
  }
}

/**
  The worked examples of the ticket service, stated as lemmas about
  `Decide` and, for the purchase that succeeds, as a client of the class
  that reads the collaborator calls back from its log.
 */
module PurchaseScenarios {
  import opened Pricing
  import opened Purchase

  /** `n` copies of the same request. */
  function Repeat(r: TicketTypeRequest, n: nat): (rs: seq<TicketTypeRequest>)
    ensures |rs| == n
    ensures forall i :: 0 <= i < n ==> rs[i] == r
  {
    if n == 0 then [] else [r] + Repeat(r, n - 1)
  }

  /** `n` copies of a request ask for `n` times its tickets of its type, and
      none of any other type. */
  lemma {:induction false} CountRepeat(r: TicketTypeRequest, n: nat, t: TicketType)
    ensures Count(Repeat(r, n), t) == if r.ticketType == t then n * r.noOfTickets else 0
  {
    if n > 0 {
      var rs := Repeat(r, n);
      assert rs[1..] == Repeat(r, n - 1);
      CountRepeat(r, n - 1, t);
    }
  }

  /** Two adults and one child cost 50 and take 3 seats. */
  lemma TwoAdultsOneChild()
    ensures Decide(1, [TicketTypeRequest(Adult, 2), TicketTypeRequest(Child, 1)]) == Pay(50, 3)
  {
    var rs := [TicketTypeRequest(Adult, 2), TicketTypeRequest(Child, 1)];
    assert rs[..1] == [rs[0]] && [rs[0]][..0] == [] && rs[..1][..0] == [];
    assert AllPrefixesWithin(rs[..1][..0]);
    assert Fold(rs[..1]) == Totals(40, 2, 2, 0);
    assert AllPrefixesWithin(rs[..1]);
    assert rs[..|rs| - 1] == rs[..1];
    assert Fold(rs) == Totals(50, 3, 2, 1);
  }

  /** An adult with an infant on the lap costs 20 and takes 1 seat. */
  lemma AdultWithInfant()
    ensures Decide(1, [TicketTypeRequest(Adult, 1), TicketTypeRequest(Infant, 1)]) == Pay(20, 1)
  {
    var rs := [TicketTypeRequest(Adult, 1), TicketTypeRequest(Infant, 1)];
    assert rs[..1] == [rs[0]] && [rs[0]][..0] == [] && rs[..1][..0] == [];
    assert AllPrefixesWithin(rs[..1][..0]);
    assert Fold(rs[..1]) == Totals(20, 1, 1, 0);
    assert AllPrefixesWithin(rs[..1]);
    assert rs[..|rs| - 1] == rs[..1];
    assert Fold(rs) == Totals(20, 1, 1, 1);
  }

  /** Twenty-one single adult requests exceed the seat limit. */
  lemma TwentyOneAdultsRejected()
    ensures Decide(1, Repeat(TicketTypeRequest(Adult, 1), 21)) == Refuse(InvalidPurchase)
  {
    var rs := Repeat(TicketTypeRequest(Adult, 1), 21);
    CountRepeat(TicketTypeRequest(Adult, 1), 21, Adult);
    CountRepeat(TicketTypeRequest(Adult, 1), 21, Child);
    TooManySeatsRejected(1, rs);
  }

  /** A lone child ticket and a lone infant ticket are each refused. */
  lemma LoneMinorRejected(t: TicketType)
    requires t != Adult
    ensures Decide(1, [TicketTypeRequest(t, 1)]) == Refuse(InvalidPurchase)
  {
    var rs := [TicketTypeRequest(t, 1)];
    assert rs[..|rs| - 1] == [];
    assert Fold(rs).childOrInfantTickets == 1 && Fold(rs).adultTickets == 0;
  }

  /** Account ids 0 and -1 are refused before any request is looked at. */
  lemma NonPositiveAccountRejected(requests: seq<TicketTypeRequest>)
    ensures Decide(0, requests) == Refuse(InvalidAccount)
    ensures Decide(-1, requests) == Refuse(InvalidAccount)
  {
  }

  /** The ratio limit is checked on every prefix, so the order of the requests
      matters: a child request ahead of the second adult is refused although
      the totals of the whole batch are within limits. */
  lemma MinorsAheadOfAdultsRejected()
    ensures WithinLimits(Fold([TicketTypeRequest(Adult, 1), TicketTypeRequest(Child, 2), TicketTypeRequest(Adult, 1)]))
    ensures Decide(1, [TicketTypeRequest(Adult, 1), TicketTypeRequest(Child, 2), TicketTypeRequest(Adult, 1)])
         == Refuse(InvalidPurchase)
  {
    var rs := [TicketTypeRequest(Adult, 1), TicketTypeRequest(Child, 2), TicketTypeRequest(Adult, 1)];
    assert rs[..1] == [rs[0]] && [rs[0]][..0] == [] && rs[..1][..0] == [];
    assert rs[..2] == [rs[0], rs[1]] && [rs[0], rs[1]][..1] == [rs[0]] && rs[..2][..1] == rs[..1];
    assert AllPrefixesWithin(rs[..1][..0]);
    assert rs[..|rs| - 1] == rs[..2];
    assert Fold(rs[..1]) == Totals(20, 1, 1, 0);
    assert Fold(rs[..2]) == Totals(40, 3, 1, 2);
    assert Fold(rs) == Totals(60, 4, 2, 2);
    assert !AllPrefixesWithin(rs[..2]);
  }

  /** The same requests with both adults first are accepted. */
  lemma AdultsFirstAccepted()
    ensures Decide(1, [TicketTypeRequest(Adult, 1), TicketTypeRequest(Adult, 1), TicketTypeRequest(Child, 2)])
         == Pay(60, 4)
  {
    var rs := [TicketTypeRequest(Adult, 1), TicketTypeRequest(Adult, 1), TicketTypeRequest(Child, 2)];
    assert rs[..1] == [rs[0]] && [rs[0]][..0] == [] && rs[..1][..0] == [];
    assert rs[..2] == [rs[0], rs[1]] && [rs[0], rs[1]][..1] == [rs[0]] && rs[..2][..1] == rs[..1];
    assert AllPrefixesWithin(rs[..1][..0]);
    assert rs[..|rs| - 1] == rs[..2];
    assert Fold(rs[..1]) == Totals(20, 1, 1, 0);
    assert AllPrefixesWithin(rs[..1]);
    assert Fold(rs[..2]) == Totals(40, 2, 2, 0);
    assert Fold(rs) == Totals(60, 4, 2, 2);
    assert AllPrefixesWithin(rs[..2]);
  }

  /** A client of the service: a successful purchase makes one payment and
      then one reservation, and a refused one adds no call. */
  method PurchaseThenRefuse()
  {
    var service := new TicketService();
    var requests := [TicketTypeRequest(Adult, 2), TicketTypeRequest(Child, 1)];
    TwoAdultsOneChild();
    var outcome := service.PurchaseTickets(1, requests);
    assert outcome == Completed;
    assert service.calls == [MakePayment(1, 50), ReserveSeat(1, 3)];

    outcome := service.PurchaseTickets(0, requests);
    assert outcome == Failed(InvalidAccount);
    assert service.calls == [MakePayment(1, 50), ReserveSeat(1, 3)];
  }
}

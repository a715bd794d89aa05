/**
  Ticket types, ticket requests and the running totals that the purchase
  loop of the ticket service keeps while it walks over a batch of requests.

  The running totals after the first k requests are `Fold(requests[..k])`,
  a left fold of `Step` (the body of the loop) over that prefix. The
  per-type sums `Count` are an independent, head-first definition, and the
  lemmas below connect the two: the closed-form price and seat formulas,
  monotonicity of the totals along the sequence, and the equivalence of the
  recursive "every prefix is within limits" check with its quantified form.
 */
module Pricing {

  /** The three ticket categories. */
  datatype TicketType = Adult | Child | Infant

  /** One request: a ticket type and a number of tickets of that type. */
  datatype TicketTypeRequest = TicketTypeRequest(ticketType: TicketType, noOfTickets: nat)

  /** Largest number of seats one purchase may reserve. */
  const MaxSeats: nat := 20

  /** The four running totals of the purchase loop. */
  datatype Totals = Totals(amount: nat, seats: nat, adultTickets: nat, childOrInfantTickets: nat)

  const Zero := Totals(0, 0, 0, 0)

  /** Folds one request into the running totals: the body of the purchase loop. */
  function Step(t: Totals, r: TicketTypeRequest): Totals
  {
    match r.ticketType
    case Adult =>
      Totals(t.amount + r.noOfTickets * 20, t.seats + r.noOfTickets,
             t.adultTickets + r.noOfTickets, t.childOrInfantTickets)
    case Child =>
      Totals(t.amount + r.noOfTickets * 10, t.seats + r.noOfTickets,
             t.adultTickets, t.childOrInfantTickets + r.noOfTickets)
    case Infant =>
      Totals(t.amount, t.seats, t.adultTickets, t.childOrInfantTickets + r.noOfTickets)
  }

  /** One request moves each total by its own type only: adults pay 20 and
      take a seat each, children pay 10 and take a seat each, infants pay
      nothing and take no seat; adults count as adult tickets, children and
      infants as child-or-infant tickets. */
  lemma StepEffect(t: Totals, r: TicketTypeRequest)
    ensures Step(t, r).adultTickets - t.adultTickets == (if r.ticketType == Adult then r.noOfTickets else 0)
    ensures Step(t, r).childOrInfantTickets - t.childOrInfantTickets
         == (if r.ticketType == Adult then 0 else r.noOfTickets)
    ensures Step(t, r).seats - t.seats == (if r.ticketType == Infant then 0 else r.noOfTickets)
    ensures Step(t, r).amount - t.amount
         == (if r.ticketType == Adult then 20 * r.noOfTickets
             else if r.ticketType == Child then 10 * r.noOfTickets else 0)
  {
  }

  /** Running totals after processing all of `rs`, in order, starting from zero. */
  function Fold(rs: seq<TicketTypeRequest>): Totals
  {
    if |rs| == 0 then Zero else Step(Fold(rs[..|rs| - 1]), rs[|rs| - 1])
  }

  /** The two limits checked after every request: at most MaxSeats seats,
      and never more child-or-infant tickets than adult tickets. */
  predicate WithinLimits(t: Totals)
  {
    t.seats <= MaxSeats && t.childOrInfantTickets <= t.adultTickets
  }

  /** True when the totals after every non-empty prefix of `rs` are within limits. */
  predicate AllPrefixesWithin(rs: seq<TicketTypeRequest>)
  {
    |rs| == 0 || (AllPrefixesWithin(rs[..|rs| - 1]) && WithinLimits(Fold(rs)))
  }

  /** Number of tickets of type `t` requested in `rs`, summed head first. */
  function Count(rs: seq<TicketTypeRequest>, t: TicketType): nat
  {
    if |rs| == 0 then 0
    else (if rs[0].ticketType == t then rs[0].noOfTickets else 0) + Count(rs[1..], t)
  }

  /** Whatever the order of the requests, every seat belongs to an adult or a
      child, so the seats lie between the adult tickets and all tickets, and
      the amount is 10 per seat plus 10 more per adult. */
  lemma {:induction false} FoldSeatsAndAmount(rs: seq<TicketTypeRequest>)
    ensures Fold(rs).adultTickets <= Fold(rs).seats <= Fold(rs).adultTickets + Fold(rs).childOrInfantTickets
    ensures Fold(rs).amount == 10 * Fold(rs).seats + 10 * Fold(rs).adultTickets
  {
    if |rs| > 0 {
      FoldSeatsAndAmount(rs[..|rs| - 1]);
    }
  }

  /** Adding a request at the end adds its count to its own type only. */
  lemma {:induction false} CountSnoc(rs: seq<TicketTypeRequest>, r: TicketTypeRequest, t: TicketType)
    ensures Count(rs + [r], t) == Count(rs, t) + (if r.ticketType == t then r.noOfTickets else 0)
  {
    if |rs| == 0 {
      assert rs + [r] == [r];
      assert [r][1..] == [];
    } else {
      assert (rs + [r])[1..] == rs[1..] + [r];
      CountSnoc(rs[1..], r, t);
    }
  }

  /** Closed forms of the running totals: 20 per adult and 10 per child,
      one seat per adult or child, infants counted only as minors. */
  lemma {:induction false} FoldClosedForm(rs: seq<TicketTypeRequest>)
    ensures Fold(rs).amount == 20 * Count(rs, Adult) + 10 * Count(rs, Child)
    ensures Fold(rs).seats == Count(rs, Adult) + Count(rs, Child)
    ensures Fold(rs).adultTickets == Count(rs, Adult)
    ensures Fold(rs).childOrInfantTickets == Count(rs, Child) + Count(rs, Infant)
  {
    if |rs| > 0 {
      var init, last := rs[..|rs| - 1], rs[|rs| - 1];
      assert rs == init + [last];
      FoldClosedForm(init);
      CountSnoc(init, last, Adult);
      CountSnoc(init, last, Child);
      CountSnoc(init, last, Infant);
    }
  }

  /** Totals never decrease along the sequence: a longer prefix has at least
      the seats, amount and adult tickets of a shorter one. */
  lemma {:induction false} FoldMonotone(rs: seq<TicketTypeRequest>, j: nat, k: nat)
    requires j <= k <= |rs|
    ensures Fold(rs[..j]).seats <= Fold(rs[..k]).seats
    ensures Fold(rs[..j]).amount <= Fold(rs[..k]).amount
    ensures Fold(rs[..j]).adultTickets <= Fold(rs[..k]).adultTickets
    decreases k - j
  {
    if j < k {
      assert rs[..k][..k - 1] == rs[..k - 1];
      FoldMonotone(rs, j, k - 1);
    }
  }

  /** The recursive prefix check holds exactly when the totals after every
      prefix of `rs` are within limits. */
  lemma {:induction false} AllPrefixesWithinIff(rs: seq<TicketTypeRequest>)
    ensures AllPrefixesWithin(rs) <==> forall k :: 0 <= k <= |rs| ==> WithinLimits(Fold(rs[..k]))
  {
    if |rs| > 0 {
      var init := rs[..|rs| - 1];
      AllPrefixesWithinIff(init);
      assert rs[..|rs|] == rs;
      forall k | 0 <= k <= |init|
        ensures rs[..k] == init[..k]
      {
      }
    }
  }

  /** Extending a prefix by one request folds that request into the totals
      and adds one more limit check. */
  lemma PrefixStep(rs: seq<TicketTypeRequest>, i: nat)
    requires i < |rs|
    ensures Fold(rs[..i + 1]) == Step(Fold(rs[..i]), rs[i])
    ensures AllPrefixesWithin(rs[..i + 1])
        <==> AllPrefixesWithin(rs[..i]) && WithinLimits(Fold(rs[..i + 1]))
  {
    assert rs[..i + 1][..i] == rs[..i];
  }

  /** Passing the per-request check on a batch means passing it on every
      prefix of that batch. */
  lemma {:induction false} AllPrefixesWithinPrefix(rs: seq<TicketTypeRequest>, k: nat)
    requires k <= |rs|
    ensures AllPrefixesWithin(rs) ==> AllPrefixesWithin(rs[..k])
    decreases |rs| - k
  {
    if k < |rs| {
      assert rs[..|rs| - 1][..k] == rs[..k];
      AllPrefixesWithinPrefix(rs[..|rs| - 1], k);
    } else {
      assert rs[..k] == rs;
    }
  }

  /** The seat part of the per-request check cannot be diluted: some prefix
      exceeds the seat limit exactly when the whole batch does. */
  lemma SeatLimitPrefixIff(rs: seq<TicketTypeRequest>)
    ensures (exists k :: 0 <= k <= |rs| && Fold(rs[..k]).seats > MaxSeats)
        <==> Fold(rs).seats > MaxSeats
  {
    assert rs[..|rs|] == rs;
    forall k | 0 <= k <= |rs|
      ensures Fold(rs[..k]).seats <= Fold(rs).seats
    {
      FoldMonotone(rs, k, |rs|);
    }
  }
}

/** The `payouts` Redux slice: the payout list (newest first), the balance
    shown to the user, and the request lifecycle flags. Amounts are whole
    cents. */
module PayoutSlice {
  import opened Common
  import opened Records

  datatype PayoutStatus = Pending | Completed | Processing

  datatype Payout = Payout(id: string, userId: string, amount: int, status: PayoutStatus, createdAt: string)

  function PayoutId(p: Payout): string
  {
    p.id
  }

  /** `payouts.filter(p => p.status === 'completed')`. */
  function CompletedOnly(ps: seq<Payout>): (r: seq<Payout>)
    ensures |r| <= |ps|
    ensures forall i :: 0 <= i < |r| ==> r[i].status == Completed && r[i] in ps
    ensures forall i :: 0 <= i < |ps| && ps[i].status == Completed ==> ps[i] in r
    decreases |ps|
  {
    if |ps| == 0 then []
    else
      var init := ps[..|ps| - 1];
      assert forall i :: 0 <= i < |init| ==> init[i] == ps[i];
      if ps[|ps| - 1].status == Completed then CompletedOnly(init) + [ps[|ps| - 1]]
      else CompletedOnly(init)
  }

  /** The filter works payout by payout: filtering a concatenation filters
      each part and keeps the parts in order. */
  lemma {:induction false} CompletedOnlyConcat(a: seq<Payout>, b: seq<Payout>)
    ensures CompletedOnly(a + b) == CompletedOnly(a) + CompletedOnly(b)
    decreases |b|
  {
    if |b| == 0 {
      assert a + b == a;
    } else {
      var init, last := b[..|b| - 1], b[|b| - 1];
      assert (a + b)[..|a + b| - 1] == a + init;
      assert (a + b)[|a + b| - 1] == last;
      CompletedOnlyConcat(a, init);
    }
  }

  /** A single payout is kept exactly when it is completed. */
  lemma CompletedOnlySingle(p: Payout)
    ensures CompletedOnly([p]) == if p.status == Completed then [p] else []
  {
    assert [p][..0] == [];
  }

  /** `.reduce((sum, p) => sum + p.amount, 0)`, folding from the left. */
  function SumAmounts(ps: seq<Payout>): (r: int)
    ensures (forall i :: 0 <= i < |ps| ==> ps[i].amount >= 0) ==> r >= 0
    decreases |ps|
  {
    if |ps| == 0 then 0 else SumAmounts(ps[..|ps| - 1]) + ps[|ps| - 1].amount
  }

  /** The balance `fetchPayouts.fulfilled` computes. */
  function CompletedBalance(ps: seq<Payout>): (r: int)
    ensures (forall i :: 0 <= i < |ps| ==> ps[i].status != Completed) ==> r == 0
    ensures (forall i :: 0 <= i < |ps| ==> ps[i].amount >= 0) ==> r >= 0
  {
    SumAmounts(CompletedOnly(ps))
  }

  /** `reduce` over a concatenation is the sum of the two reductions. */
  lemma {:induction false} SumAmountsConcat(a: seq<Payout>, b: seq<Payout>)
    ensures SumAmounts(a + b) == SumAmounts(a) + SumAmounts(b)
    decreases |b|
  {
    if |b| == 0 {
      assert a + b == a;
    } else {
      assert (a + b)[..|a + b| - 1] == a + b[..|b| - 1];
      assert (a + b)[|a + b| - 1] == b[|b| - 1];
      SumAmountsConcat(a, b[..|b| - 1]);
    }
  }

  /** What a payout contributes to the balance. */
  function Contribution(p: Payout): int
  {
    if p.status == Completed then p.amount else 0
  }

  /** An independent reading of the balance: each payout's contribution,
      summed from the front. */
  function BalanceOf(ps: seq<Payout>): int
    decreases |ps|
  {
    if |ps| == 0 then 0 else Contribution(ps[0]) + BalanceOf(ps[1..])
  }

  lemma {:induction false} BalanceOfSnoc(ps: seq<Payout>, p: Payout)
    ensures BalanceOf(ps + [p]) == BalanceOf(ps) + Contribution(p)
    decreases |ps|
  {
    if |ps| == 0 {
      assert [p][1..] == [];
    } else {
      assert (ps + [p])[1..] == ps[1..] + [p];
      BalanceOfSnoc(ps[1..], p);
    }
  }

  /** The filter-then-fold balance is the sum of every payout's
      contribution: pending and processing payouts add nothing. */
  lemma {:induction false} CompletedBalanceIsContributions(ps: seq<Payout>)
    ensures CompletedBalance(ps) == BalanceOf(ps)
    decreases |ps|
  {
    if |ps| != 0 {
      var init, last := ps[..|ps| - 1], ps[|ps| - 1];
      assert ps == init + [last];
      CompletedBalanceIsContributions(init);
      BalanceOfSnoc(init, last);
      if last.status == Completed {
        assert CompletedOnly(ps) == CompletedOnly(init) + [last];
        assert (CompletedOnly(init) + [last])[..|CompletedOnly(init)|] == CompletedOnly(init);
      }
    }
  }

  /** The balance of two lists of payouts together is the sum of their
      balances. */
  lemma {:induction false} CompletedBalanceConcat(a: seq<Payout>, b: seq<Payout>)
    ensures CompletedBalance(a + b) == CompletedBalance(a) + CompletedBalance(b)
    decreases |a|
  {
    CompletedBalanceIsContributions(a + b);
    CompletedBalanceIsContributions(a);
    CompletedBalanceIsContributions(b);
    BalanceOfConcat(a, b);
  }

  lemma {:induction false} BalanceOfConcat(a: seq<Payout>, b: seq<Payout>)
    ensures BalanceOf(a + b) == BalanceOf(a) + BalanceOf(b)
    decreases |a|
  {
    if |a| == 0 {
      assert a + b == b;
    } else {
      assert (a + b)[1..] == a[1..] + b;
      BalanceOfConcat(a[1..], b);
    }
  }

  /** A payout that has not completed leaves the balance where it was. */
  lemma UnfinishedAddsNothing(ps: seq<Payout>, p: Payout)
    requires p.status != Completed
    ensures CompletedBalance([p] + ps) == CompletedBalance(ps)
  {
    CompletedBalanceConcat([p], ps);
    assert CompletedOnly([p]) == [];
  }

  /** After a payout completes, the stored balance is no longer the
      balance of the list: `updatePayoutStatus.fulfilled` does not refold. */
  lemma UpdateLeavesBalanceStale()
    ensures var before := [Payout("p1", "u1", 500, Processing, "t0")];
            var after := ReplaceFirst(before, PayoutId, Payout("p1", "u1", 500, Completed, "t0"));
            CompletedBalance(before) == 0 && CompletedBalance(after) == 500
  {
    var before := [Payout("p1", "u1", 500, Processing, "t0")];
    var done := Payout("p1", "u1", 500, Completed, "t0");
    assert IsFirstMatch(before, PayoutId, "p1", 0);
    var after := ReplaceFirst(before, PayoutId, done);
    assert after == [done];
    assert CompletedOnly(before) == CompletedOnly(before[..0]);
    assert CompletedOnly(after) == CompletedOnly(after[..0]) + [done];
    assert SumAmounts([done]) == SumAmounts([done][..0]) + 500;
  }

  class PayoutState {
    var payouts: seq<Payout>
    var isLoading: bool
    var error: Option<string>
    var currentBalance: int

    /** `initialState`. */
    constructor ()
      ensures payouts == [] && !isLoading && error == None && currentBalance == 0
    {
      payouts := [];
      isLoading := false;
      error := None;
      currentBalance := 0;
    }

    method SetCurrentBalance(payload: int)
      modifies this
      ensures currentBalance == payload
      ensures payouts == old(payouts) && isLoading == old(isLoading) && error == old(error)
    {
      currentBalance := payload;
    }

    /** Every `*.pending` case of the three thunks. */
    method Pending()
      modifies this
      ensures isLoading && error == None
      ensures payouts == old(payouts) && currentBalance == old(currentBalance)
    {
      isLoading := true;
      error := None;
    }

    /** Every `*.rejected` case of the three thunks. */
    method Rejected(payload: string)
      modifies this
      ensures !isLoading && error == Some(payload)
      ensures payouts == old(payouts) && currentBalance == old(currentBalance)
    {
      isLoading := false;
      error := Some(payload);
    }

    /** `fetchPayouts.fulfilled`: the list is replaced and the balance is
        the total of its completed payouts. */
    method FetchPayoutsFulfilled(payload: seq<Payout>)
      modifies this
      ensures !isLoading && payouts == payload
      ensures currentBalance == CompletedBalance(payload)
      ensures error == old(error)
    {
      isLoading := false;
      payouts := payload;
      currentBalance := SumAmounts(CompletedOnly(payload));
    }

    /** `createPayout.fulfilled`: the payout goes first; the balance is not
        touched. */
    method CreatePayoutFulfilled(payload: Payout)
      modifies this
      ensures !isLoading && payouts == [payload] + old(payouts)
      ensures currentBalance == old(currentBalance) && error == old(error)
    {
      isLoading := false;
      payouts := [payload] + payouts;
    }

    /** `updatePayoutStatus.fulfilled`: the first payout with the payload's
        id is replaced; the balance is not recomputed. */
    method UpdatePayoutStatusFulfilled(payload: Payout)
      modifies this
      ensures !isLoading && payouts == ReplaceFirst(old(payouts), PayoutId, payload)
      ensures currentBalance == old(currentBalance) && error == old(error)
    {
      isLoading := false;
      var index := FindIndex(payouts, PayoutId, payload.id);
      if index != -1 {
        payouts := payouts[index := payload];
      }
    }
  }
}

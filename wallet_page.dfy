/** app/wallet/page.tsx: the figures of the wallet overview (balance,
    pending withdrawals and their sum, total earned) and the sign, colour
    and badge of each entry in the history, for a caller that supplies the
    wallet and its history. Loading them is not part of this model. */
module WalletPage {
  import Common

  /** The entry kinds the page distinguishes, plus purchases. */
  datatype EntryKind = Deposit | Withdrawal | Sale | Referral | Purchase
  datatype EntryStatus = Pending | Completed | Failed

  datatype Entry = Entry(kind: EntryKind, status: EntryStatus, amount: real, description: string)

  datatype Colour = Green | Red
  datatype BadgeVariant = Default | Secondary | Destructive

  /** `wallet?.balance || 0`: no wallet shows 0. */
  function Balance(wallet: Common.Option<real>): (b: real)
    ensures wallet.None? ==> b == 0.0
    ensures wallet.Some? ==> b == wallet.value
  {
    if wallet.Some? && wallet.value != 0.0 then wallet.value else 0.0
  }

  predicate IsPendingWithdrawal(e: Entry) {
    e.kind == Withdrawal && e.status == Pending
  }

  /** The entries that are withdrawals still pending, in their original order. */
  function PendingWithdrawals(entries: seq<Entry>): (r: seq<Entry>)
    ensures |r| <= |entries|
  {
    if entries == [] then []
    else PendingWithdrawals(entries[..|entries| - 1])
         + (if IsPendingWithdrawal(entries[|entries| - 1]) then [entries[|entries| - 1]] else [])
  }

  /** `reduce((sum, t) => sum + t.amount, 0)`: the amounts added left to right. */
  function SumAmounts(entries: seq<Entry>): real {
    if entries == [] then 0.0 else SumAmounts(entries[..|entries| - 1]) + entries[|entries| - 1].amount
  }

  /** The figures of the overview cards. */
  datatype Summary = Summary(balance: real, pendingCount: nat, totalPending: real, totalEarned: real)

  function Summarize(wallet: Common.Option<real>, entries: seq<Entry>): (s: Summary)
    ensures s.balance == Balance(wallet)
    ensures s.pendingCount == |PendingWithdrawals(entries)| <= |entries|
    ensures s.totalPending == SumAmounts(PendingWithdrawals(entries))
    ensures s.totalEarned == s.balance + s.totalPending
  {
    var pending := PendingWithdrawals(entries);
    var total := SumAmounts(pending);
    Summary(Balance(wallet), |pending|, total, Balance(wallet) + total)
  }

  /** The pending withdrawals are exactly the entries that are withdrawals
      with status PENDING. */
  lemma {:induction false} PendingMembers(entries: seq<Entry>)
    ensures forall e :: e in PendingWithdrawals(entries) <==> e in entries && IsPendingWithdrawal(e)
    decreases |entries|
  {
    if entries != [] {
      var init, last := entries[..|entries| - 1], entries[|entries| - 1];
      PendingMembers(init);
      assert entries == init + [last];
    }
  }

  /** Filtering commutes with concatenation: the pending withdrawals of a
      history are those of its first part followed by those of the rest. */
  lemma {:induction false} PendingOfConcat(a: seq<Entry>, b: seq<Entry>)
    ensures PendingWithdrawals(a + b) == PendingWithdrawals(a) + PendingWithdrawals(b)
    decreases |b|
  {
    if b == [] {
      assert a + b == a;
    } else {
      var init, last := b[..|b| - 1], b[|b| - 1];
      var tail := if IsPendingWithdrawal(last) then [last] else [];
      PendingOfConcat(a, init);
      assert (a + b)[..|a + b| - 1] == a + init && (a + b)[|a + b| - 1] == last;
      assert PendingWithdrawals(a + b) == PendingWithdrawals(a + init) + tail;
      assert PendingWithdrawals(b) == PendingWithdrawals(init) + tail;
    }
  }

  /** The sum of a concatenation is the sum of the parts. */
  lemma {:induction false} SumOfConcat(a: seq<Entry>, b: seq<Entry>)
    ensures SumAmounts(a + b) == SumAmounts(a) + SumAmounts(b)
    decreases |b|
  {
    if b == [] {
      assert a + b == a;
    } else {
      var init := b[..|b| - 1];
      SumOfConcat(a, init);
      assert (a + b)[..|a + b| - 1] == a + init;
    }
  }

  /** Filtering twice is filtering once. */
  lemma {:induction false} PendingIdempotent(entries: seq<Entry>)
    ensures PendingWithdrawals(PendingWithdrawals(entries)) == PendingWithdrawals(entries)
    decreases |entries|
  {
    if entries != [] {
      var init, last := entries[..|entries| - 1], entries[|entries| - 1];
      PendingIdempotent(init);
      var tail := if IsPendingWithdrawal(last) then [last] else [];
      PendingOfConcat(PendingWithdrawals(init), tail);
    }
  }

  /** Adding an entry to the history adds its amount to the pending total
      when it is a pending withdrawal, and nothing otherwise. */
  lemma PendingTotalStep(entries: seq<Entry>, e: Entry)
    ensures SumAmounts(PendingWithdrawals(entries + [e])) ==
              SumAmounts(PendingWithdrawals(entries)) + (if IsPendingWithdrawal(e) then e.amount else 0.0)
  {
    PendingOfConcat(entries, [e]);
    SumOfConcat(PendingWithdrawals(entries), PendingWithdrawals([e]));
    assert PendingWithdrawals([e]) == [] + (if IsPendingWithdrawal(e) then [e] else []) by {
      assert [e][..0] == [];
    }
  }

  /** With no negative amounts, the pending total is not negative and the
      "Total Earned" figure is at least the balance. */
  lemma {:induction false} TotalEarnedAtLeastBalance(wallet: Common.Option<real>, entries: seq<Entry>)
    requires forall i :: 0 <= i < |entries| ==> entries[i].amount >= 0.0
    ensures Summarize(wallet, entries).totalPending >= 0.0
    ensures Summarize(wallet, entries).totalEarned >= Summarize(wallet, entries).balance
    decreases |entries|
  {
    if entries != [] {
      var init := entries[..|entries| - 1];
      TotalEarnedAtLeastBalance(wallet, init);
      PendingTotalStep(init, entries[|entries| - 1]);
      assert init + [entries[|entries| - 1]] == entries;
    }
  }

  /** The sign before an amount: "-" exactly for withdrawals. */
  function Sign(kind: EntryKind): (s: string)
    ensures s == "-" <==> kind == Withdrawal
    ensures s == "+" <==> kind != Withdrawal
  {
    if kind == Withdrawal then "-" else "+"
  }

  /** The amount's colour: green exactly for deposits, sales and referrals. */
  function AmountColour(kind: EntryKind): (c: Colour)
    ensures c == Green <==> kind in {Deposit, Sale, Referral}
    ensures c == Red <==> kind in {Withdrawal, Purchase}
  {
    match kind
    case Deposit | Sale | Referral => Green
    case Withdrawal | Purchase => Red
  }

  function Badge(status: EntryStatus): (v: BadgeVariant)
    ensures v == Default <==> status == Completed
    ensures v == Secondary <==> status == Pending
    ensures v == Destructive <==> status == Failed
  {
    match status
    case Completed => Default
    case Pending => Secondary
    case Failed => Destructive
  }
}

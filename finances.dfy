/** The Finances page (pages/Finances.tsx): the "Record Payment" form, the
    transaction table (newest first, with the payer's name or 'Unknown')
    and the fee-status list with its signed, coloured balances. */
module FinancesPage {
  import opened Common
  import opened Text
  import opened Types
  import opened AppStore

  /** The form's `Partial<Payment>`. The amount is the number input's value
      (the input is `required`); the reference is missing until typed. */
  datatype PaymentForm = PaymentForm(
    playerId: string,
    amount: int,
    payMethod: PaymentMethod,
    date: string,
    reference: Option<string>)

  /** `state.players[0]?.id || ''`. */
  function FirstPlayerId(players: seq<Player>): (id: string)
    ensures |players| > 0 ==> id == players[0].id
    ensures |players| == 0 ==> id == ""
  {
    if |players| > 0 then players[0].id else ""
  }

  /** The form as the page opens it: first player, 0, CASH, today. */
  function BlankForm(players: seq<Player>, today: string): (f: PaymentForm)
    ensures f.playerId == FirstPlayerId(players) && f.amount == 0
    ensures f.payMethod == Cash && f.date == today && f.reference.None?
  {
    PaymentForm(FirstPlayerId(players), 0, Cash, today, None)
  }

  /** The payment `handleAddPayment` dispatches: the form's values as they
      are, with no check on the amount's sign or the player's existence. */
  function NewPayment(f: PaymentForm, now: nat): (pay: Payment)
    ensures pay.id == "pay" + NatToString(now)
    ensures pay.playerId == f.playerId && pay.amount == f.amount
    ensures pay.payMethod == f.payMethod && pay.date == f.date && pay.reference == f.reference
  {
    Payment("pay" + NatToString(now), f.playerId, f.date, f.amount, f.payMethod, f.reference)
  }

  /** Nothing stops a zero or negative payment: it is recorded, and a
      negative one lowers the payer's balance. */
  lemma {:induction false} NegativePaymentDebits(s: AppState, f: PaymentForm, now: nat, i: nat)
    requires i < |s.players| && s.players[i].id == f.playerId && f.amount < 0
    ensures Reduce(s, AddPayment(NewPayment(f, now))).payments == s.payments + [NewPayment(f, now)]
    ensures Reduce(s, AddPayment(NewPayment(f, now))).players[i].balance < s.players[i].balance
  {
    AddPaymentCredits(s, NewPayment(f, now));
  }

  function PlayerIdIs(id: string): Player -> bool
  {
    (p: Player) => p.id == id
  }

  /** `player?.name || 'Unknown'` for the first player with the payer's id. */
  function PayerName(players: seq<Player>, playerId: string): (name: string)
    ensures (forall i :: 0 <= i < |players| ==> players[i].id != playerId) ==> name == "Unknown"
    ensures forall i :: FirstMatch(players, PlayerIdIs(playerId), i) ==>
      name == OrElse(Some(players[i].name), "Unknown")
  {
    var found := Find(players, PlayerIdIs(playerId));
    if found.Some? then OrElse(Some(found.value.name), "Unknown") else "Unknown"
  }

  /** One row of "Recent Transactions". */
  datatype Row = Row(date: string, player: string, payMethod: PaymentMethod, amountText: string)

  function RowOf(players: seq<Player>, pay: Payment): Row
  {
    Row(pay.date, PayerName(players, pay.playerId), pay.payMethod, "+MVR " + IntToString(pay.amount))
  }

  /** The table: a reversed copy of the ledger, one row per payment. */
  function Transactions(s: AppState): (rows: seq<Row>)
    ensures |rows| == |s.payments|
  {
    RowsOf(s.players, Reverse(s.payments))
  }

  /** Row `k` of the table shows the `k`-th newest payment. */
  lemma {:induction false} TransactionsNewestFirst(s: AppState)
    ensures forall k :: 0 <= k < |Transactions(s)| ==>
      Transactions(s)[k] == RowOf(s.players, s.payments[|s.payments| - 1 - k])
  {
    var rows := Transactions(s);
    forall k | 0 <= k < |rows| ensures rows[k] == RowOf(s.players, s.payments[|s.payments| - 1 - k]) {
      assert Reverse(s.payments)[k] == s.payments[|s.payments| - 1 - k];
    }
  }

  /** `.map(...)`: one row per payment, in the order given. */
  function RowsOf(players: seq<Player>, payments: seq<Payment>): (rows: seq<Row>)
    ensures |rows| == |payments|
    ensures forall k :: 0 <= k < |rows| ==> rows[k] == RowOf(players, payments[k])
  {
    seq(|payments|, k requires 0 <= k < |payments| => RowOf(players, payments[k]))
  }

  /** A payment just recorded heads the table, and the older rows follow
      unchanged: crediting a balance leaves every payer's name as it was. */
  lemma {:induction false} NewestFirst(s: AppState, pay: Payment)
    ensures var t := Transactions(Reduce(s, AddPayment(pay)));
      t[0] == RowOf(s.players, pay) && t[1..] == Transactions(s)
  {
    var s' := Reduce(s, AddPayment(pay));
    AddPaymentCredits(s, pay);
    assert forall i :: 0 <= i < |s.players| ==>
      s'.players[i].id == s.players[i].id && s'.players[i].name == s.players[i].name;
    forall q: Payment ensures RowOf(s'.players, q) == RowOf(s.players, q) {
      SameNames(s.players, s'.players, q.playerId);
    }
    RowsAfterAppend(s, s', pay);
  }

  /** When the ledger grows by `pay` and every row still reads the same,
      the table gains `pay`'s row at the top and keeps the rest. */
  lemma {:induction false} RowsAfterAppend(s: AppState, s': AppState, pay: Payment)
    requires s'.payments == s.payments + [pay]
    requires forall q: Payment :: RowOf(s'.players, q) == RowOf(s.players, q)
    ensures Transactions(s')[0] == RowOf(s.players, pay) && Transactions(s')[1..] == Transactions(s)
  {
    var t, u := Transactions(s'), Transactions(s);
    TransactionsNewestFirst(s);
    TransactionsNewestFirst(s');
    assert t[0] == RowOf(s'.players, pay);
    assert forall k :: 0 <= k < |u| ==> t[1..][k] == u[k];
  }

  /** The payer's name depends only on the roster's ids and names. */
  lemma {:induction false} SameNames(ps: seq<Player>, qs: seq<Player>, id: string)
    requires |ps| == |qs|
    requires forall i :: 0 <= i < |ps| ==> ps[i].id == qs[i].id && ps[i].name == qs[i].name
    ensures PayerName(ps, id) == PayerName(qs, id)
  {
    var f := PlayerIdIs(id);
    if forall i :: 0 <= i < |ps| ==> ps[i].id != id {
    } else {
      var i :| 0 <= i < |ps| && ps[i].id == id;
      var j := FirstIndex(ps, id, i);
      assert FirstMatch(qs, f, j);
    }
  }

  /** The first player with `id`, at or before `i`. */
  lemma {:induction false} FirstIndex(ps: seq<Player>, id: string, i: nat) returns (j: nat)
    requires i < |ps| && ps[i].id == id
    ensures FirstMatch(ps, PlayerIdIs(id), j)
  {
    if exists k :: 0 <= k < i && ps[k].id == id {
      var k :| 0 <= k < i && ps[k].id == id;
      j := FirstIndex(ps, id, k);
    } else {
      j := i;
    }
  }

  /** The fee-status text and whether it is red: `-MVR |b|` for a negative
      balance, `MVR b` otherwise. */
  function BalanceText(b: int): (shown: (string, bool))
    ensures shown.1 <==> b < 0
    ensures b < 0 ==> |shown.0| > 5 && shown.0[..5] == "-MVR " && AllDigits(shown.0[5..])
    ensures b >= 0 ==> |shown.0| > 4 && shown.0[..4] == "MVR " && AllDigits(shown.0[4..])
  {
    if b < 0 then ("-MVR " + NatToString(-b), true) else ("MVR " + NatToString(b), false)
  }

  /** The text gives the balance back: the digits are its magnitude and the
      leading minus its sign. */
  lemma {:induction false} BalanceTextRoundTrip(b: int)
    ensures b < 0 ==> ParseDigits(BalanceText(b).0[5..]) == -b
    ensures b >= 0 ==> ParseDigits(BalanceText(b).0[4..]) == b
  {
    if b < 0 {
      NatToStringRoundTrip(-b);
      assert BalanceText(b).0[5..] == NatToString(-b);
    } else {
      NatToStringRoundTrip(b);
      assert BalanceText(b).0[4..] == NatToString(b);
    }
  }

  /** The page's modal and form. */
  class FinancesPage {
    var showAddModal: bool
    var form: PaymentForm

    constructor (players: seq<Player>, today: string)
      ensures !showAddModal && form == BlankForm(players, today)
    {
      showAddModal := false;
      form := BlankForm(players, today);
    }

    /** Submitting the form: dispatch ADD_PAYMENT and close the modal; the
        form keeps its values. */
    method RecordPayment(store: Store, now: nat)
      modifies this, store
      ensures store.state == Reduce(old(store.state), AddPayment(NewPayment(old(form), now)))
      ensures !showAddModal && form == old(form)
    {
      store.Dispatch(AddPayment(NewPayment(form, now)));
      showAddModal := false;
    }
  }
}

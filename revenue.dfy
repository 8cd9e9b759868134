/** Grouping payments by a key and summing the amounts per key, keeping the
    keys in the order they first occur. The Dashboard's revenue chart groups
    by date (pages/Dashboard.tsx) and the Reports page by month
    (pages/Reports.tsx); both are this one fold with a different key. */
module Revenue {
  import opened Common
  import opened Types

  /** One chart entry: a key and the total paid under it. */
  datatype Bucket = Bucket(key: string, amount: int)

  function Keys(bs: seq<Bucket>): (ks: seq<string>)
    ensures |ks| == |bs|
    ensures forall i :: 0 <= i < |bs| ==> ks[i] == bs[i].key
  {
    seq(|bs|, i requires 0 <= i < |bs| => bs[i].key)
  }

  /** The keys of the payments, one per payment, in ledger order. */
  function KeyList(ps: seq<Payment>, key: Payment -> string): (ks: seq<string>)
    ensures |ks| == |ps|
    ensures forall i :: 0 <= i < |ps| ==> ks[i] == key(ps[i])
  {
    seq(|ps|, i requires 0 <= i < |ps| => key(ps[i]))
  }

  /** `p.date.substring(0, 7)`: the YYYY-MM part of an ISO date. */
  function MonthOf(date: string): (m: string)
    ensures |m| == if |date| < 7 then |date| else 7
    ensures m == date[..|m|]
  {
    if |date| <= 7 then date else date[..7]
  }

  const ByDate: Payment -> string := (p: Payment) => p.date
  const ByMonth: Payment -> string := (p: Payment) => MonthOf(p.date)

  function PayAmount(p: Payment): int { p.amount }
  function BucketAmount(b: Bucket): int { b.amount }

  /** The amount a payment contributes to the group `k`. */
  function AmountAt(key: Payment -> string, k: string): Payment -> int
  {
    (p: Payment) => if key(p) == k then p.amount else 0
  }

  /** One step of the fold: add `amount` to the first bucket with key `k`,
      or open a new bucket at the end. */
  function Deposit(bs: seq<Bucket>, k: string, amount: int): seq<Bucket>
  {
    if k in Keys(bs) then
      var j := IndexOf(Keys(bs), k);
      bs[j := Bucket(k, bs[j].amount + amount)]
    else
      bs + [Bucket(k, amount)]
  }

  /** The fold over the whole ledger. */
  function Totals(ps: seq<Payment>, key: Payment -> string): seq<Bucket>
  {
    if ps == [] then []
    else
      var p := ps[|ps| - 1];
      Deposit(Totals(ps[..|ps| - 1], key), key(p), p.amount)
  }

  lemma {:induction false} DepositKeys(bs: seq<Bucket>, k: string, amount: int)
    ensures Keys(Deposit(bs, k, amount)) == if k in Keys(bs) then Keys(bs) else Keys(bs) + [k]
  {
  }

  /** A deposit adds its amount to the grand total. */
  lemma {:induction false} DepositSum(bs: seq<Bucket>, k: string, amount: int)
    ensures Sum(Deposit(bs, k, amount), BucketAmount) == Sum(bs, BucketAmount) + amount
  {
    if k in Keys(bs) {
      var j := IndexOf(Keys(bs), k);
      SumUpdate(bs, j, Bucket(k, bs[j].amount + amount), BucketAmount);
    } else {
      assert (bs + [Bucket(k, amount)])[..|bs|] == bs;
    }
  }

  /** With distinct keys, a deposit raises exactly the bucket of its key. */
  lemma {:induction false} DepositAmounts(bs: seq<Bucket>, k: string, amount: int)
    requires Distinct(Keys(bs))
    ensures var d := Deposit(bs, k, amount);
      forall i :: 0 <= i < |d| ==>
        d[i].amount == (if i < |bs| then bs[i].amount else 0) + (if d[i].key == k then amount else 0)
  {
    if k in Keys(bs) {
      var j := IndexOf(Keys(bs), k);
      assert forall i :: 0 <= i < |bs| && i != j ==> Keys(bs)[i] != Keys(bs)[j];
    }
  }

  /** The chart lists each key once, in the order of first occurrence. */
  lemma {:induction false} TotalsKeys(ps: seq<Payment>, key: Payment -> string)
    ensures Keys(Totals(ps, key)) == Dedup(KeyList(ps, key))
  {
    if ps != [] {
      var n := |ps| - 1;
      TotalsKeys(ps[..n], key);
      KeyListSnoc(ps, key);
      DedupSnoc(KeyList(ps[..n], key), key(ps[n]));
      DepositKeys(Totals(ps[..n], key), key(ps[n]), ps[n].amount);
    }
  }

  /** The keys of a non-empty ledger: those of all but the last payment,
      then the last one's. */
  lemma {:induction false} KeyListSnoc(ps: seq<Payment>, key: Payment -> string)
    requires ps != []
    ensures KeyList(ps, key) == KeyList(ps[..|ps| - 1], key) + [key(ps[|ps| - 1])]
  {
  }

  /** Distinct keys, and a key is listed iff some payment has it. */
  lemma {:induction false} TotalsKeysDistinct(ps: seq<Payment>, key: Payment -> string)
    ensures Distinct(Keys(Totals(ps, key)))
    ensures forall k :: k in Keys(Totals(ps, key)) <==> exists i :: 0 <= i < |ps| && key(ps[i]) == k
  {
    TotalsKeys(ps, key);
    DedupDistinct(KeyList(ps, key));
    var ks := KeyList(ps, key);
    forall k ensures k in ks <==> exists i :: 0 <= i < |ps| && key(ps[i]) == k {
      if k in ks {
        var i :| 0 <= i < |ks| && ks[i] == k;
      }
    }
  }

  /** Every bucket holds the sum of the amounts of the payments with its key. */
  lemma {:induction false} TotalsAmounts(ps: seq<Payment>, key: Payment -> string)
    ensures forall i :: 0 <= i < |Totals(ps, key)| ==>
      Totals(ps, key)[i].amount == Sum(ps, AmountAt(key, Totals(ps, key)[i].key))
  {
    if ps != [] {
      var n := |ps| - 1;
      var front := ps[..n];
      var p := ps[n];
      var before := Totals(front, key);
      TotalsAmounts(front, key);
      TotalsKeysDistinct(front, key);
      DepositAmounts(before, key(p), p.amount);
      DepositKeys(before, key(p), p.amount);
      var after := Totals(ps, key);
      forall i | 0 <= i < |after|
        ensures after[i].amount == Sum(ps, AmountAt(key, after[i].key))
      {
        var c := after[i].key;
        if i == |before| {
          assert c == key(p) && c !in Keys(before);
          forall m | 0 <= m < |front| ensures AmountAt(key, c)(front[m]) == 0 {
            assert key(front[m]) != c;
          }
          SumZero(front, AmountAt(key, c));
        } else {
          assert Keys(after)[i] == Keys(before)[i];
        }
      }
    }
  }

  /** Grouping neither loses nor invents money. */
  lemma {:induction false} TotalsSum(ps: seq<Payment>, key: Payment -> string)
    ensures Sum(Totals(ps, key), BucketAmount) == Sum(ps, PayAmount)
  {
    if ps != [] {
      var n := |ps| - 1;
      TotalsSum(ps[..n], key);
      DepositSum(Totals(ps[..n], key), key(ps[n]), ps[n].amount);
    }
  }

  /** Everything the charts promise about the fold, in one place. */
  lemma {:induction false} TotalsFacts(ps: seq<Payment>, key: Payment -> string)
    ensures Keys(Totals(ps, key)) == Dedup(KeyList(ps, key))
    ensures Distinct(Keys(Totals(ps, key)))
    ensures forall i :: 0 <= i < |Totals(ps, key)| ==>
      Totals(ps, key)[i].amount == Sum(ps, AmountAt(key, Totals(ps, key)[i].key))
    ensures Sum(Totals(ps, key), BucketAmount) == Sum(ps, PayAmount)
  {
    TotalsKeys(ps, key);
    TotalsKeysDistinct(ps, key);
    TotalsAmounts(ps, key);
    TotalsSum(ps, key);
  }
}

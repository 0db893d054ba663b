/**
 * Fallback payment chain (chain of responsibility).
 *
 * Each Account holds a balance and an optional successor. Paying an amount
 * debits the first account along the successor chain whose balance covers
 * the amount; every account before it only forwards the request, and when
 * no account can pay nothing changes.
 *
 * The pointer structure is kept: `successor` is a nullable reference that
 * `SetNext` overwrites. Because `SetNext` does not stop anyone from building
 * a cycle, `Pay` is given (as a ghost argument) the list of accounts it will
 * walk, from the receiver to the account whose successor is null.
 */
module PaymentChain {

  datatype Option<T> = None | Some(value: T)

  class Account {
    const name: string
    var balance: real
    var successor: Account?

    /** The default account: "empty account" with balance 0 and no successor. */
    constructor ()
      ensures name == "empty account" && balance == 0.0 && successor == null
    {
      name := "empty account";
      balance := 0.0;
      successor := null;
    }

    constructor Bank(balance: real)
      ensures name == "bank" && this.balance == balance && successor == null
    {
      name := "bank";
      this.balance := balance;
      successor := null;
    }

    constructor Paypal(balance: real)
      ensures name == "paypal" && this.balance == balance && successor == null
    {
      name := "paypal";
      this.balance := balance;
      successor := null;
    }

    constructor Bitcoin(balance: real)
      ensures name == "bitcoin" && this.balance == balance && successor == null
    {
      name := "bitcoin";
      this.balance := balance;
      successor := null;
    }

    /** Replaces the successor; the balance is untouched. */
    method SetNext(account: Account?)
      modifies this`successor
      ensures successor == account
    {
      successor := account;
    }

    /** Whether this account alone can cover `amount` right now. */
    predicate CanPay(amount: real)
      reads this
      ensures CanPay(amount) <==> amount <= balance
    {
      balance >= amount
    }

    /**
     * Tries this account, then forwards to the successor. Returns the
     * position in `chain` of the account that paid, or None when the chain
     * was exhausted.
     */
    method Pay(amount: real, ghost chain: seq<Account>) returns (payer: Option<nat>)
      requires IsChainFrom(this, chain)
      modifies chain
      ensures forall i :: 0 <= i < |chain| ==> chain[i].successor == old(chain[i].successor)
      ensures payer == FirstPayer(old(Balances(chain)), amount)
      ensures Balances(chain) == Settle(old(Balances(chain)), amount)
      decreases |chain|
    {
      ghost var before := Balances(chain);
      if CanPay(amount) {
        balance := balance - amount;
        payer := Some(0);
        BalancesAfterUpdate(chain, 0, before);
        assert Balances(chain) == Settle(before, amount);
      } else if successor != null {
        ChainTail(this, chain);
        ghost var tail := chain[1..];
        assert Balances(tail) == before[1..];
        var rest := successor.Pay(amount, tail);
        payer := if rest.Some? then Some(rest.value + 1) else None;
        assert balance == before[0];
        BalancesCons(chain);
        SettleForward(before, amount);
      } else {
        payer := None;
      }
    }
  }

  /**
   * `chain` lists, in traversal order, the accounts reached from `head` by
   * following successors until the null tail; no account occurs twice.
   */
  ghost predicate IsChainFrom(head: Account, chain: seq<Account>)
    reads chain
  {
    && |chain| > 0
    && chain[0] == head
    && (forall i :: 0 <= i < |chain| - 1 ==> chain[i].successor == chain[i + 1])
    && chain[|chain| - 1].successor == null
    && (forall i, j :: 0 <= i < j < |chain| ==> chain[i] != chain[j])
  }

  /** The balances of the accounts of `chain`, in chain order. */
  function Balances(chain: seq<Account>): (bs: seq<real>)
    reads chain
    ensures |bs| == |chain|
    ensures forall i :: 0 <= i < |chain| ==> bs[i] == chain[i].balance
  {
    if chain == [] then [] else [chain[0].balance] + Balances(chain[1..])
  }

  /**
   * The position of the first balance that covers `amount`, or None when
   * no balance does.
   */
  function FirstPayer(bs: seq<real>, amount: real): (r: Option<nat>)
    ensures r.Some? ==> r.value < |bs| && bs[r.value] >= amount
    ensures r.Some? ==> forall j :: 0 <= j < r.value ==> bs[j] < amount
    ensures r.None? <==> forall j :: 0 <= j < |bs| ==> bs[j] < amount
  {
    if bs == [] then None
    else if bs[0] >= amount then Some(0)
    else
      match FirstPayer(bs[1..], amount)
      case None => None
      case Some(k) => Some(k + 1)
  }

  /** The balances after paying `amount`: only the first capable account is debited. */
  function Settle(bs: seq<real>, amount: real): (r: seq<real>)
    ensures |r| == |bs|
    ensures FirstPayer(bs, amount).None? ==> r == bs
    ensures FirstPayer(bs, amount).Some? ==>
              var k := FirstPayer(bs, amount).value;
              && r[k] == bs[k] - amount
              && r[k] >= 0.0
              && forall j :: 0 <= j < |bs| && j != k ==> r[j] == bs[j]
  {
    match FirstPayer(bs, amount)
    case None => bs
    case Some(k) => bs[k := bs[k] - amount]
  }

  /** An account that cannot pay forwards the same amount and keeps its balance. */
  lemma SettleForward(bs: seq<real>, amount: real)
    requires |bs| > 0 && bs[0] < amount
    ensures Settle(bs, amount) == [bs[0]] + Settle(bs[1..], amount)
  {
    var r, t := Settle(bs, amount), Settle(bs[1..], amount);
    assert forall j :: 0 < j < |bs| ==> r[j] == t[j - 1];
  }

  /**
   * Accounts after the payer are never examined: whatever follows the
   * payer, the same account pays.
   */
  lemma {:induction false} PayerIgnoresLaterAccounts(bs: seq<real>, amount: real, later: seq<real>)
    requires FirstPayer(bs, amount).Some?
    ensures var k := FirstPayer(bs, amount).value;
            FirstPayer(bs[..k + 1] + later, amount) == Some(k)
  {
    var k := FirstPayer(bs, amount).value;
    if k > 0 {
      assert (bs[..k + 1] + later)[1..] == bs[1..][..k] + later;
      PayerIgnoresLaterAccounts(bs[1..], amount, later);
    }
  }

  /** The account heading a chain can pay exactly when the search stops at it. */
  lemma CanPayIsHeadPaying(chain: seq<Account>, amount: real)
    requires |chain| > 0
    ensures chain[0].CanPay(amount) <==> FirstPayer(Balances(chain), amount) == Some(0)
  {
  }

  lemma ChainTail(head: Account, chain: seq<Account>)
    requires IsChainFrom(head, chain) && head.successor != null
    ensures |chain| > 1 && IsChainFrom(head.successor, chain[1..]) && head !in chain[1..]
  {
  }

  lemma BalancesCons(chain: seq<Account>)
    requires |chain| > 0
    ensures Balances(chain) == [chain[0].balance] + Balances(chain[1..])
  {
  }

  lemma BalancesAfterUpdate(chain: seq<Account>, k: nat, before: seq<real>)
    requires k < |chain| && |before| == |chain|
    requires forall j :: 0 <= j < |chain| && j != k ==> chain[j].balance == before[j]
    ensures Balances(chain) == before[k := chain[k].balance]
  {
  }

  lemma ThreeAccounts(a: Account, b: Account, c: Account)
    requires a.successor == b && b.successor == c && c.successor == null
    requires a != b && b != c && a != c
    ensures IsChainFrom(a, [a, b, c])
    ensures Balances([a, b, c]) == [a.balance, b.balance, c.balance]
  {
  }

  /** Paying 250 from balances 100, 200, 300 falls to the third account, which keeps 50. */
  lemma ScenarioOutcome()
    ensures FirstPayer([100.0, 200.0, 300.0], 250.0) == Some(2)
    ensures Settle([100.0, 200.0, 300.0], 250.0) == [100.0, 200.0, 50.0]
  {
  }

  /**
   * The demonstration: bank (100), paypal (200) and bitcoin (300) chained in
   * that order; paying 250 is refused by bank and paypal and done by bitcoin.
   */
  method BankPaypalBitcoin() returns (payer: Option<nat>, balances: seq<real>)
    ensures payer == Some(2)
    ensures balances == [100.0, 200.0, 50.0]
  {
    var bank := new Account.Bank(100.0);
    var paypal := new Account.Paypal(200.0);
    var bitcoin := new Account.Bitcoin(300.0);
    bank.SetNext(paypal);
    paypal.SetNext(bitcoin);
    ghost var chain := [bank, paypal, bitcoin];
    ThreeAccounts(bank, paypal, bitcoin);
    ScenarioOutcome();
    payer := bank.Pay(250.0, chain);
    ThreeAccounts(bank, paypal, bitcoin);
    balances := [bank.balance, paypal.balance, bitcoin.balance];
  }
}

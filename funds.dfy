/**
 * The balance movement of `/transfer`: `$set` the sender's balance to the
 * session snapshot's balance minus the amount, then `$inc` the destination
 * by the amount. Nothing here checks the sign of the amount or that the two
 * accounts differ, and the sender's new balance comes from the snapshot,
 * not from the store.
 */
module Funds {
  import opened Wrappers
  import opened Store

  /** The table after both updates of a transfer. */
  function MoveFunds(accounts: seq<Account>, sender: string, snapshotBalance: int, dest: string, amount: int): (r: seq<Account>)
    ensures SameIdentities(accounts, r)
  {
    IncBalance(SetBalance(accounts, ByUsername(sender), snapshotBalance - amount), ByNumber(dest), amount)
  }

  /** Where both parties are found, the two updates are two index writes. */
  lemma MoveFundsAt(accounts: seq<Account>, sender: string, snapshotBalance: int, dest: string, amount: int, si: nat, di: nat)
    requires FindFirst(accounts, ByUsername(sender)) == Some(si)
    requires FindFirst(accounts, ByNumber(dest)) == Some(di)
    ensures var mid := accounts[si := accounts[si].(balance := snapshotBalance - amount)];
      MoveFunds(accounts, sender, snapshotBalance, dest, amount)
        == mid[di := mid[di].(balance := mid[di].balance + amount)]
  {
    var mid := accounts[si := accounts[si].(balance := snapshotBalance - amount)];
    assert SetBalance(accounts, ByUsername(sender), snapshotBalance - amount) == mid by {
      SetBalanceAt(accounts, ByUsername(sender), snapshotBalance - amount, si);
    }
    assert FindFirst(mid, ByNumber(dest)) == Some(di) by {
      assert SameIdentities(accounts, mid);
      FindFirstSameIdentities(accounts, mid, ByNumber(dest));
    }
    IncBalanceAt(mid, ByNumber(dest), amount, di);
  }

  /**
   * The exact effect on a table where both parties are found: the sender
   * holds the snapshot balance minus the amount, the destination gains the
   * amount (both at once for a self-transfer), every other document is
   * untouched and no username, number or email changes.
   */
  lemma MoveFundsEffect(accounts: seq<Account>, sender: string, snapshotBalance: int, dest: string, amount: int, si: nat, di: nat)
    requires FindFirst(accounts, ByUsername(sender)) == Some(si)
    requires FindFirst(accounts, ByNumber(dest)) == Some(di)
    ensures var r := MoveFunds(accounts, sender, snapshotBalance, dest, amount);
      SameIdentities(accounts, r) &&
      (si != di ==>
        r[si] == accounts[si].(balance := snapshotBalance - amount) &&
        r[di] == accounts[di].(balance := accounts[di].balance + amount)) &&
      (si == di ==> r[si] == accounts[si].(balance := snapshotBalance)) &&
      (forall i :: 0 <= i < |r| && i != si && i != di ==> r[i] == accounts[i])
  {
    MoveFundsAt(accounts, sender, snapshotBalance, dest, amount, si, di);
  }

  /**
   * The same effect as seen by `findOne`: between two different users, the
   * sender's document now holds the snapshot balance minus the amount and the
   * destination's its old balance plus the amount.
   */
  lemma MoveFundsBetween(accounts: seq<Account>, sender: Account, snapshotBalance: int, dest: Account, amount: int)
    requires Lookup(accounts, ByUsername(sender.username)) == Some(sender)
    requires Lookup(accounts, ByNumber(dest.accountNumber)) == Some(dest)
    requires dest.username != sender.username
    ensures var r := MoveFunds(accounts, sender.username, snapshotBalance, dest.accountNumber, amount);
      Lookup(r, ByUsername(sender.username)) == Some(sender.(balance := snapshotBalance - amount))
      && Lookup(r, ByNumber(dest.accountNumber)) == Some(dest.(balance := dest.balance + amount))
  {
    var si := FindFirst(accounts, ByUsername(sender.username)).value;
    var di := FindFirst(accounts, ByNumber(dest.accountNumber)).value;
    var r := MoveFunds(accounts, sender.username, snapshotBalance, dest.accountNumber, amount);
    MoveFundsEffect(accounts, sender.username, snapshotBalance, dest.accountNumber, amount, si, di);
    FindFirstSameIdentities(accounts, r, ByUsername(sender.username));
    FindFirstSameIdentities(accounts, r, ByNumber(dest.accountNumber));
  }

  /**
   * Conservation: when the snapshot balance is the sender's stored balance,
   * a transfer leaves the sum of all balances unchanged, self-transfer
   * included, for every amount of either sign. Balances here are exact
   * integers; the server's are doubles, which agree with them only while
   * balances and amounts stay below 2^53 in magnitude.
   */
  lemma MoveFundsConserves(accounts: seq<Account>, sender: string, snapshotBalance: int, dest: string, amount: int)
    requires FindFirst(accounts, ByUsername(sender)).Some?
    requires accounts[FindFirst(accounts, ByUsername(sender)).value].balance == snapshotBalance
    requires FindFirst(accounts, ByNumber(dest)).Some?
    ensures Total(MoveFunds(accounts, sender, snapshotBalance, dest, amount)) == Total(accounts)
  {
    var si := FindFirst(accounts, ByUsername(sender)).value;
    var di := FindFirst(accounts, ByNumber(dest)).value;
    MoveFundsAt(accounts, sender, snapshotBalance, dest, amount, si, di);
    var mid := accounts[si := accounts[si].(balance := snapshotBalance - amount)];
    TotalUpdate(accounts, si, mid[si]);
    TotalUpdate(mid, di, mid[di].(balance := mid[di].balance + amount));
  }

  /**
   * With a non-negative amount that the snapshot balance covers, no balance
   * becomes negative (whether or not the snapshot is current).
   */
  lemma MoveFundsKeepsNonNegative(accounts: seq<Account>, sender: string, snapshotBalance: int, dest: string, amount: int)
    requires 0 <= amount <= snapshotBalance
    requires forall i :: 0 <= i < |accounts| ==> accounts[i].balance >= 0
    ensures var r := MoveFunds(accounts, sender, snapshotBalance, dest, amount);
      forall i :: 0 <= i < |r| ==> r[i].balance >= 0
  {
    var mid := SetBalance(accounts, ByUsername(sender), snapshotBalance - amount);
    assert forall i :: 0 <= i < |mid| ==> mid[i].balance >= 0;
  }

  /** Two-document table used by the examples below. */
  function Pair(a: int, b: int): seq<Account> {
    [Account(Profile("", "", "", "", ""), "a@x", "alice", "", true, "1000000000", a),
     Account(Profile("", "", "", "", ""), "b@x", "bob", "", true, "5500000000", b)]
  }

  /**
   * No sign check: a negative amount passes the funds guard
   * (20000 < -30000 is false) and drives the destination negative.
   */
  lemma NegativeAmountOverdrawsDestination()
    ensures MoveFunds(Pair(20000, 20000), "alice", 20000, "5500000000", -30000) == Pair(50000, -10000)
  {
    assert FindFirst(Pair(20000, 20000), ByUsername("alice")) == Some(0);
    assert FindFirst(Pair(50000, 20000), ByNumber("5500000000")) == Some(1);
  }

  /**
   * The funds guard and the new balance use the snapshot: a snapshot that
   * is higher than the stored balance creates money.
   */
  lemma StaleSnapshotCreatesMoney()
    ensures Total(MoveFunds(Pair(0, 0), "alice", 20000, "5500000000", 5000)) == Total(Pair(0, 0)) + 20000
  {
    assert FindFirst(Pair(0, 0), ByUsername("alice")) == Some(0);
    assert FindFirst(Pair(15000, 0), ByNumber("5500000000")) == Some(1);
    assert MoveFunds(Pair(0, 0), "alice", 20000, "5500000000", 5000) == Pair(15000, 5000);
  }

  /**
   * Two fresh accounts at the opening balance; alice sends 5000 to bob:
   * alice holds 15000, bob 25000, and the total stays 40000.
   */
  lemma AliceSendsBob()
    ensures MoveFunds(Pair(20000, 20000), "alice", 20000, "5500000000", 5000) == Pair(15000, 25000)
    ensures Total(Pair(15000, 25000)) == Total(Pair(20000, 20000))
  {
    assert FindFirst(Pair(20000, 20000), ByUsername("alice")) == Some(0);
    assert FindFirst(Pair(15000, 20000), ByNumber("5500000000")) == Some(1);
  }
}

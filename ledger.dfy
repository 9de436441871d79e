/**
 * The transaction log (`transactionSchema`) and the `/transactions-data`
 * aggregation over it: a `$match` on either party, two `$lookup`s that
 * replace account numbers by usernames, and a `$sort` on the timestamp,
 * newest first.
 */
module Ledger {
  import opened Wrappers
  import opened Store

  /** One completed transfer; `timestamp` is the schema's `Date.now` default. */
  datatype TxRecord = TxRecord(from: string, to: string, amount: int, timestamp: nat)

  /** One row of the history: the counterparties' usernames, or absent. */
  datatype HistoryEntry = HistoryEntry(from: Option<string>, to: Option<string>, amount: int, timestamp: nat)

  /** The `$match` stage. */
  predicate Involves(t: TxRecord, number: string) {
    t.from == number || t.to == number
  }

  /** `$lookup` of an account number followed by `$arrayElemAt [..., 0]`. */
  function UsernameOf(accounts: seq<Account>, number: string): (r: Option<string>)
    ensures r.None? <==> forall i :: 0 <= i < |accounts| ==> accounts[i].accountNumber != number
    ensures r.Some? ==> exists i :: 0 <= i < |accounts| && accounts[i].accountNumber == number && accounts[i].username == r.value
  {
    match FindFirst(accounts, ByNumber(number))
    case None => None
    case Some(i) => Some(accounts[i].username)
  }

  /**
   * The `$project` stage: amount and timestamp are kept, and each party is
   * the username of an account with that number, absent exactly when no
   * account has it.
   */
  function Project(accounts: seq<Account>, t: TxRecord): (e: HistoryEntry)
    ensures e.amount == t.amount && e.timestamp == t.timestamp
    ensures e.from.None? <==> forall i :: 0 <= i < |accounts| ==> accounts[i].accountNumber != t.from
    ensures e.to.None? <==> forall i :: 0 <= i < |accounts| ==> accounts[i].accountNumber != t.to
    ensures e.from.Some? ==> exists i :: 0 <= i < |accounts| && accounts[i].accountNumber == t.from && accounts[i].username == e.from.value
    ensures e.to.Some? ==> exists i :: 0 <= i < |accounts| && accounts[i].accountNumber == t.to && accounts[i].username == e.to.value
  {
    HistoryEntry(UsernameOf(accounts, t.from), UsernameOf(accounts, t.to), t.amount, t.timestamp)
  }

  /**
   * `$match`, `$lookup` and `$project`, in log order: at most one entry per
   * record, and none exactly when no record involves the account.
   */
  function Matching(accounts: seq<Account>, log: seq<TxRecord>, number: string): (r: seq<HistoryEntry>)
    ensures |r| <= |log|
    ensures r == [] <==> forall i :: 0 <= i < |log| ==> !Involves(log[i], number)
  {
    if log == [] then []
    else
      var rest := Matching(accounts, log[1..], number);
      assert forall i :: 1 <= i < |log| ==> log[i] == log[1..][i - 1];
      (if Involves(log[0], number) then [Project(accounts, log[0])] else []) + rest
  }

  predicate SortedNewestFirst(s: seq<HistoryEntry>) {
    forall i, j :: 0 <= i < j < |s| ==> s[i].timestamp >= s[j].timestamp
  }

  /** Putting an entry no older than the head in front keeps the order. */
  lemma ConsSorted(x: HistoryEntry, t: seq<HistoryEntry>)
    requires SortedNewestFirst(t)
    requires t == [] || x.timestamp >= t[0].timestamp
    ensures SortedNewestFirst([x] + t)
  {
    var r := [x] + t;
    forall i, j | 0 <= i < j < |r|
      ensures r[i].timestamp >= r[j].timestamp
    {
      if i == 0 {
        assert r[j] == t[j - 1];
        if j > 1 {
          assert t[0].timestamp >= t[j - 1].timestamp;
        }
      } else {
        assert r[i] == t[i - 1] && r[j] == t[j - 1];
      }
    }
  }

  lemma TailSorted(s: seq<HistoryEntry>)
    requires s != [] && SortedNewestFirst(s)
    ensures SortedNewestFirst(s[1..])
  {
    var tail := s[1..];
    forall i, j | 0 <= i < j < |tail|
      ensures tail[i].timestamp >= tail[j].timestamp
    {
      assert tail[i] == s[i + 1] && tail[j] == s[j + 1];
    }
  }

  /** One step of insertion sort: `e` goes before the first entry older than it. */
  function Insert(e: HistoryEntry, s: seq<HistoryEntry>): (r: seq<HistoryEntry>)
    requires SortedNewestFirst(s)
    ensures |r| == |s| + 1 && (r[0] == e || (s != [] && r[0] == s[0]))
    ensures SortedNewestFirst(r)
  {
    if s == [] || e.timestamp >= s[0].timestamp then
      ConsSorted(e, s);
      [e] + s
    else
      var tail := s[1..];
      TailSorted(s);
      var rest := Insert(e, tail);
      assert rest[0].timestamp <= s[0].timestamp by {
        if rest[0] != e {
          assert rest[0] == tail[0] == s[1];
        }
      }
      ConsSorted(s[0], rest);
      [s[0]] + rest
  }

  /** Insertion adds `e` and loses nothing. */
  lemma {:induction false} InsertPermutes(e: HistoryEntry, s: seq<HistoryEntry>)
    requires SortedNewestFirst(s)
    ensures multiset(Insert(e, s)) == multiset(s) + multiset{e}
  {
    if s != [] && e.timestamp < s[0].timestamp {
      TailSorted(s);
      InsertPermutes(e, s[1..]);
      assert s == [s[0]] + s[1..];
    }
  }

  /** The `$sort: { timestamp: -1 }` stage. */
  function SortNewestFirst(s: seq<HistoryEntry>): (r: seq<HistoryEntry>)
    ensures multiset(r) == multiset(s)
    ensures SortedNewestFirst(r)
  {
    if s == [] then [] else
      var rest := SortNewestFirst(s[1..]);
      InsertPermutes(s[0], rest);
      assert s == [s[0]] + s[1..];
      Insert(s[0], rest)
  }

  /** The whole pipeline for the account `number`: the matching entries, newest first. */
  function History(accounts: seq<Account>, log: seq<TxRecord>, number: string): (r: seq<HistoryEntry>)
    ensures multiset(r) == multiset(Matching(accounts, log, number))
    ensures SortedNewestFirst(r)
  {
    SortNewestFirst(Matching(accounts, log, number))
  }

  /** The filter keeps exactly the projected records that involve the account. */
  lemma {:induction false} MatchingMembers(accounts: seq<Account>, log: seq<TxRecord>, number: string, e: HistoryEntry)
    ensures e in Matching(accounts, log, number) <==>
      exists i :: 0 <= i < |log| && Involves(log[i], number) && e == Project(accounts, log[i])
  {
    if log != [] {
      MatchingMembers(accounts, log[1..], number, e);
      if e in Matching(accounts, log[1..], number) {
        var i :| 0 <= i < |log[1..]| && Involves(log[1..][i], number) && e == Project(accounts, log[1..][i]);
        assert log[i + 1] == log[1..][i];
      }
      if exists i :: 0 <= i < |log| && Involves(log[i], number) && e == Project(accounts, log[i]) {
        var i :| 0 <= i < |log| && Involves(log[i], number) && e == Project(accounts, log[i]);
        if i > 0 {
          assert log[1..][i - 1] == log[i];
        }
      }
    }
  }

  /** An entry is in the history exactly when some record of the account projects to it. */
  lemma HistoryMembers(accounts: seq<Account>, log: seq<TxRecord>, number: string)
    ensures forall e :: e in History(accounts, log, number) <==>
      exists i :: 0 <= i < |log| && Involves(log[i], number) && e == Project(accounts, log[i])
  {
    var h := History(accounts, log, number);
    forall e
      ensures e in h <==> exists i :: 0 <= i < |log| && Involves(log[i], number) && e == Project(accounts, log[i])
    {
      assert e in h <==> e in multiset(h);
      MatchingMembers(accounts, log, number, e);
    }
  }
}

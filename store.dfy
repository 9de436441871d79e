/**
 * The account table (`userSchema`) held in memory: a sequence of account
 * documents in insertion order, with the three queries the server issues
 * (`findOne` by username, by account number, by email) and the three
 * single-document updates it performs.
 */
module Store {
  import opened Wrappers
  import opened Generators

  /** Informational registration fields; no invariant depends on them. */
  datatype Profile = Profile(fullname: string, aadhar: string, phone: string, dob: string, gender: string)

  datatype Account = Account(
    profile: Profile,
    email: string,
    username: string,
    passwordHash: string,
    terms: bool,
    accountNumber: string,
    balance: int)

  /** The schema default for `balance`. */
  const OpeningBalance: int := 20000

  /** The filter document of a `findOne` / `updateOne` call. */
  datatype Query = ByUsername(username: string) | ByNumber(number: string) | ByEmail(email: string)

  predicate Matches(a: Account, q: Query) {
    match q
    case ByUsername(u) => a.username == u
    case ByNumber(n) => a.accountNumber == n
    case ByEmail(e) => a.email == e
  }

  /** The position of the first match at or after `from`. */
  function FindFrom(accounts: seq<Account>, q: Query, from: nat): (r: Option<nat>)
    requires from <= |accounts|
    ensures r.Some? ==> from <= r.value < |accounts| && Matches(accounts[r.value], q)
    ensures r.Some? ==> forall j :: from <= j < r.value ==> !Matches(accounts[j], q)
    ensures r.None? ==> forall j :: from <= j < |accounts| ==> !Matches(accounts[j], q)
    decreases |accounts| - from
  {
    if from == |accounts| then None
    else if Matches(accounts[from], q) then Some(from)
    else FindFrom(accounts, q, from + 1)
  }

  /** The position of the document `findOne(q)` returns: the first match. */
  function FindFirst(accounts: seq<Account>, q: Query): (r: Option<nat>)
    ensures r.Some? ==> r.value < |accounts| && Matches(accounts[r.value], q)
    ensures r.Some? ==> forall j :: 0 <= j < r.value ==> !Matches(accounts[j], q)
    ensures r.None? ==> forall j :: 0 <= j < |accounts| ==> !Matches(accounts[j], q)
  {
    FindFrom(accounts, q, 0)
  }

  /** The first match is determined by which documents match. */
  lemma FirstMatchDetermined(a: seq<Account>, b: seq<Account>, q: Query)
    requires |a| == |b|
    requires forall i :: 0 <= i < |a| ==> Matches(a[i], q) == Matches(b[i], q)
    ensures FindFirst(a, q) == FindFirst(b, q)
  {
    var ra, rb := FindFirst(a, q), FindFirst(b, q);
    if ra.Some? {
      assert Matches(b[ra.value], q);
    }
    if rb.Some? {
      assert Matches(a[rb.value], q);
    }
  }

  /** The document `findOne(q)` returns, or null. */
  function Lookup(accounts: seq<Account>, q: Query): (r: Option<Account>)
    ensures r.Some? <==> FindFirst(accounts, q).Some?
    ensures r.Some? ==> r.value == accounts[FindFirst(accounts, q).value]
  {
    match FindFirst(accounts, q)
    case None => None
    case Some(i) => Some(accounts[i])
  }

  /**
   * `updateOne(q, { $set: { balance: b } })`: the first matching document now
   * holds `b`, every other document is as it was, and no identity changes.
   */
  function SetBalance(accounts: seq<Account>, q: Query, b: int): (r: seq<Account>)
    ensures SameIdentities(accounts, r)
    ensures forall j :: 0 <= j < |r| && FindFirst(accounts, q) != Some(j) ==> r[j] == accounts[j]
    ensures FindFirst(accounts, q).Some? ==>
      r[FindFirst(accounts, q).value] == accounts[FindFirst(accounts, q).value].(balance := b)
  {
    match FindFirst(accounts, q)
    case None => accounts
    case Some(i) => accounts[i := accounts[i].(balance := b)]
  }

  /**
   * `updateOne(q, { $inc: { balance: d } })`: the first matching document
   * gains `d`, every other document is as it was, and no identity changes.
   */
  function IncBalance(accounts: seq<Account>, q: Query, d: int): (r: seq<Account>)
    ensures SameIdentities(accounts, r)
    ensures forall j :: 0 <= j < |r| && FindFirst(accounts, q) != Some(j) ==> r[j] == accounts[j]
    ensures FindFirst(accounts, q).Some? ==>
      var i := FindFirst(accounts, q).value; r[i] == accounts[i].(balance := accounts[i].balance + d)
  {
    match FindFirst(accounts, q)
    case None => accounts
    case Some(i) => accounts[i := accounts[i].(balance := accounts[i].balance + d)]
  }

  /**
   * `findOneAndUpdate(q, { password: h })`: the first matching document now
   * has hash `h`, every other document is as it was, and no identity changes.
   */
  function SetPasswordHash(accounts: seq<Account>, q: Query, h: string): (r: seq<Account>)
    ensures SameIdentities(accounts, r)
    ensures forall j :: 0 <= j < |r| && FindFirst(accounts, q) != Some(j) ==> r[j] == accounts[j]
    ensures FindFirst(accounts, q).Some? ==>
      r[FindFirst(accounts, q).value] == accounts[FindFirst(accounts, q).value].(passwordHash := h)
  {
    match FindFirst(accounts, q)
    case None => accounts
    case Some(i) => accounts[i := accounts[i].(passwordHash := h)]
  }

  lemma SetBalanceAt(accounts: seq<Account>, q: Query, b: int, i: nat)
    requires FindFirst(accounts, q) == Some(i)
    ensures SetBalance(accounts, q, b) == accounts[i := accounts[i].(balance := b)]
  {
  }

  lemma IncBalanceAt(accounts: seq<Account>, q: Query, d: int, i: nat)
    requires FindFirst(accounts, q) == Some(i)
    ensures IncBalance(accounts, q, d) == accounts[i := accounts[i].(balance := accounts[i].balance + d)]
  {
  }

  lemma SetPasswordHashAt(accounts: seq<Account>, q: Query, h: string, i: nat)
    requires FindFirst(accounts, q) == Some(i)
    ensures SetPasswordHash(accounts, q, h) == accounts[i := accounts[i].(passwordHash := h)]
  {
  }

  /** Sum of all balances. */
  function Total(accounts: seq<Account>): int {
    if accounts == [] then 0 else accounts[0].balance + Total(accounts[1..])
  }

  predicate UniqueUsernames(accounts: seq<Account>) {
    forall i, j :: 0 <= i < j < |accounts| ==> accounts[i].username != accounts[j].username
  }

  predicate UniqueNumbers(accounts: seq<Account>) {
    forall i, j :: 0 <= i < j < |accounts| ==> accounts[i].accountNumber != accounts[j].accountNumber
  }

  predicate WellFormedNumbers(accounts: seq<Account>) {
    forall i :: 0 <= i < |accounts| ==> IsAccountNumber(accounts[i].accountNumber)
  }

  /** Two tables with the same documents up to balances and password hashes. */
  predicate SameIdentities(a: seq<Account>, b: seq<Account>) {
    |a| == |b| &&
    forall i :: 0 <= i < |a| ==>
      a[i].username == b[i].username && a[i].accountNumber == b[i].accountNumber && a[i].email == b[i].email
  }

  /** Every query answers the same on two tables with the same identities. */
  lemma FindFirstSameIdentities(a: seq<Account>, b: seq<Account>, q: Query)
    requires SameIdentities(a, b)
    ensures FindFirst(a, q) == FindFirst(b, q)
  {
    FirstMatchDetermined(a, b, q);
  }

  /** The table invariants depend on identities only. */
  lemma SameIdentitiesKeepInvariants(a: seq<Account>, b: seq<Account>)
    requires SameIdentities(a, b)
    ensures UniqueUsernames(a) == UniqueUsernames(b) && UniqueNumbers(a) == UniqueNumbers(b)
    ensures WellFormedNumbers(a) == WellFormedNumbers(b)
  {
  }

  /** `findOne` on a table with one more document at the end. */
  lemma FindFirstAppend(accounts: seq<Account>, a: Account, q: Query)
    ensures FindFirst(accounts + [a], q) ==
      if FindFirst(accounts, q).Some? then FindFirst(accounts, q)
      else if Matches(a, q) then Some(|accounts|) else None
  {
    var s := accounts + [a];
    assert forall j :: 0 <= j < |accounts| ==> s[j] == accounts[j];
    assert s[|accounts|] == a;
  }

  /** Changing one balance changes the total by the difference. */
  lemma {:induction false} TotalUpdate(accounts: seq<Account>, i: nat, a: Account)
    requires i < |accounts|
    ensures Total(accounts[i := a]) == Total(accounts) - accounts[i].balance + a.balance
  {
    if i == 0 {
      assert accounts[i := a][1..] == accounts[1..];
    } else {
      assert accounts[i := a][1..] == accounts[1..][i - 1 := a];
      TotalUpdate(accounts[1..], i - 1, a);
    }
  }

  /** A new document adds its balance to the total. */
  lemma {:induction false} TotalAppend(accounts: seq<Account>, a: Account)
    ensures Total(accounts + [a]) == Total(accounts) + a.balance
  {
    if accounts != [] {
      assert (accounts + [a])[1..] == accounts[1..] + [a];
      TotalAppend(accounts[1..], a);
    }
  }

  /**
   * Registration's guards keep both keys unique: a document whose username
   * and account number no query finds may be appended.
   */
  lemma AppendKeepsUnique(accounts: seq<Account>, a: Account)
    requires UniqueUsernames(accounts) && UniqueNumbers(accounts)
    requires FindFirst(accounts, ByUsername(a.username)).None?
    requires FindFirst(accounts, ByNumber(a.accountNumber)).None?
    ensures UniqueUsernames(accounts + [a]) && UniqueNumbers(accounts + [a])
  {
    var s := accounts + [a];
    forall i, j | 0 <= i < j < |s|
      ensures s[i].username != s[j].username && s[i].accountNumber != s[j].accountNumber
    {
      if j == |accounts| {
        assert !Matches(accounts[i], ByUsername(a.username));
        assert !Matches(accounts[i], ByNumber(a.accountNumber));
      }
    }
  }

  /** With unique usernames, looking up a document's username finds that document. */
  lemma UniqueUsernameFound(accounts: seq<Account>, i: nat)
    requires UniqueUsernames(accounts) && i < |accounts|
    ensures FindFirst(accounts, ByUsername(accounts[i].username)) == Some(i)
  {
    assert Matches(accounts[i], ByUsername(accounts[i].username));
  }
}

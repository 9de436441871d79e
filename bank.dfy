/**
 * The POST handlers of the server as methods of one object: the account
 * table, the transaction log and one browser session. Each handler runs
 * atomically; randomness, the clock, password hashing and the email
 * transport are inputs.
 */
module Bank {
  import opened Wrappers
  import opened Decimal
  import opened Generators
  import opened Store
  import opened Funds
  import opened Ledger

  /** Milliseconds an OTP stays valid (`Date.now() + 300000`). */
  const OtpLifetime: nat := 300000

  /** `req.session.otp`. */
  datatype OtpChallenge = OtpChallenge(code: string, email: string, expires: int)

  /** The session fields the handlers read and write; absent fields are None / false. */
  datatype Session = Session(
    user: Option<Account>,
    otp: Option<OtpChallenge>,
    isOtpVerified: bool,
    resetEmail: Option<string>,
    userEmail: Option<string>)

  const EmptySession: Session := Session(None, None, false, None, None)

  datatype RegisterResult = PasswordMismatch | UsernameTaken | Registered
  datatype LoginResult = UserNotFound | IncorrectPassword | LoggedIn
  datatype TransferResult = NotLoggedIn | AccountNotFound | WrongPassword | InsufficientFunds | Sent
  datatype ForgotResult = EmailRequired | EmailNotFound | OtpSent | SendFailed
  datatype VerifyResult = OtpRequired | NoChallenge | Expired | Incorrect | Verified
  datatype ResetResult = Unauthorized | PasswordReset

  /**
   * `new User({...})`: the request's fields, `terms` set exactly when the
   * checkbox value is `"on"`, the number stored as its decimal string, and
   * the schema default balance.
   */
  function NewAccount(profile: Profile, email: string, username: string, passwordHash: string, terms: string, number: nat): (a: Account)
    ensures a.profile == profile && a.email == email && a.username == username && a.passwordHash == passwordHash
    ensures a.terms <==> terms == "on"
    ensures AllDigits(a.accountNumber) && ParseDecimal(a.accountNumber) == number
    ensures a.balance == OpeningBalance
  {
    ParseRendered(number);
    Account(profile, email, username, passwordHash, terms == "on", NatToDecimal(number), OpeningBalance)
  }

  /** Values of `Math.random()`. */
  predicate ValidDraws(draws: seq<real>) {
    forall i :: 0 <= i < |draws| ==> 0.0 <= draws[i] < 1.0
  }

  /** `findOne({ accountNumber })` finds a document for the candidate `n`. */
  predicate NumberTaken(accounts: seq<Account>, n: nat) {
    FindFirst(accounts, ByNumber(NatToDecimal(n))).Some?
  }

  /** Some draw yields an unused account number. */
  predicate SomeDrawFree(accounts: seq<Account>, draws: seq<real>)
    requires ValidDraws(draws)
  {
    exists k :: 0 <= k < |draws| && !NumberTaken(accounts, GenerateAccountNumber(draws[k]))
  }

  /** Draw `k` is the first whose account number is unused. */
  predicate FirstFreeDraw(accounts: seq<Account>, draws: seq<real>, k: nat)
    requires ValidDraws(draws)
  {
    k < |draws| && !NumberTaken(accounts, GenerateAccountNumber(draws[k])) &&
    forall j :: 0 <= j < k ==> NumberTaken(accounts, GenerateAccountNumber(draws[j]))
  }

  /**
   * The `while (exists)` loop of `/register`: draw candidates until one is
   * not in the table. It returns the first unused candidate.
   */
  method PickAccountNumber(accounts: seq<Account>, draws: seq<real>) returns (n: nat)
    requires ValidDraws(draws)
    requires SomeDrawFree(accounts, draws)
    ensures AccountNumberLow <= n <= AccountNumberHigh && !NumberTaken(accounts, n)
    ensures exists k: nat :: FirstFreeDraw(accounts, draws, k) && n == GenerateAccountNumber(draws[k])
  {
    ghost var free :| 0 <= free < |draws| && !NumberTaken(accounts, GenerateAccountNumber(draws[free]));
    n := 0;
    var i := 0;
    var numberExists := true;
    while numberExists
      invariant 0 <= i <= free + 1
      invariant numberExists ==> i <= free
      invariant forall j :: 0 <= j < i - 1 ==> NumberTaken(accounts, GenerateAccountNumber(draws[j]))
      invariant numberExists ==> forall j :: 0 <= j < i ==> NumberTaken(accounts, GenerateAccountNumber(draws[j]))
      invariant !numberExists ==> 1 <= i && n == GenerateAccountNumber(draws[i - 1]) && !NumberTaken(accounts, n)
      decreases free + 1 - i
    {
      n := GenerateAccountNumber(draws[i]);
      var existingNumber := Lookup(accounts, ByNumber(NatToDecimal(n)));
      if existingNumber.None? {
        numberExists := false;
      }
      i := i + 1;
    }
    assert FirstFreeDraw(accounts, draws, i - 1);
  }

  predicate ChallengeValid(accounts: seq<Account>, c: OtpChallenge) {
    IsOtpCode(c.code) && c.email != "" && FindFirst(accounts, ByEmail(c.email)).Some?
  }

  /** What the handlers keep true of the session's OTP fields. */
  predicate SessionValid(accounts: seq<Account>, s: Session) {
    (s.otp.Some? ==> ChallengeValid(accounts, s.otp.value)) &&
    (s.isOtpVerified <==> s.resetEmail.Some?) &&
    (s.resetEmail.Some? ==> s.resetEmail.value != "" && FindFirst(accounts, ByEmail(s.resetEmail.value)).Some?)
  }

  /**
   * The session's account snapshot agrees with the stored document of the
   * same username on balance and account number.
   */
  predicate SnapshotAgrees(accounts: seq<Account>, user: Option<Account>) {
    user.Some? ==>
      var stored := Lookup(accounts, ByUsername(user.value.username));
      stored.Some? && stored.value.balance == user.value.balance
      && stored.value.accountNumber == user.value.accountNumber
  }

  predicate NonNegative(accounts: seq<Account>) {
    forall i :: 0 <= i < |accounts| ==> accounts[i].balance >= 0
  }

  /** The session invariants survive any change that keeps identities. */
  lemma SessionValidSameIdentities(a: seq<Account>, b: seq<Account>, s: Session)
    requires SameIdentities(a, b) && SessionValid(a, s)
    ensures SessionValid(b, s)
  {
    if s.otp.Some? {
      FindFirstSameIdentities(a, b, ByEmail(s.otp.value.email));
    }
    if s.resetEmail.Some? {
      FindFirstSameIdentities(a, b, ByEmail(s.resetEmail.value));
    }
  }

  /** ... and appending a document. */
  lemma SessionValidAppend(accounts: seq<Account>, a: Account, s: Session)
    requires SessionValid(accounts, s)
    ensures SessionValid(accounts + [a], s)
  {
    if s.otp.Some? {
      FindFirstAppend(accounts, a, ByEmail(s.otp.value.email));
    }
    if s.resetEmail.Some? {
      FindFirstAppend(accounts, a, ByEmail(s.resetEmail.value));
    }
  }

  /** What a successful registration keeps, and what it adds to the total. */
  lemma RegisterKeepsInvariants(accounts: seq<Account>, s: Session, a: Account)
    requires UniqueUsernames(accounts) && UniqueNumbers(accounts) && WellFormedNumbers(accounts)
    requires SessionValid(accounts, s)
    requires FindFirst(accounts, ByUsername(a.username)).None?
    requires IsAccountNumber(a.accountNumber) && FindFirst(accounts, ByNumber(a.accountNumber)).None?
    ensures var added := accounts + [a];
      UniqueUsernames(added) && UniqueNumbers(added) && WellFormedNumbers(added)
      && SessionValid(added, s)
      && SnapshotAgrees(added, Some(a))
      && Total(added) == Total(accounts) + a.balance
  {
    var added := accounts + [a];
    AppendKeepsUnique(accounts, a);
    SessionValidAppend(accounts, a, s);
    FindFirstAppend(accounts, a, ByUsername(a.username));
    TotalAppend(accounts, a);
    assert forall i :: 0 <= i < |accounts| ==> added[i] == accounts[i];
  }

  /** What a successful transfer keeps: the invariants, and conservation while the snapshot is fresh. */
  lemma TransferKeepsInvariants(accounts: seq<Account>, s: Session, u: Account, dest: string, amount: int)
    requires UniqueUsernames(accounts) && UniqueNumbers(accounts) && WellFormedNumbers(accounts)
    requires SessionValid(accounts, s)
    requires FindFirst(accounts, ByNumber(dest)).Some?
    ensures var moved := MoveFunds(accounts, u.username, u.balance, dest, amount);
      UniqueUsernames(moved) && UniqueNumbers(moved) && WellFormedNumbers(moved)
      && SessionValid(moved, s)
      && (SnapshotAgrees(accounts, Some(u)) ==> Total(moved) == Total(accounts))
      && (0 <= amount <= u.balance && NonNegative(accounts) ==> NonNegative(moved))
  {
    var moved := MoveFunds(accounts, u.username, u.balance, dest, amount);
    SameIdentitiesKeepInvariants(accounts, moved);
    SessionValidSameIdentities(accounts, moved, s);
    if SnapshotAgrees(accounts, Some(u)) {
      MoveFundsConserves(accounts, u.username, u.balance, dest, amount);
    }
    if 0 <= amount <= u.balance && NonNegative(accounts) {
      MoveFundsKeepsNonNegative(accounts, u.username, u.balance, dest, amount);
    }
  }

  class Bank {
    /** `bcrypt`: a password matches a stored hash iff the hash is `hash(password)`. */
    const hash: string -> string
    /** The `users` collection, in insertion order. */
    var accounts: seq<Account>
    /** The `transactions` collection, append-only. */
    var transactions: seq<TxRecord>
    var session: Session

    ghost predicate Valid()
      reads this
    {
      UniqueUsernames(accounts) && UniqueNumbers(accounts) && WellFormedNumbers(accounts)
      && SessionValid(accounts, session)
    }

    ghost predicate SnapshotFresh()
      reads this
    {
      SnapshotAgrees(accounts, session.user)
    }

    constructor (hash: string -> string)
      ensures Valid() && SnapshotFresh()
      ensures this.hash == hash && accounts == [] && transactions == [] && session == EmptySession
    {
      this.hash := hash;
      accounts := [];
      transactions := [];
      session := EmptySession;
    }

    /** `POST /register`. */
    method Register(profile: Profile, email: string, username: string, password: string,
                    confirmPassword: string, terms: string, draws: seq<real>) returns (r: RegisterResult)
      requires Valid()
      requires ValidDraws(draws)
      requires password == confirmPassword && FindFirst(accounts, ByUsername(username)).None?
               ==> SomeDrawFree(accounts, draws)
      modifies this`accounts, this`session
      ensures Valid()
      ensures r == PasswordMismatch <==> password != confirmPassword
      ensures r == UsernameTaken <==>
        password == confirmPassword && FindFirst(old(accounts), ByUsername(username)).Some?
      ensures r != Registered ==> accounts == old(accounts) && session == old(session)
      ensures r == Registered ==>
        exists k: nat ::
          (FirstFreeDraw(old(accounts), draws, k)
           && accounts == old(accounts) + [NewAccount(profile, email, username, hash(password), terms, GenerateAccountNumber(draws[k]))]
           && session == old(session).(user := Some(accounts[|old(accounts)|])))
      ensures r == Registered ==> Total(accounts) == old(Total(accounts)) + OpeningBalance
      ensures old(SnapshotFresh()) || r == Registered ==> SnapshotFresh()
    {
      if password != confirmPassword {
        return PasswordMismatch;
      }
      var existingUser := Lookup(accounts, ByUsername(username));
      if existingUser.Some? {
        return UsernameTaken;
      }
      var hashedPassword := hash(password);
      var number := PickAccountNumber(accounts, draws);
      ghost var k: nat :| FirstFreeDraw(accounts, draws, k) && number == GenerateAccountNumber(draws[k]);
      var newUser := NewAccount(profile, email, username, hashedPassword, terms, number);
      RenderedAccountNumber(draws[k]);
      RegisterKeepsInvariants(accounts, session, newUser);
      ghost var before := accounts;
      accounts := accounts + [newUser];
      session := session.(user := Some(newUser));
      assert accounts[|before|] == newUser;
      assert FirstFreeDraw(before, draws, k);
      r := Registered;
    }

    /** `POST /login`. */
    method Login(username: string, password: string) returns (r: LoginResult)
      requires Valid()
      modifies this`session
      ensures Valid()
      ensures r == UserNotFound <==> Lookup(accounts, ByUsername(username)).None?
      ensures r == IncorrectPassword <==>
        (Lookup(accounts, ByUsername(username)).Some?
         && hash(password) != Lookup(accounts, ByUsername(username)).value.passwordHash)
      ensures r == LoggedIn ==> session == old(session).(user := Lookup(accounts, ByUsername(username)))
      ensures r != LoggedIn ==> session == old(session)
      ensures old(SnapshotFresh()) || r == LoggedIn ==> SnapshotFresh()
    {
      var user := Lookup(accounts, ByUsername(username));
      if user.None? {
        return UserNotFound;
      }
      if hash(password) != user.value.passwordHash {
        return IncorrectPassword;
      }
      session := session.(user := user);
      r := LoggedIn;
    }

    /**
     * `POST /transfer`. The password and the funds are checked against the
     * session snapshot; the amount's sign and self-transfer are not checked.
     */
    method Transfer(accountNumber: string, amount: int, password: string, now: nat) returns (r: TransferResult)
      requires Valid()
      modifies this
      ensures Valid()
      ensures r == NotLoggedIn <==> old(session).user.None?
      ensures r == AccountNotFound <==>
        old(session).user.Some? && Lookup(old(accounts), ByNumber(accountNumber)).None?
      ensures r == WrongPassword <==>
        old(session).user.Some? && Lookup(old(accounts), ByNumber(accountNumber)).Some?
        && hash(password) != old(session).user.value.passwordHash
      ensures r == InsufficientFunds <==>
        old(session).user.Some? && Lookup(old(accounts), ByNumber(accountNumber)).Some?
        && hash(password) == old(session).user.value.passwordHash
        && old(session).user.value.balance < amount
      ensures r != Sent ==>
        accounts == old(accounts) && transactions == old(transactions) && session == old(session)
      ensures r == Sent ==>
        var u := old(session).user.value;
        accounts == MoveFunds(old(accounts), u.username, u.balance, accountNumber, amount)
        && transactions == old(transactions) + [TxRecord(u.accountNumber, accountNumber, amount, now)]
        && session == old(session).(user := Lookup(accounts, ByUsername(u.username)))
      ensures r == Sent && old(SnapshotFresh()) ==> Total(accounts) == old(Total(accounts))
      ensures r == Sent && amount >= 0 && old(NonNegative(accounts)) ==> NonNegative(accounts)
      ensures old(SnapshotFresh()) || r == Sent ==> SnapshotFresh()
    {
      var account := Lookup(accounts, ByNumber(accountNumber));
      var user := session.user;
      if user.None? {
        return NotLoggedIn;
      }
      if account.None? {
        return AccountNotFound;
      }
      if hash(password) != user.value.passwordHash {
        return WrongPassword;
      }
      var balance := user.value.balance;
      if balance < amount {
        return InsufficientFunds;
      }
      SendMoney(accountNumber, amount, now);
      r := Sent;
    }

    /**
     * The success path of `/transfer` once every guard has passed:
     * `$set` the sender to the snapshot balance minus the amount, `$inc` the
     * destination, append the record, refresh the snapshot from the store.
     */
    method SendMoney(accountNumber: string, amount: int, now: nat)
      requires Valid()
      requires session.user.Some? && FindFirst(accounts, ByNumber(accountNumber)).Some?
      modifies this
      ensures Valid()
      ensures var u := old(session).user.value;
        accounts == MoveFunds(old(accounts), u.username, u.balance, accountNumber, amount)
        && transactions == old(transactions) + [TxRecord(u.accountNumber, accountNumber, amount, now)]
        && session == old(session).(user := Lookup(accounts, ByUsername(u.username)))
      ensures old(SnapshotFresh()) ==> Total(accounts) == old(Total(accounts))
      ensures 0 <= amount <= old(session).user.value.balance && old(NonNegative(accounts)) ==> NonNegative(accounts)
      ensures SnapshotFresh()
    {
      var user := session.user.value;
      var account := Lookup(accounts, ByNumber(accountNumber)).value;
      assert account.accountNumber == accountNumber;
      TransferKeepsInvariants(accounts, session, user, accountNumber, amount);
      // the two updateOne calls: $set on the sender, then $inc on the destination
      accounts := MoveFunds(accounts, user.username, user.balance, accountNumber, amount);
      transactions := transactions + [TxRecord(user.accountNumber, account.accountNumber, amount, now)];
      session := session.(user := Lookup(accounts, ByUsername(user.username)));
    }

    /** `GET /transactions-data`: None stands for the 401 response. */
    method TransactionsData() returns (r: Option<seq<HistoryEntry>>)
      ensures r.None? <==> session.user.None?
      ensures r.Some? ==> r.value == History(accounts, transactions, session.user.value.accountNumber)
    {
      var user := session.user;
      if user.None? {
        return None;
      }
      r := Some(History(accounts, transactions, user.value.accountNumber));
    }

    /** `GET /current-user`: username and account number of the snapshot. */
    method CurrentUser() returns (r: Option<(string, string)>)
      ensures r.None? <==> session.user.None?
      ensures r.Some? ==> r.value == (session.user.value.username, session.user.value.accountNumber)
    {
      if session.user.None? {
        return None;
      }
      r := Some((session.user.value.username, session.user.value.accountNumber));
    }

    /**
     * `GET /check-balance` reports the snapshot's balance, which is the
     * stored balance while the snapshot is fresh.
     */
    method CheckBalance() returns (r: Option<int>)
      ensures r.None? <==> session.user.None?
      ensures r.Some? ==> r.value == session.user.value.balance
      ensures r.Some? && SnapshotFresh() ==>
        Lookup(accounts, ByUsername(session.user.value.username)).Some?
        && Lookup(accounts, ByUsername(session.user.value.username)).value.balance == r.value
    {
      if session.user.None? {
        return None;
      }
      r := Some(session.user.value.balance);
    }

    /** `POST /forgotPassword`; `sendSucceeded` is the outcome of `sendOtpEmail`. */
    method ForgotPassword(email: string, draw: real, now: nat, sendSucceeded: bool) returns (r: ForgotResult)
      requires Valid()
      requires 0.0 <= draw < 1.0
      modifies this`session
      ensures Valid()
      ensures r == EmailRequired <==> email == ""
      ensures r == EmailNotFound <==> email != "" && Lookup(accounts, ByEmail(email)).None?
      ensures r == OtpSent <==> email != "" && Lookup(accounts, ByEmail(email)).Some? && sendSucceeded
      ensures r == EmailRequired || r == EmailNotFound ==> session == old(session)
      ensures r == OtpSent ==> session == old(session).(
        otp := Some(OtpChallenge(GenerateOtp(draw), email, now + OtpLifetime)),
        userEmail := Some(email))
      ensures r == SendFailed ==> session == old(session).(otp := None)
      ensures SnapshotFresh() == old(SnapshotFresh())
    {
      if email == "" {
        return EmailRequired;
      }
      var user := Lookup(accounts, ByEmail(email));
      if user.None? {
        return EmailNotFound;
      }
      var generatedOtp := GenerateOtp(draw);
      session := session.(otp := Some(OtpChallenge(generatedOtp, email, now + OtpLifetime)));
      if sendSucceeded {
        session := session.(userEmail := Some(email));
        r := OtpSent;
      } else {
        session := session.(otp := None);
        r := SendFailed;
      }
    }

    /** `POST /verifyOtp`: lazy expiry, and the challenge survives a wrong code. */
    method VerifyOtp(code: string, now: nat) returns (r: VerifyResult)
      requires Valid()
      modifies this`session
      ensures Valid()
      ensures r == OtpRequired <==> code == ""
      ensures r == NoChallenge <==> code != "" && old(session).otp.None?
      ensures r == Expired <==>
        code != "" && old(session).otp.Some? && now > old(session).otp.value.expires
      ensures r == Incorrect <==>
        code != "" && old(session).otp.Some? && now <= old(session).otp.value.expires
        && code != old(session).otp.value.code
      ensures r == OtpRequired || r == NoChallenge || r == Incorrect ==> session == old(session)
      ensures r == Expired ==> session == old(session).(otp := None)
      ensures r == Verified ==> session == old(session).(
        otp := None, isOtpVerified := true, resetEmail := Some(old(session).otp.value.email))
      ensures SnapshotFresh() == old(SnapshotFresh())
    {
      if code == "" {
        return OtpRequired;
      }
      var sessionOtp := session.otp;
      if sessionOtp.None? {
        return NoChallenge;
      }
      if now > sessionOtp.value.expires {
        session := session.(otp := None);
        return Expired;
      }
      if code != sessionOtp.value.code {
        return Incorrect;
      }
      session := session.(isOtpVerified := true);
      session := session.(resetEmail := Some(sessionOtp.value.email));
      session := session.(otp := None);
      r := Verified;
    }

    /**
     * `POST /resetPassword`: rewrites the hash of the first account with the
     * verified email and clears the authorisation, so it works once.
     */
    method ResetPassword(newPassword: string) returns (r: ResetResult)
      requires Valid()
      modifies this`accounts, this`session
      ensures Valid()
      ensures r == Unauthorized <==>
        !old(session).isOtpVerified || old(session).resetEmail.None? || old(session).resetEmail.value == ""
      ensures r == Unauthorized ==> accounts == old(accounts) && session == old(session)
      ensures r == PasswordReset ==>
        FindFirst(old(accounts), ByEmail(old(session).resetEmail.value)).Some?
        && accounts == SetPasswordHash(old(accounts), ByEmail(old(session).resetEmail.value), hash(newPassword))
        && session == old(session).(isOtpVerified := false, resetEmail := None)
      ensures r == PasswordReset ==> !session.isOtpVerified && session.resetEmail.None?
      ensures old(SnapshotFresh()) ==> SnapshotFresh()
    {
      if !session.isOtpVerified || session.resetEmail.None? || session.resetEmail.value == "" {
        return Unauthorized;
      }
      var hashed := hash(newPassword);
      ghost var before := accounts;
      accounts := SetPasswordHash(accounts, ByEmail(session.resetEmail.value), hashed);
      SameIdentitiesKeepInvariants(before, accounts);
      if session.user.Some? {
        FindFirstSameIdentities(before, accounts, ByUsername(session.user.value.username));
      }
      session := session.(isOtpVerified := false);
      session := session.(resetEmail := None);
      SessionValidSameIdentities(before, accounts, session);
      r := PasswordReset;
    }
  }
}

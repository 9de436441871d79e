/**
 * The handlers driven through four flows: a transfer followed by an
 * overdraft attempt, the three-step password reset with a mistyped code,
 * an expired code, and a second reset without re-verifying.
 */
module Scenarios {
  import opened Wrappers
  import opened Generators
  import opened Store
  import opened Funds
  import opened Ledger
  import B = Bank

  /**
   * alice, logged in with a current snapshot at 20000, sends 5000 to bob
   * (20000): alice holds 15000, bob 25000, one record is logged and the
   * snapshot is refreshed to alice's new document.
   */
  method SendFiveThousand(bank: B.Bank, alice: Account, bob: Account, password: string, now: nat)
      returns (r: B.TransferResult)
    requires bank.Valid()
    requires bank.session.user == Some(alice) && Lookup(bank.accounts, ByUsername(alice.username)) == Some(alice)
    requires alice.balance == 20000 && bank.hash(password) == alice.passwordHash
    requires Lookup(bank.accounts, ByNumber(bob.accountNumber)) == Some(bob) && bob.balance == 20000
    requires bob.username != alice.username
    modifies bank
    ensures bank.Valid() && r == B.Sent
    ensures Lookup(bank.accounts, ByUsername(alice.username)) == Some(alice.(balance := 15000))
    ensures Lookup(bank.accounts, ByNumber(bob.accountNumber)) == Some(bob.(balance := 25000))
    ensures bank.session.user == Some(alice.(balance := 15000))
    ensures bank.transactions == old(bank.transactions) + [TxRecord(alice.accountNumber, bob.accountNumber, 5000, now)]
    ensures Total(bank.accounts) == old(Total(bank.accounts))
  {
    MoveFundsBetween(bank.accounts, alice, 20000, bob, 5000);
    r := bank.Transfer(bob.accountNumber, 5000, password, now);
  }

  /**
   * After that transfer, sending 99999 is refused on the refreshed snapshot
   * (15000) and changes nothing.
   */
  method TransferThenOverdraw(bank: B.Bank, alice: Account, bob: Account, password: string, now: nat)
      returns (first: B.TransferResult, second: B.TransferResult)
    requires bank.Valid()
    requires bank.session.user == Some(alice) && Lookup(bank.accounts, ByUsername(alice.username)) == Some(alice)
    requires alice.balance == 20000 && bank.hash(password) == alice.passwordHash
    requires Lookup(bank.accounts, ByNumber(bob.accountNumber)) == Some(bob) && bob.balance == 20000
    requires bob.username != alice.username
    modifies bank
    ensures first == B.Sent && second == B.InsufficientFunds
    ensures Lookup(bank.accounts, ByUsername(alice.username)) == Some(alice.(balance := 15000))
    ensures Lookup(bank.accounts, ByNumber(bob.accountNumber)) == Some(bob.(balance := 25000))
    ensures bank.transactions == old(bank.transactions) + [TxRecord(alice.accountNumber, bob.accountNumber, 5000, now)]
  {
    first := SendFiveThousand(bank, alice, bob, password, now);
    second := bank.Transfer(bob.accountNumber, 99999, password, now);
  }

  /**
   * Request an OTP for a registered email, mistype it (the challenge
   * survives), enter it before expiry, set a new password: the account's
   * owner then logs in with the new password and not with the old one.
   */
  method ResetFlow(bank: B.Bank, email: string, draw: real, wrong: string,
                   oldPassword: string, newPassword: string, now: nat)
      returns (issued: B.ForgotResult, firstTry: B.VerifyResult, secondTry: B.VerifyResult,
               reset: B.ResetResult, withNew: B.LoginResult, withOld: B.LoginResult)
    requires bank.Valid() && 0.0 <= draw < 1.0
    requires email != "" && Lookup(bank.accounts, ByEmail(email)).Some?
    requires wrong != "" && wrong != GenerateOtp(draw)
    requires bank.hash(oldPassword) != bank.hash(newPassword)
    modifies bank`accounts, bank`session
    ensures issued == B.OtpSent && firstTry == B.Incorrect && secondTry == B.Verified
    ensures reset == B.PasswordReset && withNew == B.LoggedIn && withOld == B.IncorrectPassword
  {
    issued := bank.ForgotPassword(email, draw, now, true);
    firstTry := bank.VerifyOtp(wrong, now);
    secondTry := bank.VerifyOtp(GenerateOtp(draw), now + B.OtpLifetime);
    ghost var before := bank.accounts;
    ghost var i := FindFirst(before, ByEmail(email)).value;
    var owner := Lookup(bank.accounts, ByEmail(email)).value.username;
    reset := bank.ResetPassword(newPassword);
    assert bank.accounts == before[i := before[i].(passwordHash := bank.hash(newPassword))];
    assert bank.accounts[i].username == owner;
    UniqueUsernameFound(bank.accounts, i);
    withNew := bank.Login(owner, newPassword);
    withOld := bank.Login(owner, oldPassword);
  }

  /** A code entered after its expiry is refused as Expired even though it matches. */
  method ExpiredCode(bank: B.Bank, email: string, draw: real, now: nat, later: nat)
      returns (issued: B.ForgotResult, verified: B.VerifyResult)
    requires bank.Valid() && 0.0 <= draw < 1.0
    requires email != "" && Lookup(bank.accounts, ByEmail(email)).Some?
    requires later > now + B.OtpLifetime
    modifies bank`session
    ensures issued == B.OtpSent && verified == B.Expired
    ensures bank.session.otp.None? && bank.session.isOtpVerified == old(bank.session.isOtpVerified)
  {
    issued := bank.ForgotPassword(email, draw, now, true);
    verified := bank.VerifyOtp(GenerateOtp(draw), later);
  }

  /** A verified OTP authorises one reset: the next one, without re-verifying, is refused. */
  method ResetIsSingleUse(bank: B.Bank, first: string, second: string)
      returns (r1: B.ResetResult, r2: B.ResetResult)
    requires bank.Valid()
    modifies bank`accounts, bank`session
    ensures r1 == B.PasswordReset ==> r2 == B.Unauthorized
    ensures r2 == B.Unauthorized ==> !bank.session.isOtpVerified
  {
    r1 := bank.ResetPassword(first);
    r2 := bank.ResetPassword(second);
  }
}

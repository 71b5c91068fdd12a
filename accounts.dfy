/**
 * The account registry of script.js: the durable `RegistrationData` and
 * `LockedAccounts` lists, the session-scoped attempt counters and
 * `loggedInTRN`, and the pure effect of registerUser, attemptLogin and
 * resetPasswordPrompt on them.
 */
module Accounts {
  import opened Wrappers
  import CartLedger

  const MIN_PASSWORD_LENGTH: nat := 8
  const MIN_AGE: int := 18
  const MAX_ATTEMPTS: nat := 3

  datatype Account = Account(
    firstName: string, lastName: string, dob: string, gender: string, phone: string,
    email: string, trn: string, password: string, dateRegistered: string,
    cart: seq<CartLedger.CartLine>)

  /** The registration form's fields, already trimmed where the script trims them. */
  datatype RegistrationForm = RegistrationForm(
    firstName: string, lastName: string, dob: string, gender: string, phone: string,
    email: string, trn: string, password: string, confirmPassword: string)

  // ---------------- TRN_REGEX ----------------

  predicate IsDigit(c: char) {
    '0' <= c <= '9'
  }

  /** `/^\d{3}-\d{3}-\d{3}$/.test(s)`: exactly eleven characters, dashes at 3 and 7, digits elsewhere. */
  predicate IsTrn(s: string) {
    |s| == 11 && forall i :: 0 <= i < 11 ==> if i == 3 || i == 7 then s[i] == '-' else IsDigit(s[i])
  }

  predicate IsDigitGroup(s: string) {
    |s| == 3 && IsDigit(s[0]) && IsDigit(s[1]) && IsDigit(s[2])
  }

  /** IsTrn agrees with the regular expression read as a concatenation of its parts. */
  lemma TrnShape(s: string)
    ensures IsTrn(s) <==>
      |s| == 11 && IsDigitGroup(s[..3]) && s[3] == '-' && IsDigitGroup(s[4..7]) && s[7] == '-' && IsDigitGroup(s[8..])
    ensures IsTrn(s) ==> s == s[..3] + "-" + s[4..7] + "-" + s[8..]
  {
    if |s| == 11 && IsDigitGroup(s[..3]) && s[3] == '-' && IsDigitGroup(s[4..7]) && s[7] == '-' && IsDigitGroup(s[8..]) {
      forall i | 0 <= i < 11
        ensures if i == 3 || i == 7 then s[i] == '-' else IsDigit(s[i])
      {
        if i < 3 { assert s[i] == s[..3][i]; }
        else if 4 <= i < 7 { assert s[i] == s[4..7][i - 4]; }
        else if 8 <= i { assert s[i] == s[8..][i - 8]; }
      }
    }
  }

  // ---------------- registerUser ----------------

  datatype RegisterError = MissingField | PasswordTooShort | PasswordMismatch | BadTrnFormat | Underage | TrnTaken

  predicate AllFilled(f: RegistrationForm) {
    && f.firstName != "" && f.lastName != "" && f.dob != "" && f.gender != "" && f.phone != ""
    && f.email != "" && f.trn != "" && f.password != "" && f.confirmPassword != ""
  }

  predicate TrnRegistered(regs: seq<Account>, trn: string) {
    exists i :: 0 <= i < |regs| && regs[i].trn == trn
  }

  /** The six checks of registerUser in the order the script makes them; None when all pass. */
  function RegistrationCheck(f: RegistrationForm, age: int, regs: seq<Account>): (r: Option<RegisterError>)
    ensures r.None? <==>
      && AllFilled(f) && |f.password| >= MIN_PASSWORD_LENGTH && f.password == f.confirmPassword
      && IsTrn(f.trn) && age >= MIN_AGE && !TrnRegistered(regs, f.trn)
    ensures r == Some(TrnTaken) <==>
      && AllFilled(f) && |f.password| >= MIN_PASSWORD_LENGTH && f.password == f.confirmPassword
      && IsTrn(f.trn) && age >= MIN_AGE && TrnRegistered(regs, f.trn)
    ensures r == Some(MissingField) <==> !AllFilled(f)
    ensures r == Some(PasswordTooShort) <==> AllFilled(f) && |f.password| < MIN_PASSWORD_LENGTH
    ensures r == Some(PasswordMismatch) <==>
      AllFilled(f) && |f.password| >= MIN_PASSWORD_LENGTH && f.password != f.confirmPassword
    ensures r == Some(BadTrnFormat) <==>
      AllFilled(f) && |f.password| >= MIN_PASSWORD_LENGTH && f.password == f.confirmPassword && !IsTrn(f.trn)
    ensures r == Some(Underage) <==>
      && AllFilled(f) && |f.password| >= MIN_PASSWORD_LENGTH && f.password == f.confirmPassword
      && IsTrn(f.trn) && age < MIN_AGE
  {
    if !AllFilled(f) then Some(MissingField)
    else if |f.password| < MIN_PASSWORD_LENGTH then Some(PasswordTooShort)
    else if f.password != f.confirmPassword then Some(PasswordMismatch)
    else if !IsTrn(f.trn) then Some(BadTrnFormat)
    else if age < MIN_AGE then Some(Underage)
    else if TrnRegistered(regs, f.trn) then Some(TrnTaken)
    else None
  }

  /** The record registerUser appends; `dateRegistered` is the clock reading. */
  function NewAccount(f: RegistrationForm, dateRegistered: string): (a: Account)
    ensures a.firstName == f.firstName && a.lastName == f.lastName && a.dob == f.dob && a.gender == f.gender
    ensures a.phone == f.phone && a.email == f.email && a.trn == f.trn && a.password == f.password
    ensures a.dateRegistered == dateRegistered
    ensures a.cart == []
  {
    Account(f.firstName, f.lastName, f.dob, f.gender, f.phone, f.email, f.trn, f.password, dateRegistered, [])
  }

  ghost predicate UniqueTrns(regs: seq<Account>) {
    forall i, j :: 0 <= i < j < |regs| ==> regs[i].trn != regs[j].trn
  }

  /** What every registry the script writes satisfies. */
  ghost predicate RegistryValid(regs: seq<Account>) {
    && UniqueTrns(regs)
    && forall i :: 0 <= i < |regs| ==> IsTrn(regs[i].trn) && |regs[i].password| >= MIN_PASSWORD_LENGTH
  }

  /** A successful registration keeps TRNs unique and well formed. */
  lemma RegisterKeepsRegistryValid(regs: seq<Account>, f: RegistrationForm, age: int, now: string)
    requires RegistryValid(regs)
    requires RegistrationCheck(f, age, regs).None?
    ensures RegistryValid(regs + [NewAccount(f, now)])
  {
    var r := regs + [NewAccount(f, now)];
    forall i, j | 0 <= i < j < |r| ensures r[i].trn != r[j].trn {
      if j == |regs| {
        assert r[i] == regs[i];
      }
    }
  }

  // ---------------- attemptLogin ----------------

  /** The session store: per-TRN failed-attempt counters and the logged-in TRN. */
  datatype Session = Session(attempts: map<string, nat>, loggedInTRN: Option<string>)

  function AttemptsOf(s: Session, trn: string): nat {
    if trn in s.attempts then s.attempts[trn] else 0
  }

  predicate HasCredentials(regs: seq<Account>, trn: string, password: string) {
    exists i :: 0 <= i < |regs| && regs[i].trn == trn && regs[i].password == password
  }

  datatype LoginOutcome = MissingInput | AccountLocked | InvalidCredentials(attempt: nat) | LockedOut | Welcome

  datatype LoginStep = LoginStep(outcome: LoginOutcome, locked: seq<string>, session: Session)

  /** One call of attemptLogin: the outcome, the new `LockedAccounts` and the new session store. */
  function Login(regs: seq<Account>, locked: seq<string>, s: Session, trn: string, password: string): (r: LoginStep)
    ensures trn == "" || password == "" ==> r == LoginStep(MissingInput, locked, s)
    ensures trn != "" && password != "" && trn in locked ==> r == LoginStep(AccountLocked, locked, s)
    ensures r.outcome == Welcome <==> trn != "" && password != "" && trn !in locked && HasCredentials(regs, trn, password)
    ensures r.outcome == Welcome ==> r.session == Session(s.attempts - {trn}, Some(trn)) && r.locked == locked
    ensures trn != "" && password != "" && trn !in locked && !HasCredentials(regs, trn, password) ==>
      var n := AttemptsOf(s, trn) + 1;
      && r.session == s.(attempts := s.attempts[trn := n])
      && if n >= MAX_ATTEMPTS then r.outcome == LockedOut && r.locked == locked + [trn]
         else r.outcome == InvalidCredentials(n) && r.locked == locked
    ensures r.outcome.InvalidCredentials? || r.outcome == LockedOut ==>
      r.session == s.(attempts := s.attempts[trn := AttemptsOf(s, trn) + 1])
    ensures r.locked != locked ==>
      r.outcome == LockedOut && trn !in locked && r.locked == locked + [trn] && AttemptsOf(r.session, trn) >= MAX_ATTEMPTS
  {
    if trn == "" || password == "" then LoginStep(MissingInput, locked, s)
    else if trn in locked then LoginStep(AccountLocked, locked, s)
    else if !HasCredentials(regs, trn, password) then
      var attempts := AttemptsOf(s, trn) + 1;
      var s' := s.(attempts := s.attempts[trn := attempts]);
      if attempts >= MAX_ATTEMPTS then LoginStep(LockedOut, locked + [trn], s')
      else LoginStep(InvalidCredentials(attempts), locked, s')
    else LoginStep(Welcome, locked, Session(s.attempts - {trn}, Some(trn)))
  }

  ghost predicate Distinct(xs: seq<string>) {
    forall i, j :: 0 <= i < j < |xs| ==> xs[i] != xs[j]
  }

  /** attemptLogin never adds a TRN that is already locked, so `LockedAccounts` holds no duplicates. */
  lemma LoginKeepsLockedDistinct(regs: seq<Account>, locked: seq<string>, s: Session, trn: string, password: string)
    requires Distinct(locked)
    ensures Distinct(Login(regs, locked, s, trn, password).locked)
  {
    var r := Login(regs, locked, s, trn, password);
    if r.locked != locked {
      forall i, j | 0 <= i < j < |r.locked| ensures r.locked[i] != r.locked[j] {
        if j == |locked| {
          assert r.locked[i] == locked[i];
        }
      }
    }
  }

  /** Three wrong passwords in one session lock the TRN; the next attempt is refused even with the right password. */
  lemma ThreeFailuresLock(regs: seq<Account>, locked: seq<string>, s: Session, trn: string, p1: string, p2: string, p3: string, p4: string)
    requires trn != "" && p1 != "" && p2 != "" && p3 != "" && p4 != ""
    requires trn !in locked && AttemptsOf(s, trn) == 0
    requires !HasCredentials(regs, trn, p1) && !HasCredentials(regs, trn, p2) && !HasCredentials(regs, trn, p3)
    ensures var r1 := Login(regs, locked, s, trn, p1);
            var r2 := Login(regs, r1.locked, r1.session, trn, p2);
            var r3 := Login(regs, r2.locked, r2.session, trn, p3);
            && r1.outcome == InvalidCredentials(1)
            && r2.outcome == InvalidCredentials(2)
            && r3.outcome == LockedOut && r3.locked == locked + [trn]
            && Login(regs, r3.locked, r3.session, trn, p4).outcome == AccountLocked
  {
  }

  // ---------------- resetPasswordPrompt ----------------

  /** `regs.findIndex(u => u.trn === trn)`. */
  function IndexOfTrn(regs: seq<Account>, trn: string): (r: Option<nat>)
    ensures r.None? <==> !TrnRegistered(regs, trn)
    ensures r.Some? ==> r.value < |regs| && regs[r.value].trn == trn
    ensures r.Some? ==> forall j :: 0 <= j < r.value ==> regs[j].trn != trn
  {
    if regs == [] then None
    else if regs[0].trn == trn then Some(0)
    else match IndexOfTrn(regs[1..], trn)
      case None => None
      case Some(i) => Some(i + 1)
  }

  /** `locked.filter(t => t !== trn)`. */
  function Unlocked(locked: seq<string>, trn: string): (r: seq<string>)
    ensures forall x :: x in r <==> x in locked && x != trn
    ensures |r| <= |locked|
    ensures Distinct(locked) ==> Distinct(r)
  {
    if locked == [] then []
    else if locked[0] == trn then Unlocked(locked[1..], trn)
    else
      var rest := Unlocked(locked[1..], trn);
      assert Distinct(locked) ==> locked[0] !in locked[1..] by {
        assert forall k :: 0 <= k < |locked[1..]| ==> locked[1..][k] == locked[k + 1];
      }
      [locked[0]] + rest
  }

  /** A prompt answer that is neither cancelled (null) nor empty. */
  predicate Answered(a: Option<string>) {
    a.Some? && a.value != ""
  }

  datatype ResetOutcome = Cancelled | BadTrn | TrnNotFound | DobMismatch | NewPasswordTooShort | PasswordReset

  datatype ResetStep = ResetStep(outcome: ResetOutcome, regs: seq<Account>, locked: seq<string>)

  /**
   * One run of resetPasswordPrompt, with the three prompt answers given
   * (None where the prompt was cancelled; later answers are ignored once a
   * check fails).
   */
  function Reset(regs: seq<Account>, locked: seq<string>, trnAnswer: Option<string>, dobAnswer: Option<string>, passAnswer: Option<string>): (r: ResetStep)
    ensures r.outcome != PasswordReset ==> r.regs == regs && r.locked == locked
    ensures r.outcome == PasswordReset ==>
      && Answered(trnAnswer) && IsTrn(trnAnswer.value) && TrnRegistered(regs, trnAnswer.value)
      && Answered(passAnswer) && |passAnswer.value| >= MIN_PASSWORD_LENGTH
      && var i := IndexOfTrn(regs, trnAnswer.value).value;
         && Answered(dobAnswer) && regs[i].dob == dobAnswer.value
         && r.regs == regs[i := regs[i].(password := passAnswer.value)]
         && r.locked == Unlocked(locked, trnAnswer.value)
    ensures Answered(trnAnswer) && !IsTrn(trnAnswer.value) ==> r.outcome == BadTrn
    ensures Answered(trnAnswer) && IsTrn(trnAnswer.value) && !TrnRegistered(regs, trnAnswer.value) ==> r.outcome == TrnNotFound
    ensures !Answered(trnAnswer) ==> r.outcome == Cancelled
    ensures Answered(trnAnswer) && IsTrn(trnAnswer.value) && TrnRegistered(regs, trnAnswer.value) ==>
      var i := IndexOfTrn(regs, trnAnswer.value).value;
      && (!Answered(dobAnswer) ==> r.outcome == Cancelled)
      && (Answered(dobAnswer) && regs[i].dob != dobAnswer.value ==> r.outcome == DobMismatch)
      && (Answered(dobAnswer) && regs[i].dob == dobAnswer.value ==>
            if Answered(passAnswer) && |passAnswer.value| >= MIN_PASSWORD_LENGTH then r.outcome == PasswordReset
            else r.outcome == NewPasswordTooShort)
  {
    if !Answered(trnAnswer) then ResetStep(Cancelled, regs, locked)
    else
      var trn := trnAnswer.value;
      if !IsTrn(trn) then ResetStep(BadTrn, regs, locked)
      else match IndexOfTrn(regs, trn)
        case None => ResetStep(TrnNotFound, regs, locked)
        case Some(i) =>
          if !Answered(dobAnswer) then ResetStep(Cancelled, regs, locked)
          else if regs[i].dob != dobAnswer.value then ResetStep(DobMismatch, regs, locked)
          else if !Answered(passAnswer) || |passAnswer.value| < MIN_PASSWORD_LENGTH then ResetStep(NewPasswordTooShort, regs, locked)
          else ResetStep(PasswordReset, regs[i := regs[i].(password := passAnswer.value)], Unlocked(locked, trn))
  }

  /** A reset keeps the registry valid and the locked list free of duplicates. */
  lemma ResetKeepsInvariants(regs: seq<Account>, locked: seq<string>, trnAnswer: Option<string>, dobAnswer: Option<string>, passAnswer: Option<string>)
    requires RegistryValid(regs) && Distinct(locked)
    ensures var r := Reset(regs, locked, trnAnswer, dobAnswer, passAnswer);
      RegistryValid(r.regs) && Distinct(r.locked) && |r.regs| == |regs|
  {
    var r := Reset(regs, locked, trnAnswer, dobAnswer, passAnswer);
    if r.outcome == PasswordReset {
      assert forall k :: 0 <= k < |regs| ==> r.regs[k].trn == regs[k].trn;
    }
  }

  /** After a successful reset the new password logs in at the first try, whatever the session's counter says. */
  lemma ResetThenLoginSucceeds(regs: seq<Account>, locked: seq<string>, s: Session, trnAnswer: Option<string>, dobAnswer: Option<string>, passAnswer: Option<string>)
    requires Reset(regs, locked, trnAnswer, dobAnswer, passAnswer).outcome == PasswordReset
    ensures var r := Reset(regs, locked, trnAnswer, dobAnswer, passAnswer);
      Login(r.regs, r.locked, s, trnAnswer.value, passAnswer.value).outcome == Welcome
  {
    var r := Reset(regs, locked, trnAnswer, dobAnswer, passAnswer);
    var i := IndexOfTrn(regs, trnAnswer.value).value;
    assert r.regs[i].trn == trnAnswer.value && r.regs[i].password == passAnswer.value;
  }

  /**
   * The reset does not clear the session's attempt counter: once a TRN was
   * locked in this session, its first wrong password after a reset locks it
   * again.
   */
  lemma ResetThenWrongPasswordRelocks(regs: seq<Account>, locked: seq<string>, s: Session, trnAnswer: Option<string>, dobAnswer: Option<string>, passAnswer: Option<string>, wrong: string)
    requires UniqueTrns(regs)
    requires Reset(regs, locked, trnAnswer, dobAnswer, passAnswer).outcome == PasswordReset
    requires AttemptsOf(s, trnAnswer.value) >= MAX_ATTEMPTS - 1
    requires wrong != "" && wrong != passAnswer.value
    ensures var r := Reset(regs, locked, trnAnswer, dobAnswer, passAnswer);
      var l := Login(r.regs, r.locked, s, trnAnswer.value, wrong);
      l.outcome == LockedOut && trnAnswer.value in l.locked
  {
    var r := Reset(regs, locked, trnAnswer, dobAnswer, passAnswer);
    var trn := trnAnswer.value;
    var i := IndexOfTrn(regs, trn).value;
    assert forall k :: 0 <= k < |r.regs| && k != i ==> r.regs[k].trn != trn;
  }
}

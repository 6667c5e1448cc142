/**
 * users/tokens.py: the activation-token generator, and the two parts of
 * Django's `PasswordResetTokenGenerator` it inherits and the flows call,
 * `make_token` and `check_token`.
 *
 * A token is the issuing timestamp together with a keyed MAC over a
 * fingerprint string. The MAC is modelled symbolically: `Mac(message)`
 * is equal to `Mac(message')` exactly when the messages are equal, and
 * nothing in the model forges one. The age check compares the token's
 * timestamp with the current time (both in seconds) against the
 * configured timeout, as `check_token` does.
 */
module Tokens {
  import opened Text
  import opened Accounts

  /**
   * Which fingerprint the activation generator signs: `Concatenated` is
   * the f-string of tokens.py:17, `Delimited` the corrected one of the
   * findings (the handlers work with either).
   */
  datatype Scheme = Concatenated | Delimited

  /** `_make_hash_value(user, timestamp)` as written: pk, email, timestamp and flag, run together. */
  function HashValue(user: Account, timestamp: nat): string
  {
    Decimal(user.pk) + user.email + Decimal(timestamp) + BoolText(user.emailConfirmed)
  }

  /** The same four components, numbers and flag first and each followed by a `:`, email last. */
  function DelimitedHashValue(user: Account, timestamp: nat): string
  {
    Decimal(user.pk) + ":" + Decimal(timestamp) + ":" + BoolText(user.emailConfirmed) + ":" + user.email
  }

  function Fingerprint(scheme: Scheme, user: Account, timestamp: nat): string
  {
    match scheme
    case Concatenated => HashValue(user, timestamp)
    case Delimited => DelimitedHashValue(user, timestamp)
  }

  /**
   * What Django's own `default_token_generator` signs for the password
   * reset flow. Its source is not part of this model; the record below
   * is an assumption that it binds the pk, the stored password hash, the
   * timestamp and the email (Django also folds in `last_login`, which
   * this model has not got).
   */
  datatype ResetFingerprint = ResetFingerprint(pk: nat, password: Credential, timestamp: nat, email: string)

  function ResetHashValue(user: Account, timestamp: nat): ResetFingerprint
  {
    ResetFingerprint(user.pk, user.password, timestamp, user.email)
  }

  /**
   * A MAC under the server secret. Keeping the reset digests apart
   * from the activation ones is an assumption too: both generators use
   * the same key salt, and only their fingerprints tell them apart.
   */
  datatype Digest = Mac(message: string) | ResetMac(fingerprint: ResetFingerprint)

  /** A token as it comes back in a link; `Malformed` is every string that does not parse. */
  datatype Token = Token(timestamp: nat, digest: Digest) | Malformed

  /** `make_token(user)` at time `now`: a well-formed token stamped with the current time. */
  function MakeToken(scheme: Scheme, user: Account, now: nat): (t: Token)
    ensures t.Token? && t.timestamp == now
  {
    Token(now, Mac(Fingerprint(scheme, user, now)))
  }

  /** The age test of `check_token`: too old only when now - timestamp exceeds the timeout. */
  predicate WithinAge(timestamp: nat, now: nat, timeout: int)
  {
    now - timestamp <= timeout
  }

  /** `account_activation_token.check_token(user, token)`. */
  predicate CheckToken(scheme: Scheme, user: Account, token: Token, now: nat, timeout: int)
  {
    && token.Token?
    && token.digest == Mac(Fingerprint(scheme, user, token.timestamp))
    && WithinAge(token.timestamp, now, timeout)
  }

  /** `default_token_generator.make_token(user)`: a well-formed reset token stamped with the current time. */
  function MakeResetToken(user: Account, now: nat): (t: Token)
    ensures t.Token? && t.timestamp == now && t.digest.ResetMac?
  {
    Token(now, ResetMac(ResetHashValue(user, now)))
  }

  /** `default_token_generator.check_token(user, token)`. */
  predicate CheckResetToken(user: Account, token: Token, now: nat, timeout: int)
  {
    && token.Token?
    && token.digest == ResetMac(ResetHashValue(user, token.timestamp))
    && WithinAge(token.timestamp, now, timeout)
  }

  /**
   * The token the activation e-mail task puts in its link: none for an
   * account that is already confirmed (users/tasks.py:60-64).
   */
  function ActivationLinkToken(scheme: Scheme, user: Account, now: nat): (r: Wrappers.Option<Token>)
    ensures r.Some? <==> !user.emailConfirmed
    ensures r.Some? ==> r.value.Token? && r.value.timestamp == now
  {
    if user.emailConfirmed then Wrappers.None else Wrappers.Some(MakeToken(scheme, user, now))
  }

  /** A freshly made token checks against the same record for exactly as long as it is young enough. */
  lemma MadeTokenChecks(scheme: Scheme, user: Account, issued: nat, now: nat, timeout: int)
    ensures CheckToken(scheme, user, MakeToken(scheme, user, issued), now, timeout) <==> now - issued <= timeout
    ensures CheckResetToken(user, MakeResetToken(user, issued), now, timeout) <==> now - issued <= timeout
  {
  }

  /** Only pk, email and flag enter the fingerprint: phone, address, names and consents do not. */
  lemma FingerprintIgnoresOtherFields(scheme: Scheme, u: Account, v: Account, timestamp: nat)
    requires u.pk == v.pk && u.email == v.email && u.emailConfirmed == v.emailConfirmed
    ensures Fingerprint(scheme, u, timestamp) == Fingerprint(scheme, v, timestamp)
  {
  }

  /** A string that ends in the printed flag ends in "True" exactly when the flag is set. */
  lemma FlagSuffix(prefix: string, flag: bool)
    ensures var s := prefix + BoolText(flag);
      |s| >= 4 && (s[|s| - 4..] == "True" <==> flag)
  {
    var s := prefix + BoolText(flag);
    assert s[|s| - 4..] == BoolText(flag)[|BoolText(flag)| - 4..];
  }

  /**
   * `Decimal(a) + ":" + x` can be read back: the digits stop at the
   * first `:`.
   */
  lemma SplitAfterNumber(a: nat, x: string, b: nat, y: string)
    requires Decimal(a) + ":" + x == Decimal(b) + ":" + y
    ensures a == b && x == y
  {
    var da, db := Decimal(a), Decimal(b);
    var w := da + ":" + x;
    assert w == db + ":" + y;
    assert forall i :: 0 <= i < |db| ==> IsDigit(w[i]);
    assert !IsDigit(w[|da|]);
    assert forall i :: 0 <= i < |da| ==> IsDigit(w[i]);
    assert !IsDigit(w[|db|]);
    assert |da| == |db|;
    assert da == w[..|da|] == db;
    DecimalInjective(a, b);
    CancelPrefix(da + ":", x, y);
  }

  /** The corrected fingerprint, component by component, can be read back. */
  lemma DelimitedComponentsInjective(p1: nat, t1: nat, f1: bool, e1: string, p2: nat, t2: nat, f2: bool, e2: string)
    requires Decimal(p1) + ":" + Decimal(t1) + ":" + BoolText(f1) + ":" + e1
          == Decimal(p2) + ":" + Decimal(t2) + ":" + BoolText(f2) + ":" + e2
    ensures p1 == p2 && t1 == t2 && f1 == f2 && e1 == e2
  {
    var tail1, tail2 := BoolText(f1) + ":" + e1, BoolText(f2) + ":" + e2;
    var rest1, rest2 := Decimal(t1) + ":" + tail1, Decimal(t2) + ":" + tail2;
    Regroup(Decimal(p1), Decimal(t1), BoolText(f1), e1);
    Regroup(Decimal(p2), Decimal(t2), BoolText(f2), e2);
    SplitAfterNumber(p1, rest1, p2, rest2);
    SplitAfterNumber(t1, tail1, t2, tail2);
    assert tail1[0] == BoolText(f1)[0] && tail2[0] == BoolText(f2)[0];
    CancelPrefix(BoolText(f1) + ":", e1, e2);
  }

  lemma Regroup(a: string, b: string, c: string, d: string)
    ensures a + ":" + b + ":" + c + ":" + d == a + ":" + (b + ":" + (c + ":" + d))
  {
  }

  /** The corrected fingerprint determines all four of its components. */
  lemma DelimitedHashValueInjective(u: Account, v: Account, t: nat, s: nat)
    requires DelimitedHashValue(u, t) == DelimitedHashValue(v, s)
    ensures u.pk == v.pk && t == s && u.emailConfirmed == v.emailConfirmed && u.email == v.email
  {
    DelimitedComponentsInjective(u.pk, t, u.emailConfirmed, u.email, v.pk, s, v.emailConfirmed, v.email);
  }

  /**
   * For one account and one timestamp, the fingerprint pins down the
   * email and the flag: a changed email or a flipped flag changes it.
   */
  lemma FingerprintBindsState(scheme: Scheme, u: Account, v: Account, timestamp: nat)
    requires u.pk == v.pk
    requires Fingerprint(scheme, u, timestamp) == Fingerprint(scheme, v, timestamp)
    ensures u.email == v.email && u.emailConfirmed == v.emailConfirmed
  {
    match scheme
    case Delimited =>
      DelimitedHashValueInjective(u, v, timestamp, timestamp);
    case Concatenated =>
      ConcatenatedTailInjective(Decimal(u.pk), u.email, u.emailConfirmed, v.email, v.emailConfirmed, Decimal(timestamp));
  }

  /** Two texts that end in a printed flag and are equal carry the same flag. */
  lemma FlagsAgree(x1: string, f1: bool, x2: string, f2: bool)
    requires x1 + BoolText(f1) == x2 + BoolText(f2)
    ensures f1 == f2
  {
    FlagSuffix(x1, f1);
    FlagSuffix(x2, f2);
  }

  /** With the pk and timestamp fixed, the as-written fingerprint still pins down email and flag. */
  lemma ConcatenatedTailInjective(head: string, e1: string, f1: bool, e2: string, f2: bool, stamp: string)
    requires head + e1 + stamp + BoolText(f1) == head + e2 + stamp + BoolText(f2)
    ensures e1 == e2 && f1 == f2
  {
    FlagsAgree(head + e1 + stamp, f1, head + e2 + stamp, f2);
    var tail := stamp + BoolText(f1);
    assert head + e1 + stamp + BoolText(f1) == head + e1 + tail;
    assert head + e2 + stamp + BoolText(f1) == head + e2 + tail;
    CancelSuffix(head + e1, head + e2, tail);
    CancelPrefix(head, e1, e2);
  }

  /** Confirming the email flips the last component, so the fingerprint changes. */
  lemma ConfirmingChangesFingerprint(scheme: Scheme, user: Account, timestamp: nat)
    ensures Fingerprint(scheme, user.(emailConfirmed := false), timestamp)
         != Fingerprint(scheme, user.(emailConfirmed := true), timestamp)
  {
    if Fingerprint(scheme, user.(emailConfirmed := false), timestamp)
       == Fingerprint(scheme, user.(emailConfirmed := true), timestamp) {
      FingerprintBindsState(scheme, user.(emailConfirmed := false), user.(emailConfirmed := true), timestamp);
    }
  }

  /** Changing the email changes the fingerprint, so the old link stops working. */
  lemma EmailChangeChangesFingerprint(scheme: Scheme, u: Account, v: Account, timestamp: nat)
    requires u.pk == v.pk && u.emailConfirmed == v.emailConfirmed && u.email != v.email
    ensures Fingerprint(scheme, u, timestamp) != Fingerprint(scheme, v, timestamp)
  {
    if Fingerprint(scheme, u, timestamp) == Fingerprint(scheme, v, timestamp) {
      FingerprintBindsState(scheme, u, v, timestamp);
    }
  }

  /** Two timestamps give two fingerprints. */
  lemma TimestampChangesFingerprint(scheme: Scheme, user: Account, t1: nat, t2: nat)
    requires t1 != t2
    ensures Fingerprint(scheme, user, t1) != Fingerprint(scheme, user, t2)
  {
    if Fingerprint(scheme, user, t1) == Fingerprint(scheme, user, t2) {
      match scheme
      case Delimited =>
        DelimitedHashValueInjective(user, user, t1, t2);
      case Concatenated =>
        var head := Decimal(user.pk) + user.email;
        var flag := BoolText(user.emailConfirmed);
        assert HashValue(user, t1) == head + (Decimal(t1) + flag);
        assert HashValue(user, t2) == head + (Decimal(t2) + flag);
        CancelPrefix(head, Decimal(t1) + flag, Decimal(t2) + flag);
        CancelSuffix(Decimal(t1), Decimal(t2), flag);
        DecimalInjective(t1, t2);
    }
  }

  /**
   * Single use: a token made while the account was unconfirmed never
   * checks once the account is confirmed, whatever the time.
   */
  lemma ConfirmedAccountRejectsEarlierToken(scheme: Scheme, user: Account, issued: nat, now: nat, timeout: int)
    requires !user.emailConfirmed
    ensures !CheckToken(scheme, user.(emailConfirmed := true), MakeToken(scheme, user, issued), now, timeout)
  {
    ConfirmingChangesFingerprint(scheme, user, issued);
  }

  /**
   * A token from an activation link never meets a confirmed account with
   * that pk, so the "already confirmed" branch of the confirm view is not
   * reached through such a link.
   */
  lemma LinkTokenNeverChecksOnConfirmed(scheme: Scheme, issuedFor: Account, current: Account, issued: nat, now: nat, timeout: int)
    requires ActivationLinkToken(scheme, issuedFor, issued).Some?
    requires current.pk == issuedFor.pk && current.emailConfirmed
    ensures !CheckToken(scheme, current, ActivationLinkToken(scheme, issuedFor, issued).value, now, timeout)
  {
    if Fingerprint(scheme, issuedFor, issued) == Fingerprint(scheme, current, issued) {
      FingerprintBindsState(scheme, issuedFor, current, issued);
    }
  }

  /** A token checks for a record with the same pk only if that record still has the issuing email and flag. */
  lemma TokenBindsState(scheme: Scheme, issuedFor: Account, current: Account, issued: nat, now: nat, timeout: int)
    requires current.pk == issuedFor.pk
    requires CheckToken(scheme, current, MakeToken(scheme, issuedFor, issued), now, timeout)
    ensures current.email == issuedFor.email && current.emailConfirmed == issuedFor.emailConfirmed
  {
    FingerprintBindsState(scheme, issuedFor, current, issued);
  }

  /**
   * As written, the fingerprint does not determine the pk: account 1
   * with email "23@example.com" and account 12 with email
   * "3@example.com" share every fingerprint, so a link mailed to the
   * first activates the second.
   */
  lemma ConcatenatedTokenCrossesAccounts(issued: nat, now: nat, timeout: int)
    requires now - issued <= timeout
    ensures var holder := NewAccount("23@example.com", "", "", "").(pk := 1);
      var victim := NewAccount("3@example.com", "", "", "").(pk := 12);
      HashValue(holder, issued) == HashValue(victim, issued)
      && CheckToken(Concatenated, victim, MakeToken(Concatenated, holder, issued), now, timeout)
  {
    var holder := NewAccount("23@example.com", "", "", "").(pk := 1);
    var victim := NewAccount("3@example.com", "", "", "").(pk := 12);
    assert Decimal(1) == "1";
    assert Decimal(12) == Decimal(1) + [DigitChar(2)] == "12";
    assert Decimal(1) + "23@example.com" == Decimal(12) + "3@example.com";
    assert HashValue(holder, issued) == Decimal(1) + "23@example.com" + Decimal(issued) + "False";
    assert HashValue(victim, issued) == Decimal(12) + "3@example.com" + Decimal(issued) + "False";
  }

  /** With the corrected fingerprint a token checks only for the account, email and flag it was made for. */
  lemma DelimitedTokenBindsAccount(issuedFor: Account, current: Account, issued: nat, now: nat, timeout: int)
    requires CheckToken(Delimited, current, MakeToken(Delimited, issuedFor, issued), now, timeout)
    ensures current.pk == issuedFor.pk
    ensures current.email == issuedFor.email && current.emailConfirmed == issuedFor.emailConfirmed
  {
    DelimitedHashValueInjective(issuedFor, current, issued, issued);
  }

  /**
   * With the reset fingerprint assumed above, a changed password (a new
   * hash: new password or new salt) invalidates every earlier reset token.
   */
  lemma PasswordChangeInvalidatesResetToken(issuedFor: Account, current: Account, issued: nat, now: nat, timeout: int)
    requires current.password != issuedFor.password
    ensures !CheckResetToken(current, MakeResetToken(issuedFor, issued), now, timeout)
  {
  }

  /**
   * Under the assumption that reset digests and activation digests never
   * coincide (see `Digest`), an activation token is never a reset token
   * and the other way round.
   */
  lemma PurposesAreSeparate(scheme: Scheme, u: Account, v: Account, issued: nat, now: nat, timeout: int)
    ensures !CheckResetToken(u, MakeToken(scheme, v, issued), now, timeout)
    ensures !CheckToken(scheme, u, MakeResetToken(v, issued), now, timeout)
  {
  }
}

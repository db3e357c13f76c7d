/** The verification_codes table and the VerificationCode struct. */
module VerificationCodeModel {
  import opened Wrappers

  datatype CodeType = Register | Login | PasswordReset | PhoneBind

  /** A stored verification code: target phone or email, the code, its kind and its times. */
  datatype CodeRow = CodeRow(target: string, code: string, kind: CodeType, expiresAt: int, usedAt: Option<int>, createdAt: int)

  class VerificationCode {
    var target: string
    var code: string
    var kind: CodeType
    var expiresAt: int
    var usedAt: Option<int>
    var createdAt: int

    function Row(): CodeRow
      reads this
    {
      CodeRow(target, code, kind, expiresAt, usedAt, createdAt)
    }

    constructor FromRow(row: CodeRow)
      ensures Row() == row
    {
      target, code, kind := row.target, row.code, row.kind;
      expiresAt, usedAt, createdAt := row.expiresAt, row.usedAt, row.createdAt;
    }

    /** Expired once `now` is strictly after the expiry instant. */
    predicate IsExpired(now: int)
      reads this
    {
      now > expiresAt
    }

    /** Used once a use time is recorded. */
    predicate IsUsed()
      reads this
    {
      usedAt.Some?
    }

    /** Records `now` as the use time; afterwards the code counts as used. */
    method MarkAsUsed(now: int)
      modifies this
      ensures Row() == old(Row()).(usedAt := Some(now))
      ensures IsUsed()
      ensures forall t :: IsExpired(t) == old(IsExpired(t))
    {
      usedAt := Some(now);
    }
  }

  /**
   * The condition the code lookup writes in SQL, `expires_at > ? AND
   * used_at IS NULL` with the current time as the argument: the code may
   * still be redeemed at `now`.
   */
  predicate Redeemable(r: CodeRow, now: int)
  {
    r.expiresAt > now && r.usedAt.None?
  }

  /** Once expired, a code stays expired at every later time. */
  lemma ExpiryMonotone(c: VerificationCode, t: int, later: int)
    requires c.IsExpired(t) && t <= later
    ensures c.IsExpired(later)
  {
  }

  /**
   * The lookup's condition and the two predicates agree everywhere except
   * at the expiry instant itself: a redeemable code is neither expired nor
   * used, and an unexpired unused code is redeemable unless the clock
   * reads exactly its expiry time.
   */
  lemma RedeemableIffFresh(c: VerificationCode, now: int)
    ensures Redeemable(c.Row(), now) ==> !c.IsExpired(now) && !c.IsUsed()
    ensures !c.IsExpired(now) && !c.IsUsed() && now != c.expiresAt ==> Redeemable(c.Row(), now)
  {
  }

  /**
   * At the expiry instant an unused code is not expired by IsExpired, yet
   * the lookup's `expires_at > ?` already refuses it.
   */
  lemma ExpiryInstantDisagrees(c: VerificationCode)
    requires !c.IsUsed()
    ensures !c.IsExpired(c.expiresAt) && !Redeemable(c.Row(), c.expiresAt)
  {
  }

  /** A used code is never redeemable, whatever the clock. */
  lemma UsedNeverRedeemable(c: VerificationCode, now: int)
    requires c.IsUsed()
    ensures !Redeemable(c.Row(), now)
  {
  }
}

/** The users table. */
module UserModel {
  import opened Wrappers

  datatype UserType = Worker | Employer | Admin
  {
    function Name(): string
    {
      match this
      case Worker => "worker"
      case Employer => "employer"
      case Admin => "admin"
    }
  }

  datatype IdentityStatus = NotVerified | VerificationPending | Verified | VerificationRejected

  const DefaultBalance: real := 0.0

  /**
   * A users row. Optional columns are Options; an identity status the
   * record was built without is None. The row's primary key is its
   * position in the table plus one.
   */
  datatype UserRow = UserRow(
    uuid: string,
    username: Option<string>,
    email: Option<string>,
    phone: Option<string>,
    password: Option<string>,
    userType: UserType,
    name: Option<string>,
    bio: Option<string>,
    location: Option<string>,
    hourlyRate: Option<real>,
    idCard: Option<string>,
    phoneVerifiedAt: Option<int>,
    identityStatus: Option<IdentityStatus>,
    balance: real,
    deletedAt: Option<int>)

  /** The BeforeCreate hook: a user without an identity status starts not verified. */
  function BeforeCreate(u: UserRow): (r: UserRow)
    ensures r.identityStatus.Some?
    ensures u.identityStatus.Some? ==> r == u
    ensures u.identityStatus.None? ==> r == u.(identityStatus := Some(NotVerified))
  {
    if u.identityStatus.None? then u.(identityStatus := Some(NotVerified)) else u
  }
}

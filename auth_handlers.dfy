/**
 * Registration and login. These handlers keep their users, verification
 * codes and revoked tokens in process memory (the MemDB store), apart from
 * the relational database the other handlers and the middlewares use.
 */
module AuthHandlers {
  import opened Wrappers
  import opened Http
  import opened Strings
  import opened Numbers
  import opened Seqs
  import opened UserModel
  import opened VerificationCodeModel
  import AuthMiddleware

  /** A verification code expires ten minutes (in seconds) after it is sent. */
  const CodeLifetime: int := 600

  /** A logged-out token is listed as revoked for a day (in seconds). */
  const RevocationPeriod: int := 86400

  datatype InvalidatedToken = InvalidatedToken(token: string, expiresAt: int)

  /** A stored user with the id the store gave it. */
  datatype Account = Account(id: nat, user: UserRow)

  const UsernameQuery := "username = ?"
  const PhoneQuery := "phone_number = ?"
  const CodeQuery := "target = ? AND code = ? AND type = ? AND expires_at > ? AND used_at IS NULL"

  /** A query as the store keeps it: the query text with its first argument, or nothing when no argument was given. */
  datatype Query = NoCondition | Condition(text: string, arg: string)

  function Where(query: string, args: seq<string>): Query
  {
    if |args| > 0 then Condition(query, args[0]) else NoCondition
  }

  /** A stored user answers a query only for the username and the phone-number query. */
  predicate Answers(q: Query, a: Account)
  {
    && q.Condition?
    && ((q.text == UsernameQuery && a.user.username == Some(q.arg))
        || (q.text == PhoneQuery && a.user.phone == Some(q.arg)))
  }

  predicate UsernameTaken(accounts: seq<Account>, name: string)
  {
    exists i :: 0 <= i < |accounts| && accounts[i].user.username == Some(name)
  }

  predicate PhoneTaken(accounts: seq<Account>, phone: string)
  {
    exists i :: 0 <= i < |accounts| && accounts[i].user.phone == Some(phone)
  }

  /**
   * The position of the first stored user that answers the query: a
   * username query finds a user iff the name is taken, a phone query iff
   * the number is, and any other query finds nobody.
   */
  function FindUser(accounts: seq<Account>, q: Query): (r: Option<nat>)
    ensures r.Some? ==> r.value < |accounts| && Answers(q, accounts[r.value])
    ensures r.Some? ==> forall k :: 0 <= k < r.value ==> !Answers(q, accounts[k])
    ensures q.Condition? && q.text == UsernameQuery ==> (r.Some? <==> UsernameTaken(accounts, q.arg))
    ensures q.Condition? && q.text == PhoneQuery ==> (r.Some? <==> PhoneTaken(accounts, q.arg))
    ensures q.NoCondition? || (q.text != UsernameQuery && q.text != PhoneQuery) ==> r.None?
  {
    FirstIndex(accounts, (a: Account) => Answers(q, a))
  }

  /** Ids are positions plus one, and no username and no phone number is held twice. */
  predicate WellFormed(accounts: seq<Account>)
  {
    && (forall i :: 0 <= i < |accounts| ==> accounts[i].id == i + 1)
    && (forall i, j :: 0 <= i < j < |accounts| && accounts[i].user.username.Some? ==>
          accounts[i].user.username != accounts[j].user.username)
    && (forall i, j :: 0 <= i < j < |accounts| && accounts[i].user.phone.Some? ==>
          accounts[i].user.phone != accounts[j].user.phone)
  }

  /** Saving a code looks for a stored code with its target and its code. */
  predicate SameCode(c: CodeRow, x: CodeRow)
  {
    x.target == c.target && x.code == c.code
  }

  /**
   * The stored codes after saving `c`: the first code with its target and
   * code is replaced by `c`, and without such a code nothing changes.
   */
  function Saved(codes: seq<CodeRow>, c: CodeRow): (r: seq<CodeRow>)
    ensures |r| == |codes|
    ensures (forall k :: 0 <= k < |codes| ==> !SameCode(c, codes[k])) ==> r == codes
    ensures (exists k :: 0 <= k < |codes| && SameCode(c, codes[k])) ==>
      exists i :: 0 <= i < |codes| && SameCode(c, codes[i]) && r == codes[i := c]
        && forall k :: 0 <= k < i ==> !SameCode(c, codes[k])
  {
    match FirstIndex(codes, (x: CodeRow) => SameCode(c, x))
    case None => codes
    case Some(i) => codes[i := c]
  }

  /** Saving the same code twice is saving it once. */
  lemma SaveIdempotent(codes: seq<CodeRow>, c: CodeRow)
    ensures Saved(Saved(codes, c), c) == Saved(codes, c)
  {
    var once := Saved(codes, c);
    if exists k :: 0 <= k < |codes| && SameCode(c, codes[k]) {
      var i :| 0 <= i < |codes| && SameCode(c, codes[i]) && once == codes[i := c]
        && forall k :: 0 <= k < i ==> !SameCode(c, codes[k]);
      assert SameCode(c, once[i]);
      assert forall k :: 0 <= k < i ==> once[k] == codes[k] && !SameCode(c, once[k]);
      var j :| 0 <= j < |once| && SameCode(c, once[j]) && Saved(once, c) == once[j := c]
        && forall k :: 0 <= k < j ==> !SameCode(c, once[k]);
      assert j == i;
    }
  }

  /** Once a code is saved over a stored one, looking it up by target and code finds it. */
  lemma SavedIsFound(codes: seq<CodeRow>, c: CodeRow)
    requires exists k :: 0 <= k < |codes| && SameCode(c, codes[k])
    ensures FirstIndex(Saved(codes, c), (x: CodeRow) => SameCode(c, x)).Some?
    ensures Saved(codes, c)[FirstIndex(Saved(codes, c), (x: CodeRow) => SameCode(c, x)).value] == c
  {
    var i :| 0 <= i < |codes| && SameCode(c, codes[i]) && Saved(codes, c) == codes[i := c]
      && forall k :: 0 <= k < i ==> !SameCode(c, codes[k]);
    var found := FirstIndex(Saved(codes, c), (x: CodeRow) => SameCode(c, x));
    assert SameCode(c, Saved(codes, c)[i]);
    assert forall k :: 0 <= k < i ==> !SameCode(c, Saved(codes, c)[k]);
    assert found.value == i;
  }

  /** The in-memory store: three lists that records are appended to. */
  class MemDb {
    var codes: seq<CodeRow>
    var accounts: seq<Account>
    var invalidated: seq<InvalidatedToken>

    ghost predicate Valid()
      reads this
    {
      WellFormed(accounts)
    }

    constructor ()
      ensures codes == [] && accounts == [] && invalidated == []
      ensures Valid()
    {
      codes, accounts, invalidated := [], [], [];
    }

    /** Create for a verification code: appended, the other lists untouched. */
    method CreateCode(c: CodeRow)
      modifies this
      ensures codes == old(codes) + [c]
      ensures accounts == old(accounts) && invalidated == old(invalidated)
    {
      codes := codes + [c];
    }

    /** Create for a user. */
    method CreateAccount(a: Account)
      modifies this
      ensures accounts == old(accounts) + [a]
      ensures codes == old(codes) && invalidated == old(invalidated)
    {
      accounts := accounts + [a];
    }

    /** Create for a revoked token. */
    method CreateInvalidated(t: InvalidatedToken)
      modifies this
      ensures invalidated == old(invalidated) + [t]
      ensures codes == old(codes) && accounts == old(accounts)
    {
      invalidated := invalidated + [t];
    }

    /** Save for a verification code: overwrites the first stored code with the same target and code. */
    method SaveCode(c: CodeRow)
      modifies this
      ensures codes == Saved(old(codes), c)
      ensures accounts == old(accounts) && invalidated == old(invalidated)
    {
      var i := 0;
      while i < |codes|
        invariant 0 <= i <= |codes|
        invariant codes == old(codes)
        invariant forall k :: 0 <= k < i ==> !SameCode(c, codes[k])
      {
        if codes[i].target == c.target && codes[i].code == c.code {
          codes := codes[i := c];
          return;
        }
        i := i + 1;
      }
    }

    /** First for a user: the first stored user that answers the query. */
    method First(q: Query) returns (r: Option<Account>)
      ensures FindUser(accounts, q).None? ==> r.None?
      ensures FindUser(accounts, q).Some? ==> r == Some(accounts[FindUser(accounts, q).value])
    {
      for i := 0 to |accounts|
        invariant forall k :: 0 <= k < i ==> !Answers(q, accounts[k])
      {
        var a := accounts[i];
        if q.Condition? {
          if q.text == UsernameQuery && a.user.username.Some? && a.user.username.value == q.arg {
            return Some(a);
          }
          if q.text == PhoneQuery && a.user.phone.Some? && a.user.phone.value == q.arg {
            return Some(a);
          }
        }
      }
      return None;
    }

    /**
     * First for a verification code: whenever the query is the code query
     * it returns the first stored code, whatever the query's arguments;
     * target, code, type, expiry and use are never compared.
     */
    method FirstCode(q: Query) returns (r: Option<CodeRow>)
      ensures r.Some? <==> codes != [] && q.Condition? && q.text == CodeQuery
      ensures r.Some? ==> r.value == codes[0]
    {
      for i := 0 to |codes|
        invariant i > 0 ==> !(q.Condition? && q.text == CodeQuery)
      {
        if q.Condition? && q.text == CodeQuery {
          return Some(codes[i]);
        }
      }
      return None;
    }
  }

  // -------------------------------------------------- SendVerificationCode

  /** A phone number is eleven bytes starting with "1". */
  predicate ValidPhone(phone: string)
  {
    ByteLength(phone) == 11 && StartsWith(phone, "1")
  }

  /**
   * Stores a six-digit code (the zero-padded `random`) for a valid phone
   * number, expiring ten minutes after `now`, and returns it; the store
   * sets no creation time.
   */
  method SendVerificationCode(db: MemDb, phone: string, random: nat, now: int) returns (r: Result<string, Reason>)
    requires random < 1000000
    modifies db
    ensures r.Ok? <==> ValidPhone(phone)
    ensures r.Err? ==> r == Err(InvalidRequest) && db.codes == old(db.codes)
    ensures r.Ok? ==> |r.value| == 6 && AllDigits(r.value) && DigitsValue(r.value) == random
    ensures r.Ok? ==> db.codes == old(db.codes) + [CodeRow(phone, r.value, CodeType.Register, now + CodeLifetime, None, 0)]
    ensures db.accounts == old(db.accounts) && db.invalidated == old(db.invalidated)
  {
    if phone == "" {
      return Err(InvalidRequest);
    }
    if ByteLength(phone) != 11 || !StartsWith(phone, "1") {
      return Err(InvalidRequest);
    }
    assert Pow10(6) == 1000000 by {
      assert Pow10(3) == 1000;
    }
    var code := ZeroPadded(random, 6);
    db.CreateCode(CodeRow(phone, code, CodeType.Register, now + CodeLifetime, None, 0));
    return Ok(code);
  }

  // -------------------------------------------------------------- Register

  datatype RegisterRequest = RegisterRequest(
    userType: string, via: string, phone: string, code: string, username: string, password: string)

  predicate RegisterBinds(req: RegisterRequest)
  {
    req.userType in {"worker", "employer"} && req.via in {"phone", "username"}
  }

  /** The checks that answer 400: binding, the required fields, the phone format and the length rules. */
  predicate RegisterFieldsOk(req: RegisterRequest)
  {
    && RegisterBinds(req)
    && (req.via == "phone" ==> req.phone != "" && req.code != "" && ValidPhone(req.phone))
    && (req.via != "phone" ==>
          req.username != "" && req.password != "" && ByteLength(req.username) >= 4 && ByteLength(req.password) >= 6)
  }

  /** The phone number or username the request registers is already stored. */
  predicate RegisterTaken(accounts: seq<Account>, req: RegisterRequest)
  {
    if req.via == "phone" then PhoneTaken(accounts, req.phone) else UsernameTaken(accounts, req.username)
  }

  function NewUser(uuid: string, userType: UserType): UserRow
  {
    UserRow(uuid, None, None, None, None, userType, None, None, None, None, None, None, None, DefaultBalance, None)
  }

  /**
   * The user a registration stores, or why it is refused. The phone path
   * never looks at the verification code beyond requiring one, and the
   * username path keeps the password as given. No creation hook runs, so
   * the identity status stays unset.
   */
  function RegisterCheck(accounts: seq<Account>, req: RegisterRequest, uuid: string, now: int): (r: Result<UserRow, Reason>)
    ensures r.Ok? <==> RegisterFieldsOk(req) && !RegisterTaken(accounts, req)
    ensures r == Err(Conflict) <==> RegisterFieldsOk(req) && RegisterTaken(accounts, req)
    ensures r == Err(InvalidRequest) <==> !RegisterFieldsOk(req)
    ensures r.Ok? ==> && r.value.uuid == uuid && r.value.userType.Name() == req.userType
                      && r.value.identityStatus.None? && r.value.balance == 0.0 && r.value.deletedAt.None?
    ensures r.Ok? && req.via == "phone" ==>
      && r.value.phone == Some(req.phone) && r.value.phoneVerifiedAt == Some(now)
      && r.value.username.None? && r.value.password.None?
    ensures r.Ok? && req.via == "username" ==>
      && r.value.username == Some(req.username) && r.value.password == Some(req.password)
      && r.value.phone.None? && r.value.phoneVerifiedAt.None?
  {
    if !RegisterBinds(req) then Err(InvalidRequest)
    else
      var user := NewUser(uuid, if req.userType == "worker" then Worker else Employer);
      if req.via == "phone" then
        if req.phone == "" || req.code == "" then Err(InvalidRequest)
        else if !ValidPhone(req.phone) then Err(InvalidRequest)
        else if FindUser(accounts, Where(PhoneQuery, [req.phone])).Some? then Err(Conflict)
        else Ok(user.(phone := Some(req.phone), phoneVerifiedAt := Some(now)))
      else
        if req.username == "" || req.password == "" then Err(InvalidRequest)
        else if ByteLength(req.username) < 4 then Err(InvalidRequest)
        else if ByteLength(req.password) < 6 then Err(InvalidRequest)
        else if FindUser(accounts, Where(UsernameQuery, [req.username])).Some? then Err(Conflict)
        else Ok(user.(username := Some(req.username), password := Some(req.password)))
  }

  /** Storing the registered user under the next id keeps ids and unique fields intact. */
  lemma RegisterKeepsWellFormed(accounts: seq<Account>, req: RegisterRequest, uuid: string, now: int)
    requires WellFormed(accounts)
    requires RegisterCheck(accounts, req, uuid, now).Ok?
    ensures WellFormed(accounts + [Account(|accounts| + 1, RegisterCheck(accounts, req, uuid, now).value)])
  {
    var u := RegisterCheck(accounts, req, uuid, now).value;
    var after := accounts + [Account(|accounts| + 1, u)];
    forall i, j | 0 <= i < j < |after| && after[i].user.username.Some?
      ensures after[i].user.username != after[j].user.username
    {
      if j == |accounts| && req.via == "username" {
        assert !UsernameTaken(accounts, req.username);
        assert after[i] == accounts[i];
      }
    }
    forall i, j | 0 <= i < j < |after| && after[i].user.phone.Some?
      ensures after[i].user.phone != after[j].user.phone
    {
      if j == |accounts| && req.via == "phone" {
        assert !PhoneTaken(accounts, req.phone);
        assert after[i] == accounts[i];
      }
    }
  }

  /**
   * The Register handler: stores the user under the next id and returns
   * it; when signing the session token fails the user stays stored and
   * the handler answers 500.
   */
  method Register(db: MemDb, req: RegisterRequest, uuid: string, now: int, signFails: bool)
    returns (r: Result<Account, Reason>)
    requires db.Valid()
    modifies db
    ensures db.Valid()
    ensures RegisterCheck(old(db.accounts), req, uuid, now).Err? ==>
      r == Err(RegisterCheck(old(db.accounts), req, uuid, now).error) && db.accounts == old(db.accounts)
    ensures RegisterCheck(old(db.accounts), req, uuid, now).Ok? ==>
      db.accounts == old(db.accounts) + [Account(|old(db.accounts)| + 1, RegisterCheck(old(db.accounts), req, uuid, now).value)]
    ensures RegisterCheck(old(db.accounts), req, uuid, now).Ok? ==>
      r == if signFails then Err(SigningFailed) else Ok(db.accounts[|db.accounts| - 1])
    ensures db.codes == old(db.codes) && db.invalidated == old(db.invalidated)
  {
    if !RegisterBinds(req) {
      return Err(InvalidRequest);
    }
    var user := NewUser(uuid, if req.userType == "worker" then Worker else Employer);
    if req.via == "phone" {
      if req.phone == "" || req.code == "" {
        return Err(InvalidRequest);
      }
      if ByteLength(req.phone) != 11 || !StartsWith(req.phone, "1") {
        return Err(InvalidRequest);
      }
      var existing := db.First(Where(PhoneQuery, [req.phone]));
      if existing.Some? {
        return Err(Conflict);
      }
      user := user.(phone := Some(req.phone), phoneVerifiedAt := Some(now));
    } else {
      if req.username == "" || req.password == "" {
        return Err(InvalidRequest);
      }
      if ByteLength(req.username) < 4 {
        return Err(InvalidRequest);
      }
      if ByteLength(req.password) < 6 {
        return Err(InvalidRequest);
      }
      var existing := db.First(Where(UsernameQuery, [req.username]));
      if existing.Some? {
        return Err(Conflict);
      }
      user := user.(username := Some(req.username), password := Some(req.password));
    }
    assert user == RegisterCheck(db.accounts, req, uuid, now).value;
    RegisterKeepsWellFormed(db.accounts, req, uuid, now);
    var account := Account(|db.accounts| + 1, user);
    db.CreateAccount(account);
    if signFails {
      return Err(SigningFailed);
    }
    return Ok(account);
  }

  // ----------------------------------------------------------------- Login

  datatype LoginRequest = LoginRequest(via: string, phone: string, code: string, username: string, password: string)

  /** The checks that answer 400: binding and the required fields. */
  predicate LoginFieldsOk(req: LoginRequest)
  {
    && req.via in {"phone", "username"}
    && (if req.via == "phone" then req.phone != "" && req.code != ""
        else req.username != "" && req.password != "")
  }

  /**
   * The stored user a login signs in, or why it is refused. A phone login
   * succeeds for any registered number, whatever the code; a username
   * login needs the stored password to equal the given one exactly. The
   * user returned is always a stored one, so the source's fallback for an
   * empty store (a mock user) is never reached.
   */
  function LoginCheck(accounts: seq<Account>, req: LoginRequest): (r: Result<Account, Reason>)
    ensures r.Err? ==> r.error in {InvalidRequest, BadCredentials}
    ensures r == Err(InvalidRequest) <==> !LoginFieldsOk(req)
    ensures r.Ok? ==> r.value in accounts
    ensures LoginFieldsOk(req) && req.via == "phone" ==> (r.Ok? <==> PhoneTaken(accounts, req.phone))
    ensures r.Ok? && req.via == "phone" ==> r.value.user.phone == Some(req.phone)
    ensures r.Ok? && req.via == "username" ==>
      r.value.user.username == Some(req.username) && r.value.user.password == Some(req.password)
  {
    if req.via != "phone" && req.via != "username" then Err(InvalidRequest)
    else if req.via == "phone" then
      if req.phone == "" || req.code == "" then Err(InvalidRequest)
      else match FindUser(accounts, Where(PhoneQuery, [req.phone]))
        case None => Err(BadCredentials)
        case Some(i) => Ok(accounts[i])
    else
      if req.username == "" || req.password == "" then Err(InvalidRequest)
      else match FindUser(accounts, Where(UsernameQuery, [req.username]))
        case None => Err(BadCredentials)
        case Some(i) =>
          if accounts[i].user.password.None? then Err(BadCredentials)
          else if accounts[i].user.password.value != req.password then Err(BadCredentials)
          else Ok(accounts[i])
  }

  /**
   * In a well-formed store a username login succeeds iff some stored user
   * has that username and that password.
   */
  lemma UsernameLoginIffCredentials(accounts: seq<Account>, req: LoginRequest)
    requires WellFormed(accounts)
    requires LoginFieldsOk(req) && req.via == "username"
    ensures LoginCheck(accounts, req).Ok? <==>
      exists i :: (0 <= i < |accounts| && accounts[i].user.username == Some(req.username)
                   && accounts[i].user.password == Some(req.password))
  {
    if i :| (0 <= i < |accounts| && accounts[i].user.username == Some(req.username)
             && accounts[i].user.password == Some(req.password)) {
      var found := FindUser(accounts, Where(UsernameQuery, [req.username]));
      assert UsernameTaken(accounts, req.username);
      var j := found.value;
      assert accounts[j].user.username == Some(req.username);
      assert forall k :: 0 <= k < |accounts| && k != i ==> accounts[k].user.username != accounts[i].user.username;
      assert j == i;
    }
  }

  /** The verification code of a phone login is never compared: any non-empty code gives the same answer. */
  lemma PhoneLoginIgnoresCode(accounts: seq<Account>, req: LoginRequest, other: string)
    requires req.via == "phone" && req.code != "" && other != ""
    ensures LoginCheck(accounts, req.(code := other)) == LoginCheck(accounts, req)
  {
  }

  /**
   * The Login handler: looks the user up in the store and returns it; when
   * signing the session token fails it answers 500. It writes nothing.
   */
  method Login(db: MemDb, req: LoginRequest, signFails: bool) returns (r: Result<Account, Reason>)
    ensures LoginCheck(db.accounts, req).Err? ==> r == LoginCheck(db.accounts, req)
    ensures LoginCheck(db.accounts, req).Ok? ==>
      r == if signFails then Err(SigningFailed) else LoginCheck(db.accounts, req)
  {
    if req.via != "phone" && req.via != "username" {
      return Err(InvalidRequest);
    }
    var found: Option<Account>;
    if req.via == "phone" {
      if req.phone == "" || req.code == "" {
        return Err(InvalidRequest);
      }
      found := db.First(Where(PhoneQuery, [req.phone]));
      if found.None? {
        return Err(BadCredentials);
      }
    } else {
      if req.username == "" || req.password == "" {
        return Err(InvalidRequest);
      }
      found := db.First(Where(UsernameQuery, [req.username]));
      if found.None? {
        return Err(BadCredentials);
      }
      if found.value.user.password.None? || found.value.user.password.value != req.password {
        return Err(BadCredentials);
      }
    }
    // The mock-user fallback runs only with an empty store, which a found user rules out.
    assert |db.accounts| != 0;
    if signFails {
      return Err(SigningFailed);
    }
    return Ok(found.value);
  }

  /** The login that matches a registration request. */
  function LoginFor(req: RegisterRequest): LoginRequest
  {
    LoginRequest(req.via, req.phone, req.code, req.username, req.password)
  }

  /** After a registration, logging in with the same fields signs in the user just stored. */
  lemma RegisterThenLogin(accounts: seq<Account>, req: RegisterRequest, uuid: string, now: int)
    requires WellFormed(accounts)
    requires RegisterCheck(accounts, req, uuid, now).Ok?
    ensures var stored := Account(|accounts| + 1, RegisterCheck(accounts, req, uuid, now).value);
      LoginCheck(accounts + [stored], LoginFor(req)) == Ok(stored)
  {
    var stored := Account(|accounts| + 1, RegisterCheck(accounts, req, uuid, now).value);
    var after := accounts + [stored];
    var q := if req.via == "phone" then Where(PhoneQuery, [req.phone]) else Where(UsernameQuery, [req.username]);
    assert Answers(q, after[|accounts|]);
    var found := FindUser(after, q);
    assert found.Some? by {
      if req.via == "phone" {
        assert PhoneTaken(after, req.phone);
      } else {
        assert UsernameTaken(after, req.username);
      }
    }
    assert forall k :: 0 <= k < |accounts| ==> !Answers(q, after[k]) by {
      if req.via == "phone" {
        assert !PhoneTaken(accounts, req.phone);
      } else {
        assert !UsernameTaken(accounts, req.username);
      }
    }
    assert found.value == |accounts|;
  }

  /** Registering the same phone number or username a second time is refused with a conflict. */
  lemma RegisterTwiceConflicts(accounts: seq<Account>, req: RegisterRequest, uuid: string, now: int, uuid2: string, now2: int)
    requires RegisterCheck(accounts, req, uuid, now).Ok?
    ensures var after := accounts + [Account(|accounts| + 1, RegisterCheck(accounts, req, uuid, now).value)];
      RegisterCheck(after, req, uuid2, now2) == Err(Conflict)
  {
    var after := accounts + [Account(|accounts| + 1, RegisterCheck(accounts, req, uuid, now).value)];
    if req.via == "phone" {
      assert after[|accounts|].user.phone == Some(req.phone);
      assert PhoneTaken(after, req.phone);
    } else {
      assert after[|accounts|].user.username == Some(req.username);
      assert UsernameTaken(after, req.username);
    }
  }

  // ---------------------------------------------------------------- Logout

  /**
   * The Logout handler: lists the bearer token of the Authorization header
   * as revoked for a day. The list is the in-memory one, not the table the
   * middlewares consult.
   */
  method Logout(db: MemDb, header: string, now: int) returns (r: Result<string, Reason>)
    modifies db
    ensures header == "" ==> r == Err(NotLoggedIn)
    ensures header != "" && AuthMiddleware.BearerToken(header).None? ==> r == Err(BadCredentials)
    ensures r.Ok? <==> AuthMiddleware.BearerToken(header).Some?
    ensures r.Ok? ==> && r.value == AuthMiddleware.BearerToken(header).value
                      && db.invalidated == old(db.invalidated) + [InvalidatedToken(r.value, now + RevocationPeriod)]
    ensures r.Err? ==> db.invalidated == old(db.invalidated)
    ensures db.codes == old(db.codes) && db.accounts == old(db.accounts)
  {
    if header == "" {
      return Err(NotLoggedIn);
    }
    var parts := Split(header, ' ');
    if |parts| != 2 || parts[0] != "Bearer" {
      return Err(BadCredentials);
    }
    var token := parts[1];
    db.CreateInvalidated(InvalidatedToken(token, now + RevocationPeriod));
    return Ok(token);
  }
}

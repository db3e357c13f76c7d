/**
 * The account handlers: settings (username, email, phone number), the
 * password change, the profile update and the avatar upload.
 */
module UserHandlers {
  import opened Wrappers
  import opened Http
  import opened Strings
  import opened UserModel
  import opened Db
  import opened AuthMiddleware
  import AuthHandlers

  // ---------------------------------------------------- UpdateUserSettings

  /** The settings body after binding; an absent field is None. Notification and privacy maps are not stored. */
  datatype SettingsRequest = SettingsRequest(username: Option<string>, email: Option<string>, phone: Option<string>)

  /** A settings field asks for a value when it is present and not empty. */
  predicate Requested(v: Option<string>)
  {
    v.Some? && v.value != ""
  }

  /** Only a requested value that differs from the stored one is checked. */
  predicate Changes(current: Option<string>, v: Option<string>)
  {
    Requested(v) && current != v
  }

  /** What a field holds after the update: the requested value, else the stored one. */
  function Pick(current: Option<string>, v: Option<string>): Option<string>
  {
    if Requested(v) then v else current
  }

  function UsernameOf(u: UserRow): Option<string> { u.username }
  function EmailOf(u: UserRow): Option<string> { u.email }
  function PhoneOf(u: UserRow): Option<string> { u.phone }

  /** A user other than the one with key `key` holds `value` in the selected column. */
  predicate HeldByOther(users: seq<UserRow>, key: nat, column: UserRow -> Option<string>, value: string)
  {
    exists i :: 0 <= i < |users| && i + 1 != key && column(users[i]) == Some(value)
  }

  /** An email needs an "@" and a "."; usernames have no format rule. */
  predicate EmailShaped(email: string)
  {
    Contains(email, "@") && Contains(email, ".")
  }

  predicate AnyText(s: string)
  {
    true
  }

  /** A field passes when it asks for no change, or its new value is well shaped, the lookup works and nobody else holds it. */
  predicate FieldAccepted(users: seq<UserRow>, key: nat, current: Option<string>, v: Option<string>,
                          column: UserRow -> Option<string>, shaped: string -> bool, fails: set<Step>)
  {
    Changes(current, v) ==> shaped(v.value) && QueryUser !in fails && !HeldByOther(users, key, column, v.value)
  }

  /**
   * One settings field: the value to store, or why the request is refused.
   * A malformed value answers 400, a failing lookup 500, a value another
   * user holds 409.
   */
  function CheckField(users: seq<UserRow>, key: nat, current: Option<string>, v: Option<string>,
                      column: UserRow -> Option<string>, shaped: string -> bool, fails: set<Step>)
    : (r: Result<Option<string>, Reason>)
    ensures r.Ok? <==> FieldAccepted(users, key, current, v, column, shaped, fails)
    ensures r.Ok? ==> r.value == Pick(current, v)
    ensures r == Err(InvalidRequest) <==> Changes(current, v) && !shaped(v.value)
    ensures r == Err(StorageError) <==> Changes(current, v) && shaped(v.value) && QueryUser in fails
    ensures r == Err(Conflict) <==>
      Changes(current, v) && shaped(v.value) && QueryUser !in fails && HeldByOther(users, key, column, v.value)
  {
    if !Requested(v) then Ok(current)
    else if current == v then Ok(current)
    else if !shaped(v.value) then Err(InvalidRequest)
    else if QueryUser in fails then Err(StorageError)
    else if HeldByOther(users, key, column, v.value) then Err(Conflict)
    else Ok(v)
  }

  /**
   * The settings update for the user with key `key` stored as `user`:
   * username, then email, then phone number, each checked only when it
   * asks for a change; an absent or empty field keeps the stored value,
   * and no other column changes.
   */
  function SettingsCheck(users: seq<UserRow>, key: nat, user: UserRow, req: SettingsRequest, fails: set<Step>)
    : (r: Result<UserRow, Reason>)
    ensures r.Ok? <==>
      && FieldAccepted(users, key, user.username, req.username, UsernameOf, AnyText, fails)
      && FieldAccepted(users, key, user.email, req.email, EmailOf, EmailShaped, fails)
      && FieldAccepted(users, key, user.phone, req.phone, PhoneOf, AuthHandlers.ValidPhone, fails)
    ensures r.Ok? ==> r.value == user.(username := Pick(user.username, req.username),
                                       email := Pick(user.email, req.email),
                                       phone := Pick(user.phone, req.phone))
    ensures r.Err? ==> r.error in {InvalidRequest, StorageError, Conflict}
    ensures r == Err(Conflict) ==>
      || (Changes(user.username, req.username) && HeldByOther(users, key, UsernameOf, req.username.value))
      || (Changes(user.email, req.email) && HeldByOther(users, key, EmailOf, req.email.value))
      || (Changes(user.phone, req.phone) && HeldByOther(users, key, PhoneOf, req.phone.value))
  {
    var name := CheckField(users, key, user.username, req.username, UsernameOf, AnyText, fails);
    if name.Err? then Err(name.error)
    else
      var email := CheckField(users, key, user.email, req.email, EmailOf, EmailShaped, fails);
      if email.Err? then Err(email.error)
      else
        var phone := CheckField(users, key, user.phone, req.phone, PhoneOf, AuthHandlers.ValidPhone, fails);
        if phone.Err? then Err(phone.error)
        else Ok(user.(username := name.value, email := email.value, phone := phone.value))
  }

  /** Sending the same settings again changes nothing more, whatever the table and the faults are by then. */
  lemma SettingsIdempotent(users: seq<UserRow>, key: nat, user: UserRow, req: SettingsRequest, fails: set<Step>,
                           users': seq<UserRow>, fails': set<Step>)
    requires SettingsCheck(users, key, user, req, fails).Ok?
    ensures var updated := SettingsCheck(users, key, user, req, fails).value;
      SettingsCheck(users', key, updated, req, fails') == Ok(updated)
  {
    var updated := SettingsCheck(users, key, user, req, fails).value;
    assert !Changes(updated.username, req.username);
    assert !Changes(updated.email, req.email);
    assert !Changes(updated.phone, req.phone);
  }

  /** No two users hold the same value in the selected column. */
  predicate Unique(users: seq<UserRow>, column: UserRow -> Option<string>)
  {
    forall i, j :: 0 <= i < j < |users| && column(users[i]).Some? ==> column(users[i]) != column(users[j])
  }

  /** A field update the check accepted keeps its column unique. */
  lemma {:induction false} AcceptedFieldKeepsUnique(users: seq<UserRow>, key: nat, v: Option<string>,
                                                     column: UserRow -> Option<string>, updated: UserRow)
    requires Unique(users, column) && 1 <= key <= |users|
    requires column(updated) == Pick(column(users[key - 1]), v)
    requires Changes(column(users[key - 1]), v) ==> !HeldByOther(users, key, column, v.value)
    ensures Unique(users[key - 1 := updated], column)
  {
    var after := users[key - 1 := updated];
    forall i, j | 0 <= i < j < |after| && column(after[i]).Some?
      ensures column(after[i]) != column(after[j])
    {
      if i == key - 1 || j == key - 1 {
        var other := if i == key - 1 then j else i;
        assert after[other] == users[other];
        if Changes(column(users[key - 1]), v) {
          assert column(updated) == v;
          assert !(other + 1 != key && column(users[other]) == Some(v.value));
        } else {
          assert column(updated) == column(users[key - 1]);
          if i == key - 1 {
            assert column(users[i]) != column(users[j]);
          } else {
            assert column(users[i]) != column(users[j]);
          }
        }
      } else {
        assert column(users[i]) != column(users[j]);
      }
    }
  }

  /** Usernames, emails and phone numbers that were unique stay unique after an accepted settings update. */
  lemma SettingsKeepUnique(users: seq<UserRow>, key: nat, req: SettingsRequest, fails: set<Step>)
    requires 1 <= key <= |users|
    requires Unique(users, UsernameOf) && Unique(users, EmailOf) && Unique(users, PhoneOf)
    requires SettingsCheck(users, key, users[key - 1], req, fails).Ok?
    ensures var after := users[key - 1 := SettingsCheck(users, key, users[key - 1], req, fails).value];
      Unique(after, UsernameOf) && Unique(after, EmailOf) && Unique(after, PhoneOf)
  {
    var updated := SettingsCheck(users, key, users[key - 1], req, fails).value;
    AcceptedFieldKeepsUnique(users, key, req.username, UsernameOf, updated);
    AcceptedFieldKeepsUnique(users, key, req.email, EmailOf, updated);
    AcceptedFieldKeepsUnique(users, key, req.phone, PhoneOf, updated);
  }

  /** The uniqueness query `column = ? AND id != ?`: whether a user other than `key` holds `value`. */
  method QueryHolder(users: seq<UserRow>, key: nat, column: UserRow -> Option<string>, value: string)
    returns (found: bool)
    ensures found == HeldByOther(users, key, column, value)
  {
    for i := 0 to |users|
      invariant forall k :: 0 <= k < i ==> !(k + 1 != key && column(users[k]) == Some(value))
    {
      if i + 1 != key && column(users[i]) == Some(value) {
        return true;
      }
    }
    return false;
  }

  /**
   * One field of the handler: when a present, non-empty value differs from
   * the stored one, its format is checked and the uniqueness query run.
   */
  method ApplyField(users: seq<UserRow>, key: nat, current: Option<string>, v: Option<string>,
                    column: UserRow -> Option<string>, shaped: string -> bool, fails: set<Step>)
    returns (r: Result<Option<string>, Reason>)
    ensures r == CheckField(users, key, current, v, column, shaped, fails)
  {
    if v.None? || v.value == "" {
      return Ok(current);
    }
    if current.None? || current.value != v.value {
      if !shaped(v.value) {
        return Err(InvalidRequest);
      }
      if QueryUser in fails {
        return Err(StorageError);
      }
      var taken := QueryHolder(users, key, column, v.value);
      if taken {
        return Err(Conflict);
      }
    }
    return Ok(v);
  }

  /** Behind AuthRequired, the context user is the stored row with the context's key. */
  predicate InContext(users: seq<UserRow>, ctx: Option<Identity>)
  {
    ctx.Some? ==> 1 <= ctx.value.userId <= |users| && users[ctx.value.userId - 1] == ctx.value.user
  }

  /**
   * The UpdateUserSettings handler: checks and assigns username, email and
   * phone number on the context user in that order, then saves the whole
   * row.
   */
  method UpdateUserSettings(db: Database, ctx: Option<Identity>, req: SettingsRequest, fails: set<Step>)
    returns (r: Result<UserRow, Reason>)
    requires InContext(db.users, ctx)
    modifies db
    ensures db.tasks == old(db.tasks) && db.applications == old(db.applications) && db.assignments == old(db.assignments)
    ensures db.transactions == old(db.transactions) && db.reviews == old(db.reviews)
    ensures ctx.None? ==> r == Err(NotLoggedIn) && db.users == old(db.users)
    ensures ctx.Some? ==>
      var check := SettingsCheck(old(db.users), ctx.value.userId, ctx.value.user, req, fails);
      && (check.Err? ==> r == check && db.users == old(db.users))
      && (check.Ok? && SaveUser in fails ==> r == Err(StorageError) && db.users == old(db.users))
      && (check.Ok? && SaveUser !in fails ==> r == check && db.users == old(db.users)[ctx.value.userId - 1 := check.value])
  {
    if ctx.None? {
      return Err(NotLoggedIn);
    }
    var key := ctx.value.userId;
    var user := ctx.value.user;
    var name := ApplyField(db.users, key, user.username, req.username, UsernameOf, AnyText, fails);
    if name.Err? {
      return Err(name.error);
    }
    user := user.(username := name.value);
    var email := ApplyField(db.users, key, user.email, req.email, EmailOf, EmailShaped, fails);
    if email.Err? {
      return Err(email.error);
    }
    user := user.(email := email.value);
    var phone := ApplyField(db.users, key, user.phone, req.phone, PhoneOf, AuthHandlers.ValidPhone, fails);
    if phone.Err? {
      return Err(phone.error);
    }
    user := user.(phone := phone.value);
    assert Ok(user) == SettingsCheck(db.users, key, ctx.value.user, req, fails);
    if SaveUser in fails {
      return Err(StorageError);
    }
    db.users := db.users[key - 1 := user];
    return Ok(user);
  }

  // -------------------------------------------------------- ChangePassword

  /**
   * The password change: both fields are required, the current password
   * must equal the stored one (401 otherwise) and the new one must be at
   * least six bytes; the new password is stored as given.
   */
  function PasswordChange(user: UserRow, current: string, replacement: string): (r: Result<UserRow, Reason>)
    ensures r.Ok? <==> current != "" && replacement != "" && user.password == Some(current) && ByteLength(replacement) >= 6
    ensures r.Ok? ==> r.value == user.(password := Some(replacement))
    ensures r == Err(BadCredentials) <==> current != "" && replacement != "" && user.password != Some(current)
    ensures r.Err? ==> r.error in {InvalidRequest, BadCredentials}
  {
    if current == "" || replacement == "" then Err(InvalidRequest)
    else if user.password.None? || user.password.value != current then Err(BadCredentials)
    else if ByteLength(replacement) < 6 then Err(InvalidRequest)
    else Ok(user.(password := Some(replacement)))
  }

  /** Changing the password and changing it back restores the user. */
  lemma PasswordChangeRoundTrip(user: UserRow, current: string, replacement: string)
    requires PasswordChange(user, current, replacement).Ok?
    requires ByteLength(current) >= 6
    ensures PasswordChange(PasswordChange(user, current, replacement).value, replacement, current) == Ok(user)
  {
  }

  /** After a change to a different password, the old one no longer passes. */
  lemma OldPasswordRejected(user: UserRow, current: string, replacement: string, next: string)
    requires PasswordChange(user, current, replacement).Ok? && replacement != current && next != ""
    ensures PasswordChange(PasswordChange(user, current, replacement).value, current, next) == Err(BadCredentials)
  {
  }

  /** The ChangePassword handler: checks the request against the context user and saves the new password. */
  method ChangePassword(db: Database, ctx: Option<Identity>, current: string, replacement: string, fails: set<Step>)
    returns (r: Result<UserRow, Reason>)
    requires InContext(db.users, ctx)
    modifies db
    ensures db.tasks == old(db.tasks) && db.applications == old(db.applications) && db.assignments == old(db.assignments)
    ensures db.transactions == old(db.transactions) && db.reviews == old(db.reviews)
    ensures ctx.None? ==> r == Err(NotLoggedIn) && db.users == old(db.users)
    ensures ctx.Some? ==>
      var change := PasswordChange(ctx.value.user, current, replacement);
      && (change.Err? ==> r == change && db.users == old(db.users))
      && (change.Ok? && SaveUser in fails ==> r == Err(StorageError) && db.users == old(db.users))
      && (change.Ok? && SaveUser !in fails ==> r == change && db.users == old(db.users)[ctx.value.userId - 1 := change.value])
  {
    if ctx.None? {
      return Err(NotLoggedIn);
    }
    var change := PasswordChange(ctx.value.user, current, replacement);
    if change.Err? {
      return change;
    }
    if SaveUser in fails {
      return Err(StorageError);
    }
    db.users := db.users[ctx.value.userId - 1 := change.value];
    return change;
  }

  // ----------------------------------------------------- UpdateUserProfile

  /** The profile body after binding; an absent field is None. */
  datatype ProfileRequest = ProfileRequest(
    name: Option<string>, bio: Option<string>, location: Option<string>,
    hourlyRate: Option<real>, skills: Option<seq<string>>)

  datatype Skill = Skill(id: nat, name: string)

  /** The fixed worker the profile handlers answer with. */
  const DemoUser: UserRow :=
    UserRow("user-uuid-123", None, None, None, None, Worker, None, None, None, None, None, None, None, DefaultBalance, None)

  const DemoSkills: seq<Skill> := [Skill(1, "UI设计"), Skill(2, "Web开发")]

  /** A partial profile update: present fields are copied, and the hourly rate only for a worker. */
  function ProfileUpdate(user: UserRow, req: ProfileRequest): (r: UserRow)
    ensures r == user.(name := r.name, bio := r.bio, location := r.location, hourlyRate := r.hourlyRate)
    ensures req.name.Some? ==> r.name == req.name
    ensures req.name.None? ==> r.name == user.name
    ensures req.bio.Some? ==> r.bio == req.bio
    ensures req.bio.None? ==> r.bio == user.bio
    ensures req.location.Some? ==> r.location == req.location
    ensures req.location.None? ==> r.location == user.location
    ensures r.hourlyRate == if req.hourlyRate.Some? && user.userType == Worker then req.hourlyRate else user.hourlyRate
  {
    user.(name := if req.name.Some? then req.name else user.name,
          bio := if req.bio.Some? then req.bio else user.bio,
          location := if req.location.Some? then req.location else user.location,
          hourlyRate := if req.hourlyRate.Some? && user.userType == Worker then req.hourlyRate else user.hourlyRate)
  }

  /** Two updates in a row are one update with the later request's fields winning. */
  function Merge(first: ProfileRequest, second: ProfileRequest): ProfileRequest
  {
    ProfileRequest(
      if second.name.Some? then second.name else first.name,
      if second.bio.Some? then second.bio else first.bio,
      if second.location.Some? then second.location else first.location,
      if second.hourlyRate.Some? then second.hourlyRate else first.hourlyRate,
      if second.skills.Some? then second.skills else first.skills)
  }

  lemma ProfileUpdatesCompose(user: UserRow, first: ProfileRequest, second: ProfileRequest)
    ensures ProfileUpdate(ProfileUpdate(user, first), second) == ProfileUpdate(user, Merge(first, second))
  {
  }

  /** An employer's hourly rate never changes through a profile update. */
  lemma EmployerRateKept(user: UserRow, req: ProfileRequest)
    requires user.userType != Worker
    ensures ProfileUpdate(user, req).hourlyRate == user.hourlyRate
  {
  }

  /** The skills the response lists for the given names: numbered from one, in order. */
  method NumberSkills(names: seq<string>) returns (skills: seq<Skill>)
    ensures |skills| == |names|
    ensures forall i :: 0 <= i < |names| ==> skills[i] == Skill(i + 1, names[i])
  {
    skills := [];
    for i := 0 to |names|
      invariant |skills| == i
      invariant forall k :: 0 <= k < i ==> skills[k] == Skill(k + 1, names[k])
    {
      skills := skills + [Skill(i + 1, names[i])];
    }
  }

  /**
   * The UpdateUserProfile handler: it updates the fixed demo worker, saves
   * nothing, and lists the request's skills when given, else the demo ones.
   */
  method UpdateUserProfile(req: ProfileRequest) returns (user: UserRow, skills: seq<Skill>)
    ensures user == ProfileUpdate(DemoUser, req)
    ensures req.skills.None? ==> skills == DemoSkills
    ensures req.skills.Some? ==> |skills| == |req.skills.value|
    ensures req.skills.Some? ==> forall i :: 0 <= i < |skills| ==> skills[i] == Skill(i + 1, req.skills.value[i])
  {
    user := ProfileUpdate(DemoUser, req);
    skills := DemoSkills;
    if req.skills.Some? {
      skills := NumberSkills(req.skills.value);
    }
  }

  // ---------------------------------------------------------- UploadAvatar

  /** The uploaded form file: its name, declared content type and size in bytes. */
  datatype Upload = Upload(filename: string, contentType: string, size: int)

  const MaxAvatarBytes: int := 2 * 1024 * 1024
  const AvatarPath := "/uploads/avatars/"

  /**
   * The extension of a file name: from the last "." of its final path
   * element to the end, or "" when that element has no ".".
   */
  function Ext(path: string): (e: string)
    ensures e == "" || (e[0] == '.' && |e| <= |path| && path[|path| - |e|..] == e)
    ensures '/' !in e
    ensures e != "" ==> '.' !in e[1..]
    ensures e == "" ==> forall k :: 0 <= k < |path| && path[k] == '.' ==> exists m :: k < m < |path| && path[m] == '/'
    decreases |path|
  {
    if path == [] then ""
    else
      var last := path[|path| - 1];
      if last == '/' then ""
      else if last == '.' then "."
      else
        var init := path[..|path| - 1];
        var e := Ext(init);
        if e == "" then
          assert forall m :: 0 <= m < |init| ==> path[m] == init[m];
          ""
        else
          assert path[|path| - |e| - 1..] == init[|init| - |e|..] + [last];
          e + [last]
  }

  /**
   * The avatar upload: a file is required, its content type must start
   * with "image/" and it may be at most 2 MiB; the stored file is named by
   * a fresh uuid with the original extension. The URL is returned, not
   * written to the user row.
   */
  function UploadAvatar(file: Option<Upload>, uuid: string, storeFails: bool): (r: Result<string, Reason>)
    ensures r.Ok? <==> && file.Some? && StartsWith(file.value.contentType, "image/")
                       && file.value.size <= MaxAvatarBytes && !storeFails
    ensures r == Err(StorageError) <==> && file.Some? && StartsWith(file.value.contentType, "image/")
                                        && file.value.size <= MaxAvatarBytes && storeFails
    ensures r.Err? && r.error != StorageError ==> r.error == InvalidRequest
    ensures r.Ok? ==> r.value == AvatarPath + uuid + Ext(file.value.filename)
  {
    if file.None? then Err(InvalidRequest)
    else if !StartsWith(file.value.contentType, "image/") then Err(InvalidRequest)
    else if file.value.size > MaxAvatarBytes then Err(InvalidRequest)
    else if storeFails then Err(StorageError)
    else Ok(AvatarPath + uuid + Ext(file.value.filename))
  }

  /** The avatar URL keeps the upload's extension and nothing else of its name. */
  lemma AvatarUrlEndsWithExtension(file: Upload, uuid: string)
    requires UploadAvatar(Some(file), uuid, false).Ok?
    ensures var url := UploadAvatar(Some(file), uuid, false).value;
      && StartsWith(url, AvatarPath + uuid)
      && url[|AvatarPath + uuid|..] == Ext(file.filename)
  {
    var url := UploadAvatar(Some(file), uuid, false).value;
    assert url == (AvatarPath + uuid) + Ext(file.filename);
    assert url[..|AvatarPath + uuid|] == AvatarPath + uuid;
  }
}

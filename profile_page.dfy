/**
 * The profile page (frontend/app/dashboard/profile/page.tsx).
 * - Loading: the user object from the server is normalised. Fallbacks
 *   pick the avatar, the verified flag and the name from differently
 *   named fields. The skills field, strings or objects, becomes a list
 *   of names.
 * - Editing: the skill list is the shared skill editor.
 * - Saving: the form is sent to PUT /users/profile. The backend's Go
 *   binding then reads the body into the profile request.
 */
module ProfilePage {
  import opened Wrappers
  import opened Seqs
  import opened Numbers
  import opened JsonValues
  import opened Http
  import UserHandlers
  import SkillList

  // ---------------------------------------------------------------------
  // Loading the profile
  // ---------------------------------------------------------------------

  /**
   * One entry of the skills array: a string stays, an object (an array is
   * one too) gives its `name` when that is truthy and "" otherwise, and any
   * other value gives "".
   */
  function SkillEntry(j: Json): (r: Json)
    ensures j.JStr? ==> r == j
    ensures Truthy(r) ==> j.JStr? || (j.JObj? && "name" in j.fields && r == j.fields["name"])
    ensures !j.JStr? && !Truthy(r) ==> r == JStr("")
  {
    match j
    case JStr(_) => j
    case JObj(fields) => Or(Get(fields, "name"), Some(JStr(""))).value
    case JArr(_) => JStr("")
    case _ => JStr("")
  }

  function Entries(items: seq<Json>): (r: seq<Json>)
    ensures |r| == |items| && forall k :: 0 <= k < |items| ==> r[k] == SkillEntry(items[k])
  {
    seq(|items|, k requires 0 <= k < |items| => SkillEntry(items[k]))
  }

  function IsTruthy(): Json -> bool
  {
    (j: Json) => Truthy(j)
  }

  /**
   * The skill list the page loads: every entry of a skills array mapped to
   * a name, the falsy ones dropped; a skills field that is missing, falsy
   * or not an array gives no skills.
   */
  function NormalisedSkills(field: Option<Json>): (r: seq<Json>)
    ensures forall k :: 0 <= k < |r| ==> Truthy(r[k])
    ensures !(Holds(field) && field.value.JArr?) ==> r == []
    ensures Holds(field) && field.value.JArr? ==> |r| <= |field.value.items|
  {
    if Holds(field) then
      if field.value.JArr? then Filter(Entries(field.value.items), IsTruthy())
      else []
    else []
  }

  function NonEmpty(): string -> bool
  {
    (s: string) => s != ""
  }

  /** The strings as JSON strings. */
  function Texts(ss: seq<string>): (r: seq<Json>)
    ensures |r| == |ss| && forall k :: 0 <= k < |ss| ==> r[k] == JStr(ss[k])
  {
    seq(|ss|, k requires 0 <= k < |ss| => JStr(ss[k]))
  }

  /** JSON strings load as those strings, the empty ones dropped, in order. */
  lemma {:induction false} TextsLoad(names: seq<string>)
    ensures Filter(Texts(names), IsTruthy()) == Texts(Filter(names, NonEmpty()))
    decreases |names|
  {
    if names != [] {
      var rest := Filter(names[1..], NonEmpty());
      TextsLoad(names[1..]);
      assert Texts(names)[1..] == Texts(names[1..]);
      if names[0] != "" {
        assert Filter(names, NonEmpty()) == [names[0]] + rest;
        TextsCons(names[0], rest);
      } else {
        assert Filter(names, NonEmpty()) == rest;
      }
    }
  }

  lemma TextsCons(head: string, tail: seq<string>)
    ensures Texts([head] + tail) == [JStr(head)] + Texts(tail)
  {
  }

  /**
   * Entries that each give a name load as those names, the empty ones
   * dropped, in order.
   */
  lemma NamedEntriesLoad(items: seq<Json>, names: seq<string>)
    requires |items| == |names|
    requires forall k :: 0 <= k < |items| ==> SkillEntry(items[k]) == JStr(names[k])
    ensures Filter(Entries(items), IsTruthy()) == Texts(Filter(names, NonEmpty()))
  {
    assert Entries(items) == Texts(names);
    TextsLoad(names);
  }

  /** An array, even an empty one, is truthy: its entries load. */
  lemma ArrayLoads(items: seq<Json>)
    ensures NormalisedSkills(Some(JArr(items))) == Filter(Entries(items), IsTruthy())
  {
  }

  /** An array of skill names loads as the names that are not empty. */
  lemma NamesLoad(names: seq<string>)
    ensures NormalisedSkills(Some(StringsJson(names))) == Texts(Filter(names, NonEmpty()))
  {
    var items := StringsJson(names).items;
    forall k | 0 <= k < |items|
      ensures SkillEntry(items[k]) == JStr(names[k])
    {
      assert items[k] == JStr(names[k]);
    }
    NamedEntriesLoad(items, names);
    assert NormalisedSkills(Some(StringsJson(names))) == Filter(Entries(items), IsTruthy());
  }

  /** The zero time Go writes for a skill's unset creation time. */
  const ZeroTime: string := "0001-01-01T00:00:00Z"

  /** A skill as the backend writes it: id, name and creation time. */
  function SkillJson(s: UserHandlers.Skill): (j: Json)
    ensures j.JObj? && Get(j.fields, "name") == Some(JStr(s.name))
  {
    JObj(map["id" := JNum(s.id as real), "name" := JStr(s.name), "created_at" := JStr(ZeroTime)])
  }

  function SkillsJson(skills: seq<UserHandlers.Skill>): (j: Json)
    ensures j.JArr? && |j.items| == |skills|
    ensures forall k :: 0 <= k < |skills| ==> j.items[k] == SkillJson(skills[k])
  {
    JArr(seq(|skills|, k requires 0 <= k < |skills| => SkillJson(skills[k])))
  }

  /** The skill objects the backend answers with load as their names. */
  lemma BackendSkillsLoad(skills: seq<UserHandlers.Skill>, names: seq<string>)
    requires |names| == |skills| && forall k :: 0 <= k < |skills| ==> skills[k].name == names[k]
    ensures NormalisedSkills(Some(SkillsJson(skills))) == Texts(Filter(names, NonEmpty()))
  {
    var items := SkillsJson(skills).items;
    forall k | 0 <= k < |items|
      ensures SkillEntry(items[k]) == JStr(names[k])
    {
      assert items[k] == SkillJson(skills[k]);
    }
    NamedEntriesLoad(items, names);
    assert SkillsJson(skills) == JArr(items);
    ArrayLoads(items);
  }

  /** The fixed skills of the profile handlers load as their two names. */
  lemma DemoSkillsLoad()
    ensures NormalisedSkills(Some(SkillsJson(UserHandlers.DemoSkills))) == [JStr("UI设计"), JStr("Web开发")]
  {
    BackendSkillsLoad(UserHandlers.DemoSkills, ["UI设计", "Web开发"]);
    assert Filter(["UI设计", "Web开发"], NonEmpty()) == ["UI设计", "Web开发"] by {
      FilterAll(["UI设计", "Web开发"], NonEmpty());
    }
  }

  /** The fields the page reads under one name whatever the server called them. */
  datatype Profile = Profile(avatar: Option<Json>, verified: Json, name: Option<Json>)

  /**
   * The fallbacks: the avatar is `avatar_url || avatar`; the verified flag
   * is `is_identity_verified || verified || false`; the name is `name ||
   * full_name || username`.
   */
  function Normalised(user: map<string, Json>): (p: Profile)
    ensures Holds(Get(user, "avatar_url")) ==> p.avatar == Get(user, "avatar_url")
    ensures !Holds(Get(user, "avatar_url")) ==> p.avatar == Get(user, "avatar")
    ensures Truthy(p.verified) <==> Holds(Get(user, "is_identity_verified")) || Holds(Get(user, "verified"))
    ensures !Truthy(p.verified) ==> p.verified == JBool(false)
    ensures Holds(p.name) <==> Holds(Get(user, "name")) || Holds(Get(user, "full_name")) || Holds(Get(user, "username"))
    ensures Holds(Get(user, "name")) ==> p.name == Get(user, "name")
  {
    Profile(
      Or(Get(user, "avatar_url"), Get(user, "avatar")),
      Or(Or(Get(user, "is_identity_verified"), Get(user, "verified")), Some(JBool(false))).value,
      Or(Or(Get(user, "name"), Get(user, "full_name")), Get(user, "username")))
  }

  /**
   * The backend's profile has `is_identity_verified` and no `verified`, so
   * the page's flag is the backend's; its `name` is a string or null and
   * there is no `full_name` or `username`, so an unset name is missing.
   */
  lemma BackendProfileFallbacks(user: map<string, Json>, verified: bool, name: Option<string>)
    requires Get(user, "is_identity_verified") == Some(JBool(verified)) && "verified" !in user
    requires Get(user, "name") == Some(if name.Some? then JStr(name.value) else JNull)
    requires "full_name" !in user && "username" !in user
    ensures Normalised(user).verified == JBool(verified)
    ensures Normalised(user).name == if name.Some? && name.value != "" then Some(JStr(name.value)) else None
  {
  }

  // ---------------------------------------------------------------------
  // Saving the profile
  // ---------------------------------------------------------------------

  /** The edit form; `hourlyRate` is the text typed. */
  datatype ProfileForm = ProfileForm(name: string, bio: string, location: string, hourlyRate: string, skills: seq<string>)

  /**
   * The hourly rate field of the body: parseFloat of the text when one was
   * typed (NaN is written as null), and no field at all when the text is
   * empty. `parseFloat` is the engine's.
   */
  function RateField(f: ProfileForm, parseFloat: string -> Float): map<string, Json>
  {
    if f.hourlyRate != "" then map["hourly_rate" := NumberJson(parseFloat(f.hourlyRate))] else map[]
  }

  /** The skills as the save handler writes them, each wrapped in an object with a `name`. */
  function SkillObjects(skills: seq<string>): (j: Json)
    ensures j.JArr? && |j.items| == |skills|
    ensures forall k :: 0 <= k < |skills| ==> j.items[k] == JObj(map["name" := JStr(skills[k])])
  {
    JArr(seq(|skills|, k requires 0 <= k < |skills| => JObj(map["name" := JStr(skills[k])])))
  }

  /** The body handleSave sends, as written: skills as `{name}` objects. */
  function SaveBodyAsWritten(f: ProfileForm, parseFloat: string -> Float): map<string, Json>
  {
    map["name" := JStr(f.name), "bio" := JStr(f.bio), "location" := JStr(f.location),
        "skills" := SkillObjects(f.skills)] + RateField(f, parseFloat)
  }

  /** The body the backend's profile request reads: skills as strings. */
  function SaveBody(f: ProfileForm, parseFloat: string -> Float): map<string, Json>
  {
    map["name" := JStr(f.name), "bio" := JStr(f.bio), "location" := JStr(f.location),
        "skills" := StringsJson(f.skills)] + RateField(f, parseFloat)
  }

  /**
   * The backend's binding of the profile body: every field is a pointer,
   * nil when missing or null; a value of the wrong type fails the binding,
   * and the handler answers 400.
   */
  function BindProfile(body: map<string, Json>): (r: Result<UserHandlers.ProfileRequest, Reason>)
    ensures r.Err? ==> r == Err(InvalidRequest)
    ensures r.Ok? <==>
      && DecodeStrings(Get(body, "skills")).Ok? && DecodeStringPtr(Get(body, "name")).Ok?
      && DecodeStringPtr(Get(body, "bio")).Ok? && DecodeStringPtr(Get(body, "location")).Ok?
      && DecodeFloatPtr(Get(body, "hourly_rate")).Ok?
    ensures r.Ok? ==> r.value.skills == DecodeStrings(Get(body, "skills")).value
  {
    match (DecodeStringPtr(Get(body, "name")), DecodeStringPtr(Get(body, "bio")), DecodeStringPtr(Get(body, "location")),
           DecodeFloatPtr(Get(body, "hourly_rate")), DecodeStrings(Get(body, "skills")))
    case (Ok(name), Ok(bio), Ok(location), Ok(rate), Ok(skills)) =>
      Ok(UserHandlers.ProfileRequest(name, bio, location, rate, skills))
    case _ => Err(InvalidRequest)
  }

  /** The hourly rate the backend reads from a form. */
  function SentRate(f: ProfileForm, parseFloat: string -> Float): Option<real>
  {
    if f.hourlyRate != "" && parseFloat(f.hourlyRate).Finite? then Some(parseFloat(f.hourlyRate).value) else None
  }

  /**
   * As written, a save with any skill in the list is refused: the backend
   * reads skills as strings and the page sends objects. A save with an
   * empty list goes through.
   */
  lemma SaveRefusedAsWritten(f: ProfileForm, parseFloat: string -> Float)
    ensures f.skills != [] ==> BindProfile(SaveBodyAsWritten(f, parseFloat)) == Err(InvalidRequest)
    ensures f.skills != [] ==> Status(InvalidRequest) == 400
    ensures f.skills == [] ==> BindProfile(SaveBodyAsWritten(f, parseFloat)).Ok?
  {
    var body := SaveBodyAsWritten(f, parseFloat);
    assert Get(body, "skills") == Some(SkillObjects(f.skills));
    if f.skills != [] {
      NonStringItemRefused(SkillObjects(f.skills).items, 0);
    } else {
      assert SkillObjects(f.skills).items == [];
    }
  }

  /** The body with skills as strings binds to the form's fields, skills in order. */
  lemma SaveBinds(f: ProfileForm, parseFloat: string -> Float)
    ensures BindProfile(SaveBody(f, parseFloat)) ==
      Ok(UserHandlers.ProfileRequest(Some(f.name), Some(f.bio), Some(f.location), SentRate(f, parseFloat), Some(f.skills)))
  {
    var body := SaveBody(f, parseFloat);
    assert Get(body, "skills") == Some(StringsJson(f.skills));
    StringsRoundTrip(f.skills);
  }

  /**
   * A saved list of non-empty skills comes back unchanged: the handler
   * numbers the skills it was sent, and the page loads those objects as
   * the same names in the same order.
   */
  lemma SavedSkillsLoadBack(f: ProfileForm, parseFloat: string -> Float, answered: seq<UserHandlers.Skill>)
    requires SkillList.Clean(f.skills)
    requires var req := BindProfile(SaveBody(f, parseFloat)).value;
      BindProfile(SaveBody(f, parseFloat)).Ok? && req.skills.Some? &&
      |answered| == |req.skills.value| &&
      forall i :: 0 <= i < |answered| ==> answered[i] == UserHandlers.Skill(i + 1, req.skills.value[i])
    ensures NormalisedSkills(Some(SkillsJson(answered))) == Texts(f.skills)
  {
    SaveBinds(f, parseFloat);
    BackendSkillsLoad(answered, f.skills);
    FilterAll(f.skills, NonEmpty());
  }
}

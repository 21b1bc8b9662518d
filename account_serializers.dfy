/**
 * The account serializers (apps/accounts/serializers.py) and the API-key endpoint that uses
 * them: registration with its field checks and the default preferences it creates, the
 * API-key update and its effect on `use_own_api_key`, and the public profile representation.
 */
module AccountSerializers {
  import opened Wrappers
  import opened Text
  import opened Json
  import opened Forms
  import opened Accounts
  import opened Store

  /** The validated registration data; `password_confirm` is dropped. */
  datatype Registration = Registration(username: string, email: string, password: string)

  const UsernameTakenMessage: string := "A user with that username already exists."
  const EmailTakenMessage: string := "user with this email already exists."
  const PasswordMismatchMessage: string := "Passwords do not match."

  /** `username`: required, not blank, at most 150 characters, unique. */
  const UsernameRules: TextRules := TextRules(true, false, None, Some(150))
  /** `email`: required (the model field is not blank), at most 254 characters, unique. */
  const EmailRules: TextRules := TextRules(true, false, None, Some(254))
  /** `password` and `password_confirm`: `CharField(min_length=8)`. */
  const PasswordRules: TextRules := TextRules(true, false, Some(8), None)

  /** A uniqueness validator: the message when the value is already taken. */
  function UniqueIn(taken: set<string>, message: string): string -> seq<string> {
    t => if t in taken then [message] else []
  }

  /** The body's `username`, validated against the stored usernames. */
  function UsernameField(users: map<UserId, User>, body: Json): FieldResult<string> {
    TextField(FieldOf(body, "username"), UsernameRules, UniqueIn(Usernames(users), UsernameTakenMessage))
  }

  /** The body's `email`, validated against the stored addresses as given, not normalized. */
  function EmailField(users: map<UserId, User>, body: Json): FieldResult<string> {
    TextField(FieldOf(body, "email"), EmailRules, UniqueIn(Emails(users), EmailTakenMessage))
  }

  /** The body's `password` or `password_confirm`, validated. */
  function PasswordField(body: Json, key: string): FieldResult<string> {
    TextField(FieldOf(body, key), PasswordRules, NoExtra)
  }

  /** The errors of the four fields, in the serializer's field order. */
  function RegistrationFieldErrors(users: map<UserId, User>, body: Json): seq<(string, seq<string>)> {
    ErrorsOf("username", UsernameField(users, body)) + ErrorsOf("email", EmailField(users, body))
    + ErrorsOf("password", PasswordField(body, "password")) + ErrorsOf("password_confirm", PasswordField(body, "password_confirm"))
  }

  /** The two passwords were sent and differ. */
  predicate PasswordsDiffer(body: Json) {
    Sent(body, "password") && Sent(body, "password_confirm") && SentText(body, "password") != SentText(body, "password_confirm")
  }

  /**
   * `UserRegistrationSerializer.is_valid()`: the four fields are checked one by one and their
   * errors reported together; only when all pass does `validate` compare the two passwords.
   */
  function ValidateRegistration(users: map<UserId, User>, body: Json): (r: Checked<Registration>)
    ensures r.Rejected? <==> RegistrationFieldErrors(users, body) != [] || PasswordsDiffer(body)
    ensures r.Rejected? ==>
              r.errors == (if RegistrationFieldErrors(users, body) != [] then RegistrationFieldErrors(users, body)
                           else [("non_field_errors", [PasswordMismatchMessage])])
    ensures r.Accepted? ==>
              && Sent(body, "username") && r.value.username == SentText(body, "username")
              && Sent(body, "email") && r.value.email == SentText(body, "email")
              && Sent(body, "password") && r.value.password == SentText(body, "password")
              && Sent(body, "password_confirm") && SentText(body, "password_confirm") == r.value.password
    ensures r.Accepted? ==>
              && r.value.username != "" && |r.value.username| <= 150 && r.value.username !in Usernames(users)
              && r.value.email != "" && |r.value.email| <= 254 && r.value.email !in Emails(users)
              && |r.value.password| >= 8
    ensures Sent(body, "password") && |SentText(body, "password")| < 8 ==> r.Rejected?
    ensures Sent(body, "password_confirm") && |SentText(body, "password_confirm")| < 8 ==> r.Rejected?
  {
    var u := UsernameField(users, body);
    var e := EmailField(users, body);
    var p := PasswordField(body, "password");
    var c := PasswordField(body, "password_confirm");
    var errors := RegistrationFieldErrors(users, body);
    if errors != [] then Rejected(errors)
    else
      FieldsPassed(users, body);
      if p.value != c.value then Rejected([("non_field_errors", [PasswordMismatchMessage])])
    else Accepted(Registration(u.value, e.value, p.value))
  }

  /** Four fields without errors were all sent, and hold their trimmed text. */
  lemma FieldsPassed(users: map<UserId, User>, body: Json)
    requires RegistrationFieldErrors(users, body) == []
    ensures UsernameField(users, body).Clean? && Sent(body, "username") && UsernameField(users, body).value == SentText(body, "username")
    ensures EmailField(users, body).Clean? && Sent(body, "email") && EmailField(users, body).value == SentText(body, "email")
    ensures PasswordField(body, "password").Clean? && Sent(body, "password")
            && PasswordField(body, "password").value == SentText(body, "password")
    ensures PasswordField(body, "password_confirm").Clean? && Sent(body, "password_confirm")
            && PasswordField(body, "password_confirm").value == SentText(body, "password_confirm")
  {
    assert ErrorsOf("username", UsernameField(users, body)) == [];
    assert ErrorsOf("email", EmailField(users, body)) == [];
    assert ErrorsOf("password", PasswordField(body, "password")) == [];
    assert ErrorsOf("password_confirm", PasswordField(body, "password_confirm")) == [];
  }

  /** Two passwords that pass their own checks but differ are refused with the mismatch message. */
  lemma MismatchRejected(users: map<UserId, User>, body: Json)
    requires UsernameField(users, body).Clean? && EmailField(users, body).Clean?
    requires PasswordField(body, "password").Clean? && PasswordField(body, "password_confirm").Clean?
    requires SentText(body, "password") != SentText(body, "password_confirm")
    ensures ValidateRegistration(users, body) == Rejected([("non_field_errors", [PasswordMismatchMessage])])
  {
  }

  /**
   * A registration that validates, and whose address is still free once normalized, keeps
   * usernames and email addresses unique.
   */
  lemma RegistrationKeepsUnique(users: map<UserId, User>, body: Json, id: UserId)
    requires UniqueAccounts(users) && id !in users
    requires ValidateRegistration(users, body).Accepted?
    requires NormalizeEmail(ValidateRegistration(users, body).value.email) !in Emails(users)
    ensures var v := ValidateRegistration(users, body).value;
            UniqueAccounts(users[id := NewUser(v.username, NormalizeEmail(v.email))])
  {
    var v := ValidateRegistration(users, body).value;
    NewAccountKeepsUnique(users, id, v.username, NormalizeEmail(v.email));
  }

  /**
   * The address check compares the address as sent, while `create_user` stores it with the
   * domain lower-cased: an address differing from a stored one only in the domain's case
   * passes validation and then collides in the database.
   */
  lemma CaseVariantEmailPassesCheck(users: map<UserId, User>, id: UserId, local: string, stored: string, sent: string)
    requires id in users && users[id].email == local + "@" + stored
    requires '@' !in sent && LowerAscii(sent) == stored && Strip(local + "@" + sent) == local + "@" + sent
    requires local + "@" + sent !in Emails(users)
    ensures UniqueIn(Emails(users), EmailTakenMessage)(local + "@" + sent) == []
    ensures NormalizeEmail(local + "@" + sent) in Emails(users)
  {
    NormalizeEmailParts(local, sent);
    assert users[id].email in Emails(users);
  }

  /**
   * The registration view: validate, then `create`, which makes the user, with the address
   * normalized, and exactly one default preferences record for them. A normalized address that
   * is already stored makes the save fail, an unhandled `IntegrityError` (a 500, `Err` here),
   * and nothing is stored.
   */
  method Register(db: Database, body: Json) returns (r: Result<Checked<UserId>>)
    requires db.Valid()
    modifies db
    ensures db.Valid()
    ensures var v := ValidateRegistration(old(db.users), body);
            && (v.Rejected? ==> r == Ok(Rejected(v.errors)) && db.users == old(db.users) && db.preferences == old(db.preferences))
            && (v.Accepted? && NormalizeEmail(v.value.email) in Emails(old(db.users)) ==>
                  r == Err(EmailNotUnique) && db.users == old(db.users) && db.preferences == old(db.preferences))
            && (v.Accepted? && NormalizeEmail(v.value.email) !in Emails(old(db.users)) ==>
                  && r.Ok? && r.value.Accepted? && r.value.value !in old(db.users)
                  && db.users == old(db.users)[r.value.value := NewUser(v.value.username, NormalizeEmail(v.value.email))]
                  && db.preferences == old(db.preferences)[r.value.value := NewPreferences()])
    ensures UniqueAccounts(old(db.users)) ==> UniqueAccounts(db.users)
    ensures db.songs == old(db.songs) && db.votes == old(db.votes) && db.playlists == old(db.playlists)
  {
    var v := ValidateRegistration(db.users, body);
    if v.Rejected? {
      return Ok(Rejected(v.errors));
    }
    var created := db.CreateUser(v.value.username, v.value.email);
    if created.Err? {
      return Err(created.error);
    }
    var ok := db.CreatePreferences(created.value);
    assert ok;
    r := Ok(Accepted(created.value));
  }

  /** `openai_api_key = CharField(required=False, allow_blank=True)`. */
  const ApiKeyRules: TextRules := TextRules(false, true, None, None)

  /** The body's `openai_api_key`, validated. */
  function ApiKeyField(body: Json): FieldResult<string> {
    TextField(FieldOf(body, "openai_api_key"), ApiKeyRules, NoExtra)
  }

  /** The body's `use_own_api_key`, the model's `BooleanField`: validated, never used. */
  function UseOwnField(body: Json): FieldResult<bool> {
    BooleanField(FieldOf(body, "use_own_api_key"), false)
  }

  /**
   * `APIKeySerializer` on a body: both fields are validated; `update` then stores a non-empty
   * key and sets `use_own_api_key`, clears both for an empty key, and leaves the user as it was
   * when no key was sent, whatever `use_own_api_key` says.
   */
  function UpdateApiKey(u: User, body: Json): (r: Checked<User>)
    ensures r.Rejected? <==> ApiKeyField(body).Invalid? || UseOwnField(body).Invalid?
    ensures r.Accepted? && ApiKeyField(body).Skipped? ==> r.value == u
    ensures r.Accepted? && ApiKeyField(body).Clean? && ApiKeyField(body).value != "" ==>
              r.value == u.(openaiApiKey := Some(ApiKeyField(body).value), useOwnApiKey := true)
    ensures r.Accepted? && ApiKeyField(body) == Clean("") ==>
              r.value == u.(openaiApiKey := None, useOwnApiKey := false)
    ensures r.Accepted? ==> r.value.(openaiApiKey := u.openaiApiKey, useOwnApiKey := u.useOwnApiKey) == u
  {
    var key := ApiKeyField(body);
    var useOwn := UseOwnField(body);
    var errors := ErrorsOf("openai_api_key", key) + ErrorsOf("use_own_api_key", useOwn);
    if errors != [] then Rejected(errors)
    else if key.Skipped? then Accepted(u)
    else if key.value != "" then Accepted(u.(openaiApiKey := Some(key.value), useOwnApiKey := true))
    else Accepted(u.(openaiApiKey := None, useOwnApiKey := false))
  }

  /** After an accepted update the user uses their own key exactly when one is stored. */
  lemma UpdateKeepsKeyFlag(u: User, body: Json)
    requires u.useOwnApiKey <==> Truthy(u.openaiApiKey)
    requires UpdateApiKey(u, body).Accepted?
    ensures var v := UpdateApiKey(u, body).value;
            v.useOwnApiKey <==> Truthy(v.openaiApiKey)
  {
  }

  /**
   * `APIKeyView` (PATCH): anonymous requests get 401; an invalid body gets 400 and changes
   * nothing; otherwise the user is saved and the reply carries their new `use_own_api_key`.
   */
  method ApiKeyView(db: Database, requester: Option<UserId>, body: Json) returns (resp: Response)
    requires db.Valid() && (requester.Some? ==> requester.value in db.users)
    modifies db
    ensures db.Valid()
    ensures requester.None? ==> resp == NotAuthenticated && db.users == old(db.users)
    ensures requester.Some? ==>
              var r := UpdateApiKey(old(db.users)[requester.value], body);
              && (r.Rejected? ==> resp == BadRequest(r.errors) && db.users == old(db.users))
              && (r.Accepted? ==>
                    && db.users == old(db.users)[requester.value := r.value]
                    && resp == Response(200, JObj([("message", JStr("API key updated successfully")),
                                                   ("use_own_api_key", JBool(r.value.useOwnApiKey))])))
    ensures db.preferences == old(db.preferences) && db.songs == old(db.songs)
    ensures db.votes == old(db.votes) && db.playlists == old(db.playlists)
  {
    if requester.None? {
      return NotAuthenticated;
    }
    var r := UpdateApiKey(db.users[requester.value], body);
    if r.Rejected? {
      return BadRequest(r.errors);
    }
    db.SaveUser(requester.value, r.value);
    resp := Response(200, JObj([("message", JStr("API key updated successfully")),
                                ("use_own_api_key", JBool(r.value.useOwnApiKey))]));
  }

  /** The fields a profile shows. */
  const ProfileFields: set<string> :=
    {"id", "username", "email", "bio", "avatar", "total_songs_created", "total_songs_published"}

  /** `UserProfileSerializer(user).data`; an avatar is never stored here, so it is `null`. */
  function ProfileJson(id: UserId, u: User): (j: Json)
    ensures j.JObj? && Keys(j.entries) == ProfileFields
  {
    var entries := [("id", JNum(id)), ("username", JStr(u.username)), ("email", JStr(u.email)), ("bio", JStr(u.bio)),
          ("avatar", JNull), ("total_songs_created", JNum(u.totalSongsCreated)),
          ("total_songs_published", JNum(u.totalSongsPublished))];
    assert forall i :: 0 <= i < |entries| ==> entries[i].0 in ProfileFields;
    assert forall k | k in ProfileFields :: k == entries[0].0 || k == entries[1].0 || k == entries[2].0
             || k == entries[3].0 || k == entries[4].0 || k == entries[5].0 || k == entries[6].0;
    JObj(entries)
  }

  /** A profile never shows the key, nor whether or which provider the user's own key is for. */
  lemma ProfileHidesKeys(id: UserId, u: User)
    ensures Get(ProfileJson(id, u), "openai_api_key").None? && Get(ProfileJson(id, u), "llm_api_key").None?
    ensures Get(ProfileJson(id, u), "use_own_api_key").None? && Get(ProfileJson(id, u), "llm_provider").None?
  {
    HiddenKeys();
    ProfileLacks(id, u, "openai_api_key");
    ProfileLacks(id, u, "llm_api_key");
    ProfileLacks(id, u, "use_own_api_key");
    ProfileLacks(id, u, "llm_provider");
  }

  lemma HiddenKeys()
    ensures "openai_api_key" !in ProfileFields && "llm_api_key" !in ProfileFields
    ensures "use_own_api_key" !in ProfileFields && "llm_provider" !in ProfileFields
  {
  }

  lemma ProfileLacks(id: UserId, u: User, k: string)
    requires k !in ProfileFields
    ensures Get(ProfileJson(id, u), k).None?
  {
    LookupKeys(ProfileJson(id, u).entries, k);
  }
}

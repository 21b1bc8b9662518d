/**
 * The user account records (apps/accounts/models.py) as values: the fields the rest of the
 * system reads or writes, and the defaults a new record starts with.
 */
module Accounts {
  import opened Wrappers
  import opened Text

  type UserId = nat

  datatype User = User(
    username: string,
    email: string,
    bio: string,
    openaiApiKey: Option<string>,  // stored encrypted; null when unset
    useOwnApiKey: bool,
    totalSongsCreated: int,
    totalSongsPublished: int)

  /** `UserPreferences` without the floating-point default temperature. */
  datatype UserPreferences = UserPreferences(
    defaultGenre: string,
    defaultDuration: int,
    themeVariant: string,
    autoPlay: bool)

  /** The record `create_user(username, email, password)` inserts. */
  function NewUser(username: string, email: string): (u: User)
    ensures u.username == username && u.email == email && u.bio == ""
    ensures u.totalSongsCreated == 0 && u.totalSongsPublished == 0
    ensures !u.useOwnApiKey && u.openaiApiKey == None
  {
    User(username, email, "", None, false, 0, 0)
  }

  /** The record `UserPreferences.objects.create(user=user)` inserts. */
  function NewPreferences(): (p: UserPreferences)
    ensures p.defaultGenre == "" && p.defaultDuration == 30
    ensures p.themeVariant == "classic" && !p.autoPlay
  {
    UserPreferences("", 30, "classic", false)
  }

  function Usernames(users: map<UserId, User>): set<string> {
    set id | id in users :: users[id].username
  }

  function Emails(users: map<UserId, User>): set<string> {
    set id | id in users :: users[id].email
  }

  /** No two users share a username, nor an email address: the model's two unique columns. */
  ghost predicate UniqueAccounts(users: map<UserId, User>) {
    forall a, b | a in users && b in users && a != b ::
      users[a].username != users[b].username && users[a].email != users[b].email
  }

  /** A new account whose username and email are not yet taken keeps both unique. */
  lemma NewAccountKeepsUnique(users: map<UserId, User>, id: UserId, username: string, email: string)
    requires UniqueAccounts(users) && id !in users
    requires username !in Usernames(users) && email !in Emails(users)
    ensures UniqueAccounts(users[id := NewUser(username, email)])
  {
    var users' := users[id := NewUser(username, email)];
    forall a, b | a in users' && b in users' && a != b
      ensures users'[a].username != users'[b].username && users'[a].email != users'[b].email
    {
      if a == id {
        assert users[b].username in Usernames(users) && users[b].email in Emails(users);
      } else if b == id {
        assert users[a].username in Usernames(users) && users[a].email in Emails(users);
      }
    }
  }

  // ---------------------------------------------------------------- email normalization

  /** Python's `lower()` on an ASCII letter; every other character is kept. */
  function LowerChar(c: char): (d: char)
    ensures ('A' <= c <= 'Z') ==> 'a' <= d <= 'z' && d as int == c as int + 32
    ensures !('A' <= c <= 'Z') ==> d == c
  {
    if 'A' <= c <= 'Z' then (c as int + 32) as char else c
  }

  /** A string with its ASCII capitals lower-cased. */
  function LowerAscii(s: string): (r: string)
    ensures |r| == |s| && forall k :: 0 <= k < |s| ==> r[k] == LowerChar(s[k])
  {
    seq(|s|, k requires 0 <= k < |s| => LowerChar(s[k]))
  }

  /** Lower-casing twice is lower-casing once. */
  lemma LowerAsciiIdempotent(s: string)
    ensures LowerAscii(LowerAscii(s)) == LowerAscii(s)
  {
    assert forall k :: 0 <= k < |s| ==> LowerChar(LowerChar(s[k])) == LowerChar(s[k]);
  }

  /** The index of the last `c` in `s`, as `rsplit(c, 1)` finds it. */
  function LastIndex(s: string, c: char): (r: Option<nat>)
    ensures r.None? <==> c !in s
    ensures r.Some? ==> r.value < |s| && s[r.value] == c && c !in s[r.value + 1..]
    decreases |s|
  {
    if s == [] then None
    else if s[|s| - 1] == c then Some(|s| - 1)
    else
      var r := LastIndex(s[..|s| - 1], c);
      assert s == s[..|s| - 1] + [s[|s| - 1]];
      if r.Some? then assert s[r.value + 1..] == s[..|s| - 1][r.value + 1..] + [s[|s| - 1]]; r
      else r
  }

  /**
   * `BaseUserManager.normalize_email`, which `create_user` applies: the stripped address is
   * split at its last `@` and the domain part lower-cased; an address without `@` is kept
   * as it was given. Only ASCII letters are lower-cased here.
   */
  function NormalizeEmail(email: string): (r: string)
    ensures '@' !in Strip(email) ==> r == email
    ensures '@' in Strip(email) ==> |r| == |Strip(email)| && '@' in r
  {
    var t := Strip(email);
    match LastIndex(t, '@')
    case None => email
    case Some(i) =>
      var r := t[..i] + "@" + LowerAscii(t[i + 1..]);
      assert r[i] == '@';
      r
  }

  /** An address that is already stripped is split at its last `@`: the local part is kept and the domain lower-cased. */
  lemma NormalizeEmailParts(local: string, domain: string)
    requires '@' !in domain
    requires Strip(local + "@" + domain) == local + "@" + domain
    ensures NormalizeEmail(local + "@" + domain) == local + "@" + LowerAscii(domain)
  {
    var t := local + "@" + domain;
    assert t[|local|] == '@';
    assert t[|local| + 1..] == domain;
    var i := LastIndex(t, '@').value;
    assert i == |local|;
    assert t[..i] == local;
  }

  /** Two addresses whose domains differ only in the case of ASCII letters are stored alike. */
  lemma DomainCaseIgnored(local: string, d1: string, d2: string)
    requires '@' !in d1 && '@' !in d2 && LowerAscii(d1) == LowerAscii(d2)
    requires Strip(local + "@" + d1) == local + "@" + d1 && Strip(local + "@" + d2) == local + "@" + d2
    ensures NormalizeEmail(local + "@" + d1) == NormalizeEmail(local + "@" + d2)
  {
    NormalizeEmailParts(local, d1);
    NormalizeEmailParts(local, d2);
  }

  /** Lower-casing the domain of a stripped address leaves nothing to strip. */
  lemma LoweredStaysStripped(local: string, domain: string)
    requires Strip(local + "@" + domain) == local + "@" + domain
    ensures Strip(local + "@" + LowerAscii(domain)) == local + "@" + LowerAscii(domain)
  {
    var t, r := local + "@" + domain, local + "@" + LowerAscii(domain);
    assert !IsPyWhitespace(t[0]) && !IsPyWhitespace(t[|t| - 1]);
    assert r[0] == t[0] by {
      if local == [] { assert r[0] == '@' == t[0]; }
    }
    assert r[|r| - 1] == LowerChar(t[|t| - 1]) by {
      if domain == [] { assert r[|r| - 1] == '@' == t[|t| - 1]; }
    }
    TrimUntrimmed(IsPyWhitespace, r);
  }

  /** Normalizing a stripped address twice is normalizing it once. */
  lemma NormalizeEmailIdempotent(email: string)
    requires Strip(email) == email
    ensures NormalizeEmail(NormalizeEmail(email)) == NormalizeEmail(email)
  {
    var i := LastIndex(email, '@');
    if i.Some? {
      var local, domain := email[..i.value], email[i.value + 1..];
      assert email == local + "@" + domain;
      NormalizeEmailParts(local, domain);
      LoweredStaysStripped(local, domain);
      NormalizeEmailParts(local, LowerAscii(domain));
      LowerAsciiIdempotent(domain);
    }
  }
}

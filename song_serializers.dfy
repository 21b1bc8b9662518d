/**
 * The song serializers (apps/songs/serializers.py): the fields a new song may be created
 * with and the defaults the rest take, the song representation with the requester's vote,
 * the fields an update may change, the vote upsert, and playlist creation and update with
 * their `song_ids`.
 */
module SongSerializers {
  import opened Wrappers
  import opened Text
  import opened Json
  import opened Forms
  import opened Accounts
  import opened Songs
  import opened Store
  import opened AccountSerializers

  // ---------------------------------------------------------------- creation

  /** The fields `SongCreateSerializer` reads (`temperature` is not modelled). */
  const CreateFields: set<string> := {"title", "lyrics", "description", "genre", "mood", "duration", "temperature"}

  /** `title`: the model's `CharField(max_length=200)`, required and not blank. */
  const TitleRules: TextRules := TextRules(true, false, None, Some(200))
  /** The declared `CharField(required=False, allow_blank=True)` of `lyrics`, `description` and `mood`. */
  const OptionalText: TextRules := TextRules(false, true, None, None)

  /** The model's `default=30` for `duration`. */
  const DefaultDuration: int := 30

  /** The validated creation data with the defaults filled in; a `None` duration is an explicit `null`. */
  datatype SongDraft = SongDraft(title: string, lyrics: string, description: string,
                                 genre: string, mood: string, duration: Option<int>)

  /** The errors of a creation body's six fields, in the serializer's field order. */
  function CreateErrors(body: Json): seq<(string, seq<string>)> {
    ErrorsOf("title", TextField(FieldOf(body, "title"), TitleRules, NoExtra))
    + ErrorsOf("lyrics", TextField(FieldOf(body, "lyrics"), OptionalText, NoExtra))
    + ErrorsOf("description", TextField(FieldOf(body, "description"), OptionalText, NoExtra))
    + ErrorsOf("genre", ChoiceField(FieldOf(body, "genre"), false, false, GenreChoices))
    + ErrorsOf("mood", TextField(FieldOf(body, "mood"), OptionalText, NoExtra))
    + ErrorsOf("duration", IntegerField(FieldOf(body, "duration"), false, true, None, None))
  }

  /**
   * `SongCreateSerializer.is_valid()` and the defaults `create` and the model supply: an
   * absent `lyrics` becomes the empty string, as do `description` and `mood`; `genre` is one
   * of the genres, `"pop"` when absent; `duration` has no bounds here (the declared field
   * replaces the model's validators) and admits `null`.
   */
  function ValidateSongCreate(body: Json): (r: Checked<SongDraft>)
    ensures r.Rejected? <==> CreateErrors(body) != []
    ensures r.Rejected? ==> r.errors == CreateErrors(body)
    ensures r.Accepted? ==>
              Sent(body, "title") && r.value.title == SentText(body, "title")
              && r.value.title != "" && |r.value.title| <= 200
    ensures r.Accepted? ==>
              && (FieldOf(body, "lyrics").Absent? ==> r.value.lyrics == "")
              && (FieldOf(body, "lyrics").Given? ==> Sent(body, "lyrics") && r.value.lyrics == SentText(body, "lyrics"))
              && (FieldOf(body, "description").Absent? ==> r.value.description == "")
              && (FieldOf(body, "description").Given? ==>
                    Sent(body, "description") && r.value.description == SentText(body, "description"))
              && (FieldOf(body, "mood").Absent? ==> r.value.mood == "")
              && (FieldOf(body, "mood").Given? ==> Sent(body, "mood") && r.value.mood == SentText(body, "mood"))
    ensures r.Accepted? ==>
              r.value.genre in GenreChoices && (FieldOf(body, "genre").Absent? ==> r.value.genre == "pop")
              && (FieldOf(body, "genre").Given? ==> r.value.genre == PyStr(FieldOf(body, "genre").value))
    ensures r.Accepted? ==>
              && (FieldOf(body, "duration").Absent? ==> r.value.duration == Some(DefaultDuration))
              && (FieldOf(body, "duration").Null? ==> r.value.duration == None)
              && (FieldOf(body, "duration").Given? ==> r.value.duration == IntOf(FieldOf(body, "duration").value))
    ensures FieldOf(body, "title").Absent? || FieldOf(body, "lyrics").Null? ==> r.Rejected?
  {
    var title := TextField(FieldOf(body, "title"), TitleRules, NoExtra);
    var lyrics := TextField(FieldOf(body, "lyrics"), OptionalText, NoExtra);
    var description := TextField(FieldOf(body, "description"), OptionalText, NoExtra);
    var genre := ChoiceField(FieldOf(body, "genre"), false, false, GenreChoices);
    var mood := TextField(FieldOf(body, "mood"), OptionalText, NoExtra);
    var duration := IntegerField(FieldOf(body, "duration"), false, true, None, None);
    var errors := CreateErrors(body);
    if errors != [] then Rejected(errors)
    else
      assert ErrorsOf("title", title) == [] && ErrorsOf("lyrics", lyrics) == [] && ErrorsOf("description", description) == [];
      assert ErrorsOf("genre", genre) == [] && ErrorsOf("mood", mood) == [] && ErrorsOf("duration", duration) == [];
      assert title.Clean?;
      Accepted(SongDraft(title.value, ValueOr(lyrics, ""), ValueOr(description, ""), ValueOr(genre, "pop"),
                         ValueOr(mood, ""), ValueOr(duration, Some(DefaultDuration))))
  }

  /** A body key the serializer does not read (`status`, `upvotes`, ...) has no effect on it. */
  lemma CreateIgnoresOtherKeys(entries: seq<(string, Json)>, k: string)
    requires k !in CreateFields
    ensures ValidateSongCreate(JObj(Without(entries, k))) == ValidateSongCreate(JObj(entries))
  {
    var body, body' := JObj(entries), JObj(Without(entries, k));
    assert FieldOf(body', "title") == FieldOf(body, "title");
    assert FieldOf(body', "lyrics") == FieldOf(body, "lyrics");
    assert FieldOf(body', "description") == FieldOf(body, "description");
    assert FieldOf(body', "genre") == FieldOf(body, "genre");
    assert FieldOf(body', "mood") == FieldOf(body, "mood");
    assert FieldOf(body', "duration") == FieldOf(body, "duration");
  }

  /** The database's refusal of a `null` duration: the column is `NOT NULL`. */
  const DurationNotNull: string := "NOT NULL constraint failed: songs_song.duration"

  /**
   * `SongCreateSerializer.create`: the song is created for its owner with the draft's fields
   * and the model's defaults for everything else (status `generating`, no audio, private, no
   * plays, no votes), and the owner's created count rises by one; a `null` duration fails in
   * the database and changes nothing.
   */
  method SaveNewSong(db: Database, owner: UserId, d: SongDraft) returns (r: Result<SongId>)
    requires db.Valid() && owner in db.users
    modifies db
    ensures db.Valid()
    ensures d.duration.None? ==>
              r == Err(DurationNotNull) && db.songs == old(db.songs) && db.users == old(db.users)
    ensures d.duration.Some? ==>
              && r.Ok? && r.value !in old(db.songs)
              && db.songs == old(db.songs)[r.value := NewSong(owner, d.title, d.lyrics, d.description, d.genre, d.mood, d.duration.value)]
              && db.users == old(db.users)[owner := old(db.users)[owner].(totalSongsCreated := old(db.users)[owner].totalSongsCreated + 1)]
    ensures db.preferences == old(db.preferences) && db.votes == old(db.votes) && db.playlists == old(db.playlists)
  {
    if d.duration.None? {
      return Err(DurationNotNull);
    }
    var id := db.CreateSong(owner, d.title, d.lyrics, d.description, d.genre, d.mood, d.duration.value);
    db.IncrementSongCount(owner);
    r := Ok(id);
  }

  // ---------------------------------------------------------------- representation

  /** The field names of a song's representation, in order (`temperature` and the timestamps are not modelled). */
  const SongKeys: seq<string> :=
    ["id", "user", "title", "lyrics", "description", "genre", "mood", "duration", "audio_file", "cover_image",
     "status", "error_message", "is_public", "published_at", "play_count", "upvotes", "downvotes", "score", "user_vote"]

  /** `MEDIA_URL = 'media/'`, which Django serves from the site root. */
  const MediaUrl: string := "/media/"

  /** `filepath_to_uri`: backslashes become slashes, then the name is quoted with `safe="/~!*()'"`. */
  function FilePathToUri(name: string): (r: string)
    ensures forall i | 0 <= i < |r| :: UrlSafe(r[i]) || r[i] == '%'
    ensures '\\' !in name ==> r == Quote(name)
  {
    var slashed := seq(|name|, i requires 0 <= i < |name| => if name[i] == '\\' then '/' else name[i]);
    assert '\\' !in name ==> slashed == name;
    Quote(slashed)
  }

  /** `s.lstrip("/")`. */
  function StripLeadingSlashes(s: string): (r: string)
    ensures r == [] || r[0] != '/'
    ensures (forall i | 0 <= i < |s| :: UrlSafe(s[i]) || s[i] == '%') ==> forall i | 0 <= i < |r| :: UrlSafe(r[i]) || r[i] == '%'
    ensures (s == [] || s[0] != '/') ==> r == s
    decreases |s|
  {
    if s != [] && s[0] == '/' then StripLeadingSlashes(s[1..]) else s
  }

  /**
   * `FileField.to_representation` without a request: `null` for no file or an empty name,
   * else `FileSystemStorage.url` of it, the media URL joined with the name's URI form, in which
   * only URL-safe characters and `%` escapes remain.
   */
  function FileUrl(name: Option<string>): (j: Json)
    ensures j != JNull <==> name.Some? && name.value != ""
    ensures j != JNull ==> j == JStr(MediaUrl + StripLeadingSlashes(FilePathToUri(name.value)))
    ensures j != JNull ==> forall i | |MediaUrl| <= i < |j.s| :: UrlSafe(j.s[i]) || j.s[i] == '%'
  {
    if name.Some? && name.value != "" then
      var tail := StripLeadingSlashes(FilePathToUri(name.value));
      assert forall i | 0 <= i < |tail| :: UrlSafe(tail[i]) || tail[i] == '%';
      var url := MediaUrl + tail;
      assert |MediaUrl| == 7 && forall i | 7 <= i < |url| :: url[i] == tail[i - 7];
      JStr(url)
    else JNull
  }

  /** A name without backslashes or a leading slash is shown as the media URL and the quoted name. */
  lemma FileUrlQuotes(name: string)
    requires name != [] && name[0] != '/' && '\\' !in name
    ensures FileUrl(Some(name)) == JStr(MediaUrl + Quote(name))
  {
    var q := Quote(name);
    assert q == QuoteChar(name[0]) + Quote(name[1..]);
    assert q[0] == QuoteChar(name[0])[0];
    assert FilePathToUri(name) == q && StripLeadingSlashes(q) == q;
  }

  /** An optional string as JSON. */
  function OptStr(o: Option<string>): Json {
    if o.Some? then JStr(o.value) else JNull
  }

  /**
   * `SongSerializer(song).data`: the owner's profile under `user`, the `score` property, and
   * `userVote` (what `get_user_vote` found) under `user_vote`.
   */
  function SongJson(id: SongId, s: Song, owner: User, userVote: Option<string>): (j: Json)
    ensures j.JObj?
    ensures Get(j, "user") == Some(ProfileJson(s.owner, owner))
    ensures Get(j, "score") == Some(JNum(Score(s)))
    ensures Get(j, "user_vote") == Some(OptStr(userVote))
    ensures Get(j, "audio_file") == Some(FileUrl(s.audioFile)) && Get(j, "cover_image") == Some(JNull)
  {
    var values := SongValues(id, s, owner, FileUrl(s.audioFile), userVote);
    SongLookups(values);
    JObj(Zip(SongKeys, values))
  }

  /** The values of a song's representation, in the order of its field names. */
  function SongValues(id: SongId, s: Song, owner: User, audio: Json, userVote: Option<string>): (values: seq<Json>)
    ensures |values| == 19
    ensures values[1] == ProfileJson(s.owner, owner) && values[8] == audio && values[9] == JNull
    ensures values[17] == JNum(Score(s)) && values[18] == OptStr(userVote)
  {
    [JNum(id), ProfileJson(s.owner, owner)]
    + [JStr(s.title), JStr(s.lyrics), JStr(s.description), JStr(s.genre), JStr(s.mood), JNum(s.duration)]
    + [audio, JNull]
    + [JStr(StatusName(s.status)), JStr(s.errorMessage), JBool(s.isPublic),
       if s.publishedAt.Some? then JNum(s.publishedAt.value) else JNull,
       JNum(s.playCount), JNum(s.upvotes), JNum(s.downvotes)]
    + [JNum(Score(s)), OptStr(userVote)]
  }

  /** Whatever the values, a song's representation finds the five keys at their own positions. */
  lemma SongLookups(values: seq<Json>)
    requires |values| == 19
    ensures Lookup(Zip(SongKeys, values), "user") == Some(values[1])
    ensures Lookup(Zip(SongKeys, values), "audio_file") == Some(values[8])
    ensures Lookup(Zip(SongKeys, values), "cover_image") == Some(values[9])
    ensures Lookup(Zip(SongKeys, values), "score") == Some(values[17])
    ensures Lookup(Zip(SongKeys, values), "user_vote") == Some(values[18])
  {
    SongKeysUnshadowed();
    LookupZip(SongKeys, values, 1);
    LookupZip(SongKeys, values, 8);
    LookupZip(SongKeys, values, 9);
    LookupZip(SongKeys, values, 17);
    LookupZip(SongKeys, values, 18);
  }

  /** No key before `user`, `audio_file`, `cover_image`, `score` or `user_vote` in the song's representation equals it. */
  lemma SongKeysUnshadowed()
    ensures forall j | 0 <= j < 1 :: SongKeys[j] != SongKeys[1]
    ensures forall j | 0 <= j < 8 :: SongKeys[j] != SongKeys[8]
    ensures forall j | 0 <= j < 9 :: SongKeys[j] != SongKeys[9]
    ensures forall j | 0 <= j < 17 :: SongKeys[j] != SongKeys[17]
    ensures forall j | 0 <= j < 18 :: SongKeys[j] != SongKeys[18]
  {
  }

  /** The representation of a song for a request: the requester's own vote, none when anonymous. */
  function SongJsonFor(votes: map<VoteKey, VoteType>, requester: Option<UserId>, id: SongId, s: Song, owner: User): (j: Json)
    ensures requester.None? ==> j == SongJson(id, s, owner, None)
    ensures requester.Some? && (requester.value, id) !in votes ==> j == SongJson(id, s, owner, None)
    ensures requester.Some? && (requester.value, id) in votes ==>
              Get(j, "user_vote") == Some(JStr(VoteTypeName(votes[(requester.value, id)])))
  {
    SongJson(id, s, owner, UserVote(votes, requester, id))
  }

  /** A song's representation shows its owner's profile, so never their key. */
  lemma SongJsonHidesOwnerKey(id: SongId, s: Song, owner: User, userVote: Option<string>)
    ensures var user := Get(SongJson(id, s, owner, userVote), "user").value;
            Get(user, "openai_api_key").None? && Get(user, "use_own_api_key").None?
  {
    ProfileHidesKeys(s.owner, owner);
  }

  // ---------------------------------------------------------------- update

  /** The fields an update may change: `SongSerializer`'s fields less its read-only ones. */
  const UpdateFields: set<string> := {"title", "lyrics", "description", "genre", "mood", "duration", "temperature", "cover_image"}

  /** `lyrics`: the model's `TextField()`, required and not blank. */
  const LyricsRules: TextRules := TextRules(true, false, None, None)
  /** `description`: `TextField(blank=True)`. */
  const DescriptionRules: TextRules := TextRules(false, true, None, None)

  /** The fields read-only in `SongSerializer` (`read_only_fields`, `user`, and the vote counters). */
  predicate ReadOnlyKept(s: Song, t: Song) {
    t.owner == s.owner && t.audioFile == s.audioFile && t.status == s.status && t.errorMessage == s.errorMessage
    && t.playCount == s.playCount && t.upvotes == s.upvotes && t.downvotes == s.downvotes
    && t.publishedAt == s.publishedAt
  }

  /** The writable fields of an update, each validated on its own. */
  datatype SongPatch = SongPatch(title: FieldResult<string>, lyrics: FieldResult<string>,
                                 description: FieldResult<string>, genre: FieldResult<string>,
                                 mood: FieldResult<string>, duration: FieldResult<Option<int>>)

  /**
   * The writable fields of `SongSerializer` read from the body: `title` and `lyrics` are
   * required unless the update is partial; `genre` and `mood` are choice fields (a mood may be
   * blank); `duration` is bounded by the model's validators, 10 to 180.
   */
  function PatchOf(body: Json, partial: bool): (p: SongPatch)
    ensures p.duration.Clean? ==> p.duration.value.Some?
  {
    SongPatch(TextField(FieldOf(body, "title"), TitleRules.(required := !partial), NoExtra),
              TextField(FieldOf(body, "lyrics"), LyricsRules.(required := !partial), NoExtra),
              TextField(FieldOf(body, "description"), DescriptionRules, NoExtra),
              ChoiceField(FieldOf(body, "genre"), false, false, GenreChoices),
              ChoiceField(FieldOf(body, "mood"), false, true, MoodChoices),
              IntegerField(FieldOf(body, "duration"), false, false, Some(10), Some(180)))
  }

  /** The errors of an update, in field order. */
  function PatchErrors(p: SongPatch): (e: seq<(string, seq<string>)>)
    ensures e == [] <==> !p.title.Invalid? && !p.lyrics.Invalid? && !p.description.Invalid?
                         && !p.genre.Invalid? && !p.mood.Invalid? && !p.duration.Invalid?
  {
    ErrorsOf("title", p.title) + ErrorsOf("lyrics", p.lyrics) + ErrorsOf("description", p.description)
    + ErrorsOf("genre", p.genre) + ErrorsOf("mood", p.mood) + ErrorsOf("duration", p.duration)
  }

  /** A song with the sent fields of a valid patch set (the `setattr` of each validated field). */
  function Patched(s: Song, p: SongPatch): (t: Song)
    requires PatchErrors(p) == [] && (p.duration.Clean? ==> p.duration.value.Some?)
    ensures ReadOnlyKept(s, t) && t.isPublic == s.isPublic
  {
    s.(title := ValueOr(p.title, s.title), lyrics := ValueOr(p.lyrics, s.lyrics),
       description := ValueOr(p.description, s.description), genre := ValueOr(p.genre, s.genre),
       mood := ValueOr(p.mood, s.mood),
       duration := if p.duration.Clean? then p.duration.value.value else s.duration)
  }

  /**
   * `SongSerializer(song, data=body, partial=partial)` followed by `save()`, with `is_public`
   * read-only: the writable fields take the values sent; every other field stays as it was.
   */
  function ValidateSongUpdate(s: Song, body: Json, partial: bool): (r: Checked<Song>)
    ensures r.Accepted? ==> ReadOnlyKept(s, r.value) && r.value.isPublic == s.isPublic
    ensures !partial && (FieldOf(body, "title").Absent? || FieldOf(body, "lyrics").Absent?) ==> r.Rejected?
    ensures r.Rejected? <==> PatchErrors(PatchOf(body, partial)) != []
    ensures r.Rejected? ==> r.errors == PatchErrors(PatchOf(body, partial))
    ensures r.Accepted? ==> r.value == Patched(s, PatchOf(body, partial))
  {
    var p := PatchOf(body, partial);
    if PatchErrors(p) != [] then Rejected(PatchErrors(p)) else Accepted(Patched(s, p))
  }

  /** An accepted update leaves every writable field that was not sent as it was. */
  lemma UpdateKeepsUnsent(s: Song, body: Json, partial: bool)
    requires ValidateSongUpdate(s, body, partial).Accepted?
    ensures var t := ValidateSongUpdate(s, body, partial).value;
            && (FieldOf(body, "title").Absent? ==> t.title == s.title)
            && (FieldOf(body, "lyrics").Absent? ==> t.lyrics == s.lyrics)
            && (FieldOf(body, "description").Absent? ==> t.description == s.description)
            && (FieldOf(body, "genre").Absent? ==> t.genre == s.genre)
            && (FieldOf(body, "mood").Absent? ==> t.mood == s.mood)
            && (FieldOf(body, "duration").Absent? ==> t.duration == s.duration)
  {
  }

  /** An accepted update stores the sent text fields trimmed and within their limits. */
  lemma UpdateTakesSentText(s: Song, body: Json, partial: bool)
    requires ValidateSongUpdate(s, body, partial).Accepted?
    ensures var t := ValidateSongUpdate(s, body, partial).value;
            && (FieldOf(body, "title").Given? ==>
                  Sent(body, "title") && t.title == SentText(body, "title") && t.title != "" && |t.title| <= 200)
            && (FieldOf(body, "lyrics").Given? ==>
                  Sent(body, "lyrics") && t.lyrics == SentText(body, "lyrics") && t.lyrics != "")
            && (FieldOf(body, "description").Given? ==>
                  Sent(body, "description") && t.description == SentText(body, "description"))
  {
  }

  /** An accepted update stores a sent genre and mood only from their choices (a mood may be blank). */
  lemma UpdateTakesSentChoices(s: Song, body: Json, partial: bool)
    requires ValidateSongUpdate(s, body, partial).Accepted?
    ensures var t := ValidateSongUpdate(s, body, partial).value;
            && (FieldOf(body, "genre").Given? ==> t.genre in GenreChoices && t.genre == PyStr(FieldOf(body, "genre").value))
            && (FieldOf(body, "mood").Given? ==> (t.mood in MoodChoices || t.mood == "") && t.mood == PyStr(FieldOf(body, "mood").value))
  {
  }

  /** An accepted update stores a sent duration only between 10 and 180 seconds. */
  lemma UpdateTakesSentDuration(s: Song, body: Json, partial: bool)
    requires ValidateSongUpdate(s, body, partial).Accepted?
    ensures var t := ValidateSongUpdate(s, body, partial).value;
            FieldOf(body, "duration").Given? ==> IntOf(FieldOf(body, "duration").value) == Some(t.duration) && 10 <= t.duration <= 180
  {
    var d := PatchOf(body, partial).duration;
    assert d == IntegerField(FieldOf(body, "duration"), false, false, Some(10), Some(180));
    assert !d.Invalid?;
  }

  /** A body key outside the writable fields has no effect on an update. */
  lemma UpdateIgnoresOtherKeys(s: Song, entries: seq<(string, Json)>, k: string, partial: bool)
    requires k !in UpdateFields
    ensures ValidateSongUpdate(s, JObj(Without(entries, k)), partial) == ValidateSongUpdate(s, JObj(entries), partial)
  {
    var body, body' := JObj(entries), JObj(Without(entries, k));
    assert FieldOf(body', "title") == FieldOf(body, "title");
    assert FieldOf(body', "lyrics") == FieldOf(body, "lyrics");
    assert FieldOf(body', "description") == FieldOf(body, "description");
    assert FieldOf(body', "genre") == FieldOf(body, "genre");
    assert FieldOf(body', "mood") == FieldOf(body, "mood");
    assert FieldOf(body', "duration") == FieldOf(body, "duration");
  }

  /**
   * The update as written: `is_public` is not among the read-only fields, so the body may set
   * it (after the other fields' errors, in field order) without going through publishing.
   */
  function ValidateSongUpdateAsWritten(s: Song, body: Json, partial: bool): (r: Checked<Song>)
    ensures ValidateSongUpdate(s, body, partial).Rejected? ==> r.Rejected?
    ensures r.Accepted? ==>
              r.value == ValidateSongUpdate(s, body, partial).value.(isPublic := r.value.isPublic)
    ensures r.Accepted? && FieldOf(body, "is_public").Absent? ==> r.value.isPublic == s.isPublic
  {
    var isPublic := BooleanField(FieldOf(body, "is_public"), false);
    var rest := ValidateSongUpdate(s, body, partial);
    if rest.Rejected? then Rejected(rest.errors + ErrorsOf("is_public", isPublic))
    else if isPublic.Invalid? then Rejected(ErrorsOf("is_public", isPublic))
    else Accepted(rest.value.(isPublic := ValueOr(isPublic, s.isPublic)))
  }

  /**
   * As written, `PATCH {"is_public": true}` makes a song that is still generating public,
   * with no `published_at`, past the publish view's "only completed songs" rule.
   */
  lemma PatchPublishesUnfinishedSong(s: Song)
    requires s.status == Generating && !s.isPublic
    ensures var r := ValidateSongUpdateAsWritten(s, JObj([("is_public", JBool(true))]), true);
            r.Accepted? && r.value.isPublic && r.value.status == Generating && r.value.publishedAt == s.publishedAt
  {
    var body := JObj([("is_public", JBool(true))]);
    assert FieldOf(body, "is_public") == Given(JBool(true));
    assert FieldOf(body, "title").Absent? && FieldOf(body, "lyrics").Absent? && FieldOf(body, "description").Absent?;
    assert FieldOf(body, "genre").Absent? && FieldOf(body, "mood").Absent? && FieldOf(body, "duration").Absent?;
  }

  /** With `is_public` read-only, an update never publishes or unpublishes: only the publish view does. */
  lemma UpdateNeverPublishes(s: Song, body: Json, partial: bool)
    requires ValidateSongUpdate(s, body, partial).Accepted?
    ensures var t := ValidateSongUpdate(s, body, partial).value;
            t.isPublic == s.isPublic && t.publishedAt == s.publishedAt && t.status == s.status
  {
  }

  // ---------------------------------------------------------------- votes

  /**
   * `VoteSerializer.create`: `update_or_create` on (user, song), so afterwards that pair has
   * exactly one vote, of the requested type, and the song's counters follow `Vote.save`.
   */
  method UpsertVote(db: Database, user: UserId, song: SongId, v: VoteType)
    requires db.Valid() && user in db.users && song in db.songs
    modifies db
    ensures db.Valid()
    ensures db.votes == old(db.votes)[(user, song) := v]
    ensures db.songs[song].upvotes == Tally(db.votes, song, Up) && db.songs[song].downvotes == Tally(db.votes, song, Down)
    ensures db.songs == old(db.songs)[song := VoteSaved(old(db.songs)[song],
                                                         if (user, song) in old(db.votes) then Some(old(db.votes)[(user, song)]) else None, v)]
    ensures db.users == old(db.users) && db.preferences == old(db.preferences) && db.playlists == old(db.playlists)
  {
    db.SaveVote(user, song, v);
  }

  // ---------------------------------------------------------------- playlists

  /** The playlist fields a body may set; `user` and the timestamps are read-only. */
  const PlaylistFields: set<string> := {"name", "description", "song_ids", "is_public"}

  /** `name`: the model's `CharField(max_length=200)`. */
  const PlaylistNameRules: TextRules := TextRules(true, false, None, Some(200))

  /** The messages of `PrimaryKeyRelatedField(many=True)`. */
  function InvalidPkMessage(pk: string): string {
    "Invalid pk \"" + pk + "\" - object does not exist."
  }

  function IncorrectTypeMessage(typeName: string): string {
    "Incorrect type. Expected pk value, received " + typeName + "."
  }

  function NotAListMessage(typeName: string): string {
    "Expected a list of items but got type \"" + typeName + "\"."
  }

  /** Python's type name of a JSON value. */
  function PyTypeName(v: Json): string {
    match v
    case JNull => "NoneType"
    case JBool(_) => "bool"
    case JNum(_) => "int"
    case JStr(_) => "str"
    case JArr(_) => "list"
    case JObj(_) => "dict"
  }

  /** One `song_ids` item: the primary key of an existing song (any owner's), or the message. */
  function PkOf(songs: set<SongId>, v: Json): (r: Result<SongId>)
    ensures r.Ok? ==> r.value in songs && IntOf(v) == Some(r.value)
    ensures v.JNum? && v.n >= 0 && v.n in songs ==> r == Ok(v.n)
    ensures v.JNum? && (v.n < 0 || v.n !in songs) ==> r == Err(InvalidPkMessage(IntToString(v.n)))
  {
    match v
    case JNum(n) => if n >= 0 && n in songs then Ok(n) else Err(InvalidPkMessage(IntToString(n)))
    case JStr(s) =>
      (match IntOf(v)
       case Some(n) => if n in songs then Ok(n) else Err(InvalidPkMessage(s))
       case None => Err(IncorrectTypeMessage("str")))
    case JNull => Err(InvalidPkMessage("None"))
    case _ => Err(IncorrectTypeMessage(PyTypeName(v)))
  }

  /** Every item a key of an existing song, or the first item's message that is not. */
  function PksOf(songs: set<SongId>, items: seq<Json>): (r: Result<seq<SongId>>)
    ensures r.Ok? ==> |r.value| == |items| && forall i :: 0 <= i < |items| ==> PkOf(songs, items[i]) == Ok(r.value[i])
    ensures r.Err? ==> exists i :: 0 <= i < |items| && PkOf(songs, items[i]) == Err(r.error)
                                   && forall j :: 0 <= j < i ==> PkOf(songs, items[j]).Ok?
  {
    if items == [] then Ok([])
    else
      match PkOf(songs, items[0])
      case Err(e) => Err(e)
      case Ok(pk) =>
        match PksOf(songs, items[1..])
        case Err(e) =>
          assert forall j :: 1 <= j < |items| ==> items[j] == items[1..][j - 1];
          Err(e)
        case Ok(rest) =>
          assert forall j :: 1 <= j < |items| ==> items[j] == items[1..][j - 1] && ([pk] + rest)[j] == rest[j - 1];
          Ok([pk] + rest)
  }

  /** `song_ids`: not required, not `null`, a list (a dict's keys iterate as one) of song keys. */
  function SongIdsField(songs: set<SongId>, f: Field): (r: FieldResult<seq<SongId>>)
    ensures f.Absent? <==> r.Skipped?
    ensures r.Clean? ==> forall i :: 0 <= i < |r.value| ==> r.value[i] in songs
    ensures f.Given? && f.value.JArr? ==>
              r == (match PksOf(songs, f.value.items) case Ok(pks) => Clean(pks) case Err(e) => Invalid([e]))
  {
    match f
    case Given(JArr(items)) =>
      (match PksOf(songs, items) case Ok(pks) => Clean(pks) case Err(e) => Invalid([e]))
    case Given(JObj(entries)) =>
      var keys := seq(|entries|, i requires 0 <= i < |entries| => JStr(entries[i].0));
      (match PksOf(songs, keys) case Ok(pks) => Clean(pks) case Err(e) => Invalid([e]))
    case Given(v) => Invalid([NotAListMessage(PyTypeName(v))])
    case _ => Missing(f, false)
  }

  /** The validated playlist data: each field `None` when it was not sent. */
  datatype PlaylistData = PlaylistData(name: Option<string>, description: Option<string>,
                                       songIds: Option<seq<SongId>>, isPublic: Option<bool>)

  /** A sent field's value, `None` when skipped. */
  function Provided<T>(r: FieldResult<T>): Option<T>
    requires !r.Invalid?
  {
    if r.Clean? then Some(r.value) else None
  }

  /** The errors of a playlist body, in field order. */
  function PlaylistErrors(name: FieldResult<string>, description: FieldResult<string>,
                          songIds: FieldResult<seq<SongId>>, isPublic: FieldResult<bool>): (e: seq<(string, seq<string>)>)
    ensures e == [] <==> !name.Invalid? && !description.Invalid? && !songIds.Invalid? && !isPublic.Invalid?
  {
    ErrorsOf("name", name) + ErrorsOf("description", description)
    + ErrorsOf("song_ids", songIds) + ErrorsOf("is_public", isPublic)
  }

  /** The playlist body's `name`, required unless `partial`. */
  function PlaylistNameField(body: Json, partial: bool): FieldResult<string> {
    TextField(FieldOf(body, "name"), PlaylistNameRules.(required := !partial), NoExtra)
  }

  /** The errors of a playlist body, in the serializer's field order. */
  function PlaylistBodyErrors(songs: set<SongId>, body: Json, partial: bool): seq<(string, seq<string>)> {
    PlaylistErrors(PlaylistNameField(body, partial), TextField(FieldOf(body, "description"), DescriptionRules, NoExtra),
                   SongIdsField(songs, FieldOf(body, "song_ids")), BooleanField(FieldOf(body, "is_public"), false))
  }

  /** `PlaylistSerializer.is_valid()`, `partial` for PATCH; `name` is required otherwise. */
  function ValidatePlaylist(songs: set<SongId>, body: Json, partial: bool): (r: Checked<PlaylistData>)
    ensures r.Rejected? <==> PlaylistBodyErrors(songs, body, partial) != []
    ensures r.Rejected? ==> r.errors == PlaylistBodyErrors(songs, body, partial)
    ensures r.Accepted? && !partial ==> r.value.name.Some?
    ensures r.Accepted? ==> (r.value.name.Some? <==> FieldOf(body, "name").Given?)
    ensures r.Accepted? && r.value.name.Some? ==>
              Sent(body, "name") && r.value.name.value == SentText(body, "name")
              && r.value.name.value != "" && |r.value.name.value| <= 200
    ensures r.Accepted? ==> (r.value.description.Some? <==> FieldOf(body, "description").Given?)
    ensures r.Accepted? && r.value.description.Some? ==>
              Sent(body, "description") && r.value.description.value == SentText(body, "description")
    ensures r.Accepted? ==> (r.value.songIds.None? <==> FieldOf(body, "song_ids").Absent?)
    ensures r.Accepted? && r.value.songIds.Some? ==>
              SongIdsField(songs, FieldOf(body, "song_ids")) == Clean(r.value.songIds.value)
              && forall i :: 0 <= i < |r.value.songIds.value| ==> r.value.songIds.value[i] in songs
    ensures r.Accepted? ==> (r.value.isPublic.None? <==> FieldOf(body, "is_public").Absent?)
    ensures r.Accepted? && r.value.isPublic.Some? ==>
              BooleanField(FieldOf(body, "is_public"), false) == Clean(r.value.isPublic.value)
    ensures !partial && FieldOf(body, "name").Absent? ==> r.Rejected?
  {
    var name := PlaylistNameField(body, partial);
    var description := TextField(FieldOf(body, "description"), DescriptionRules, NoExtra);
    var songIds := SongIdsField(songs, FieldOf(body, "song_ids"));
    var isPublic := BooleanField(FieldOf(body, "is_public"), false);
    var errors := PlaylistErrors(name, description, songIds, isPublic);
    if errors != [] then Rejected(errors)
    else Accepted(PlaylistData(Provided(name), Provided(description), Provided(songIds), Provided(isPublic)))
  }

  /** The songs `songs.set(ids)` leaves a playlist with. */
  function Members(ids: seq<SongId>): (m: set<SongId>)
    ensures forall id :: id in m <==> id in ids
  {
    set i | 0 <= i < |ids| :: ids[i]
  }

  /**
   * `PlaylistSerializer.create`: `song_ids` is popped (empty when absent) and its songs set
   * only when it is non-empty; the rest take the values sent or the model defaults.
   */
  function NewPlaylist(owner: UserId, d: PlaylistData): (p: Playlist)
    requires d.name.Some?
    ensures p.owner == owner && p.name == d.name.value
    ensures p.description == (if d.description.Some? then d.description.value else "")
    ensures p.isPublic == (d.isPublic == Some(true))
    ensures p.songs == (if d.songIds.Some? then Members(d.songIds.value) else {})
  {
    var ids := if d.songIds.Some? then d.songIds.value else [];
    Playlist(owner, d.name.value, ValueOr(if d.description.Some? then Clean(d.description.value) else Skipped, ""),
             if ids != [] then Members(ids) else {}, d.isPublic == Some(true))
  }

  /**
   * `PlaylistSerializer.update`: every sent field is set; the songs are replaced by exactly
   * `song_ids` when it was sent (also when empty) and kept otherwise; the owner never changes.
   */
  function UpdatedPlaylist(p: Playlist, d: PlaylistData): (q: Playlist)
    ensures q.owner == p.owner
    ensures q.name == (if d.name.Some? then d.name.value else p.name)
    ensures q.description == (if d.description.Some? then d.description.value else p.description)
    ensures q.isPublic == (if d.isPublic.Some? then d.isPublic.value else p.isPublic)
    ensures d.songIds.None? ==> q.songs == p.songs
    ensures d.songIds.Some? ==> forall id :: id in q.songs <==> id in d.songIds.value
  {
    var q := p.(name := if d.name.Some? then d.name.value else p.name,
                description := if d.description.Some? then d.description.value else p.description,
                isPublic := if d.isPublic.Some? then d.isPublic.value else p.isPublic);
    if d.songIds.Some? then q.(songs := Members(d.songIds.value)) else q
  }

  /** Sending an empty `song_ids` on create and leaving it out give the same playlist. */
  lemma EmptySongIdsOnCreate(owner: UserId, d: PlaylistData)
    requires d.name.Some?
    ensures NewPlaylist(owner, d.(songIds := Some([]))) == NewPlaylist(owner, d.(songIds := None))
  {
    assert Members([]) == {};
  }

  /** Creating a playlist from a body: validation, then the row. */
  method CreatePlaylist(db: Database, owner: UserId, body: Json) returns (r: Checked<PlaylistId>)
    requires db.Valid() && owner in db.users
    modifies db
    ensures db.Valid()
    ensures var v := ValidatePlaylist(old(db.songs).Keys, body, false);
            && (v.Rejected? ==> r == Rejected(v.errors) && db.playlists == old(db.playlists))
            && (v.Accepted? ==>
                  r.Accepted? && r.value !in old(db.playlists)
                  && db.playlists == old(db.playlists)[r.value := NewPlaylist(owner, v.value)])
    ensures db.users == old(db.users) && db.songs == old(db.songs) && db.votes == old(db.votes)
    ensures db.preferences == old(db.preferences)
  {
    var v := ValidatePlaylist(db.songs.Keys, body, false);
    if v.Rejected? {
      return Rejected(v.errors);
    }
    var p := NewPlaylist(owner, v.value);
    var id := db.CreatePlaylist(owner, p.name, p.description, p.isPublic, p.songs);
    r := Accepted(id);
  }

  /** Updating a playlist from a body (PUT, or PATCH when `partial`). */
  method UpdatePlaylist(db: Database, id: PlaylistId, body: Json, partial: bool) returns (r: Checked<Playlist>)
    requires db.Valid() && id in db.playlists
    modifies db
    ensures db.Valid()
    ensures var v := ValidatePlaylist(old(db.songs).Keys, body, partial);
            && (v.Rejected? ==> r == Rejected(v.errors) && db.playlists == old(db.playlists))
            && (v.Accepted? ==>
                  r == Accepted(UpdatedPlaylist(old(db.playlists)[id], v.value))
                  && db.playlists == old(db.playlists)[id := r.value])
    ensures db.users == old(db.users) && db.songs == old(db.songs) && db.votes == old(db.votes)
    ensures db.preferences == old(db.preferences)
  {
    var v := ValidatePlaylist(db.songs.Keys, body, partial);
    if v.Rejected? {
      return Rejected(v.errors);
    }
    var q := UpdatedPlaylist(db.playlists[id], v.value);
    db.SavePlaylist(id, q);
    r := Accepted(q);
  }
}

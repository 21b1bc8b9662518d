/**
 * The decisions of the song endpoints (apps/songs/views.py): which songs a listing holds, who
 * may read, change, delete, publish, play and vote on a song, and what each answers. An
 * anonymous request to an endpoint that requires authentication is answered 401 before the
 * handler runs; `IsAuthenticated` is also the project's default permission.
 */
module SongViews {
  import opened Wrappers
  import opened Text
  import opened Json
  import opened Forms
  import opened Accounts
  import opened Songs
  import opened Store
  import opened SongSerializers
  import opened Generator
  import opened Tasks
  import TM = TaskManager

  /** The body `{'error': message}`. */
  function ErrorBody(message: string): Json {
    MessageBody("error", message)
  }

  /** Python truthiness of a query parameter: present and not empty. */
  predicate QueryTruthy(param: Option<string>) {
    param.Some? && param.value != ""
  }

  // ---------------------------------------------------------------- listing

  /**
   * `SongListView.get_queryset` with its permission: `my_songs` lists all the requester's
   * songs, whatever their status, and needs a signed-in requester (`None` is the 401);
   * otherwise anyone gets the songs that are both public and completed.
   */
  function SongList(songs: map<SongId, Song>, requester: Option<UserId>, mySongs: Option<string>): (r: Option<set<SongId>>)
    ensures r.None? <==> QueryTruthy(mySongs) && requester.None?
    ensures r.Some? && QueryTruthy(mySongs) ==>
              forall id :: id in r.value <==> id in songs && songs[id].owner == requester.value
    ensures r.Some? && !QueryTruthy(mySongs) ==>
              forall id :: id in r.value <==> id in songs && songs[id].isPublic && songs[id].status == Completed
  {
    if QueryTruthy(mySongs) then
      if requester.None? then None else Some(set id | id in songs && songs[id].owner == requester.value)
    else Some(set id | id in songs && songs[id].isPublic && songs[id].status == Completed)
  }

  /** The listing's answer: 401 for `my_songs` without a requester, else the listed songs. */
  function ListResponse(songs: map<SongId, Song>, requester: Option<UserId>, mySongs: Option<string>): (resp: Response)
    ensures resp.status == 401 <==> QueryTruthy(mySongs) && requester.None?
    ensures resp.status != 401 ==> resp.status == 200
  {
    if SongList(songs, requester, mySongs).None? then NotAuthenticated else Response(200, JNull)
  }

  // ---------------------------------------------------------------- detail

  /** `SongDetailView.get_queryset`: the requester's own songs and every public song. */
  predicate Visible(s: Song, requester: UserId) {
    s.owner == requester || s.isPublic
  }

  /** Every song either listing shows a requester is one the detail view lets them open. */
  lemma ListedAreVisible(songs: map<SongId, Song>, requester: UserId, mySongs: Option<string>, id: SongId)
    requires SongList(songs, Some(requester), mySongs).Some? && id in SongList(songs, Some(requester), mySongs).value
    ensures id in songs && Visible(songs[id], requester)
  {
  }

  /** The 404 of a song outside the detail view's queryset. */
  const SongNotMatched: Response := Response(404, MessageBody("detail", "No Song matches the given query."))

  /** The 403 of a request the permission checks refuse. */
  const PermissionDenied: Response := Response(403, MessageBody("detail", "You do not have permission to perform this action."))

  /** An unhandled exception: Django's 500 page, which is not JSON. */
  const ServerError: Response := Response(500, JNull)

  /** GET on a song: its representation with the requester's vote, if it is visible to them. */
  function RetrieveSong(db: Database, requester: Option<UserId>, id: SongId): (resp: Response)
    requires db.Valid()
    reads db
    ensures requester.None? ==> resp == NotAuthenticated
    ensures requester.Some? && (id !in db.songs || !Visible(db.songs[id], requester.value)) ==> resp == SongNotMatched
    ensures requester.Some? && id in db.songs && Visible(db.songs[id], requester.value) ==>
              resp.status == 200 && Get(resp.body, "user_vote") == Some(OptStr(UserVote(db.votes, requester, id)))
  {
    if requester.None? then NotAuthenticated
    else if id !in db.songs || !Visible(db.songs[id], requester.value) then SongNotMatched
    else
      var s := db.songs[id];
      Response(200, SongJsonFor(db.votes, requester, id, s, db.users[s.owner]))
  }

  /**
   * DELETE on a song: a visible song someone else owns raises `PermissionError`, which no
   * handler turns into a 403, so the answer is a 500 and nothing is deleted; the owner's song
   * is deleted with its votes and playlist memberships.
   */
  method DestroySong(db: Database, requester: Option<UserId>, id: SongId) returns (resp: Response)
    requires db.Valid()
    modifies db
    ensures db.Valid()
    ensures requester.None? ==> resp == NotAuthenticated
    ensures requester.Some? && (id !in old(db.songs) || !Visible(old(db.songs)[id], requester.value)) ==> resp == SongNotMatched
    ensures requester.Some? && id in old(db.songs) && old(db.songs)[id].isPublic && old(db.songs)[id].owner != requester.value ==>
              resp == ServerError
    ensures resp.status != 204 ==> db.songs == old(db.songs) && db.votes == old(db.votes) && db.playlists == old(db.playlists)
    ensures resp.status == 204 <==> requester.Some? && id in old(db.songs) && old(db.songs)[id].owner == requester.value
    ensures resp.status == 204 ==>
              db.songs == old(db.songs) - {id} && db.votes == VotesWithout(old(db.votes), id)
              && db.playlists == PlaylistsWithout(old(db.playlists), id)
    ensures db.users == old(db.users) && db.preferences == old(db.preferences)
  {
    if requester.None? {
      return NotAuthenticated;
    }
    if id !in db.songs || !Visible(db.songs[id], requester.value) {
      return SongNotMatched;
    }
    if db.songs[id].owner != requester.value {
      return ServerError;
    }
    db.DeleteSong(id);
    resp := Response(204, JNull);
  }

  /**
   * Whom the detail view lets change a song, as written: the update goes through the same
   * queryset as reading, so anyone the song is visible to, and no ownership check follows.
   */
  predicate MayUpdateAsWritten(songs: map<SongId, Song>, requester: UserId, id: SongId) {
    id in songs && Visible(songs[id], requester)
  }

  /** As written, any signed-in user may change the title, lyrics or duration of another user's public song. */
  lemma NonOwnerMayUpdatePublicSong(songs: map<SongId, Song>, requester: UserId, id: SongId)
    requires id in songs && songs[id].isPublic && songs[id].owner != requester
    ensures MayUpdateAsWritten(songs, requester, id)
    ensures ValidateSongUpdate(songs[id], JObj([("title", JStr("mine now"))]), true).Accepted?
    ensures ValidateSongUpdate(songs[id], JObj([("title", JStr("mine now"))]), true).value.title == "mine now"
  {
    var body := JObj([("title", JStr("mine now"))]);
    PlainTitle();
    var p := PatchOf(body, true);
    assert p.title == Clean("mine now");
    assert p.lyrics == Skipped && p.description == Skipped && p.genre == Skipped;
    assert p.mood == Skipped && p.duration == Skipped;
    assert PatchErrors(p) == [];
  }

  /** The title `mine now` has nothing to strip and no null character. */
  lemma PlainTitle()
    ensures Strip("mine now") == "mine now" && '\0' !in "mine now"
  {
    TrimUntrimmed(IsPyWhitespace, "mine now");
  }

  /** Whom the detail view should let change a song, as the delete check shows: its owner only. */
  predicate MayUpdate(songs: map<SongId, Song>, requester: UserId, id: SongId) {
    id in songs && songs[id].owner == requester
  }

  /** Owners keep every right the written check gives them; only other users lose theirs. */
  lemma MayUpdateNarrows(songs: map<SongId, Song>, requester: UserId, id: SongId)
    ensures MayUpdate(songs, requester, id) ==> MayUpdateAsWritten(songs, requester, id)
    ensures MayUpdateAsWritten(songs, requester, id) && !MayUpdate(songs, requester, id) ==>
              songs[id].isPublic && songs[id].owner != requester
  {
  }

  /**
   * PUT or PATCH on a song, restricted to its owner and without `is_public`: a visible song of
   * another user is refused with 403; the owner's song takes the validated update.
   */
  method UpdateSong(db: Database, requester: Option<UserId>, id: SongId, body: Json, partial: bool) returns (resp: Response)
    requires db.Valid()
    modifies db
    ensures db.Valid()
    ensures requester.None? ==> resp == NotAuthenticated
    ensures requester.Some? && (id !in old(db.songs) || !Visible(old(db.songs)[id], requester.value)) ==> resp == SongNotMatched
    ensures (requester.Some? && id in old(db.songs) && Visible(old(db.songs)[id], requester.value)
             && !MayUpdate(old(db.songs), requester.value, id)) ==> resp == PermissionDenied
    ensures requester.Some? && MayUpdate(old(db.songs), requester.value, id) ==>
              var r := ValidateSongUpdate(old(db.songs)[id], body, partial);
              && (r.Rejected? ==> resp == BadRequest(r.errors) && db.songs == old(db.songs))
              && (r.Accepted? ==>
                    db.songs == old(db.songs)[id := r.value] && r.value.owner in db.users
                    && resp == Response(200, SongJsonFor(db.votes, requester, id, r.value, db.users[r.value.owner])))
    ensures resp.status != 200 ==> db.songs == old(db.songs)
    ensures forall other | other in old(db.songs) && (requester.None? || old(db.songs)[other].owner != requester.value) ::
              other in db.songs && db.songs[other] == old(db.songs)[other]
    ensures db.users == old(db.users) && db.votes == old(db.votes) && db.playlists == old(db.playlists)
    ensures db.preferences == old(db.preferences)
  {
    if requester.None? {
      return NotAuthenticated;
    }
    if id !in db.songs || !Visible(db.songs[id], requester.value) {
      return SongNotMatched;
    }
    if !MayUpdate(db.songs, requester.value, id) {
      return PermissionDenied;
    }
    var r := ValidateSongUpdate(db.songs[id], body, partial);
    if r.Rejected? {
      return BadRequest(r.errors);
    }
    db.SaveSong(id, r.value);
    resp := Response(200, SongJsonFor(db.votes, requester, id, r.value, db.users[r.value.owner]));
  }

  /**
   * The worker's audio file `songs/<user> - <NN> - <title>.mp3` is shown under the media URL
   * with its name quoted: the separators' spaces become `%20`, the number is kept, and so is
   * any user name or title made only of URL-safe characters.
   */
  lemma WorkerAudioUrl(username: string, count: nat, title: string)
    requires '\\' !in username
    ensures FileUrl(Some("songs/" + FileName(username, count, title)))
            == JStr(MediaUrl + ("songs/" + (Quote(username) + "%20-%20" + SongNumber(count) + "%20-%20"
                    + Quote(SafeTitle(title)) + ".mp3")))
  {
    var n, t := SongNumber(count), SafeTitle(title);
    WorkerNameUnslashed(username, n, t);
    FileUrlQuotes("songs/" + FileName(username, count, title));
    QuoteAppend("songs/", FileName(username, count, title));
    QuoteParts(username, " - ", n, " - ", t, ".mp3");
    QuoteDash();
    QuoteFixedParts();
    assert Quote(n) == n by { assert forall k | 0 <= k < |n| :: IsDigit(n[k]); }
  }

  /** The worker's file name has no backslash and does not start with a slash. */
  lemma WorkerNameUnslashed(username: string, n: string, t: string)
    requires '\\' !in username && AllDigits(n) && forall k | 0 <= k < |t| :: t[k] !in ForbiddenTitleChars
    ensures var name := "songs/" + (username + " - " + n + " - " + t + ".mp3");
            name != [] && name[0] != '/' && '\\' !in name
  {
    assert '\\' !in n by { assert forall k | 0 <= k < |n| :: IsDigit(n[k]); }
    assert '\\' in ForbiddenTitleChars;
  }

  /** The folder and the extension of the worker's file name need no quoting. */
  lemma QuoteFixedParts()
    ensures Quote("songs/") == "songs/" && Quote(".mp3") == ".mp3"
  {
    assert forall i | 0 <= i < |"songs/"| :: UrlSafe("songs/"[i]);
    assert forall i | 0 <= i < |".mp3"| :: UrlSafe(".mp3"[i]);
  }

  // ---------------------------------------------------------------- creation

  /**
   * `SongCreateView.create` with the generation submitted by calling `generate_song_task`
   * directly, as intended: validate, save (a `null` duration fails in the database, a 500),
   * hand the song to the generation pipeline under `song_<id>`, and answer 201 with the
   * representation (built without the request, so `user_vote` is `null`). Whether the task
   * manager accepts the task does not change the answer. `CreateSongViewAsWritten` is the
   * view as written.
   */
  method CreateSongView(db: Database, runtime: TM.Runtime<Job>, settings: Settings, requester: Option<UserId>, body: Json)
    returns (resp: Response)
    requires db.Valid() && runtime.Valid() && (requester.Some? ==> requester.value in db.users)
    modifies db, runtime, runtime.taskManager
    ensures db.Valid() && runtime.Valid()
    ensures requester.None? ==> resp == NotAuthenticated
    ensures requester.Some? ==>
              var v := ValidateSongCreate(body);
              && (v.Rejected? ==> resp == BadRequest(v.errors))
              && (v.Accepted? && v.value.duration.None? ==> resp == ServerError)
              && (v.Accepted? && v.value.duration.Some? ==>
                    Created(old(db.songs), db.songs, Drafted(requester.value, v.value))
                    && db.users == CountedCreation(old(db.users), requester.value)
                    && var id := AddedId(old(db.songs), db.songs);
                       && resp == Response(201, SongJson(id, Drafted(requester.value, v.value), db.users[requester.value], None))
                       && Queued(old(runtime.taskManager), runtime.taskManager, settings, id))
    ensures resp.status != 201 ==>
              db.songs == old(db.songs) && db.users == old(db.users)
              && runtime.taskManager == old(runtime.taskManager) && Untouched(runtime.taskManager)
    ensures db.votes == old(db.votes) && db.playlists == old(db.playlists) && db.preferences == old(db.preferences)
  {
    if requester.None? {
      return NotAuthenticated;
    }
    var v := ValidateSongCreate(body);
    if v.Rejected? {
      return BadRequest(v.errors);
    }
    resp := SaveAndQueue(db, runtime, settings, requester.value, v.value);
  }

  /** The part of creation after validation: save the draft, submit its generation, answer 201. */
  method SaveAndQueue(db: Database, runtime: TM.Runtime<Job>, settings: Settings, owner: UserId, d: SongDraft)
    returns (resp: Response)
    requires db.Valid() && runtime.Valid() && owner in db.users
    modifies db, runtime, runtime.taskManager
    ensures db.Valid() && runtime.Valid()
    ensures d.duration.None? ==>
              resp == ServerError && db.songs == old(db.songs) && db.users == old(db.users)
              && runtime.taskManager == old(runtime.taskManager) && Untouched(runtime.taskManager)
    ensures d.duration.Some? ==>
              Created(old(db.songs), db.songs, Drafted(owner, d)) && db.users == CountedCreation(old(db.users), owner)
              && var id := AddedId(old(db.songs), db.songs);
                 && resp == Response(201, SongJson(id, Drafted(owner, d), db.users[owner], None))
                 && Queued(old(runtime.taskManager), runtime.taskManager, settings, id)
    ensures db.votes == old(db.votes) && db.playlists == old(db.playlists) && db.preferences == old(db.preferences)
  {
    var saved := SaveNewSong(db, owner, d);
    if saved.Err? {
      return ServerError;
    }
    var id := saved.value;
    assert db.songs == old(db.songs)[id := Drafted(owner, d)];
    assert db.users == CountedCreation(old(db.users), owner);
    assert AddedId(old(db.songs), db.songs) == id;
    var _ := GenerateSongTask(runtime, settings, id);
    resp := Response(201, SongJson(id, db.songs[id], db.users[owner], None));
  }

  /** The id `after` holds that `before` does not. */
  ghost function AddedId(before: map<SongId, Song>, after: map<SongId, Song>): (id: SongId)
    requires exists id | id in after :: id !in before
    ensures id in after && id !in before
  {
    var id :| id in after && id !in before; id
  }

  /** A task manager, if there is one, keeps all its state. */
  twostate predicate Untouched(m: TM.TaskManager?<Job>)
    reads m
  {
    m != null ==> unchanged(m)
  }


  /**
   * `SongCreateView.create` as written: the view hands the song on with `.delay(...)`, but
   * `generate_song_task` is a plain function with no `delay` attribute, so once the song is
   * saved and the owner's count raised the view raises `AttributeError`, a 500, and nothing
   * is queued: the runtime is not even in the frame, and the song stays `generating`.
   * `CreateSongView` is the view with the call made directly.
   */
  method CreateSongViewAsWritten(db: Database, requester: Option<UserId>, body: Json) returns (resp: Response)
    requires db.Valid() && (requester.Some? ==> requester.value in db.users)
    modifies db
    ensures db.Valid()
    ensures requester.None? ==> resp == NotAuthenticated && db.songs == old(db.songs)
    ensures requester.Some? ==>
              var v := ValidateSongCreate(body);
              && (v.Rejected? ==> resp == BadRequest(v.errors) && db.songs == old(db.songs))
              && (v.Accepted? ==> resp == ServerError)
              && (v.Accepted? && v.value.duration.None? ==> db.songs == old(db.songs))
              && (v.Accepted? && v.value.duration.Some? ==> Created(old(db.songs), db.songs, Drafted(requester.value, v.value)))
    ensures requester.Some? && ValidateSongCreate(body).Accepted? && ValidateSongCreate(body).value.duration.Some? ==>
              db.users == CountedCreation(old(db.users), requester.value)
    ensures requester.None? || !ValidateSongCreate(body).Accepted? || ValidateSongCreate(body).value.duration.None? ==>
              db.users == old(db.users)
    ensures db.votes == old(db.votes) && db.playlists == old(db.playlists) && db.preferences == old(db.preferences)
  {
    if requester.None? {
      return NotAuthenticated;
    }
    var v := ValidateSongCreate(body);
    if v.Rejected? {
      return BadRequest(v.errors);
    }
    resp := SaveAndRaise(db, requester.value, v.value);
  }

  /** The part of creation as written after validation: save the draft, then fail on `.delay`. */
  method SaveAndRaise(db: Database, owner: UserId, d: SongDraft) returns (resp: Response)
    requires db.Valid() && owner in db.users
    modifies db
    ensures db.Valid() && resp == ServerError
    ensures d.duration.None? ==> db.songs == old(db.songs) && db.users == old(db.users)
    ensures d.duration.Some? ==>
              Created(old(db.songs), db.songs, Drafted(owner, d)) && db.users == CountedCreation(old(db.users), owner)
    ensures db.votes == old(db.votes) && db.playlists == old(db.playlists) && db.preferences == old(db.preferences)
  {
    var saved := SaveNewSong(db, owner, d);
    if saved.Ok? {
      assert Created(old(db.songs), db.songs, Drafted(owner, d)) by {
        assert saved.value !in old(db.songs) && db.songs == old(db.songs)[saved.value := Drafted(owner, d)];
      }
    }
    resp := ServerError;
  }

  /** The users after `owner`'s created-songs count has risen by one. */
  function CountedCreation(users: map<UserId, User>, owner: UserId): (r: map<UserId, User>)
    requires owner in users
    ensures r.Keys == users.Keys && r[owner].totalSongsCreated == users[owner].totalSongsCreated + 1
    ensures forall id | id in users && id != owner :: r[id] == users[id]
  {
    users[owner := users[owner].(totalSongsCreated := users[owner].totalSongsCreated + 1)]
  }

  /** `after` is `before` with one song added under a new id. */
  predicate Created(before: map<SongId, Song>, after: map<SongId, Song>, s: Song) {
    exists id | id in after :: id !in before && after == before[id := s]
  }

  /** The song a valid draft of `owner` is saved as. */
  function Drafted(owner: UserId, d: SongDraft): (s: Song)
    requires d.duration.Some?
    ensures s.owner == owner && s.title == d.title && s.lyrics == d.lyrics && s.status == Generating && !s.isPublic
  {
    NewSong(owner, d.title, d.lyrics, d.description, d.genre, d.mood, d.duration.value)
  }

  /** A song created without lyrics, or with blank ones, is one the pipeline writes lyrics for. */
  lemma CreatedWithoutLyricsGetsThem(body: Json)
    requires ValidateSongCreate(body).Accepted?
    requires FieldOf(body, "lyrics").Absent? || (Sent(body, "lyrics") && SentText(body, "lyrics") == "")
    ensures NeedsLyrics(ValidateSongCreate(body).value.lyrics)
  {
  }

  // ---------------------------------------------------------------- publishing

  /** `request.data.get('action', 'publish')`: `None` for a value that is not a string. */
  function ActionOf(body: Json): (a: Option<string>)
    ensures Get(body, "action").None? ==> a == Some("publish")
    ensures a.Some? && Get(body, "action").Some? ==> Get(body, "action") == Some(JStr(a.value))
  {
    match Get(body, "action")
    case None => Some("publish")
    case Some(JStr(a)) => Some(a)
    case Some(_) => None
  }

  const PublishNotFound: string := "Song not found or you do not have permission."
  const NotCompletedMessage: string := "Only completed songs can be published."
  const InvalidActionMessage: string := "Invalid action. Use \"publish\" or \"unpublish\"."

  /**
   * `SongPublishView.post` at time `now`: only the owner's song is found; publishing needs a
   * completed song; unpublishing always succeeds; any other action is refused. The answer
   * carries the song as it now is, its owner's profile included.
   */
  method PublishSong(db: Database, requester: Option<UserId>, id: SongId, body: Json, now: int) returns (resp: Response)
    requires db.Valid()
    modifies db
    ensures db.Valid()
    ensures requester.None? ==> resp == NotAuthenticated
    ensures requester.Some? && (id !in old(db.songs) || old(db.songs)[id].owner != requester.value) ==>
              resp == Response(404, ErrorBody(PublishNotFound))
    ensures requester.Some? && id in old(db.songs) && old(db.songs)[id].owner == requester.value ==>
              var s := old(db.songs)[id];
              && (ActionOf(body) == Some("publish") && s.status != Completed ==> resp == Response(400, ErrorBody(NotCompletedMessage)))
              && (ActionOf(body) == Some("publish") && s.status == Completed ==>
                    resp.status == 200 && db.songs == old(db.songs)[id := s.(isPublic := true, publishedAt := Some(now))]
                    && db.users == old(db.users)[s.owner := old(db.users)[s.owner].(totalSongsPublished := old(db.users)[s.owner].totalSongsPublished + 1)])
              && (ActionOf(body) == Some("unpublish") ==>
                    resp.status == 200 && db.songs == old(db.songs)[id := s.(isPublic := false, publishedAt := None)]
                    && db.users == old(db.users))
              && (ActionOf(body) != Some("publish") && ActionOf(body) != Some("unpublish") ==>
                    resp == Response(400, ErrorBody(InvalidActionMessage)))
    ensures resp.status != 200 ==> db.songs == old(db.songs) && db.users == old(db.users)
    ensures resp.status == 200 ==>
              id in db.songs && db.songs[id].owner in db.users
              && resp.body == PublishedBody(ActionOf(body) == Some("publish"), SongJson(id, db.songs[id], db.users[db.songs[id].owner], None))
    ensures db.votes == old(db.votes) && db.playlists == old(db.playlists) && db.preferences == old(db.preferences)
  {
    if requester.None? {
      return NotAuthenticated;
    }
    if id !in db.songs || db.songs[id].owner != requester.value {
      return Response(404, ErrorBody(PublishNotFound));
    }
    var action := ActionOf(body);
    if action == Some("publish") {
      if db.songs[id].status != Completed {
        return Response(400, ErrorBody(NotCompletedMessage));
      }
      db.Publish(id, now);
    } else if action == Some("unpublish") {
      db.Unpublish(id);
    } else {
      return Response(400, ErrorBody(InvalidActionMessage));
    }
    var s := db.songs[id];
    resp := Response(200, PublishedBody(action == Some("publish"), SongJson(id, s, db.users[s.owner], None)));
  }

  /** The 200 body of the publish view: the action's message and the song as it now is. */
  function PublishedBody(published: bool, song: Json): (j: Json)
    ensures Get(j, "message") == Some(JStr(if published then "Song published successfully." else "Song unpublished successfully."))
    ensures Get(j, "song") == Some(song)
  {
    var entries := [("message", JStr(if published then "Song published successfully." else "Song unpublished successfully.")),
                    ("song", song)];
    LookupFirst(entries, 1);
    JObj(entries)
  }

  // ---------------------------------------------------------------- playing

  const SongNotFoundMessage: string := "Song not found."

  /** What the play view's own lookup finds: a public song, else, for a signed-in requester, one of theirs. */
  predicate Playable(songs: map<SongId, Song>, requester: Option<UserId>, id: SongId) {
    id in songs && (songs[id].isPublic || (requester.Some? && songs[id].owner == requester.value))
  }

  /**
   * The play view's status as written: it sets no permission of its own, so the default
   * `IsAuthenticated` answers an anonymous request 401 before the lookup runs.
   */
  function PlayStatusAsWritten(songs: map<SongId, Song>, requester: Option<UserId>, id: SongId): (status: nat)
    ensures status == 200 <==> requester.Some? && Playable(songs, requester, id)
    ensures requester.None? ==> status == 401
    ensures requester.Some? && !Playable(songs, requester, id) ==> status == 404
  {
    if requester.None? then 401 else if Playable(songs, requester, id) then 200 else 404
  }

  /**
   * The play view as its anonymous branch and the client's unauthenticated `recordPlay`
   * intend it: open to anyone, a 404 for what the lookup does not find.
   */
  function PlayStatus(songs: map<SongId, Song>, requester: Option<UserId>, id: SongId): (status: nat)
    ensures status == 200 <==> Playable(songs, requester, id)
    ensures status != 200 ==> status == 404
  {
    if Playable(songs, requester, id) then 200 else 404
  }

  /** The client plays songs without credentials, and as written every such play is refused; as intended, public songs are counted. */
  lemma AnonymousPlayRefused(songs: map<SongId, Song>, id: SongId)
    requires id in songs && songs[id].isPublic
    ensures PlayStatusAsWritten(songs, None, id) == 401
    ensures PlayStatus(songs, None, id) == 200
  {
  }

  /** For a signed-in requester the intended view answers as the written one does. */
  lemma PlayStatusAgrees(songs: map<SongId, Song>, requester: UserId, id: SongId)
    ensures PlayStatus(songs, Some(requester), id) == PlayStatusAsWritten(songs, Some(requester), id)
  {
  }

  /**
   * `SongPlayView.post`, open to anyone: a public song, or the signed-in requester's own song,
   * is played once more and its new count returned; otherwise 404 and nothing changes.
   */
  method PlaySong(db: Database, requester: Option<UserId>, id: SongId) returns (resp: Response)
    requires db.Valid()
    modifies db
    ensures db.Valid()
    ensures resp.status == PlayStatus(old(db.songs), requester, id)
    ensures Playable(old(db.songs), requester, id) ==>
              var n := old(db.songs)[id].playCount + 1;
              && resp == Response(200, JObj([("play_count", JNum(n))]))
              && db.songs == old(db.songs)[id := old(db.songs)[id].(playCount := n)]
    ensures !Playable(old(db.songs), requester, id) ==>
              resp == Response(404, ErrorBody(SongNotFoundMessage)) && db.songs == old(db.songs)
    ensures db.users == old(db.users) && db.votes == old(db.votes) && db.playlists == old(db.playlists)
    ensures db.preferences == old(db.preferences)
  {
    var found := id in db.songs && db.songs[id].isPublic;
    if !found {
      // The view's fallback for the owner's unpublished songs, open to signed-in requesters only.
      if requester.None? {
        return Response(404, ErrorBody(SongNotFoundMessage));
      }
      found := id in db.songs && db.songs[id].owner == requester.value;
      if !found {
        return Response(404, ErrorBody(SongNotFoundMessage));
      }
    }
    db.IncrementPlayCount(id);
    resp := Response(200, JObj([("play_count", JNum(db.songs[id].playCount))]));
  }

  // ---------------------------------------------------------------- votes

  const InvalidVoteMessage: string := "Invalid vote type. Use \"up\" or \"down\"."
  const VoteNotFoundMessage: string := "Vote not found."

  /** The vote type a body asks for: exactly the strings `"up"` and `"down"`. */
  function VoteTypeOf(body: Json): (t: Option<VoteType>)
    ensures t == Some(Up) <==> Get(body, "vote_type") == Some(JStr("up"))
    ensures t == Some(Down) <==> Get(body, "vote_type") == Some(JStr("down"))
  {
    match Get(body, "vote_type")
    case Some(JStr(s)) => if s == "up" then Some(Up) else if s == "down" then Some(Down) else None
    case _ => None
  }

  /** The body of a vote answer: the message and the song's counters and score. */
  function VoteBody(message: string, s: Song): Json {
    JObj([("message", JStr(message)), ("upvotes", JNum(s.upvotes)), ("downvotes", JNum(s.downvotes)), ("score", JNum(Score(s)))])
  }

  /**
   * `VoteView.post`: only a public song can be voted on (else 404), only up or down (else
   * 400); the requester's vote is then upserted and the refreshed counters returned.
   */
  method VoteOnSong(db: Database, requester: Option<UserId>, id: SongId, body: Json) returns (resp: Response)
    requires db.Valid() && (requester.Some? ==> requester.value in db.users)
    modifies db
    ensures db.Valid()
    ensures requester.None? ==> resp == NotAuthenticated
    ensures requester.Some? && (id !in old(db.songs) || !old(db.songs)[id].isPublic) ==>
              resp == Response(404, ErrorBody(SongNotFoundMessage))
    ensures requester.Some? && id in old(db.songs) && old(db.songs)[id].isPublic && VoteTypeOf(body).None? ==>
              resp == Response(400, ErrorBody(InvalidVoteMessage))
    ensures resp.status != 200 ==> db.songs == old(db.songs) && db.votes == old(db.votes)
    ensures resp.status == 200 <==>
              requester.Some? && id in old(db.songs) && old(db.songs)[id].isPublic && VoteTypeOf(body).Some?
    ensures resp.status == 200 ==>
              var k := (requester.value, id);
              && db.votes == old(db.votes)[k := VoteTypeOf(body).value]
              && db.songs == old(db.songs)[id := VoteSaved(old(db.songs)[id], if k in old(db.votes) then Some(old(db.votes)[k]) else None,
                                                           VoteTypeOf(body).value)]
              && resp.body == VoteBody("Vote recorded.", db.songs[id])
    ensures db.users == old(db.users) && db.playlists == old(db.playlists) && db.preferences == old(db.preferences)
  {
    if requester.None? {
      return NotAuthenticated;
    }
    if id !in db.songs || !db.songs[id].isPublic {
      return Response(404, ErrorBody(SongNotFoundMessage));
    }
    var t := VoteTypeOf(body);
    if t.None? {
      return Response(400, ErrorBody(InvalidVoteMessage));
    }
    UpsertVote(db, requester.value, id, t.value);
    resp := Response(200, VoteBody("Vote recorded.", db.songs[id]));
  }

  /** `VoteView.delete`: the requester's vote on the song, if any, is removed (whether or not the song is still public). */
  method RemoveVote(db: Database, requester: Option<UserId>, id: SongId) returns (resp: Response)
    requires db.Valid()
    modifies db
    ensures db.Valid()
    ensures requester.None? ==> resp == NotAuthenticated && db.votes == old(db.votes) && db.songs == old(db.songs)
    ensures requester.Some? && (requester.value, id) !in old(db.votes) ==>
              resp == Response(404, ErrorBody(VoteNotFoundMessage)) && db.votes == old(db.votes) && db.songs == old(db.songs)
    ensures requester.Some? && (requester.value, id) in old(db.votes) ==>
              && db.votes == old(db.votes) - {(requester.value, id)}
              && db.songs == old(db.songs)[id := VoteDeleted(old(db.songs)[id], old(db.votes)[(requester.value, id)])]
              && resp == Response(200, VoteBody("Vote removed.", db.songs[id]))
    ensures db.users == old(db.users) && db.playlists == old(db.playlists) && db.preferences == old(db.preferences)
  {
    if requester.None? {
      return NotAuthenticated;
    }
    if (requester.value, id) !in db.votes {
      return Response(404, ErrorBody(VoteNotFoundMessage));
    }
    db.DeleteVote(requester.value, id);
    resp := Response(200, VoteBody("Vote removed.", db.songs[id]));
  }
}

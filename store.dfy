/**
 * The persisted state the core reads and writes: the user, preference, song, vote and playlist
 * tables, each row a value keyed by its primary key. The model methods of
 * apps/accounts/models.py and apps/songs/models.py (counter increments, publishing, the vote
 * bookkeeping of `Vote.save` and `Vote.delete`) are the methods of this class, which keep the
 * foreign keys valid and every song's counters equal to its votes.
 */
module Store {
  import opened Wrappers
  import opened Accounts
  import opened Songs

  /** The votes that remain when the song `gone` is deleted (`on_delete=CASCADE`). */
  function VotesWithout(votes: map<VoteKey, VoteType>, gone: SongId): (r: map<VoteKey, VoteType>)
    ensures forall k :: k in r <==> k in votes && k.1 != gone
    ensures forall k | k in r :: r[k] == votes[k]
  {
    map k | k in votes && k.1 != gone :: votes[k]
  }

  /** The playlists with the deleted song `gone` taken out of each. */
  function PlaylistsWithout(playlists: map<PlaylistId, Playlist>, gone: SongId): (r: map<PlaylistId, Playlist>)
    ensures r.Keys == playlists.Keys
    ensures forall p | p in r :: r[p] == playlists[p].(songs := playlists[p].songs - {gone})
  {
    map p | p in playlists :: playlists[p].(songs := playlists[p].songs - {gone})
  }

  /** Deleting a song's votes leaves the tallies of every other song as they were. */
  lemma {:induction false} TallyWithout(votes: map<VoteKey, VoteType>, gone: SongId, id: SongId, t: VoteType)
    requires id != gone
    ensures Tally(VotesWithout(votes, gone), id, t) == Tally(votes, id, t)
  {
    var w := VotesWithout(votes, gone);
    forall k | k in VoteSet(w, id, t) ensures k in VoteSet(votes, id, t) {
      assert w[k] == votes[k];
    }
    forall k | k in VoteSet(votes, id, t) ensures k in VoteSet(w, id, t) {
      assert w[k] == votes[k];
    }
    assert VoteSet(w, id, t) == VoteSet(votes, id, t);
  }

  /** A song no vote refers to has no votes counted. */
  lemma TallyUnvoted(votes: map<VoteKey, VoteType>, id: SongId, t: VoteType)
    requires forall k | k in votes :: k.1 != id
    ensures Tally(votes, id, t) == 0
  {
    assert VoteSet(votes, id, t) == {};
  }

  /** The database's refusals of a second user with the same username or email address. */
  const UsernameNotUnique: string := "UNIQUE constraint failed: accounts_user.username"
  const EmailNotUnique: string := "UNIQUE constraint failed: accounts_user.email"

  class Database {
    var users: map<UserId, User>
    var preferences: map<UserId, UserPreferences>
    var songs: map<SongId, Song>
    var votes: map<VoteKey, VoteType>
    var playlists: map<PlaylistId, Playlist>
    var nextUserId: nat
    var nextSongId: nat
    var nextPlaylistId: nat

    /** Referential integrity, fresh primary keys, and the counters equal to the votes. */
    ghost predicate Valid()
      reads this
    {
      && (forall id | id in users :: id < nextUserId)
      && (forall id | id in songs :: id < nextSongId && songs[id].owner in users)
      && (forall p | p in playlists :: p < nextPlaylistId && playlists[p].owner in users && playlists[p].songs <= songs.Keys)
      && preferences.Keys <= users.Keys
      && (forall k | k in votes :: k.0 in users && k.1 in songs)
      && CountersMatch(songs, votes)
    }

    constructor ()
      ensures Valid()
      ensures users == map[] && preferences == map[] && songs == map[] && votes == map[] && playlists == map[]
    {
      users, preferences, songs, votes, playlists := map[], map[], map[], map[], map[];
      nextUserId, nextSongId, nextPlaylistId := 0, 0, 0;
    }

    /**
     * `User.objects.create_user`: a new user with the model defaults and the email address
     * normalized; the save is refused (an `IntegrityError`) when the username or the
     * normalized address is already stored, and nothing changes.
     */
    method CreateUser(username: string, email: string) returns (r: Result<UserId>)
      requires Valid()
      modifies this
      ensures Valid()
      ensures r.Ok? <==> username !in Usernames(old(users)) && NormalizeEmail(email) !in Emails(old(users))
      ensures username in Usernames(old(users)) ==> r == Err(UsernameNotUnique)
      ensures username !in Usernames(old(users)) && NormalizeEmail(email) in Emails(old(users)) ==> r == Err(EmailNotUnique)
      ensures r.Err? ==> users == old(users)
      ensures r.Ok? ==> r.value !in old(users) && users == old(users)[r.value := NewUser(username, NormalizeEmail(email))]
      ensures UniqueAccounts(old(users)) ==> UniqueAccounts(users)
      ensures preferences == old(preferences) && songs == old(songs) && votes == old(votes) && playlists == old(playlists)
    {
      var e := NormalizeEmail(email);
      if username in Usernames(users) {
        return Err(UsernameNotUnique);
      }
      if e in Emails(users) {
        return Err(EmailNotUnique);
      }
      var id := nextUserId;
      assert UniqueAccounts(users) ==> UniqueAccounts(users[id := NewUser(username, e)]) by {
        if UniqueAccounts(users) {
          NewAccountKeepsUnique(users, id, username, e);
        }
      }
      users := users[id := NewUser(username, e)];
      nextUserId := nextUserId + 1;
      r := Ok(id);
    }

    /**
     * `UserPreferences.objects.create(user=user)`: default preferences, refused (the one-to-one
     * key's integrity error) when the user already has some.
     */
    method CreatePreferences(user: UserId) returns (ok: bool)
      requires Valid() && user in users
      modifies this
      ensures Valid()
      ensures ok <==> user !in old(preferences)
      ensures preferences == if ok then old(preferences)[user := NewPreferences()] else old(preferences)
      ensures users == old(users) && songs == old(songs) && votes == old(votes) && playlists == old(playlists)
    {
      ok := user !in preferences;
      if ok {
        preferences := preferences[user := NewPreferences()];
      }
    }

    /** Saving a user's own fields (`instance.save()`). */
    method SaveUser(id: UserId, u: User)
      requires Valid() && id in users
      modifies this
      ensures Valid()
      ensures users == old(users)[id := u]
      ensures preferences == old(preferences) && songs == old(songs) && votes == old(votes) && playlists == old(playlists)
    {
      users := users[id := u];
    }

    /** `User.increment_song_count`: one more song created, nothing else changed. */
    method IncrementSongCount(id: UserId)
      requires Valid() && id in users
      modifies this
      ensures Valid()
      ensures users == old(users)[id := old(users)[id].(totalSongsCreated := old(users)[id].totalSongsCreated + 1)]
      ensures preferences == old(preferences) && songs == old(songs) && votes == old(votes) && playlists == old(playlists)
    {
      users := users[id := users[id].(totalSongsCreated := users[id].totalSongsCreated + 1)];
    }

    /** `User.increment_published_count`: one more song published, nothing else changed. */
    method IncrementPublishedCount(id: UserId)
      requires Valid() && id in users
      modifies this
      ensures Valid()
      ensures users == old(users)[id := old(users)[id].(totalSongsPublished := old(users)[id].totalSongsPublished + 1)]
      ensures preferences == old(preferences) && songs == old(songs) && votes == old(votes) && playlists == old(playlists)
    {
      users := users[id := users[id].(totalSongsPublished := users[id].totalSongsPublished + 1)];
    }

    /** `Song.objects.create(user=owner, ...)`: a new song with no votes and zero counters. */
    method CreateSong(owner: UserId, title: string, lyrics: string, description: string,
                      genre: string, mood: string, duration: int) returns (id: SongId)
      requires Valid() && owner in users
      modifies this
      ensures Valid()
      ensures id !in old(songs) && songs == old(songs)[id := NewSong(owner, title, lyrics, description, genre, mood, duration)]
      ensures users == old(users) && preferences == old(preferences) && votes == old(votes) && playlists == old(playlists)
    {
      id := nextSongId;
      TallyUnvoted(votes, id, Up);
      TallyUnvoted(votes, id, Down);
      songs := songs[id := NewSong(owner, title, lyrics, description, genre, mood, duration)];
      nextSongId := nextSongId + 1;
    }

    /**
     * Saving a song's own fields (`song.save()`): any field but the owner and the two vote
     * counters, which only the vote bookkeeping changes.
     */
    method SaveSong(id: SongId, s: Song)
      requires Valid() && id in songs
      requires s.owner == songs[id].owner && s.upvotes == songs[id].upvotes && s.downvotes == songs[id].downvotes
      modifies this
      ensures Valid()
      ensures songs == old(songs)[id := s]
      ensures users == old(users) && preferences == old(preferences) && votes == old(votes) && playlists == old(playlists)
    {
      songs := songs[id := s];
    }

    /** `Song.increment_play_count`: one more play, nothing else changed. */
    method IncrementPlayCount(id: SongId)
      requires Valid() && id in songs
      modifies this
      ensures Valid()
      ensures songs == old(songs)[id := old(songs)[id].(playCount := old(songs)[id].playCount + 1)]
      ensures users == old(users) && preferences == old(preferences) && votes == old(votes) && playlists == old(playlists)
    {
      songs := songs[id := songs[id].(playCount := songs[id].playCount + 1)];
    }

    /**
     * `Song.publish`: public, stamped with the time `now`, and one more published song for the
     * owner (also when the song was public already).
     */
    method Publish(id: SongId, now: int)
      requires Valid() && id in songs
      modifies this
      ensures Valid()
      ensures songs == old(songs)[id := old(songs)[id].(isPublic := true, publishedAt := Some(now))]
      ensures var owner := old(songs)[id].owner;
              users == old(users)[owner := old(users)[owner].(totalSongsPublished := old(users)[owner].totalSongsPublished + 1)]
      ensures preferences == old(preferences) && votes == old(votes) && playlists == old(playlists)
    {
      songs := songs[id := songs[id].(isPublic := true, publishedAt := Some(now))];
      IncrementPublishedCount(songs[id].owner);
    }

    /** `Song.unpublish`: private and unstamped; the owner's published count is not lowered. */
    method Unpublish(id: SongId)
      requires Valid() && id in songs
      modifies this
      ensures Valid()
      ensures songs == old(songs)[id := old(songs)[id].(isPublic := false, publishedAt := None)]
      ensures users == old(users) && preferences == old(preferences) && votes == old(votes) && playlists == old(playlists)
    {
      songs := songs[id := songs[id].(isPublic := false, publishedAt := None)];
    }

    /**
     * `Vote.save` for the vote of `user` on `song`: when that vote exists its stored type is
     * taken off the counters, then the new type is added, and the vote is stored.
     */
    method SaveVote(user: UserId, song: SongId, v: VoteType)
      requires Valid() && user in users && song in songs
      modifies this
      ensures Valid()
      ensures votes == old(votes)[(user, song) := v]
      ensures songs == old(songs)[song := VoteSaved(old(songs)[song],
                                                    if (user, song) in old(votes) then Some(old(votes)[(user, song)]) else None, v)]
      ensures users == old(users) && preferences == old(preferences) && playlists == old(playlists)
    {
      var previous := if (user, song) in votes then Some(votes[(user, song)]) else None;
      VoteSaveKeepsCounters(songs, votes, (user, song), v);
      songs := songs[song := VoteSaved(songs[song], previous, v)];
      votes := votes[(user, song) := v];
    }

    /** `Vote.delete` for the vote of `user` on `song`: its type is taken off the counters. */
    method DeleteVote(user: UserId, song: SongId)
      requires Valid() && (user, song) in votes
      modifies this
      ensures Valid()
      ensures votes == old(votes) - {(user, song)}
      ensures songs == old(songs)[song := VoteDeleted(old(songs)[song], old(votes)[(user, song)])]
      ensures users == old(users) && preferences == old(preferences) && playlists == old(playlists)
    {
      VoteDeleteKeepsCounters(songs, votes, (user, song));
      songs := songs[song := VoteDeleted(songs[song], votes[(user, song)])];
      votes := votes - {(user, song)};
    }

    /** `song.delete()`: the song goes, and with it its votes and its playlist memberships. */
    method DeleteSong(id: SongId)
      requires Valid() && id in songs
      modifies this
      ensures Valid()
      ensures songs == old(songs) - {id}
      ensures votes == VotesWithout(old(votes), id)
      ensures playlists == PlaylistsWithout(old(playlists), id)
      ensures users == old(users) && preferences == old(preferences)
    {
      var votes' := VotesWithout(votes, id);
      var songs' := songs - {id};
      forall s | s in songs'
        ensures songs'[s].upvotes == Tally(votes', s, Up) && songs'[s].downvotes == Tally(votes', s, Down)
      {
        TallyWithout(votes, id, s, Up);
        TallyWithout(votes, id, s, Down);
      }
      songs, votes := songs', votes';
      playlists := PlaylistsWithout(playlists, id);
    }

    /** `Playlist.objects.create(user=owner, ...)`, with `songs` as its members. */
    method CreatePlaylist(owner: UserId, name: string, description: string, isPublic: bool, members: set<SongId>)
      returns (id: PlaylistId)
      requires Valid() && owner in users && members <= songs.Keys
      modifies this
      ensures Valid()
      ensures id !in old(playlists) && playlists == old(playlists)[id := Playlist(owner, name, description, members, isPublic)]
      ensures users == old(users) && preferences == old(preferences) && songs == old(songs) && votes == old(votes)
    {
      id := nextPlaylistId;
      playlists := playlists[id := Playlist(owner, name, description, members, isPublic)];
      nextPlaylistId := nextPlaylistId + 1;
    }

    /** Saving a playlist (`instance.save()`, `songs.set(...)`); its owner does not change. */
    method SavePlaylist(id: PlaylistId, p: Playlist)
      requires Valid() && id in playlists && p.owner == playlists[id].owner && p.songs <= songs.Keys
      modifies this
      ensures Valid()
      ensures playlists == old(playlists)[id := p]
      ensures users == old(users) && preferences == old(preferences) && songs == old(songs) && votes == old(votes)
    {
      playlists := playlists[id := p];
    }
  }
}

/**
 * The song records (apps/songs/models.py) as values, and the vote tallies that the counters
 * `upvotes` and `downvotes` are meant to equal.
 */
module Songs {
  import opened Wrappers
  import opened Accounts

  type SongId = nat
  type PlaylistId = nat

  datatype Status = Generating | Completed | Failed

  datatype Song = Song(
    owner: UserId,
    title: string,
    lyrics: string,
    description: string,
    genre: string,
    mood: string,
    duration: int,
    audioFile: Option<string>,  // path below the media root
    status: Status,
    errorMessage: string,
    isPublic: bool,
    publishedAt: Option<int>,   // a timestamp; null while unpublished
    playCount: int,
    upvotes: int,
    downvotes: int)

  datatype Playlist = Playlist(
    owner: UserId,
    name: string,
    description: string,
    songs: set<SongId>,
    isPublic: bool)

  const GenreChoices: set<string> :=
    {"pop", "rock", "jazz", "classical", "electronic", "hiphop", "country", "rnb", "blues",
     "metal", "folk", "ambient", "other"}

  const MoodChoices: set<string> :=
    {"happy", "sad", "energetic", "calm", "romantic", "melancholic", "aggressive", "mysterious",
     "uplifting", "dark"}

  /** The stored value of a status. */
  function StatusName(s: Status): string {
    match s
    case Generating => "generating"
    case Completed => "completed"
    case Failed => "failed"
  }

  /** `Song.objects.create(...)`: the given fields, the rest at their model defaults. */
  function NewSong(owner: UserId, title: string, lyrics: string, description: string,
                   genre: string, mood: string, duration: int): (s: Song)
    ensures s.owner == owner && s.title == title && s.lyrics == lyrics && s.description == description
    ensures s.genre == genre && s.mood == mood && s.duration == duration
    ensures s.status == Generating && s.audioFile == None && s.errorMessage == ""
    ensures !s.isPublic && s.publishedAt == None
    ensures s.playCount == 0 && s.upvotes == 0 && s.downvotes == 0
  {
    Song(owner, title, lyrics, description, genre, mood, duration, None, Generating, "", false, None, 0, 0, 0)
  }

  /** The `score` property. */
  function Score(s: Song): int {
    s.upvotes - s.downvotes
  }

  /** A vote's key: at most one vote per (user, song), as `unique_together` demands. */
  type VoteKey = (UserId, SongId)

  /** The two `VOTE_TYPES`. */
  datatype VoteType = Up | Down

  /** The stored value of a vote type. */
  function VoteTypeName(t: VoteType): string {
    match t
    case Up => "up"
    case Down => "down"
  }

  /** The votes of type `t` on `song`. */
  ghost function VoteSet(votes: map<VoteKey, VoteType>, song: SongId, t: VoteType): set<VoteKey> {
    set k | k in votes && k.1 == song && votes[k] == t
  }

  /** The number of votes of type `t` on `song`. */
  ghost function Tally(votes: map<VoteKey, VoteType>, song: SongId, t: VoteType): nat {
    |VoteSet(votes, song, t)|
  }

  /** How much a vote of type `v` under key `k` adds to the tally of type `t` on `song`. */
  function Weight(k: VoteKey, v: VoteType, song: SongId, t: VoteType): nat {
    if k.1 == song && v == t then 1 else 0
  }

  /** The votes no one has cast. */
  lemma TallyEmpty(song: SongId, t: VoteType)
    ensures Tally(map[], song, t) == 0
  {
    assert VoteSet(map[], song, t) == {};
  }

  /** Apart from `k` itself, casting the vote under `k` leaves the set of votes unchanged. */
  lemma VoteSetPut(votes: map<VoteKey, VoteType>, k: VoteKey, v: VoteType, song: SongId, t: VoteType)
    ensures VoteSet(votes[k := v], song, t) - {k} == VoteSet(votes - {k}, song, t)
  {
    var rest := VoteSet(votes - {k}, song, t);
    var after := VoteSet(votes[k := v], song, t);
    forall j | j in after - {k} ensures j in rest {
      assert votes[k := v][j] == votes[j];
    }
    forall j | j in rest ensures j in after - {k} {
      assert votes[k := v][j] == (votes - {k})[j];
    }
  }

  /** Casting or replacing the vote under `k` adds the new vote's weight to the other votes. */
  lemma {:induction false} TallyPut(votes: map<VoteKey, VoteType>, k: VoteKey, v: VoteType, song: SongId, t: VoteType)
    ensures Tally(votes[k := v], song, t) == Tally(votes - {k}, song, t) + Weight(k, v, song, t)
  {
    VoteSetPut(votes, k, v, song, t);
    var rest := VoteSet(votes - {k}, song, t);
    var after := VoteSet(votes[k := v], song, t);
    assert k !in rest;
    if k in after {
      assert after == rest + {k};
    } else {
      assert after == rest;
    }
  }

  /** The tally with the vote under `k` is the tally without it plus that vote's weight. */
  lemma {:induction false} TallyRemove(votes: map<VoteKey, VoteType>, k: VoteKey, song: SongId, t: VoteType)
    requires k in votes
    ensures Tally(votes, song, t) == Tally(votes - {k}, song, t) + Weight(k, votes[k], song, t)
  {
    assert votes == (votes - {k})[k := votes[k]];
    TallyPut(votes - {k}, k, votes[k], song, t);
    assert (votes - {k}) - {k} == votes - {k};
  }

  /** Every vote on a song is counted exactly once, as up or as down. */
  lemma {:induction false} TallySplit(votes: map<VoteKey, VoteType>, song: SongId)
    ensures Tally(votes, song, Up) + Tally(votes, song, Down) == |set k | k in votes && k.1 == song|
  {
    var all := set k | k in votes && k.1 == song;
    assert all == VoteSet(votes, song, Up) + VoteSet(votes, song, Down);
    assert VoteSet(votes, song, Up) * VoteSet(votes, song, Down) == {};
  }

  /** The invariant `Vote.save` and `Vote.delete` maintain: each song's counters are its tallies. */
  ghost predicate CountersMatch(songs: map<SongId, Song>, votes: map<VoteKey, VoteType>) {
    forall id | id in songs :: songs[id].upvotes == Tally(votes, id, Up) && songs[id].downvotes == Tally(votes, id, Down)
  }

  /**
   * `Vote.save`'s counter arithmetic: the stored vote's type (if the vote already exists) is
   * taken off, then the new type is added.
   */
  function VoteSaved(s: Song, previous: Option<VoteType>, v: VoteType): (r: Song)
    ensures r.(upvotes := s.upvotes, downvotes := s.downvotes) == s
    ensures r.upvotes == s.upvotes - (if previous == Some(Up) then 1 else 0) + (if v == Up then 1 else 0)
    ensures r.downvotes == s.downvotes - (if previous == Some(Down) then 1 else 0) + (if v == Down then 1 else 0)
  {
    var undone := match previous
      case None => s
      case Some(Up) => s.(upvotes := s.upvotes - 1)
      case Some(Down) => s.(downvotes := s.downvotes - 1);
    match v
    case Up => undone.(upvotes := undone.upvotes + 1)
    case Down => undone.(downvotes := undone.downvotes + 1)
  }

  /** `Vote.delete`'s counter arithmetic: the deleted vote's type is taken off. */
  function VoteDeleted(s: Song, v: VoteType): (r: Song)
    ensures r.(upvotes := s.upvotes, downvotes := s.downvotes) == s
    ensures r.upvotes == s.upvotes - (if v == Up then 1 else 0)
    ensures r.downvotes == s.downvotes - (if v == Down then 1 else 0)
  {
    match v
    case Up => s.(upvotes := s.upvotes - 1)
    case Down => s.(downvotes := s.downvotes - 1)
  }

  /** Re-saving a vote with its stored type changes no counter; switching moves one count. */
  lemma ResaveEffects(s: Song)
    ensures VoteSaved(s, Some(Up), Up) == s && VoteSaved(s, Some(Down), Down) == s
    ensures VoteSaved(s, Some(Up), Down) == s.(upvotes := s.upvotes - 1, downvotes := s.downvotes + 1)
    ensures VoteSaved(s, Some(Down), Up) == s.(upvotes := s.upvotes + 1, downvotes := s.downvotes - 1)
    ensures Score(VoteSaved(s, Some(Up), Down)) == Score(s) - 2
    ensures Score(VoteSaved(s, None, Up)) == Score(s) + 1 && Score(VoteSaved(s, None, Down)) == Score(s) - 1
  {
  }

  /** Deleting a vote undoes saving it. */
  lemma DeleteUndoesSave(s: Song, v: VoteType)
    ensures VoteDeleted(VoteSaved(s, None, v), v) == s
  {
  }

  /** Saving the vote under `k` (new or replaced) keeps every song's counters equal to its tallies. */
  lemma {:induction false} VoteSaveKeepsCounters(songs: map<SongId, Song>, votes: map<VoteKey, VoteType>, k: VoteKey, v: VoteType)
    requires CountersMatch(songs, votes) && k.1 in songs
    ensures CountersMatch(songs[k.1 := VoteSaved(songs[k.1], if k in votes then Some(votes[k]) else None, v)], votes[k := v])
  {
    var songs' := songs[k.1 := VoteSaved(songs[k.1], if k in votes then Some(votes[k]) else None, v)];
    forall id | id in songs'
      ensures songs'[id].upvotes == Tally(votes[k := v], id, Up) && songs'[id].downvotes == Tally(votes[k := v], id, Down)
    {
      TallyPut(votes, k, v, id, Up);
      TallyPut(votes, k, v, id, Down);
      if k in votes {
        TallyRemove(votes, k, id, Up);
        TallyRemove(votes, k, id, Down);
      } else {
        assert votes - {k} == votes;
      }
    }
  }

  /** Deleting the vote under `k` keeps every song's counters equal to its tallies. */
  lemma {:induction false} VoteDeleteKeepsCounters(songs: map<SongId, Song>, votes: map<VoteKey, VoteType>, k: VoteKey)
    requires CountersMatch(songs, votes) && k in votes && k.1 in songs
    ensures CountersMatch(songs[k.1 := VoteDeleted(songs[k.1], votes[k])], votes - {k})
  {
    var songs' := songs[k.1 := VoteDeleted(songs[k.1], votes[k])];
    forall id | id in songs'
      ensures songs'[id].upvotes == Tally(votes - {k}, id, Up) && songs'[id].downvotes == Tally(votes - {k}, id, Down)
    {
      TallyRemove(votes, k, id, Up);
      TallyRemove(votes, k, id, Down);
    }
  }

  /** `get_user_vote`: the requester's vote type on the song, if authenticated and voted. */
  function UserVote(votes: map<VoteKey, VoteType>, requester: Option<UserId>, song: SongId): (r: Option<string>)
    ensures r.Some? <==> requester.Some? && (requester.value, song) in votes
    ensures r.Some? ==> r.value == VoteTypeName(votes[(requester.value, song)])
  {
    if requester.Some? && (requester.value, song) in votes then Some(VoteTypeName(votes[(requester.value, song)])) else None
  }
}

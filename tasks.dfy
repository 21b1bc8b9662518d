/**
 * The song generation pipeline (apps/generation/tasks.py): the helpers that build the lyrics
 * prompt, the duration passed to the music model, the file name and the task id; the worker
 * that takes a song from 'generating' to 'completed' or 'failed'; the submission of that
 * worker to the task manager; and the lyrics-only worker.
 */
module Tasks {
  import opened Wrappers
  import opened Text
  import opened Accounts
  import opened Songs
  import opened Store
  import opened Generator
  import TM = TaskManager

  /** `not song.lyrics or song.lyrics.strip() == ""`: the song has no lyrics of the user's. */
  predicate NeedsLyrics(lyrics: string) {
    lyrics == [] || Strip(lyrics) == []
  }

  /** Lyrics are generated exactly when the stored ones are empty or all whitespace. */
  lemma NeedsLyricsIffBlank(lyrics: string)
    ensures NeedsLyrics(lyrics) <==> AllOf(IsPyWhitespace, lyrics)
  {
    TrimEmptyIff(IsPyWhitespace, lyrics);
  }

  /** The key passed to the lyrics generator: the owner's own key, when they chose to use it. */
  function OwnerApiKey(u: User): (r: Option<string>)
    ensures r.Some? <==> u.useOwnApiKey && Truthy(u.openaiApiKey)
    ensures r.Some? ==> r == u.openaiApiKey
  {
    if u.useOwnApiKey && Truthy(u.openaiApiKey) then u.openaiApiKey else None
  }

  /** The prompt the lyrics generator is given for a song. */
  function LyricsPrompt(genre: string, mood: string, title: string, description: string): (r: string)
    ensures StartsWith(r, "Write song lyrics for a " + genre + " song")
    ensures mood == "" && description == "" ==> r == "Write song lyrics for a " + genre + " song" + ". Title: " + title
    ensures mood != "" && description == "" ==>
              r == "Write song lyrics for a " + genre + " song" + " with a " + mood + " mood" + ". Title: " + title
    ensures mood == "" && description != "" ==>
              r == "Write song lyrics for a " + genre + " song" + ". Title: " + title + "\n\nStyle: " + description
    ensures mood != "" && description != "" ==>
              r == "Write song lyrics for a " + genre + " song" + " with a " + mood + " mood" + ". Title: " + title
                   + "\n\nStyle: " + description
    ensures description != "" ==> EndsWith(r, "\n\nStyle: " + description)
  {
    var head := "Write song lyrics for a " + genre + " song";
    var withMood := if mood != "" then head + " with a " + mood + " mood" else head;
    var prompt := withMood + ". Title: " + title;
    PrefixOfConcat(head, if mood != "" then " with a " + mood + " mood" else "");
    PrefixOfConcat(withMood, ". Title: " + title);
    assert withMood + ". Title: " + title == withMood + (". Title: " + title);
    PrefixTrans(prompt, withMood, head);
    if description != "" then
      SuffixOfConcat(prompt, "\n\nStyle: " + description);
      PrefixOfConcat(prompt, "\n\nStyle: " + description);
      PrefixTrans(prompt + "\n\nStyle: " + description, prompt, head);
      prompt + "\n\nStyle: " + description
    else prompt
  }

  predicate EndsWith(s: string, suffix: string) {
    |suffix| <= |s| && s[|s| - |suffix|..] == suffix
  }

  lemma PrefixOfConcat(a: string, b: string)
    ensures StartsWith(a + b, a)
  {
    assert (a + b)[..|a|] == a;
  }

  lemma PrefixTrans(s: string, t: string, p: string)
    requires StartsWith(s, t) && StartsWith(t, p)
    ensures StartsWith(s, p)
  {
    assert s[..|p|] == t[..|p|];
  }

  lemma SuffixOfConcat(a: string, b: string)
    ensures EndsWith(a + b, b)
  {
    assert (a + b)[|a|..] == b;
  }

  /**
   * The duration handed to the music model: the stored one when non-zero, otherwise -1.0,
   * meaning "choose from the lyrics".
   */
  function DurationParam(duration: int): (r: real)
    ensures r == -1.0 <==> duration == 0 || duration == -1
    ensures r != -1.0 ==> r == duration as real
    ensures duration > 0 ==> r == duration as real && r > 0.0
  {
    if duration != 0 then duration as real else -1.0
  }

  /** Python's `int(x)` on a float: truncation toward zero. */
  function PyInt(x: real): (r: int)
    ensures x >= 0.0 ==> 0 <= r && r as real <= x < r as real + 1.0
    ensures x < 0.0 ==> r <= 0 && r as real - 1.0 < x <= r as real
  {
    if x >= 0.0 then x.Floor else -((-x).Floor)
  }

  /** `str(count).zfill(2)`: at least two digits, never truncated, and the count read back. */
  function SongNumber(count: nat): (r: string)
    ensures |r| >= 2 && AllDigits(r) && DigitsValue(r) == count
    ensures |NatToString(count)| >= 2 ==> r == NatToString(count)
    ensures |NatToString(count)| < 2 ==> r == "0" + NatToString(count)
  {
    ZFillNatRoundTrip(count, 2);
    var r := ZFill(NatToString(count), 2);
    assert |NatToString(count)| >= 2 ==> r == [] + NatToString(count);
    r
  }

  /** The characters `re.sub(r'[<>:"/\\|?*]', '', title)` removes. */
  const ForbiddenTitleChars: set<char> := {'<', '>', ':', '"', '/', '\\', '|', '?', '*'}

  /** The longest the title part of a file name can be. */
  const MaxTitleLength: nat := 100

  /** A slice of a string holds none of the characters the string does not hold. */
  lemma SliceAvoids(s: string, i: nat, j: nat, bad: set<char>)
    requires i <= j <= |s|
    requires forall k :: 0 <= k < |s| ==> s[k] !in bad
    ensures forall k :: 0 <= k < j - i ==> s[i..j][k] !in bad
  {
    forall k | 0 <= k < j - i ensures s[i..j][k] !in bad {
      assert s[i..j][k] == s[i + k];
    }
  }

  /** Stripping a string adds no character to it. */
  lemma StripAvoids(s: string, bad: set<char>)
    requires forall k :: 0 <= k < |s| ==> s[k] !in bad
    ensures forall k :: 0 <= k < |Strip(s)| ==> Strip(s)[k] !in bad
  {
    var i := LeadCount(IsPyWhitespace, s);
    var e := TrailEnd(IsPyWhitespace, s, i);
    assert Strip(s) == s[i..e];
    SliceAvoids(s, i, e, bad);
  }

  /**
   * The title made safe for a file name: forbidden characters removed, whitespace stripped,
   * and the first 100 characters kept. The cut comes after the strip, so a long title can
   * still end in whitespace.
   */
  function SafeTitle(title: string): (r: string)
    ensures |r| <= MaxTitleLength
    ensures forall k :: 0 <= k < |r| ==> r[k] !in ForbiddenTitleChars
    ensures r == [] || !IsPyWhitespace(r[0])
    ensures StartsWith(Strip(RemoveChars(title, ForbiddenTitleChars)), r)
  {
    var stripped := Strip(RemoveChars(title, ForbiddenTitleChars));
    StripAvoids(RemoveChars(title, ForbiddenTitleChars), ForbiddenTitleChars);
    var r := Take(stripped, MaxTitleLength);
    SliceAvoids(stripped, 0, |r|, ForbiddenTitleChars);
    assert stripped[0..|r|] == r;
    r
  }

  /** A cleaned title of at most 100 characters is kept whole, so it ends in no whitespace. */
  lemma SafeTitleShort(title: string)
    requires |Strip(RemoveChars(title, ForbiddenTitleChars))| <= MaxTitleLength
    ensures SafeTitle(title) == Strip(RemoveChars(title, ForbiddenTitleChars))
    ensures SafeTitle(title) == [] || !IsPyWhitespace(SafeTitle(title)[|SafeTitle(title)| - 1])
  {
  }

  /** `f"{username} - {song_number} - {safe_title}.mp3"`. */
  function FileName(username: string, count: nat, title: string): string {
    username + " - " + SongNumber(count) + " - " + SafeTitle(title) + ".mp3"
  }

  /** Reads a file name back into its user, number and title parts. */
  function ParseFileName(f: string): Option<(string, string, string)> {
    if |f| < 4 || f[|f| - 4..] != ".mp3" then None
    else
      var body := f[..|f| - 4];
      match IndexOf(body, " - ")
      case None => None
      case Some(i) =>
        var rest := body[i + 3..];
        match IndexOf(rest, " - ")
        case None => None
        case Some(j) => Some((body[..i], rest[..j], rest[j + 3..]))
  }

  /** Three parts without spaces in the first two are read back from their joined name. */
  lemma {:induction false} ParseJoined(u: string, n: string, t: string)
    requires ' ' !in u && ' ' !in n
    ensures ParseFileName(u + " - " + n + " - " + t + ".mp3") == Some((u, n, t))
  {
    var body := u + " - " + n + " - " + t;
    var f := body + ".mp3";
    assert f[..|f| - 4] == body;
    assert f[|f| - 4..] == ".mp3";
    assert body == u + " - " + (n + " - " + t);
    IndexOfAfterPrefix(u, " - ", n + " - " + t);
    var rest := body[|u| + 3..];
    assert rest == n + " - " + t;
    IndexOfAfterPrefix(n, " - ", t);
    assert rest[..|n|] == n;
    assert rest[|n| + 3..] == t;
    assert body[..|u|] == u;
  }

  /**
   * A user name has no spaces (Django's user names are made of letters, digits and `@.+-_`),
   * so the file name can be read back into the user, the song number and the safe title.
   */
  lemma FileNameRoundTrip(username: string, count: nat, title: string)
    requires ' ' !in username
    ensures ParseFileName(FileName(username, count, title)) == Some((username, SongNumber(count), SafeTitle(title)))
  {
    var n := SongNumber(count);
    assert ' ' !in n by {
      forall k | 0 <= k < |n| ensures n[k] != ' ' {
        assert IsDigit(n[k]);
      }
    }
    ParseJoined(username, n, SafeTitle(title));
  }

  /** `f"song_{song_id}"`. */
  function SongTaskId(id: SongId): (r: TM.TaskId)
    ensures StartsWith(r, "song_")
  {
    "song_" + NatToString(id)
  }

  /** Different songs get different task ids, so one song's task never blocks another's. */
  lemma SongTaskIdInjective(a: SongId, b: SongId)
    requires SongTaskId(a) == SongTaskId(b)
    ensures a == b
  {
    assert NatToString(a) == SongTaskId(a)[5..];
    assert NatToString(b) == SongTaskId(b)[5..];
    NatToStringInjective(a, b);
  }

  /** The number of songs `owner` has: `Song.objects.filter(user=song.user).count()`. */
  function OwnedCount(songs: map<SongId, Song>, owner: UserId): nat {
    |OwnedIds(songs, owner)|
  }

  function OwnedIds(songs: map<SongId, Song>, owner: UserId): set<SongId> {
    set id | id in songs && songs[id].owner == owner
  }

  /** A save that keeps a song's owner keeps every owner's song count. */
  lemma OwnedCountSave(songs: map<SongId, Song>, id: SongId, s: Song, owner: UserId)
    requires id in songs && s.owner == songs[id].owner
    ensures OwnedCount(songs[id := s], owner) == OwnedCount(songs, owner)
  {
    var m := songs[id := s];
    var after := OwnedIds(m, owner);
    var before := OwnedIds(songs, owner);
    forall i | i in after ensures i in before {
      assert songs[i].owner == m[i].owner;
    }
    forall i | i in before ensures i in after {
      assert songs[i].owner == m[i].owner;
    }
    assert after == before;
  }

  /** The song being generated is one of its owner's, so its number is at least 01. */
  lemma OwnedCountPositive(songs: map<SongId, Song>, id: SongId)
    requires id in songs
    ensures OwnedCount(songs, songs[id].owner) >= 1
  {
    var mine := OwnedIds(songs, songs[id].owner);
    assert id in mine;
    assert mine == (mine - {id}) + {id};
  }

  /** What the worker cannot see: the language models, the music model and the file system. */
  datatype Oracles = Oracles(
    chat: ChatModel,
    local: LocalModel,
    localLoad: Option<string>,                  // what loading the local language model raises, if anything
    musicLoad: MusicLoad,
    music: MusicModel,
    storeAudio: (AudioData, string) -> Option<string>)  // writing the audio under a file name: the error raised, if any

  /** The text of the `DoesNotExist` raised for an unknown song id. */
  const SongNotFound: string := "Song matching query does not exist."

  /**
   * The text of the `TypeError` raised when moving a reply's missing file: `shutil.move`
   * hands the `None` source to `os.rename`, and this is CPython's message for it.
   */
  const NoAudioFile: string := "rename: src should be string, bytes or os.PathLike, not NoneType"

  /** The lyrics the worker uses: the song's own, or those the cached generator produces. */
  function LyricsStage(cached: Option<LyricsGenerator>, settings: Settings, song: Song, owner: User, o: Oracles): (r: Result<string>)
    requires cached.Some? ==> Constructible(cached.value)
    ensures !NeedsLyrics(song.lyrics) ==> r == Ok(song.lyrics)
  {
    if !NeedsLyrics(song.lyrics) then Ok(song.lyrics)
    else
      var g := CachedLyricsGeneratorByConfig(cached, settings, OwnerApiKey(owner), None, None, None, o.localLoad);
      if g.Err? then Err(g.error)
      else Generate(g.value, settings, LyricsPrompt(song.genre, song.mood, song.title, song.description), 500, o.chat, o.local)
  }

  /** The lyrics generator cached once the lyrics stage has run. */
  function LyricsCacheAfter(cached: Option<LyricsGenerator>, settings: Settings, song: Song, owner: User, o: Oracles): Option<LyricsGenerator>
    requires cached.Some? ==> Constructible(cached.value)
  {
    if !NeedsLyrics(song.lyrics) then cached
    else
      var g := CachedLyricsGeneratorByConfig(cached, settings, OwnerApiKey(owner), None, None, None, o.localLoad);
      if g.Ok? then Some(g.value) else cached
  }

  /** The music generator `get_music_generator` hands out: the cached one, or a new one. */
  function CachedMusicGenerator(cached: Option<MusicGenerator>, load: MusicLoad): Result<MusicGenerator> {
    if cached.Some? then Ok(cached.value) else NewMusicGenerator(load)
  }

  /** The audio and the measured duration, from either shape of reply. */
  function Delivered(reply: MusicReply): (Option<AudioData>, Option<real>) {
    match reply
    case Dict(file, duration) => (file, duration)
    case Bare(audio) => (Some(audio), None)
  }

  /**
   * The song once its audio is stored under `filename`: completed, and given the measured
   * duration only when that is truthy and the song had none.
   */
  function CompletedSong(s: Song, filename: string, actual: Option<real>): (r: Song)
    ensures r.status == Completed && r.audioFile == Some("songs/" + filename)
    ensures actual.Some? && actual.value != 0.0 && s.duration == 0 ==> r.duration == PyInt(actual.value)
    ensures !(actual.Some? && actual.value != 0.0 && s.duration == 0) ==> r.duration == s.duration
    ensures r.(audioFile := s.audioFile, status := s.status, duration := s.duration) == s
  {
    var d := if actual.Some? && actual.value != 0.0 && s.duration == 0 then PyInt(actual.value) else s.duration;
    s.(audioFile := Some("songs/" + filename), status := Completed, duration := d)
  }

  /** The song as the `except` block stores it. */
  function FailedSong(s: Song, error: string): (r: Song)
    ensures r.status == Failed && r.errorMessage == error
    ensures r.(status := s.status, errorMessage := s.errorMessage) == s
  {
    s.(status := Failed, errorMessage := error)
  }

  /** How a run of the song worker ends: it returns, or it raises an error with this text. */
  datatype RunOutcome = Succeeded | Raised(error: string)

  /**
   * The part of a run after the lyrics are saved: music generation, naming and storing the
   * audio, completion. `s` is the song as stored so far and its owner has `owned` songs.
   */
  function MusicStage(s: Song, owner: User, owned: nat, musicCache: Option<MusicGenerator>, o: Oracles): (Song, RunOutcome) {
    var mg := CachedMusicGenerator(musicCache, o.musicLoad);
    if mg.Err? then (FailedSong(s, mg.error), Raised(mg.error))
    else
      var reply := MusicGenerate(mg.value, s.lyrics, s.genre, s.mood, DurationParam(s.duration), s.description, o.music);
      if reply.Err? then (FailedSong(s, reply.error), Raised(reply.error))
      else
        var (audio, actual) := Delivered(reply.value);
        var filename := FileName(owner.username, owned, s.title);
        var stored := if audio.None? then Some(NoAudioFile) else o.storeAudio(audio.value, filename);
        if stored.Some? then (FailedSong(s, stored.value), Raised(stored.value))
        else (CompletedSong(s, filename, actual), Succeeded)
  }

  /**
   * The music stage ends completed exactly when it succeeds, failed with the error's text
   * otherwise, and changes nothing but the status, the error, the audio file and a missing duration.
   */
  lemma MusicStageEffects(s: Song, owner: User, owned: nat, musicCache: Option<MusicGenerator>, o: Oracles)
    ensures var r := MusicStage(s, owner, owned, musicCache, o);
            && (r.1.Succeeded? <==> r.0.status == Completed)
            && (r.1.Raised? ==> r.0.status == Failed && r.0.errorMessage == r.1.error)
            && (r.1.Succeeded? ==> r.0.audioFile == Some("songs/" + FileName(owner.username, owned, s.title)))
            && r.0.(status := s.status, errorMessage := s.errorMessage, audioFile := s.audioFile, duration := s.duration) == s
            && (r.0.duration != s.duration ==> r.1.Succeeded? && s.duration == 0)
  {
    var r := MusicStage(s, owner, owned, musicCache, o);
    var mg := CachedMusicGenerator(musicCache, o.musicLoad);
    if mg.Err? {
      assert r == (FailedSong(s, mg.error), Raised(mg.error));
    } else {
      var reply := MusicGenerate(mg.value, s.lyrics, s.genre, s.mood, DurationParam(s.duration), s.description, o.music);
      if reply.Err? {
        assert r == (FailedSong(s, reply.error), Raised(reply.error));
      } else {
        var (audio, actual) := Delivered(reply.value);
        var filename := FileName(owner.username, owned, s.title);
        var stored := if audio.None? then Some(NoAudioFile) else o.storeAudio(audio.value, filename);
        if stored.Some? {
          assert r == (FailedSong(s, stored.value), Raised(stored.value));
        } else {
          assert r == (CompletedSong(s, filename, actual), Succeeded);
        }
      }
    }
  }

  /** The music generator cached after the music stage. */
  function MusicCacheAfter(musicCache: Option<MusicGenerator>, load: MusicLoad): Option<MusicGenerator> {
    var mg := CachedMusicGenerator(musicCache, load);
    if mg.Ok? then Some(mg.value) else musicCache
  }

  /**
   * One run of `_generate_song_worker` on a stored song whose owner has `owned` songs, from
   * the given caches: the song as finally stored, and how the run ends.
   */
  function SongRun(song: Song, owner: User, owned: nat, lyricsCache: Option<LyricsGenerator>,
                   musicCache: Option<MusicGenerator>, settings: Settings, o: Oracles): (Song, RunOutcome)
    requires lyricsCache.Some? ==> Constructible(lyricsCache.value)
  {
    var s0 := song.(status := Generating);
    var lyrics := LyricsStage(lyricsCache, settings, song, owner, o);
    if lyrics.Err? then (FailedSong(s0, lyrics.error), Raised(lyrics.error))
    else MusicStage(s0.(lyrics := lyrics.value), owner, owned, musicCache, o)
  }

  /**
   * What a run promises: completed exactly when it returns, failed with the error's text when
   * it raises, the user's own lyrics kept, the audio stored as `songs/<file name>`, and nothing
   * changed but the status, the lyrics, the error, the audio file and a missing duration.
   */
  lemma SongRunEffects(song: Song, owner: User, owned: nat, lyricsCache: Option<LyricsGenerator>,
                       musicCache: Option<MusicGenerator>, settings: Settings, o: Oracles)
    requires lyricsCache.Some? ==> Constructible(lyricsCache.value)
    ensures var r := SongRun(song, owner, owned, lyricsCache, musicCache, settings, o);
            && (r.1.Succeeded? <==> r.0.status == Completed)
            && (r.1.Raised? ==> r.0.status == Failed && r.0.errorMessage == r.1.error)
            && (r.1.Succeeded? ==> r.0.audioFile == Some("songs/" + FileName(owner.username, owned, song.title)))
            && (!NeedsLyrics(song.lyrics) ==> r.0.lyrics == song.lyrics)
            && (NeedsLyrics(song.lyrics) && r.1.Succeeded? ==> LyricsStage(lyricsCache, settings, song, owner, o) == Ok(r.0.lyrics))
            && r.0.(status := song.status, lyrics := song.lyrics, errorMessage := song.errorMessage,
                    audioFile := song.audioFile, duration := song.duration) == song
            && (r.0.duration != song.duration ==> r.1.Succeeded? && song.duration == 0)
  {
    var lyrics := LyricsStage(lyricsCache, settings, song, owner, o);
    if lyrics.Ok? {
      MusicStageEffects(song.(status := Generating, lyrics := lyrics.value), owner, owned, musicCache, o);
    }
  }

  /**
   * The music stage of `_generate_song_worker` on the stored song `songId`, with its own
   * `except` block: an error marks the song failed with the error's text.
   */
  method RunMusicStage(db: Database, cache: GeneratorCache, songId: SongId, owner: User, o: Oracles)
    returns (r: RunOutcome)
    requires db.Valid() && cache.Valid() && songId in db.songs && owner == db.users[db.songs[songId].owner]
    modifies db, cache
    ensures db.Valid() && cache.Valid()
    ensures var song := old(db.songs)[songId];
            var run := MusicStage(song, owner, OwnedCount(old(db.songs), song.owner), old(cache.musicGenerator), o);
            db.songs == old(db.songs)[songId := run.0] && r == run.1
    ensures cache.musicGenerator == MusicCacheAfter(old(cache.musicGenerator), o.musicLoad)
    ensures cache.lyricsGenerator == old(cache.lyricsGenerator)
    ensures db.users == old(db.users) && db.preferences == old(db.preferences)
    ensures db.votes == old(db.votes) && db.playlists == old(db.playlists)
  {
    var song := db.songs[songId];
    var mg := cache.GetMusicGenerator(o.musicLoad);
    if mg.Err? {
      db.SaveSong(songId, FailedSong(song, mg.error));
      return Raised(mg.error);
    }
    var reply := MusicGenerate(mg.value, song.lyrics, song.genre, song.mood, DurationParam(song.duration), song.description, o.music);
    if reply.Err? {
      db.SaveSong(songId, FailedSong(song, reply.error));
      return Raised(reply.error);
    }
    var (audio, actual) := Delivered(reply.value);
    var filename := FileName(owner.username, OwnedCount(db.songs, song.owner), song.title);
    var stored := if audio.None? then Some(NoAudioFile) else o.storeAudio(audio.value, filename);
    if stored.Some? {
      db.SaveSong(songId, FailedSong(song, stored.value));
      return Raised(stored.value);
    }
    db.SaveSong(songId, CompletedSong(song, filename, actual));
    r := Succeeded;
  }

  /** The lyrics stage of `_generate_song_worker`: the song's own lyrics, or generated ones. */
  method RunLyricsStage(cache: GeneratorCache, settings: Settings, song: Song, owner: User, o: Oracles)
    returns (lyrics: Result<string>)
    requires cache.Valid()
    modifies cache
    ensures cache.Valid()
    ensures lyrics == LyricsStage(old(cache.lyricsGenerator), settings, song, owner, o)
    ensures cache.lyricsGenerator == LyricsCacheAfter(old(cache.lyricsGenerator), settings, song, owner, o)
    ensures cache.musicGenerator == old(cache.musicGenerator)
  {
    lyrics := Ok(song.lyrics);
    if NeedsLyrics(song.lyrics) {
      var g := cache.GetLyricsGenerator(settings, OwnerApiKey(owner), None, None, None, o.localLoad);
      if g.Err? {
        lyrics := Err(g.error);
      } else {
        lyrics := Generate(g.value, settings, LyricsPrompt(song.genre, song.mood, song.title, song.description), 500, o.chat, o.local);
      }
    }
  }

  /**
   * The rest of `_generate_song_worker` once the lyrics stage has given `lyrics`: the song is
   * marked failed with the stage's error, or saved with its lyrics and handed to the music stage.
   */
  method FinishRun(db: Database, cache: GeneratorCache, songId: SongId, owner: User, lyrics: Result<string>, o: Oracles)
    returns (r: RunOutcome)
    requires db.Valid() && cache.Valid() && songId in db.songs && owner == db.users[db.songs[songId].owner]
    modifies db, cache
    ensures db.Valid() && cache.Valid()
    ensures var s0 := old(db.songs)[songId].(status := Generating);
            var run := if lyrics.Err? then (FailedSong(s0, lyrics.error), Raised(lyrics.error))
                       else MusicStage(s0.(lyrics := lyrics.value), owner, OwnedCount(old(db.songs), s0.owner),
                                       old(cache.musicGenerator), o);
            db.songs == old(db.songs)[songId := run.0] && r == run.1
    ensures cache.musicGenerator == (if lyrics.Err? then old(cache.musicGenerator)
                                     else MusicCacheAfter(old(cache.musicGenerator), o.musicLoad))
    ensures cache.lyricsGenerator == old(cache.lyricsGenerator)
    ensures db.users == old(db.users) && db.preferences == old(db.preferences)
    ensures db.votes == old(db.votes) && db.playlists == old(db.playlists)
  {
    var s0 := db.songs[songId].(status := Generating);
    if lyrics.Err? {
      db.SaveSong(songId, FailedSong(s0, lyrics.error));
      return Raised(lyrics.error);
    }
    r := SaveLyricsAndRun(db, cache, songId, owner, lyrics.value, o);
  }

  /** The lyrics are stored on the song being generated, then the music stage runs on it. */
  method SaveLyricsAndRun(db: Database, cache: GeneratorCache, songId: SongId, owner: User, text: string, o: Oracles)
    returns (r: RunOutcome)
    requires db.Valid() && cache.Valid() && songId in db.songs && owner == db.users[db.songs[songId].owner]
    modifies db, cache
    ensures db.Valid() && cache.Valid()
    ensures var s1 := old(db.songs)[songId].(status := Generating).(lyrics := text);
            var run := MusicStage(s1, owner, OwnedCount(old(db.songs), s1.owner), old(cache.musicGenerator), o);
            db.songs == old(db.songs)[songId := run.0] && r == run.1
    ensures cache.musicGenerator == MusicCacheAfter(old(cache.musicGenerator), o.musicLoad)
    ensures cache.lyricsGenerator == old(cache.lyricsGenerator)
    ensures db.users == old(db.users) && db.preferences == old(db.preferences)
    ensures db.votes == old(db.votes) && db.playlists == old(db.playlists)
  {
    var s1 := db.songs[songId].(status := Generating).(lyrics := text);
    db.SaveSong(songId, s1);
    OwnedCountSave(old(db.songs), songId, s1, s1.owner);
    assert db.songs[songId] == s1 && owner == db.users[s1.owner];
    r := RunMusicStage(db, cache, songId, owner, o);
  }

  /**
   * `_generate_song_worker(song_id)`: the song is marked generating, given lyrics if it has
   * none, given music, named and stored, and marked completed; any error on the way marks it
   * failed with the error's text and is raised again.
   */
  method GenerateSongWorker(db: Database, cache: GeneratorCache, settings: Settings, songId: SongId, o: Oracles)
    returns (r: Result<SongId>)
    requires db.Valid() && cache.Valid()
    modifies db, cache
    ensures db.Valid() && cache.Valid()
    ensures songId !in old(db.songs) ==>
              (r == Err(SongNotFound) && db.songs == old(db.songs)
               && cache.lyricsGenerator == old(cache.lyricsGenerator) && cache.musicGenerator == old(cache.musicGenerator))
    ensures songId in old(db.songs) ==>
              var song := old(db.songs)[songId];
              var owner := old(db.users)[song.owner];
              var run := SongRun(song, owner, OwnedCount(old(db.songs), song.owner),
                                 old(cache.lyricsGenerator), old(cache.musicGenerator), settings, o);
              var lyricsOk := LyricsStage(old(cache.lyricsGenerator), settings, song, owner, o).Ok?;
              && db.songs == old(db.songs)[songId := run.0]
              && r == (if run.1.Succeeded? then Ok(songId) else Err(run.1.error))
              && cache.lyricsGenerator == LyricsCacheAfter(old(cache.lyricsGenerator), settings, song, owner, o)
              && cache.musicGenerator == (if lyricsOk then MusicCacheAfter(old(cache.musicGenerator), o.musicLoad)
                                          else old(cache.musicGenerator))
    ensures db.songs.Keys == old(db.songs).Keys
    ensures forall sid | sid in old(db.songs) && sid != songId :: db.songs[sid] == old(db.songs)[sid]
    ensures db.users == old(db.users) && db.preferences == old(db.preferences)
    ensures db.votes == old(db.votes) && db.playlists == old(db.playlists)
  {
    if songId !in db.songs {
      return Err(SongNotFound);
    }
    var song := db.songs[songId];
    var owner := db.users[song.owner];
    var lyrics := RunLyricsStage(cache, settings, song, owner, o);
    var outcome := FinishRun(db, cache, songId, owner, lyrics, o);
    r := if outcome.Succeeded? then Ok(songId) else Err(outcome.error);
  }

  /** The work a queued task stands for: `_generate_song_worker` with its one argument. */
  datatype Job = SongJob(songId: SongId)

  /**
   * The task manager `after` once `generate_song_task(id)` has run over `before`: a running
   * manager that does not hold `song_<id>` appends it to its queue and registry, any other
   * leaves both as they were; with no manager yet, a new one is started holding just that task.
   */
  twostate predicate Queued(before: TM.TaskManager?<Job>, new after: TM.TaskManager?<Job>, settings: Settings, id: SongId)
    reads after
  {
    var task := TM.Task(SongTaskId(id), SongJob(id));
    after != null
    && (before != null ==>
          && after == before
          && after.running == old(before.running) && after.workers == old(before.workers)
          && after.inFlight == old(before.inFlight) && after.maxWorkers == old(before.maxWorkers)
          && (old(before.running) && SongTaskId(id) !in old(before.activeTasks) ==>
                after.taskQueue == old(before.taskQueue) + [task] && after.activeTasks == old(before.activeTasks) + {SongTaskId(id)})
          && (!(old(before.running) && SongTaskId(id) !in old(before.activeTasks)) ==>
                after.taskQueue == old(before.taskQueue) && after.activeTasks == old(before.activeTasks)))
    && (before == null ==>
          && fresh(after) && after.running && after.inFlight == {}
          && after.taskQueue == [task] && after.activeTasks == {SongTaskId(id)}
          && after.maxWorkers == settings.maxConcurrentTasks && after.workers == TM.WorkerNumbers(settings.maxConcurrentTasks))
  }
  /**
   * `generate_song_task(song_id)`: submit the song worker under the id `song_<id>` to the
   * process's task manager; refused exactly when a manager exists that is stopped or already
   * has that id active.
   */
  method GenerateSongTask(runtime: TM.Runtime<Job>, settings: Settings, songId: SongId) returns (ok: bool)
    requires runtime.Valid()
    modifies runtime, runtime.taskManager
    ensures runtime.Valid() && runtime.taskManager != null
    ensures old(runtime.taskManager) != null ==> runtime.taskManager == old(runtime.taskManager)
    ensures ok <==> old(runtime.taskManager) == null
                    || (old(runtime.taskManager.running) && SongTaskId(songId) !in old(runtime.taskManager.activeTasks))
    ensures ok ==> var q := runtime.taskManager.taskQueue;
                   SongTaskId(songId) in runtime.taskManager.activeTasks
                   && |q| > 0 && q[|q| - 1] == TM.Task(SongTaskId(songId), SongJob(songId))
    ensures Queued(old(runtime.taskManager), runtime.taskManager, settings, songId)
  {
    ok := runtime.SubmitBackgroundTask(settings.maxConcurrentTasks, SongTaskId(songId), SongJob(songId));
  }

  /**
   * One pass of a worker thread's loop over a manager of song jobs: take the oldest entry;
   * for a task, run the song worker on it (what it raises is caught and logged) and then, in
   * the `finally`, drop its id from the registry.
   */
  method WorkerStep(m: TM.TaskManager<Job>, db: Database, cache: GeneratorCache, settings: Settings, o: Oracles)
    returns (t: TM.Taken<Job>)
    requires m.Valid() && db.Valid() && cache.Valid()
    modifies m, db, cache
    ensures m.Valid() && db.Valid() && cache.Valid()
    ensures m.running == old(m.running) && m.workers == old(m.workers)
    ensures m.inFlight == old(m.inFlight)
    ensures old(m.running) && old(m.taskQueue) != [] ==> m.taskQueue == old(m.taskQueue)[1..]
    ensures !(old(m.running) && old(m.taskQueue) != []) ==> m.taskQueue == old(m.taskQueue)
    ensures t.Dequeued? ==>
              old(m.running) && old(m.taskQueue) != [] && old(m.taskQueue)[0] == TM.Task(t.id, t.job)
              && m.activeTasks == old(m.activeTasks) - {t.id}
    ensures !t.Dequeued? ==>
              m.activeTasks == old(m.activeTasks) && db.songs == old(db.songs)
              && cache.lyricsGenerator == old(cache.lyricsGenerator) && cache.musicGenerator == old(cache.musicGenerator)
    ensures t.Dequeued? && t.job.songId !in old(db.songs) ==>
              db.songs == old(db.songs)
              && cache.lyricsGenerator == old(cache.lyricsGenerator) && cache.musicGenerator == old(cache.musicGenerator)
    ensures t.Dequeued? && t.job.songId in old(db.songs) ==>
              var song := old(db.songs)[t.job.songId];
              var owner := old(db.users)[song.owner];
              var run := SongRun(song, owner, OwnedCount(old(db.songs), song.owner),
                                 old(cache.lyricsGenerator), old(cache.musicGenerator), settings, o);
              && db.songs == old(db.songs)[t.job.songId := run.0]
              && cache.lyricsGenerator == LyricsCacheAfter(old(cache.lyricsGenerator), settings, song, owner, o)
              && cache.musicGenerator == (if LyricsStage(old(cache.lyricsGenerator), settings, song, owner, o).Ok?
                                          then MusicCacheAfter(old(cache.musicGenerator), o.musicLoad)
                                          else old(cache.musicGenerator))
    ensures t.Dequeued? ==>
              db.songs.Keys == old(db.songs).Keys
              && forall id | id in old(db.songs) && id != t.job.songId :: db.songs[id] == old(db.songs)[id]
    ensures db.users == old(db.users) && db.votes == old(db.votes) && db.playlists == old(db.playlists)
  {
    t := m.Take();
    if t.Dequeued? {
      RunTask(m, db, cache, settings, o, t.id, t.job);
    }
  }

  /** The body of a worker pass for a dequeued task: run it, then, whatever the outcome, drop its id. */
  method RunTask(m: TM.TaskManager<Job>, db: Database, cache: GeneratorCache, settings: Settings, o: Oracles,
                 id: TM.TaskId, job: Job)
    requires m.Valid() && db.Valid() && cache.Valid() && id in m.inFlight
    modifies m, db, cache
    ensures m.Valid() && db.Valid() && cache.Valid()
    ensures m.running == old(m.running) && m.workers == old(m.workers) && m.taskQueue == old(m.taskQueue)
    ensures m.inFlight == old(m.inFlight) - {id} && m.activeTasks == old(m.activeTasks) - {id}
    ensures db.songs.Keys == old(db.songs).Keys
    ensures forall sid | sid in old(db.songs) && sid != job.songId :: db.songs[sid] == old(db.songs)[sid]
    ensures db.users == old(db.users) && db.votes == old(db.votes) && db.playlists == old(db.playlists)
    ensures job.songId !in old(db.songs) ==>
              db.songs == old(db.songs)
              && cache.lyricsGenerator == old(cache.lyricsGenerator) && cache.musicGenerator == old(cache.musicGenerator)
    ensures job.songId in old(db.songs) ==>
              var song := old(db.songs)[job.songId];
              var owner := old(db.users)[song.owner];
              var run := SongRun(song, owner, OwnedCount(old(db.songs), song.owner),
                                 old(cache.lyricsGenerator), old(cache.musicGenerator), settings, o);
              && db.songs == old(db.songs)[job.songId := run.0]
              && cache.lyricsGenerator == LyricsCacheAfter(old(cache.lyricsGenerator), settings, song, owner, o)
              && cache.musicGenerator == (if LyricsStage(old(cache.lyricsGenerator), settings, song, owner, o).Ok?
                                          then MusicCacheAfter(old(cache.musicGenerator), o.musicLoad)
                                          else old(cache.musicGenerator))
  {
    var _ := GenerateSongWorker(db, cache, settings, job.songId, o);
    m.FinishTask(id);
  }

  /** What `_generate_lyrics_worker` returns: `{'status': 'success', ...}` or `{'status': 'error', ...}`. */
  datatype LyricsResult = LyricsSuccess(lyrics: string) | LyricsError(message: string)

  /**
   * `_generate_lyrics_worker(prompt, api_key)` from the given cache: the lyrics the cached
   * generator produces for the prompt with its default length, or any error's text.
   */
  function LyricsOnly(cached: Option<LyricsGenerator>, settings: Settings, prompt: string, apiKey: Option<string>,
                      o: Oracles): (r: LyricsResult)
    requires cached.Some? ==> Constructible(cached.value)
    ensures var cfg := LyricsConfig(settings, apiKey, None, None, None);
            !Constructible(cfg) ==> r == LyricsError("API key required for provider: " + cfg.provider)
  {
    var g := CachedLyricsGeneratorByConfig(cached, settings, apiKey, None, None, None, o.localLoad);
    if g.Err? then LyricsError(g.error)
    else
      var l := Generate(g.value, settings, prompt, 500, o.chat, o.local);
      if l.Ok? then LyricsSuccess(l.value) else LyricsError(l.error)
  }

  /**
   * The lyrics-only task and the song worker's lyrics stage agree: for a song without lyrics,
   * asking for lyrics with the song's prompt and its owner's key gives the same lyrics or the
   * same error.
   */
  lemma LyricsOnlyMatchesStage(cached: Option<LyricsGenerator>, settings: Settings, song: Song, owner: User, o: Oracles)
    requires cached.Some? ==> Constructible(cached.value)
    requires NeedsLyrics(song.lyrics)
    ensures var r := LyricsOnly(cached, settings, LyricsPrompt(song.genre, song.mood, song.title, song.description),
                                OwnerApiKey(owner), o);
            var l := LyricsStage(cached, settings, song, owner, o);
            (r.LyricsSuccess? <==> l.Ok?)
            && (r.LyricsSuccess? ==> l.value == r.lyrics)
            && (r.LyricsError? ==> l.error == r.message)
  {
  }

  /**
   * `generate_lyrics_only_task(prompt, api_key)`: run the lyrics worker at once, through the
   * process's generator cache.
   */
  method GenerateLyricsOnlyTask(cache: GeneratorCache, settings: Settings, prompt: string, apiKey: Option<string>, o: Oracles)
    returns (r: LyricsResult)
    requires cache.Valid()
    modifies cache
    ensures cache.Valid()
    ensures r == LyricsOnly(old(cache.lyricsGenerator), settings, prompt, apiKey, o)
    ensures var g := CachedLyricsGeneratorByConfig(old(cache.lyricsGenerator), settings, apiKey, None, None, None, o.localLoad);
            cache.lyricsGenerator == if g.Ok? then Some(g.value) else old(cache.lyricsGenerator)
    ensures cache.musicGenerator == old(cache.musicGenerator)
  {
    var g := cache.GetLyricsGenerator(settings, apiKey, None, None, None, o.localLoad);
    if g.Err? {
      return LyricsError(g.error);
    }
    var l := Generate(g.value, settings, prompt, 500, o.chat, o.local);
    r := if l.Ok? then LyricsSuccess(l.value) else LyricsError(l.error);
  }
}

# Retro cassette music: a verified model of the generation pipeline, the song API and the browser client

This project models the core of a song-generation web application. Users register, optionally store their own language-model API key, and create songs. A background pipeline writes lyrics for songs that have none, asks a music model for audio, names and stores the file, and marks the song completed or failed. Owners publish their finished songs. Anyone plays published songs; signed-in users vote on them and gather songs into playlists. A browser client holds the access token, builds request headers, turns error responses into one message line, and has a settings dialog for the language-model provider.

The model is written in Dafny and keeps the form of each part of the source:

- **Persisted state.** The user, preference, song, vote and playlist tables are one `Store.Database` object. Each table is a map from primary key to a row value. The model methods that change rows are methods of that object: counter increments, `publish` and `unpublish`, and the vote bookkeeping of `Vote.save` and `Vote.delete`. Every method keeps the invariant `Valid()`: foreign keys point at existing rows, and each song's `upvotes` and `downvotes` equal the number of its up and down votes.
- **Task manager.** The process-wide manager is a class with its queue, its registry of active task ids, its `running` flag and its worker list. Each worker action is one atomic step. The invariant says every active id is either waiting in the queue or being run, never both, and no id waits twice.
- **Pipeline.** The song worker is a method on the database and the generator cache. It is proved against a pure function, `Tasks.SongRun`, whose properties are lemmas. The language models, the music model and the file system are oracles: functions from the request to the reply or to the text of the exception raised.
- **Serializers and views.** These are functions from the stored state and the JSON request body to validated data or field errors. Views that change state are methods whose postconditions give the HTTP response and the new state.
- **Browser client.** The `Api` object is a class holding the token. The settings dialog is a set of pure functions on the form's values.

## Model

| member | source | states |
|---|---|---|
| Accounts.NewUser | apps/accounts/models.py:9-25 | a new user has the given username and email, an empty bio, no API key, `use_own_api_key` false and both song counters at 0 |
| Accounts.NewPreferences | apps/accounts/models.py:44-56 | new preferences have an empty genre, a 30-second duration, the `classic` theme and auto-play off |
| Songs.NewSong | apps/songs/models.py:49-82 | a created song has the given fields and the model defaults: status generating, no audio, no error, private, unpublished, no plays, no votes |
| Songs.VoteSaved | apps/songs/models.py:143-161 | saving a vote takes the stored vote's type off the counters if the vote existed, then adds the new type; nothing but the two counters changes |
| Songs.VoteDeleted | apps/songs/models.py:163-170 | deleting a vote takes its type off the matching counter; nothing else changes |
| Songs.ResaveEffects | apps/songs/models.py:143-161 | re-saving a vote with its own type changes nothing; switching moves one count (score -2 for up to down); a new vote moves the score by one |
| Songs.DeleteUndoesSave | apps/songs/models.py:143-170 | deleting a freshly saved vote restores the song exactly |
| Songs.TallyEmpty | apps/songs/models.py:121-138 | with no votes, every tally is zero |
| Songs.VoteSetPut | apps/songs/models.py:134-135 | casting the vote under one (user, song) key leaves every other key's vote where it was |
| Songs.TallyPut | apps/songs/models.py:134-135 | the tally after casting or replacing a vote is the tally without that key plus the new vote's weight |
| Songs.TallyRemove | apps/songs/models.py:134-135 | a tally is the tally without one key plus that key's weight |
| Songs.TallySplit | apps/songs/models.py:124-131 | every vote on a song counts exactly once, as up or as down |
| Songs.VoteSaveKeepsCounters | apps/songs/models.py:143-161 | `Vote.save`'s arithmetic keeps every song's counters equal to its vote tallies, for a new or a replaced vote |
| Songs.VoteDeleteKeepsCounters | apps/songs/models.py:163-170 | `Vote.delete`'s arithmetic keeps every song's counters equal to its vote tallies |
| Songs.UserVote | apps/songs/serializers.py:32-38 | `user_vote` is present exactly when the requester is signed in and has voted, and is then that vote's type |
| Store.VotesWithout | apps/songs/models.py:130 | the votes left after a song is deleted (cascade) are exactly those on other songs, unchanged |
| Store.PlaylistsWithout | apps/songs/models.py:179 | every playlist keeps its identity and loses only the deleted song |
| Store.TallyWithout | apps/songs/models.py:130 | deleting one song's votes leaves every other song's tallies unchanged |
| Store.TallyUnvoted | apps/songs/models.py:76-78 | a song no vote refers to has zero tallies, matching its initial counters |
| Store.Database.constructor | apps/songs/models.py:121-189 | the empty database is valid |
| Store.Database.CreateUser | apps/accounts/serializers.py:28-32 | `create_user` stores the user with the model defaults and the normalized email under a fresh id; a username or normalized email already stored is refused (the unique columns) and changes nothing; uniqueness of both is kept; no other table changes |
| Accounts.NormalizeEmail | apps/accounts/serializers.py:28-32 | `create_user` normalizes the address: one without `@` once stripped is kept as given; otherwise the result has the stripped length and still holds an `@` |
| Accounts.NormalizeEmailParts | apps/accounts/serializers.py:28-32 | a stripped address is split at its last `@`: the local part is kept and the domain lower-cased |
| Accounts.DomainCaseIgnored | apps/accounts/serializers.py:28-32 | addresses whose domains differ only in letter case are stored alike |
| Accounts.NormalizeEmailIdempotent | apps/accounts/serializers.py:28-32 | normalizing a stripped address twice is normalizing it once |
| Accounts.LowerAscii | apps/accounts/serializers.py:28-32 | the domain's lower-casing: each ASCII capital becomes its small letter, every other character is kept |
| Accounts.LowerAsciiIdempotent | apps/accounts/serializers.py:28-32 | lower-casing twice is lower-casing once |
| Accounts.LastIndex | apps/accounts/serializers.py:28-32 | the split point `rsplit("@", 1)` uses: none exactly when there is no `@`, else an `@` with none after it |
| Store.Database.CreatePreferences | apps/accounts/serializers.py:34 | the preferences are created exactly when the user has none (one-to-one key), with the defaults |
| Store.Database.SaveUser | apps/accounts/serializers.py:81 | the user row is replaced; nothing else changes |
| Store.Database.IncrementSongCount | apps/accounts/models.py:33-36 | `total_songs_created` goes up by one; nothing else changes |
| Store.Database.IncrementPublishedCount | apps/accounts/models.py:38-41 | `total_songs_published` goes up by one; nothing else changes |
| Store.Database.CreateSong | apps/songs/serializers.py:61 | a new song under a fresh id, with the model defaults; the counters still match the (absent) votes |
| Store.Database.SaveSong | apps/generation/tasks.py:119-127 | a song's own fields are replaced (owner and vote counters kept); nothing else changes |
| Store.Database.IncrementPlayCount | apps/songs/models.py:101-104 | `play_count` goes up by one; nothing else changes |
| Store.Database.Publish | apps/songs/models.py:106-112 | the song becomes public and stamped with the time, and the owner's published count rises by one, even when the song was already public |
| Store.Database.Unpublish | apps/songs/models.py:114-118 | the song becomes private and unstamped; the owner's published count is not lowered |
| Store.Database.SaveVote | apps/songs/models.py:143-161 | the vote is stored under (user, song), the counters follow `Vote.save`, and the invariant holds |
| Store.Database.DeleteVote | apps/songs/models.py:163-170 | the vote is removed, the counters follow `Vote.delete`, and the invariant holds |
| Store.Database.DeleteSong | apps/songs/views.py:61 | the song goes, its votes cascade away, and it leaves every playlist; the other songs' counters still match |
| Store.Database.CreatePlaylist | apps/songs/serializers.py:109-115 | a new playlist under a fresh id, with the given members; nothing else changes |
| Store.Database.SavePlaylist | apps/songs/serializers.py:117-126 | the playlist row is replaced, owner kept; nothing else changes |
| Forms.FieldOf | apps/songs/serializers.py:41-54 | a body field is absent, `null` or given, exactly as the JSON lookup finds it |
| Forms.LengthErrors | apps/accounts/serializers.py:14-15 | no length message exactly when the trimmed value is within the declared minimum and maximum |
| Forms.CharacterErrors | apps/songs/serializers.py:44-46 | the null-character validator every `CharField` adds gives its one message exactly when the value holds a null character |
| Forms.TextErrors | apps/songs/serializers.py:44-46 | a non-blank text value has no message exactly when the model validators, the length validators and the null-character validator all pass |
| Forms.TextValue | apps/songs/serializers.py:44-46 | a text value is trimmed; a blank one is accepted only where blanks are allowed; otherwise it is accepted exactly when the model validators, the length validators and the null-character validator give no message, and a refused one carries all their messages in that order |
| Forms.TextField | apps/songs/serializers.py:44-46 | a `CharField` reads strings and numbers, refuses other values and `null`, and needs the field when it is required; an accepted non-blank value passes every validator and holds no null character |
| Forms.ChoiceField | apps/songs/models.py:58-59 | a choice field accepts only its choices (or an empty string where blanks are allowed), untrimmed |
| Forms.IntegerField | apps/songs/serializers.py:47 | an integer field reads numbers and digit strings, admits `null` only where allowed, and an accepted value is within its bounds |
| Forms.BooleanField | apps/songs/models.py:72 | a boolean field reads booleans, 0/1 and the strings DRF recognises, and an accepted value is true exactly for the true spellings |
| Forms.ErrorsOf | apps/songs/serializers.py:41-54 | a field contributes an error entry exactly when it is invalid, carrying its messages |
| Forms.ErrorsJson | apps/songs/views.py:72 | the 400 body maps each failing field, in order, to its list of messages |
| Forms.BlankRefused | apps/accounts/serializers.py:14-15 | a whitespace-only value never passes a field that refuses blanks |
| Forms.TextValueIdempotent | apps/songs/serializers.py:44-46 | a clean text value validates again to itself |
| AccountSerializers.ValidateRegistration | apps/accounts/serializers.py:11-24 | refused exactly when a field has errors or the two passwords differ; the errors are the four fields' in field order, or else the one mismatch error; an accepted registration has all four fields sent; its username and email are trimmed, non-blank, within 150 and 254 characters and not taken as given; its password is 8+ characters and equal to the confirmation; a short password or confirmation is refused |
| AccountSerializers.MismatchRejected | apps/accounts/serializers.py:21-24 | two passwords that pass their own checks but differ give exactly the "Passwords do not match." non-field error |
| AccountSerializers.FieldsPassed | apps/accounts/serializers.py:11-19 | four fields without errors were all sent and each holds its trimmed text |
| AccountSerializers.CaseVariantEmailPassesCheck | apps/accounts/serializers.py:11-35 | an address differing from a stored one only in its domain's letter case passes the uniqueness check, yet normalizes to the stored address |
| Accounts.NewAccountKeepsUnique | apps/accounts/models.py:12 | adding an account whose username and email are free keeps both unique |
| AccountSerializers.RegistrationKeepsUnique | apps/accounts/serializers.py:11-35 | a registration that validates and whose normalized email is free keeps usernames and email addresses unique once stored |
| AccountSerializers.Register | apps/accounts/serializers.py:26-35 | a refused body gives its errors and changes nothing; an accepted one whose normalized email is already stored fails in the database (a 500) and changes nothing; otherwise the user is added with the normalized email and the model defaults, with exactly one default preferences record; uniqueness of usernames and emails is kept |
| AccountSerializers.UpdateApiKey | apps/accounts/serializers.py:62-82 | refused exactly when a field is invalid; no key sent leaves the user unchanged whatever `use_own_api_key` says; a non-empty key is stored with `use_own_api_key` set; an empty key clears both; nothing else changes |
| AccountSerializers.UpdateKeepsKeyFlag | apps/accounts/serializers.py:71-82 | after an accepted update the user uses their own key exactly when one is stored, if that held before |
| AccountSerializers.ApiKeyView | apps/accounts/views.py:96-115 | anonymous gives 401; an invalid body gives 400 and changes nothing; otherwise the user is saved and the reply carries the new `use_own_api_key` |
| AccountSerializers.ProfileJson | apps/accounts/serializers.py:38-48 | a profile shows exactly the id, username, email, bio, avatar and the two song counters |
| AccountSerializers.ProfileHidesKeys | apps/accounts/serializers.py:43-47 | a profile never shows `openai_api_key`, `llm_api_key`, `use_own_api_key` or `llm_provider` |
| SongSerializers.ValidateSongCreate | apps/songs/serializers.py:41-63 | refused exactly when a field has errors, and then with the six fields' errors in field order; an accepted creation has a non-blank title of at most 200 characters; sent lyrics, description and mood are taken trimmed, absent ones become empty; genre is a genre choice, the one sent or `pop` when absent; duration defaults to 30, admits `null`, and has no bounds; no title or a `null` lyrics is refused |
| SongSerializers.CreateIgnoresOtherKeys | apps/songs/serializers.py:51-54 | a key outside the creation fields (such as `status` or `upvotes`) has no effect |
| SongSerializers.SaveNewSong | apps/songs/serializers.py:56-63 | a draft with a duration becomes a new song with the model defaults and raises the owner's created count by one; a `null` duration fails in the database and changes nothing |
| SongSerializers.SongJson | apps/songs/serializers.py:9-38 | the representation holds the owner's profile under `user`, the score, the given `user_vote`, the audio file's media URL under `audio_file` and `null` under `cover_image` |
| SongSerializers.FileUrl | apps/songs/serializers.py:19-21 | a file field shows `null` for no file or an empty name, otherwise `/media/` (`MEDIA_URL`, config/settings.py:118) followed by the name in URI form (backslashes as slashes, percent-quoted, leading slashes dropped), so only URL-safe characters and `%` escapes follow the media URL |
| SongSerializers.FilePathToUri | apps/songs/serializers.py:19-21 | the stored name's URI form holds only URL-safe characters and `%`, and is the quoted name when there is no backslash |
| SongSerializers.StripLeadingSlashes | apps/songs/serializers.py:19-21 | the name without its leading slashes starts with none, keeps a name that has none, and adds no unsafe character |
| SongSerializers.FileUrlQuotes | apps/songs/serializers.py:19-21 | a name without backslashes or a leading slash is shown as `/media/` followed by the name percent-quoted |
| Text.UrlSafe | apps/songs/serializers.py:19-21 | the characters left as they are in a file URL: ASCII letters and digits and `_.-~/!*()'` |
| Text.Utf8 | apps/songs/serializers.py:19-21 | a character's UTF-8 encoding has one to four bytes, below 256, a single byte exactly for ASCII, holding the character itself |
| Text.QuoteChar | apps/songs/serializers.py:19-21 | a safe character is kept; any other becomes `%`-escapes of its bytes |
| Text.Quote | apps/songs/serializers.py:19-21 | the quoted name holds only URL-safe characters and `%` (so no space), is never shorter, and a name of safe characters is kept as it is |
| Text.QuoteAppend | apps/songs/serializers.py:19-21 | quoting distributes over concatenation |
| Text.QuoteAsciiRoundTrip | apps/songs/serializers.py:19-21 | an ASCII name reads back from its quoted form, so quoting loses nothing |
| Text.QuoteDash | apps/generation/tasks.py:89 | the file name's separator ` - ` is quoted as `%20-%20` |
| SongViews.WorkerAudioUrl | apps/generation/tasks.py:89-120 | a generated song's file is shown as `/media/songs/` + the quoted user name + `%20-%20` + the two-digit number + `%20-%20` + the quoted safe title + `.mp3` |
| SongSerializers.SongJsonFor | apps/songs/serializers.py:32-38 | `user_vote` is the requester's vote type when they have voted, and `null` when anonymous or not voted |
| SongSerializers.SongJsonHidesOwnerKey | apps/songs/serializers.py:12 | a song's representation never shows its owner's key or key flag |
| SongSerializers.PatchOf | apps/songs/models.py:53-60 | an accepted patched duration is a number, never `null` |
| SongSerializers.PatchErrors | apps/songs/serializers.py:9-30 | an update has no errors exactly when no writable field is invalid |
| SongSerializers.Patched | apps/songs/serializers.py:26-30 | patching keeps every read-only field and the visibility |
| SongSerializers.ValidateSongUpdate | apps/songs/serializers.py:9-30 | refused exactly when some writable field is invalid, with exactly those fields' errors; an accepted update is the song patched with the sent fields, keeping the read-only fields and `is_public`; a full update without title or lyrics is refused |
| SongSerializers.UpdateKeepsUnsent | apps/songs/serializers.py:9-30 | every writable field that was not sent keeps its value |
| SongSerializers.UpdateTakesSentText | apps/songs/models.py:53-55 | a sent title, lyrics or description is stored trimmed; title and lyrics are non-blank and the title is at most 200 characters |
| SongSerializers.UpdateTakesSentChoices | apps/songs/models.py:58-59 | a sent genre is a genre choice; a sent mood is a mood choice or blank |
| SongSerializers.UpdateTakesSentDuration | apps/songs/models.py:60 | a sent duration is stored only between 10 and 180 |
| SongSerializers.UpdateIgnoresOtherKeys | apps/songs/serializers.py:18-30 | a key outside the writable fields has no effect on an update |
| SongSerializers.ValidateSongUpdateAsWritten | apps/songs/serializers.py:26-30 | as written, `is_public` is writable; apart from it the update equals the corrected one, and it is refused whenever that one is |
| SongSerializers.PatchPublishesUnfinishedSong | apps/songs/serializers.py:26-30 | as written, `PATCH {"is_public": true}` publishes a song that is still generating, with no `published_at` |
| SongSerializers.UpdateNeverPublishes | apps/songs/views.py:101-106 | the corrected update never changes `is_public`, `published_at` or the status |
| SongSerializers.UpsertVote | apps/songs/serializers.py:74-86 | afterwards the (user, song) pair has exactly the requested vote, and the song's counters equal its tallies |
| SongSerializers.PkOf | apps/songs/serializers.py:94-99 | an accepted item is the key of an existing song (of any owner); an unknown number gives the invalid-pk message |
| SongSerializers.PksOf | apps/songs/serializers.py:94-99 | all items accepted in order, or the message of the first item refused |
| SongSerializers.SongIdsField | apps/songs/serializers.py:94-99 | `song_ids` is skipped exactly when absent; accepted ids all name existing songs |
| SongSerializers.PlaylistErrors | apps/songs/serializers.py:89-107 | a playlist body has no errors exactly when every field is valid |
| SongSerializers.ValidatePlaylist | apps/songs/serializers.py:89-107 | refused exactly when a field has errors, and then with the four fields' errors in field order; a full body needs a name; each accepted field is present exactly when sent; an accepted name or description is the sent text trimmed, the name non-blank and at most 200 characters; `song_ids` is what the primary-key list field gives and names existing songs; `is_public` is what the boolean field reads |
| SongSerializers.Members | apps/songs/serializers.py:114 | `songs.set(ids)` leaves exactly the listed songs |
| SongSerializers.NewPlaylist | apps/songs/serializers.py:109-115 | the new playlist has the owner, name, description (empty by default), visibility (private by default) and exactly the sent songs |
| SongSerializers.UpdatedPlaylist | apps/songs/serializers.py:117-126 | every sent field is set; the songs are replaced by exactly `song_ids` when sent, even when empty, and kept otherwise; the owner never changes |
| SongSerializers.EmptySongIdsOnCreate | apps/songs/serializers.py:110-114 | on creation, an empty `song_ids` and an absent one give the same playlist |
| SongSerializers.CreatePlaylist | apps/songs/views.py:208-215 | a refused body changes nothing; an accepted one adds the validated playlist under a fresh id |
| SongSerializers.UpdatePlaylist | apps/songs/views.py:218-225 | a refused body changes nothing; an accepted one stores the updated playlist |
| SongViews.SongList | apps/songs/views.py:31-42 | `my_songs` lists exactly the requester's songs, whatever their status, and needs a signed-in requester; otherwise everyone gets exactly the public completed songs |
| SongViews.ListResponse | apps/songs/views.py:39-42 | 401 exactly for `my_songs` without a requester, else 200 |
| SongViews.ListedAreVisible | apps/songs/views.py:31-55 | every song either listing shows is one the detail view lets the requester open |
| SongViews.RetrieveSong | apps/songs/views.py:45-55 | anonymous gives 401; a song neither owned nor public gives 404; otherwise 200 with the requester's vote |
| SongViews.DestroySong | apps/songs/views.py:57-61 | only the owner's song is deleted (204), with its votes and playlist memberships; another user's public song raises a 500 and nothing changes |
| SongViews.NonOwnerMayUpdatePublicSong | apps/songs/views.py:51-55 | as written, another user's public song is updatable, and a `{"title": ...}` patch is accepted |
| SongViews.MayUpdateNarrows | apps/songs/views.py:57-61 | the owner-only rule keeps every owner's right and removes only non-owners' rights to public songs |
| SongViews.UpdateSong | apps/songs/views.py:45-61 | 401 / 404 as for reading; 403 for a visible song of another user; 400 with the validation errors; the owner's song takes exactly the validated update and the answer is 200 with the updated song's representation for the requester; other users' songs never change |
| SongViews.CreateSongView | apps/songs/views.py:64-82 | with generation submitted by a direct call: anonymous gives 401; an invalid body gives 400; a `null` duration gives 500; every non-201 answer leaves songs, users and the task manager unchanged; otherwise exactly one new song from the draft, the owner's created count +1, a 201 with its representation, and `song_<id>` submitted to the task manager |
| SongViews.SaveAndQueue | apps/songs/views.py:73-82 | a saved draft is added under a fresh id with the owner's count +1, its generation task is appended to a running manager's queue and registry (or starts a new manager), and the answer is 201 with the new song's representation; a `null` duration gives 500 and changes neither the database nor the task manager |
| SongViews.CreateSongViewAsWritten | apps/songs/views.py:64-82 | as written: anonymous gives 401 and an invalid body 400; an accepted one is saved, with the owner's count raised, and then the view answers 500 with nothing queued |
| SongViews.SaveAndRaise | apps/songs/views.py:73-77 | as written after validation: the draft is saved under a fresh id and the owner's count raised, or a `null` duration changes nothing; the answer is 500 either way |
| SongViews.CountedCreation | apps/accounts/models.py:33-36 | the owner's created count rises by one and every other user is kept |
| SongViews.Drafted | apps/songs/serializers.py:56-63 | the song a draft is saved as has the draft's owner, title and lyrics, and is generating and private |
| SongViews.CreatedWithoutLyricsGetsThem | apps/generation/tasks.py:40 | a song created without lyrics, or with blank ones, is one the pipeline writes lyrics for |
| SongViews.ActionOf | apps/songs/views.py:99 | the action defaults to `publish` when absent, else is the string sent |
| SongViews.PublishSong | apps/songs/views.py:90-121 | only the owner's song is found (else 404); publishing needs a completed song (else 400) and raises the owner's published count; unpublishing always succeeds and leaves the users unchanged (the published count is not lowered); any other action gives 400; refusals change nothing; the 200 body is exactly the action's message and the song's new representation |
| SongViews.PublishedBody | apps/songs/views.py:118-121 | the publish view's 200 body gives the published or unpublished message under `message` and the song under `song` |
| SongViews.PlayStatusAsWritten | apps/songs/views.py:124-147 | as written (default `IsAuthenticated`), anonymous gives 401; a signed-in requester gets 200 exactly for a public song or their own |
| SongViews.PlayStatus | apps/songs/views.py:127-147 | as the view intends, 200 exactly for a public song, or the signed-in requester's own; else 404 |
| SongViews.AnonymousPlayRefused | config/settings.py:130-132 | an anonymous play of a public song is refused (401) as written and counted (200) as intended |
| SongViews.PlayStatusAgrees | apps/songs/views.py:127-139 | for signed-in requesters the intended and the written view answer alike |
| SongViews.PlaySong | apps/songs/views.py:127-147 | a playable song's count rises by one and the new count is returned; otherwise 404 and nothing changes |
| SongViews.VoteTypeOf | apps/songs/views.py:164-165 | the vote type is exactly `"up"` or `"down"` |
| SongViews.VoteOnSong | apps/songs/views.py:155-186 | only a public song can be voted on (else 404), only up or down (else 400); then the requester's vote is upserted, the counters follow, and the new counters and score are returned |
| SongViews.RemoveVote | apps/songs/views.py:188-205 | the requester's vote, if any, is removed and the counters follow (200); without one, 404 and nothing changes |
| Generator.NewLyricsGenerator | apps/generation/generator.py:19-61 | the constructed generator has the attributes `__init__` assigns; construction fails exactly when a non-local provider has no truthy key (with the "API key required" message) or the local model fails to load |
| Generator.DefaultModels | apps/generation/generator.py:33-40 | OpenAI and custom default to `gpt-3.5-turbo`, Comet to `claude-sonnet-4-5`; local gets none and keeps an empty one |
| Generator.MissingKeyRaises | apps/generation/generator.py:42-61 | an empty key is never replaced by the settings' key, and a provider other than OpenAI and Comet without a key fails |
| Generator.KeyFromSettings | apps/generation/generator.py:43-47 | with no key passed, OpenAI and Comet construct exactly when the settings hold a truthy key |
| Generator.FullLocalPrompt | apps/generation/generator.py:258-259 | the local prompt starts with the system instruction |
| Generator.AcceptHosted | apps/generation/generator.py:137-149 | an HTML page is refused with its message; other text is returned stripped; a missing content fails on `len()` when the `DEBUG` print comes first and on `.strip()` otherwise; accepted text never starts with `<!DOCTYPE` or `<html` |
| Generator.LocalEchoRemoved | apps/generation/generator.py:307-313 | when the local model echoes its prompt and then generates text not containing it, the lyrics are exactly that text, stripped |
| Generator.Generate | apps/generation/generator.py:96-115 | OpenAI, Comet and custom go to their hosted endpoint with their HTML messages, a missing reply failing on `len()` under `DEBUG` for OpenAI and custom (Comet's HTML test strips first); local goes to the local model; any other provider fails |
| Generator.HostedLyricsClean | apps/generation/generator.py:140-149 | lyrics from a hosted provider are already stripped and never an HTML page |
| Generator.NewMusicGenerator | apps/generation/generator.py:326-385 | the music generator loads exactly when either loader succeeds, and uses inference exactly when the first one did |
| Generator.MusicPrompt | apps/generation/generator.py:403-406 | the music prompt is exactly `Genre: <genre>`, then `\nMood: <mood>` when the mood is non-empty, then `\nStyle: <description>` when the description is non-empty, then `\nLyrics: <lyrics>`, in each of the four cases |
| Generator.MusicGenerate | apps/generation/generator.py:387-429 | only the inference path produces audio; the manual fallback always raises "not yet implemented" |
| Generator.CachedLyricsGenerator | apps/generation/generator.py:437-450 | as written, the cached generator is reused whenever no argument is truthy; otherwise a new one is built |
| Generator.CachedGeneratorKeepsOtherUsersKey | apps/generation/generator.py:448 | as written, a call without a key after a call with a user's key gets the generator holding that user's key, not the settings' |
| Generator.CachedLyricsGeneratorByConfig | apps/generation/generator.py:447-450 | corrected: the generator handed out is always the one the arguments describe, and fails only when constructing that one fails |
| Generator.GeneratorCache.constructor | apps/generation/generator.py:433-434 | both caches start empty |
| Generator.GeneratorCache.GetLyricsGenerator | apps/generation/generator.py:437-450 | returns the configuration-keyed generator and caches it when construction succeeds |
| Generator.GeneratorCache.GetMusicGenerator | apps/generation/generator.py:453-458 | the music model is loaded at most once, on the first successful call, and reused afterwards |
| TaskManager.Sentinels | apps/generation/task_manager.py:71-73 | `stop` pushes exactly n sentinels |
| TaskManager.WorkerNumbers | apps/generation/task_manager.py:53-61 | `start` spawns workers numbered 1 to `max_workers` |
| TaskManager.QueuedIdsMember | apps/generation/task_manager.py:140-150 | an id is queued exactly when some queue entry is a task with that id |
| TaskManager.QueueAppend | apps/generation/task_manager.py:150 | appending adds the entry's id (if any) to the queued ids, and counts a sentinel |
| TaskManager.AppendKeepsDistinct | apps/generation/task_manager.py:140-150 | appending a task whose id is not queued keeps the queued ids distinct |
| TaskManager.RemoveHead | apps/generation/task_manager.py:88-92 | taking the head removes its id and no other from the queued ids |
| TaskManager.QueueSizeSplit | apps/generation/task_manager.py:158-160 | the queue consists exactly of its distinct queued tasks and its sentinels |
| TaskManager.TaskManager.constructor | apps/generation/task_manager.py:30-43 | a new manager has an empty queue and registry, `max_workers` from the setting, and is started with its workers |
| TaskManager.TaskManager.Start | apps/generation/task_manager.py:45-63 | starting a running manager does nothing; otherwise it sets `running` and spawns `max_workers` workers; queue and registry unchanged |
| TaskManager.TaskManager.Stop | apps/generation/task_manager.py:65-79 | `running` cleared, one sentinel per worker appended, the workers forgotten; registry and queued tasks kept |
| TaskManager.TaskManager.SubmitTask | apps/generation/task_manager.py:120-156 | accepted exactly when running and the id is not active; then the task goes to the tail of the queue and its id into the registry; otherwise nothing changes |
| TaskManager.TaskManager.Take | apps/generation/task_manager.py:81-104 | not running: the loop exits; empty queue: a timeout; otherwise the oldest entry is taken, a sentinel ends the worker, and a task becomes in flight while staying active |
| TaskManager.TaskManager.FinishTask | apps/generation/task_manager.py:105-109 | whether the task returned or raised, its id leaves the registry |
| TaskManager.TaskManager.GetQueueSize | apps/generation/task_manager.py:158-160 | the queue size counts the waiting tasks and the unconsumed sentinels |
| TaskManager.TaskManager.GetActiveCount | apps/generation/task_manager.py:162-164 | the active count is the waiting tasks plus the tasks being run |
| TaskManager.TaskManager.IsTaskActive | apps/generation/task_manager.py:166-168 | a task is active exactly when it is waiting or being run |
| TaskManager.Runtime.constructor | apps/generation/task_manager.py:171-172 | there is no manager before first use |
| TaskManager.Runtime.GetTaskManager | apps/generation/task_manager.py:175-180 | the existing manager, or on first use a new, running, empty one |
| TaskManager.Runtime.SubmitBackgroundTask | apps/generation/task_manager.py:183-197 | submits to the process's manager, creating it if needed; accepted exactly when there was no manager, or it runs and the id is not active; an accepted task is appended to the existing queue and registry, a refused one changes neither; a manager created here is running and holds just that task |
| Tasks.NeedsLyricsIffBlank | apps/generation/tasks.py:40 | lyrics are generated exactly when the stored ones are empty or all whitespace |
| Tasks.OwnerApiKey | apps/generation/tasks.py:34-37 | the owner's key is passed exactly when they chose to use it and it is truthy |
| Tasks.LyricsPrompt | apps/generation/tasks.py:43-46 | the prompt is exactly `Write song lyrics for a <genre> song`, then ` with a <mood> mood` when the mood is non-empty, then `. Title: <title>`, then `\n\nStyle: <description>` when the description is non-empty, in each of the four cases |
| Tasks.DurationParam | apps/generation/tasks.py:55 | the music model gets the stored duration when non-zero, else -1.0 (automatic) |
| Tasks.PyInt | apps/generation/tasks.py:123-124 | `int()` of a float truncates toward zero |
| Tasks.SongNumber | apps/generation/tasks.py:77-78 | the song number has at least two digits, is never truncated, and reads back as the count |
| Tasks.SliceAvoids | apps/generation/tasks.py:83 | a slice holds none of the characters its string lacks |
| Tasks.StripAvoids | apps/generation/tasks.py:83 | stripping adds no character |
| Tasks.SafeTitle | apps/generation/tasks.py:82-83 | the safe title is at most 100 characters, has no forbidden character, starts with no whitespace, and is a prefix of the cleaned, stripped title |
| Tasks.SafeTitleShort | apps/generation/tasks.py:82-83 | a cleaned title of at most 100 characters is kept whole, so it ends in no whitespace |
| Tasks.ParseJoined | apps/generation/tasks.py:89 | three parts, the first two without spaces, are read back from their joined name |
| Tasks.FileNameRoundTrip | apps/generation/tasks.py:89 | for a username without spaces, the file name reads back into the user, the song number and the safe title |
| Tasks.SongTaskId | apps/generation/tasks.py:158 | the task id starts with `song_` |
| Tasks.SongTaskIdInjective | apps/generation/tasks.py:158 | different songs get different task ids |
| Tasks.OwnedCountSave | apps/generation/tasks.py:77 | saving a song with its owner kept keeps every owner's song count |
| Tasks.OwnedCountPositive | apps/generation/tasks.py:77 | the song being generated counts for its owner, so its number is at least 01 |
| Tasks.LyricsStage | apps/generation/tasks.py:39-48 | a song with lyrics of its own keeps them |
| Tasks.CompletedSong | apps/generation/tasks.py:118-127 | completed, with audio at `songs/<file name>`; the measured duration, truncated, is stored only when it is truthy and the song had none |
| Tasks.FailedSong | apps/generation/tasks.py:133-141 | failed with the error's text; nothing else changes |
| Tasks.MusicStageEffects | apps/generation/tasks.py:50-127 | the music stage ends completed exactly when it succeeds, failed with the error's text otherwise, and changes only the status, the error, the audio and a missing duration |
| Tasks.SongRunEffects | apps/generation/tasks.py:15-145 | a run ends completed exactly when it returns, failed with the error's text when it raises; the user's own lyrics are kept; the audio is stored under its file name; nothing else changes but a missing duration |
| Tasks.RunMusicStage | apps/generation/tasks.py:50-127 | the stored song becomes the music stage's result; the music generator is cached once loaded |
| Tasks.RunLyricsStage | apps/generation/tasks.py:34-48 | returns the lyrics stage's result and updates the lyrics cache accordingly |
| Tasks.FinishRun | apps/generation/tasks.py:47-145 | a lyrics error marks the song failed; otherwise the lyrics are saved and the music stage runs |
| Tasks.SaveLyricsAndRun | apps/generation/tasks.py:47-127 | the song is stored with its new lyrics, then becomes the music stage's result for that song, with the owner's song count unchanged by the save |
| Tasks.GenerateSongWorker | apps/generation/tasks.py:15-145 | an unknown song raises and changes nothing; otherwise the song is stored as `SongRun` gives it, and the worker returns or raises as the run ends |
| Tasks.GenerateSongTask | apps/generation/tasks.py:148-166 | the worker is submitted under `song_<id>`; refused exactly when an existing manager is stopped or already has that id active; an accepted task is appended to the queue and the registry, a refused one changes neither; an existing manager keeps its running flag, workers and `max_workers`; a new manager holds just that task |
| Tasks.WorkerStep | apps/generation/task_manager.py:81-118 | one worker pass takes the oldest entry; a song task runs the worker: an unknown song changes nothing, a known one becomes what `SongRun` gives and the generator caches are updated as the stages ran; then its id leaves the registry; no other song changes |
| Tasks.RunTask | apps/generation/task_manager.py:94-109 | a dequeued song task runs the song worker: an unknown song changes nothing, a known one becomes what `SongRun` gives and the caches are updated as the stages ran; then its id leaves the registry and the in-flight set; only that song can change |
| Tasks.LyricsOnly | apps/generation/tasks.py:169-184 | an error in construction (no key for a hosted provider) is returned as the error status with its message |
| Tasks.LyricsOnlyMatchesStage | apps/generation/tasks.py:39-48 | the lyrics-only task, given a song's prompt and owner's key, gives the same lyrics or the same error as the song worker's lyrics stage |
| Tasks.GenerateLyricsOnlyTask | apps/generation/tasks.py:187-200 | runs the lyrics worker at once through the process's generator cache |
| ApiClient.EntriesOf | static/js/api.js:84 | `Object.entries` of an object is its entries, of an array its indexed items |
| ApiClient.EntryMessages | static/js/api.js:84-90 | one `field: messages` item per entry, in order |
| ApiClient.ErrorMessage | static/js/api.js:73-94 | the thrown message is `error`, else `message`, else `detail`, the first truthy; else the entries' items joined by `; `, or "Request failed" when there are none; a `null` body is a TypeError |
| ApiClient.Handled | static/js/api.js:60-99 | a 2xx response returns its data; any other throws the error message |
| ApiClient.ParsedOr | static/js/api.js:60 | a body that is not JSON reads as `{}` |
| ApiClient.Api.constructor | static/js/api.js:17-20 | the token is the one stored |
| ApiClient.Api.SetToken | static/js/api.js:23-26 | the token is set |
| ApiClient.Api.ClearToken | static/js/api.js:29-33 | the token is cleared |
| ApiClient.Api.GetHeaders | static/js/api.js:36-46 | the JSON content type always, and a bearer header exactly when authentication is asked for and the token is non-empty |
| ApiClient.Api.RequestHeaders | static/js/api.js:103-108 | an Authorization header is sent exactly when `auth` is not `false` and there is a token |
| ApiClient.Api.FieldErrors | static/js/api.js:83-90 | the loop pushes exactly the entries' items, in order |
| ApiClient.Api.HandleResponse | static/js/api.js:49-100 | a 401 whose refresh resolves false clears the token and throws "Session expired"; a refresh stores the new token; every other case gives the data or the error message |
| ApiClient.AbsentKey | static/js/api.js:75-80 | a key no entry has reads as `undefined` |
| ApiClient.ValidationMessage | static/js/api.js:81-93 | the server's 400 validation body shows as one `field: m1, m2` line per failing field, joined by `; ` |
| ApiClient.PasswordMismatchShown | apps/accounts/serializers.py:21-23 | the registration mismatch shows as "non_field_errors: Passwords do not match." |
| ApiClient.OneLine | static/js/api.js:91-93 | a single failing field shows as its line alone |
| ApiClient.ErrorKeyWins | static/js/api.js:75-76 | a non-empty `error` string is the message, whatever else the body holds |
| ApiClient.UnparsedFailure | static/js/api.js:60-73 | a failed response whose body is not JSON throws "Request failed" |
| SettingsForm.SettingsError | static/js/main.js:291-304 | the key is demanded exactly for a remote provider with an empty key and no existing key; then a custom provider needs its name and base URL; otherwise nothing is refused |
| SettingsForm.Optional | static/js/main.js:327-338 | an optional entry is found exactly when it is present |
| SettingsForm.PayloadLookup | static/js/main.js:319-341 | the payload holds the provider, `use_own_api_key`, the trimmed key when not blank, the model when given, and the custom name and URL only for the custom provider, and nothing else |
| SettingsForm.PayloadFields | static/js/main.js:319-341 | `use_own_api_key` is true exactly off the local provider; the key is sent trimmed exactly when it is not all whitespace; the body never has `openai_api_key` |
| SettingsForm.WhitespaceKeyDropped | static/js/main.js:296-328 | a whitespace-only key passes the dialog's check, yet the sent body carries no key |
| SettingsForm.SavingSettingsKeepsUser | apps/accounts/serializers.py:62-82 | the API-key endpoint accepts the dialog's body and leaves the stored user unchanged |
| SettingsForm.ProfileNeverHasKey | static/js/main.js:293-294 | the profile the client keeps never shows an existing key, so a remote provider always demands a key |
| SettingsForm.LocalAlwaysAccepted | static/js/main.js:292-304 | the local provider is never refused, and the body says it uses no key of its own |
| Text.Trim | apps/generation/generator.py:149 | trimming returns the middle of the string, with only trimmable characters removed from both ends |
| Text.TrimEmptyIff | static/js/main.js:327 | trimming gives the empty string exactly when every character is whitespace |
| Text.TrimIdempotent | apps/generation/generator.py:149 | trimming twice is trimming once |
| Text.TrimUntrimmed | apps/accounts/serializers.py:28-32 | a string with nothing to strip at either end is its own strip |
| Text.RemoveAll | apps/generation/generator.py:313 | `replace(pat, "")` never lengthens the string |
| Text.RemoveAllAbsent | apps/generation/generator.py:313 | a string without the pattern is returned unchanged |
| Text.RemoveChars | apps/generation/tasks.py:82 | the result holds no removed character and every other character as often as before |
| Text.Take | apps/generation/tasks.py:83 | `s[:n]` is the first `min(n, len)` characters |
| Text.NatToString | apps/generation/tasks.py:78 | `str(n)` is a non-empty digit string with no leading zero |
| Text.NatToStringRoundTrip | apps/generation/tasks.py:78 | `str(n)` reads back as `n` |
| Text.NatToStringInjective | apps/generation/tasks.py:158 | distinct numbers print differently |
| Text.ZFill | apps/generation/tasks.py:78 | `zfill(w)` pads with zeros to width `w` and never truncates |
| Text.ZFillNatRoundTrip | apps/generation/tasks.py:78 | `str(n).zfill(w)` still reads back as `n` |
| Text.IndexOf | apps/generation/tasks.py:89 | the first occurrence of a pattern, or none |
| Text.IndexOfAfterPrefix | apps/generation/tasks.py:89 | a separator whose first character a part lacks is first found right after that part |
| Json.Keys | static/js/api.js:84 | the keys of an object are exactly those of its entries |
| Json.LookupKeys | static/js/api.js:75-80 | a property is found exactly when some entry has its key |
| Json.Without | apps/songs/serializers.py:51-54 | dropping a key leaves every other key's lookup unchanged |
| Json.LookupFirst | apps/songs/views.py:118-121 | an unshadowed entry is what a lookup of its key finds |
| Json.LookupAppend | static/js/main.js:320-338 | a lookup in two runs of entries finds the first run's value if it has one |
| Json.Get | static/js/api.js:75-80 | property access on a non-object is `undefined` |
| Json.StringArrayString | static/js/api.js:86 | a string array joins to its strings separated by commas |

## Left out

- Threads are not modelled. Every worker action and every submission is one atomic step, so interleavings and the lock are not captured, nor the race in `submit_task` between queueing a task and registering its id. The singleton's `__new__` is the `Runtime` class's one field.
- The one-second queue wait and `task_done` are not modelled. A worker's pass over an empty queue is a timeout that changes nothing.
- Machine learning, audio and files are oracles. The language models, the music model, model loading and the writing of audio files are parameters, so tokenisation, sampling, WAV-to-MP3 conversion, temporary files and `MEDIA_ROOT` paths are left out.
- Floating point is left out. `temperature`, the default temperature and sampling parameters are not modelled. Durations handed to the music model are `real`.
- Logging, `DEBUG` prints and `__str__` methods are left out. Their output has no effect on state. The one print that can fail is modelled: OpenAI and custom replies with no content fail on `len()` under `DEBUG` (Generator.AcceptHosted).
- Timestamps are left out. `created_at` and `updated_at` are not modelled; `published_at` is an integer time passed in as `now`.
- `cover_image` and `avatar` uploads are left out. Both are always `null` here.
- SongSerializers.SongJson: `audio_file` is the site-relative media URL; when the serializer has the request in its context DRF makes it absolute with the request's scheme and host, which the model does not have.
- SongSerializers.FileUrl: `urljoin` resolves `.` and `..` path segments of the name, and that is not modelled. A name the worker makes has such a segment only if the user name contains `/`, which Django's username validator refuses.
- Django internals are left out: query sets, pagination, filtering, search, ordering and `refresh_from_db`. A listing is the set of songs it holds, and a view answer carries the status and the JSON body.
- Authentication is not modelled: password hashing, token issue and refresh, blacklisting and `SessionAuthentication`. A request carries an optional requester id.
- Username and email format validators are left out. Only blankness, length and uniqueness are modelled.
- Field-level type checks are simplified. JSON numbers are integers only, so floats are not modelled. Python's `int()` of a string is modelled for plain digit strings, without signs or underscores. DRF's `str()` of arrays and objects in a text or choice field is given JavaScript's form. Request bodies that are not JSON objects have no fields.
- The order of keys in JavaScript objects is insertion order here. The client builds headers as a list of pairs.
- `fetch` and its side effects are parameters of `HandleResponse`: `localStorage`, `window.location.reload()` and the refresh request itself.
- ApiClient.Api.HandleResponse: `refreshed` is the outcome of a refresh that finished. `refreshToken` (static/js/api.js:200-220) sends its request through `request`, so a 401 from the refresh endpoint re-enters `handleResponse` and `refreshToken` without bound, and "Session expired" is never reached with a refresh token the server rejects; that recursion is not modelled.
- AccountSerializers.Register, Accounts.NormalizeEmail, Accounts.LowerAscii: the NFKC normalization `create_user` applies to the username is left out (it is the identity on ASCII), and only ASCII letters of the email domain are lower-cased, where Python lower-cases every cased letter.
- Forms.TextValue: the surrogate-character validator every `CharField` adds is not modelled, because a Dafny `char` is a Unicode scalar value and cannot be a surrogate.
- The DOM and toasts are left out. The settings dialog's inputs are a value, and a refusal is the toast's text.
- The other client scripts are outside this model: songs.js, player.js, auth.js, debug.js and server-status.js. So are the generation and library views.
- Settings are passed as a `Settings` value: `LLM_PROVIDER`, `OPENAI_API_KEY`, `COMET_API_KEY`, `COMET_API_BASE_URL` and `MAX_CONCURRENT_TASKS`.
- The Comet reply's `str(response)` fallback is left out. A hosted reply is the message content or its absence.
- `UserPreferences` editing is not modelled: their defaults and their creation on registration are.
- SongViews.ListResponse: the 200 body of a listing, a page of representations, is not modelled. Only the listed set and the status are.
- Tasks.LyricsStage: its ensures states only the case of lyrics the user provided. The generated case is stated by Tasks.SongRunEffects and Tasks.LyricsOnlyMatchesStage.
- Tasks.LyricsOnly: its ensures states only the construction error. Its agreement with the song worker is stated by Tasks.LyricsOnlyMatchesStage.

## Findings

| source | as written | input that shows it | evidently intended | confidence | as-written member | corrected member |
|---|---|---|---|---|---|---|
| apps/generation/generator.py:437-450 | the cached lyrics generator is reused whenever no argument is truthy, whatever key it was built with | the song worker runs for a user with their own key, then for a user without one: the second call gets a generator with the first user's key | a generator built from the arguments' configuration (the settings' key when none is passed) | medium, not executed | Generator.CachedGeneratorKeepsOtherUsersKey | Generator.CachedLyricsGeneratorByConfig |
| apps/songs/views.py:51-55 | updates go through the reading queryset, so any signed-in user may change another user's public song | `PATCH {"title": "mine now"}` on someone else's public song is accepted | only the owner may change a song, as the delete check says | high, not executed | SongViews.NonOwnerMayUpdatePublicSong | SongViews.UpdateSong |
| apps/songs/serializers.py:26-30 | `is_public` is not read-only, so an update can publish a song past the publish view's "only completed" rule, without `published_at` or the owner's count | `PATCH {"is_public": true}` on the owner's song that is still generating | publishing only through the publish view | high, not executed | SongSerializers.PatchPublishesUnfinishedSong | SongSerializers.UpdateNeverPublishes |
| apps/songs/views.py:124-147 | the play view sets no permission, so the default `IsAuthenticated` (config/settings.py:130-132) answers anonymous plays 401, though the view has an anonymous branch and the client plays without credentials (static/js/api.js:288-293) | `POST /songs/<id>/play/` without credentials on a public song | anyone may play a public song and its play count rises | high, not executed | SongViews.AnonymousPlayRefused | SongViews.PlaySong |
| apps/songs/views.py:76-77 | the view calls `generate_song_task.delay(song.id)`, but `generate_song_task` (apps/generation/tasks.py:148-166) is a plain function without a `delay` attribute, so the call raises `AttributeError` once the song is saved | a signed-in `POST /songs/` with `{"title": "t"}`: the song is stored as `generating` and the owner's count raised, the answer is 500, and nothing is queued | calling `generate_song_task(song.id)`, which submits the worker to the task manager | high, not executed | SongViews.CreateSongViewAsWritten | SongViews.CreateSongView |

The model also proves several as-written behaviours that may surprise but are not clearly unintended:

- The settings dialog's body has no `openai_api_key`, so the API-key endpoint leaves the stored user unchanged (SettingsForm.SavingSettingsKeepsUser).
- The profile lacks `use_own_api_key` and `llm_provider`, so the dialog never finds an existing key (SettingsForm.ProfileNeverHasKey).
- A whitespace-only key passes the dialog and is then dropped (SettingsForm.WhitespaceKeyDropped).
- Deleting another user's public song raises `PermissionError`, a 500 rather than a 403 (SongViews.DestroySong).
- A `null` duration passes creation's validation but fails in the database, a 500 (SongSerializers.SaveNewSong).
- The registration's email check compares the address as sent, while `create_user` stores it with the domain lower-cased, so an address differing from a stored one only in the domain's case passes validation and then fails in the database, a 500 (AccountSerializers.CaseVariantEmailPassesCheck, AccountSerializers.Register).
- Playlists may hold other users' private songs (SongSerializers.PkOf).

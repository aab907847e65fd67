# Ryotunes verification

A Dafny model of the self-contained algorithms of the Ryotunes player, with proofs about whole runs,
all inputs and all orders of events. One module follows one source file. Code that updates fields is
a class or a method with loops, proved against a specification function; the laws are lemmas about
that function.

| module | models | source |
|---|---|---|
| `Discord` | the presence scheduler: what to push, when, and how it waits | `crates/core/src/discord.rs` |
| `Mmr`, `Recommendations` | the recommendation shelf and its diversity pass | `client/lib/recommendations.js` |
| `Lyrics`, `Text` | LRC and enhanced-LRC parsing, and the string laws it rests on | `crates/core/src/lyrics.rs` |
| `Korean`, `Indic` | romanization of Hangul, Devanagari and Gurmukhi | `crates/core/src/romanize.rs` |
| `Orchestrator` | the stream fallback loop, HIGH two-pass, failure memory, self-heal window | `crates/core/src/orchestrator.rs` |
| `LocalLibrary` | incremental scan, removed ids, watched folders | `crates/core/src/local.rs` |
| `MainWindow` | window lifecycle and the idle-exit deadline | `src-tauri/src/main_window.rs`, `src-tauri/src/lib.rs` |
| `RustStructure` | the Rust delimiter checker | `scripts/check-rust-structure.py` |
| `Personal` | structural equality of saved blobs | `client/lib/personal.js` |
| `Radio` | the bounded recency cache of stations | `crates/core/src/radio.rs` |
| `Database` | stream URL cache, device playlists, membership index | `crates/core/src/db.rs` |
| `PresenceLaws` | what messages and answers mean to the card | `crates/core/src/discord.rs` |
| `RankingLaws`, `FeedLaws` | what signals, index, pool and reasons mean | `client/lib/recommendations.js` |
| `LyricLaws` | time tags in every form, enhanced lines read back | `crates/core/src/lyrics.rs` |
| `KoreanSounds`, `WritingLaws` | the tables as sounds, what is written, words of its tests | `crates/core/src/romanize.rs` |
| `ChoiceLaws` | what the stream comparison ranks by, what a stream carries | `crates/core/src/orchestrator.rs` |
| `LifecycleLaws` | what no run reaches, what each handler means | `src-tauri/src/main_window.rs` |
| `LexingLaws` | files written from pieces, and what scanning them meets | `scripts/check-rust-structure.py` |
| `Common` | options, sequences and sets shared by the rest | |

Conventions. Time is one integer clock in milliseconds and never runs backwards; positions and lengths
are integer milliseconds. Scores are reals. Sockets, HTTP answers, disk contents and tag readers are
inputs that may answer anything. A class method's contract ties the object's new abstract value to a
specification function of the old one.

## What the proofs found

Each of these has a lemma at a concrete failing input and one with the exact condition.

- **A pushed card does not always settle.** `push_card` clamps a negative position estimate to zero,
  the drift test in `wants_push` does not. A push settles exactly when the estimate is at least
  `-SEEK_DRIFT_MS` (`Discord.PushSettles`); a tick of minus nine seconds leaves another push due from
  then on (`Discord.PushNeverSettles`).
- **A push that breaks the socket parks the thread for the whole idle tick**, unless the last connect
  attempt is still inside its backoff; the comment there says the reconnect tick picks it up
  (`Discord.BrokenPushSleep`, `Discord.BrokenPushSleepsLong`).
- **A pause applied late counts as played until the next tick.** A position tick carries its own clock
  reading and is right however late it is delivered (`Discord.TickIsExact`). A track change, a pause and
  a resume carry none and count from the moment they are applied, which a stalled socket can delay
  (`Discord.LatePauseCountsAsPlayed`). The estimate is the time played exactly when these delays since the
  last tick cancel (`Discord.EstimateIsTimePlayed`).
- **A disabled client can be the source of a stream.** The age-gate retry asks WEB_CREATOR without
  looking at the disabled clients (`Orchestrator.DisabledCreatorCanPlay`); otherwise a source is never a
  disabled client (`Orchestrator.SourceIsEnabled`).
- **A remembered lesser stream is played without a probe** (`Orchestrator.UnprobedStreamCanPlay`). Uploads
  apart, a chosen stream was probed exactly when some client was accepted (`Orchestrator.ProbedIffAccepted`);
  the header of `orchestrator.rs` exempts the main and the last client, the code does not.
- **A timed word can stick out of its line.** The shown text is trimmed, the words are not, so a word
  with a space before it has no place in the line (`Lyrics.WordCanStickOut`, `Lyrics.ShownWords`).
- **A pending addak reaches past a foreign character.** A Gurmukhi addak before a space doubles the
  first consonant after it (`Indic.AddakReachesPastSpace`), so Punjabi splits at a foreign character
  exactly when no such doubling is pending or nothing takes it (`Indic.GurmukhiSplits`); Hindi always
  splits (`Indic.DevanagariSplits`).
- **An idle-exit timer can be armed late, and quit.** Between the eligibility check and the epoch bump
  another thread may run: music plays, the timer is armed, music pauses, and the timer quits
  (`MainWindow.LateArmCanQuit`). The session was idle all the way from check to firing exactly when
  no step on the way disturbed it (`MainWindow.QuitIsEarned`).
- **Hangul reading is not a concatenation.** A split between two syllables is exact unless the final
  and the next initial merge to a different spelling (`Korean.SplitsExactly`); 국내 reads gungnae, not
  guknae (`Korean.MergedReading`).

## Model

| member | source | states |
|---|---|---|
| Discord.RunsAreRateLimited | crates/core/src/discord.rs:219-260 | after any run of messages and wake-ups, each push and each planned clear left strictly more than the send floor after the frame before it, a goodbye included; a recorded card implies a held socket and an enabled presence; the send time survives disconnecting and re-enabling |
| Discord.SyncSendsCurrentState | crates/core/src/discord.rs:390-417 | a wake-up sends at most one frame, it is the card of the state current at that moment or the clear of a card no longer wanted, and with the socket held it sends exactly when the plan does not wait or idle |
| Discord.DeferredFrameGoesOut | crates/core/src/discord.rs:390-483 | no deferred update is lost: following the sleeps the wake-ups ask for, the state stays put and the due frame is on the wire at the fifth wake-up at the latest |
| Discord.WaitsRunOut | crates/core/src/discord.rs:420-450 | at most four waits in a row, and what follows them is never idle |
| Discord.FourWaitsHappen | crates/core/src/discord.rs:420-450 | the bound of four is attained: a concrete state waits four times and then pushes |
| Discord.WaitingKeepsState | crates/core/src/discord.rs:390-417 | a waiting wake-up with the socket held changes nothing and sleeps exactly as planned |
| Discord.SleepsAreBounded | crates/core/src/discord.rs:390-417 | after any run no sleep is shorter than the minimum wait or longer than the idle tick, so the thread never spins |
| Discord.BrokenPushSleep | crates/core/src/discord.rs:397-416 | when a push breaks the socket, held before or opened in the same wake-up, the thread sleeps the whole idle tick if and only if the last connect attempt's backoff has run out |
| Discord.BrokenPushSleepsLong | crates/core/src/discord.rs:397-416 | a reachable wake-up that breaks the socket with a card still wanted and then sleeps the whole idle tick |
| Discord.PushSettles | crates/core/src/discord.rs:454-548 | right after a successful push the plan is idle, now and for all later time, if and only if the estimate was at least minus the seek drift |
| Discord.PushNeverSettles | crates/core/src/discord.rs:454-548 | a reachable run with a tick of minus nine seconds, after whose push the plan is never idle again |
| Discord.DriftIsTimeless | crates/core/src/discord.rs:465-470 | while playing, drift against the pushed bar does not change as time passes; it is fixed by the anchor's value and reading time |
| Discord.SteadyRunsAreSilent | crates/core/src/discord.rs:454-470 | no run of wake-ups and on-timeline position ticks, however delayed, sends a frame or changes the card |
| Discord.SeekIsNoticed | crates/core/src/discord.rs:465-470 | a tick leaves the plan idle if and only if it lies within the seek drift of the bar at the time it was read, whenever it arrives |
| PresenceLaws.MessageIsNoticed | crates/core/src/discord.rs:454-470 | with a card up, any message leaves a frame due, at once and for all later time, if and only if the card no longer agrees with it: a length off by more than a second, another name, another track, a seek, a pause |
| PresenceLaws.FramesAreDue | crates/core/src/discord.rs:420-483 | a card goes out exactly when one is wanted and differs, its length is known or 800 ms have gone by or the track is up already, and strictly more than 1500 ms since the last frame; a clear likewise |
| PresenceLaws.WaitsEndInTime | crates/core/src/discord.rs:420-450 | a wait ends when the grace or the floor does, or at the minimum wait where less is left |
| PresenceLaws.PausingTakesDown | crates/core/src/discord.rs:420-450 | after a pause the card is taken down as soon as the floor allows and not before |
| PresenceLaws.CardShowsPosition | crates/core/src/discord.rs:485-500 | a card's bar stands at any later moment where playback does and has left what the track has left; it has an end exactly when the length is known |
| PresenceLaws.SentIsCard | crates/core/src/discord.rs:530-547 | what is remembered of a push is the card that went out |
| PresenceLaws.ClearingForgets | crates/core/src/discord.rs:552-562 | clearing forgets the card in any case and sends a frame exactly when there is a socket |
| PresenceLaws.DisablingSaysGoodbye | crates/core/src/discord.rs:370-379 | turning presence off says goodbye exactly when a card is up, closes the socket, forgets the backoff and leaves nothing due |
| PresenceLaws.BackoffDoubles | crates/core/src/discord.rs:569-596 | after n failed attempts in a row the backoff is a second doubled n times, at most two minutes |
| PresenceLaws.AttemptsWait | crates/core/src/discord.rs:564-596 | an attempt is made exactly when strictly more than the backoff has gone by; a success starts afresh with nothing shown |
| PresenceLaws.ActionsReconnect | crates/core/src/discord.rs:353-379 | starting playback or turning presence on lets the next wake-up connect at once |
| PresenceLaws.IdleSleepsLong | crates/core/src/discord.rs:390-417 | with nothing to do a wake-up changes nothing and sleeps five minutes |
| PresenceLaws.RetryWakes | crates/core/src/discord.rs:412-416 | without a socket the sleep is no longer than what is left of the backoff |
| PresenceLaws.MessagesSetWhatTheySay | crates/core/src/discord.rs:336-387 | each message sets its own part of the wanted state, a new track also forgets the length, and the rest stays |
| PresenceLaws.MessagesKeepSocket | crates/core/src/discord.rs:336-387 | no message but turning off touches socket, frames or floor |
| Discord.EstimateIsAnchored | crates/core/src/discord.rs:328-387 | after any run with in-order delivery the estimate is the last anchored position, plus the time played by the flags as sent since the anchor was sent, plus the lag of track changes, pauses and resumes applied late since the last tick |
| Discord.EstimateIsTimePlayed | crates/core/src/discord.rs:328-387 | after any such run the estimate is the anchor plus the time played, if and only if that lag is zero |
| Discord.TickIsExact | crates/core/src/discord.rs:160-162 | from a position tick on the estimate is its position plus the time played since it was sent, however late it was delivered and whatever came before |
| Discord.PromptMessagesKeepLag | crates/core/src/discord.rs:336-367 | while track changes, pauses and resumes are applied when sent, a zero lag stays zero, whatever else arrives late |
| Discord.LatePauseCountsAsPlayed | crates/core/src/discord.rs:353-367 | a run in which the socket stalls, a pause is applied ten seconds after it was sent, and the estimate is ten seconds too high |
| Discord.PlayedIsBounded | crates/core/src/discord.rs:353-367 | the time played between two clock values is never negative and never more than the time between them |
| Discord.FlipIsContinuous | crates/core/src/discord.rs:353-367 | pausing and resuming never move the estimate |
| Discord.Presence.Apply | crates/core/src/discord.rs:336-387 | the field updates of a message follow the specification the run theorems are about |
| Discord.Presence.Reconcile | crates/core/src/discord.rs:390-417 | one wake-up on the real fields follows the specification, state and sleep both |
| Discord.Presence.Decide | crates/core/src/discord.rs:420-450 | the plan read off the fields is the specified one |
| Discord.Presence.TryConnect | crates/core/src/discord.rs:569-596 | connecting follows the specification of backoff doubling and reset, and answers whether a socket is held |
| Discord.Presence.CloseSocket | crates/core/src/discord.rs:598-607 | disconnecting sends the goodbye only when a card is up and forgets backoff but not the send time |
| Discord.Presence.Drive | crates/core/src/discord.rs:219-260 | a presence object driven by any run from its start ends with a wire spaced by the send floor |
| Mmr.GreedyIsGreedy | client/lib/recommendations.js:264-295 | the selection has min(limit, pool) distinct members and each one is a maximum, over everything unchosen, of relevance against redundancy with all chosen before it |
| Mmr.GreedyIgnoresOrder | client/lib/recommendations.js:251-295 | for distinct ranks, every permutation of the candidates yields the same selection |
| Mmr.BestIsArgmax | client/lib/recommendations.js:272-288 | one pass over the candidates finds one that no other unchosen candidate beats |
| Mmr.BetterIsStrictWeak | client/lib/recommendations.js:251-257 | score then relevance, rank and id is a strict weak order, total on distinct ranks |
| RankingLaws.SimilarityRanks | client/lib/recommendations.js:241-247 | similarity is symmetric; sharing an artist is the most there is, sharing a kind is less, sharing neither is none |
| RankingLaws.MaxSimilarityIsMax | client/lib/recommendations.js:278-282 | the redundancy of a row is its greatest similarity to anything chosen |
| RankingLaws.FreshArtistWins | client/lib/recommendations.js:259-263 | diversity survives: a row like nothing chosen beats one by a chosen artist that is less than 7/18 more relevant |
| RankingLaws.StrongRowWins | client/lib/recommendations.js:259-263 | relevance survives: a row more than 7/18 more relevant wins whatever has been chosen |
| RankingLaws.FirstIsMostRelevant | client/lib/recommendations.js:264-295 | the first row chosen is the most relevant one, the earliest of equals |
| RankingLaws.RelevantComesFirst | client/lib/recommendations.js:264-295 | of two rows alike in artist and kind, the more relevant is chosen before the other |
| RankingLaws.TiesSettle | client/lib/recommendations.js:251-257 | equal scores are settled by relevance, then rank, then id |
| RankingLaws.IdsCompare | client/lib/recommendations.js:251-257 | ids compare as in a dictionary |
| Mmr.Rerank | client/lib/recommendations.js:264-295 | the incremental pass, which folds in only the last chosen candidate, returns the naive greedy selection as distinct objects of the input |
| Mmr.NextBest | client/lib/recommendations.js:271-288 | one scan brings every running maximum up to date with all chosen candidates and finds the naive best |
| Recommendations.ForeignRowsNeverMatter | client/lib/recommendations.js:115-205 | deleting every recent, artist and shortcut row of another provider, and every such feed row from its section, leaves items, order, reasons and explanation as they were |
| Recommendations.OwnRowsDecide | client/lib/recommendations.js:347-363 | two runs that agree on the active provider's rows show the same shelf |
| Recommendations.IndexIgnoresForeign | client/lib/recommendations.js:115-179 | foreign rows leave the personal index alone, up to shortcut ids of foreign items |
| Recommendations.ShelfIsSound | client/lib/recommendations.js:183-205 | the shelf shows min(output limit, pool) items with pairwise distinct ids, each a usable feed row of this provider that is not a shortcut already |
| Recommendations.PoolIsSound | client/lib/recommendations.js:183-205 | the pool is bounded and holds distinct, usable, own, non-shortcut rows of the feed |
| Recommendations.ShelfIgnoresPoolOrder | client/lib/recommendations.js:264-295 | shuffling the scored pool never changes what is shown or its order |
| RankingLaws.EarlierIsBetter | client/lib/recommendations.js:208-236 | an earlier place in the feed always raises relevance |
| RankingLaws.PlayedIsWorse | client/lib/recommendations.js:208-236 | having been played lowers relevance, strictly while the play has not faded |
| RankingLaws.FresherPlayIsWorse | client/lib/recommendations.js:208-236 | a later play lowers it at least as much |
| RankingLaws.JustPlayedFallsBehind | client/lib/recommendations.js:208-236 | a row just played falls behind the same row unplayed, wherever either stands in the feed |
| RankingLaws.RegularIsBetter | client/lib/recommendations.js:208-236 | a higher count of the known artist raises relevance |
| RankingLaws.RecentArtistIsBetter | client/lib/recommendations.js:208-236 | a later play of the artist never lowers it, and a first one raises it |
| RankingLaws.KnownIsBetter | client/lib/recommendations.js:208-236 | a known artist that was played beats an unknown one |
| RankingLaws.ShortcutIsBetter | client/lib/recommendations.js:208-236 | a shortcut by the same artist raises relevance |
| RankingLaws.ThinIsWorse | client/lib/recommendations.js:208-236 | a row without artwork is worth less |
| RankingLaws.RelevanceAddsUp | client/lib/recommendations.js:208-236 | relevance is the prior and the signals kept with the row less the penalties, at the documented weights |
| RankingLaws.SignalsAtMost | client/lib/recommendations.js:208-236 | each signal lies between zero and its weight, and reaches it for the most played artist, one just heard, a song just played |
| RankingLaws.HalfLives | client/lib/recommendations.js:43-45 | an artist heard two weeks ago and a song played three days ago weigh half |
| RankingLaws.PriorFallsSlowly | client/lib/recommendations.js:47-48 | the fifty-first row has a quarter of the first row's prior |
| RankingLaws.SameArtistIsSimilar | client/lib/recommendations.js:229-235 | rows by one artist, known or not, share it for the diversity pass, and rows of one kind share that |
| RankingLaws.FreshComesFirst | client/lib/recommendations.js:208-295 | on the shelf, of two rows alike in all but id, the earlier one that was not played comes before the other |
| FeedLaws.RecentIsTrue | client/lib/recommendations.js:128-138 | the index remembers exactly the own plays, each by its last row |
| FeedLaws.ArtistsAreTrue | client/lib/recommendations.js:140-163 | the artists known are exactly those of own rows with a count, each with a row of its own |
| FeedLaws.GreatestCountIsTrue | client/lib/recommendations.js:140-163 | the greatest count is that of an own artist, zero without one |
| FeedLaws.NamesAreTrue | client/lib/recommendations.js:157-159 | a name finds an own artist of that name, the most played of them |
| FeedLaws.PicksAreTrue | client/lib/recommendations.js:165-177 | the shortcut ids are all shortcuts', the artist keys those of own shortcuts |
| FeedLaws.KnownArtistIsARow | client/lib/recommendations.js:212-213 | what is known of a row's artist is a row of the blob with its key, else the most played one of its name, else nothing |
| FeedLaws.PersonalMeansOwnRows | client/lib/recommendations.js:115-179 | a shelf is personal exactly when the active provider has a play, a counted artist or a shortcut |
| FeedLaws.ArtistKeys | client/lib/recommendations.js:84-95 | the artist of a row goes by its id, else its first run with one, else itself, else its credit |
| FeedLaws.NamespacesOwn | client/lib/ids.js:31-46 | a namespaced id belongs to its namespace and any other to YouTube |
| FeedLaws.PoolIsComplete | client/lib/recommendations.js:183-205 | below the cap, the first real own row of each id that is no shortcut is in the pool |
| FeedLaws.ShownIsReal | client/lib/recommendations.js:105-110 | everything shown has an id, a title, a known kind, the active provider, and is no shortcut |
| FeedLaws.ShelfFills | client/lib/recommendations.js:40-41 | the pool never exceeds three hundred rows and the shelf shows twelve or all of it |
| FeedLaws.SignalsHaveCauses | client/lib/recommendations.js:208-236 | a signal is positive only with its cause: a played artist, one heard, a shortcut's artist |
| FeedLaws.ReasonNamesStrongest | client/lib/recommendations.js:299-309 | the reason names the strongest signal of a named row, and the provider without one |
| FeedLaws.ReasonsBelong | client/lib/recommendations.js:321-331 | each row shown has the reason of its own entry, in the order chosen |
| FeedLaws.ExplanationFits | client/lib/recommendations.js:333-344 | the explanation goes by what is shown and by whether own rows were used |
| Recommendations.BuildIndex | client/lib/recommendations.js:115-179 | the three loops over the blob compute the specified index |
| Recommendations.PoolFrom | client/lib/recommendations.js:183-205 | the nested loops with their early exits compute the pool of the flattened feed |
| Recommendations.BuildShelf | client/lib/recommendations.js:347-363 | the whole pipeline over mutable candidates computes the specified shelf |
| LocalLibrary.ScansNeverGoStale | crates/core/src/local.rs:117-143 | when tags are a function of path and mtime, every scan in any run of scans, version changes and removals leaves the table of a full rescan |
| LocalLibrary.Library.Rescan | crates/core/src/local.rs:117-163 | the scan leaves the specified table, rereads exactly the untrusted files, and reports without repetition exactly the song, album and artist ids there before and not after |
| LocalLibrary.IncrementalIffTrustedRowsHold | crates/core/src/local.rs:117-143 | helper of the two above: one scan equals reading every file if and only if every row it trusted still says what its file does |
| LocalLibrary.RescanIsQuiet | crates/core/src/local.rs:117-143 | a second scan of an unchanged disk trusts every file, changes nothing and removes nothing |
| LocalLibrary.Library.Visit | crates/core/src/local.rs:124-135 | the walk finds every file and rereads exactly those whose row is missing, moved on or made under old rules |
| LocalLibrary.SongsAreNotCards | crates/core/src/local.rs:422-434 | a song id is never an album or artist id, so the two halves of the removed list do not overlap |
| LocalLibrary.SongsAreFiles | crates/core/src/local.rs:153-155 | a song is on screen exactly while its file is in the table |
| LocalLibrary.CardsAreTracks | crates/core/src/local.rs:422-434 | an album or artist is on screen exactly while a track of it is in the table |
| LocalLibrary.ForgettingDropsOne | crates/core/src/local.rs:293-309 | forgetting drops one file's row and no other, and the next scan reads the file again if it is there |
| LocalLibrary.CoveredOnce | crates/core/src/local.rs:93-103 | among watched folders none of which lies inside another, a file lies under at most one |
| LocalLibrary.Folders.Add | crates/core/src/local.rs:93-103 | adding a folder covers exactly what was covered plus what lies under it, and no listed folder lies inside another |
| LocalLibrary.Folders.Remove | crates/core/src/local.rs:105-109 | removing takes out the folder listed under that very spelling and uncovers exactly its tree; under any other spelling nothing changes |
| Orchestrator.Resolver.Resolve | crates/core/src/orchestrator.rs:217-408 | for all answers the loop returns the declared choice: the first accepted client in order, else the first best of the skipped streams, else the fallback, the upload, bot-gate or failure outcome; the places probed are exactly the specified ones, and the heals exactly those of the turns taken |
| Orchestrator.Resolver.Consider | crates/core/src/orchestrator.rs:265-353 | one client's turn stops exactly when its stream is accepted, and otherwise keeps the best skipped stream and the first loudness up to date |
| Orchestrator.Resolver.Ask | crates/core/src/orchestrator.rs:227-263 | which clients are asked, and when an answer counts as the anti-bot gate |
| Orchestrator.ChoiceIsUnique | crates/core/src/orchestrator.rs:217-408 | the declared choice leaves exactly one outcome for every request and failure memory |
| Orchestrator.BestSoFarStep | crates/core/src/orchestrator.rs:293-301 | replacing only on strictly better keeps the first of the maximal streams |
| Orchestrator.BetterIsStrictWeak | crates/core/src/orchestrator.rs:482-501 | stream comparison is a strict weak order |
| ChoiceLaws.QualityDecides | crates/core/src/orchestrator.rs:482-501 | HIGH beats MEDIUM beats LOW beats anything unnamed, whatever the rest |
| ChoiceLaws.ChannelsDecide | crates/core/src/orchestrator.rs:482-501 | at equal quality more channels win, two where none are named |
| ChoiceLaws.CodecThenBitrate | crates/core/src/orchestrator.rs:482-501 | then opus over mp4a over the rest, then bitrate and nothing else |
| Orchestrator.FailureMemorySteers | crates/core/src/orchestrator.rs:228-237 | a video in the failure memory is never given the main client's stream, uploads excepted |
| Orchestrator.ChoiceRespectsRequest | crates/core/src/orchestrator.rs:228-301 | a chosen stream is usable and its place in the chain is not a disabled one; a lesser quality is chosen only when no place was accepted |
| Orchestrator.SourceIsEnabled | crates/core/src/orchestrator.rs:193-207 | the client that answered for a chosen stream is enabled, if and only if it is not the main place answered by the creator retry with that client disabled |
| Orchestrator.DisabledCreatorCanPlay | crates/core/src/orchestrator.rs:193-207 | a request with the creator client disabled whose chosen stream that client answered |
| Orchestrator.ProbedIffAccepted | crates/core/src/orchestrator.rs:293-336 | uploads apart, a chosen stream was probed if and only if some place was accepted, and then it answered; it is a remembered lesser one if and only if none was |
| Orchestrator.UnprobedStreamCanPlay | crates/core/src/orchestrator.rs:293-301 | a request whose chosen stream is a fallback's lesser one that no probe was sent for and none would have passed |
| ChoiceLaws.AcceptedMeans | crates/core/src/orchestrator.rs:265-324 | a place is accepted exactly when it offers a stream, is not passed over and answers its probe or is an upload; passed over exactly when HIGH is wanted and advertised and it is not HIGH |
| ChoiceLaws.AdvertisedMeans | crates/core/src/orchestrator.rs:209-215 | HIGH counts as advertised by the main reply's formats alone, and a disabled main client gives no reply |
| ChoiceLaws.ChosenClientIsAllowed | crates/core/src/orchestrator.rs:228-246 | a chosen stream comes from a known client, and from one that needs a login only when logged in |
| ChoiceLaws.RetryIsForGates | crates/core/src/orchestrator.rs:193-207 | another reply stands in for the main one only after a gate met while logged in |
| ChoiceLaws.UploadsForgetFailures | crates/core/src/orchestrator.rs:228-237 | uploads ignore the failure memory |
| ChoiceLaws.StreamCarries | crates/core/src/orchestrator.rs:324-334 | a chosen stream has its place's URL, its own loudness before any other, and the main page's ping before its own |
| ChoiceLaws.LoudnessIsFirstHeard | crates/core/src/orchestrator.rs:268-270 | the loudness known is the main reply's, else that of the first stream heard that has one |
| ChoiceLaws.GateIsBlamed | crates/core/src/orchestrator.rs:370-407 | the gate is blamed exactly when a client that was asked met it and nothing else was found |
| ChoiceLaws.HealsHaveCause | crates/core/src/orchestrator.rs:335-352 | a heal follows exactly a failed probe of a client whose streams go through the cipher |
| ChoiceLaws.HealsAreTenMinutesApart | crates/core/src/orchestrator.rs:82-84 | a heal is granted exactly when ten minutes have gone by since the last |
| Orchestrator.Resolver.TakeHealSlot | crates/core/src/orchestrator.rs:144-151 | a heal is granted exactly when the window has passed, and granted heals are never closer than the window |
| Lyrics.RoundTrip | crates/core/src/lyrics.rs:462-509 | printing lines and parsing them gives the lines back if and only if they are sorted by time and each text is trimmed, free of line breaks and starts with no timestamp of its own |
| Lyrics.ParseIsWellFormed | crates/core/src/lyrics.rs:462-485 | for any input the output is stably sorted by time, has as many lines as there are leading timestamps, and no text still starts with one |
| Lyrics.SortIsStable | crates/core/src/lyrics.rs:483-484 | the sort keeps, at each time, the lines of that time in their order |
| Lyrics.ParseLrc | crates/core/src/lyrics.rs:462-485 | the cursor loop computes the specified lines |
| LyricLaws.HundredthsTag | crates/core/src/lyrics.rs:487-509 | the usual tag with two digits is read as hundredths |
| LyricLaws.TenthsAndHundredths | crates/core/src/lyrics.rs:498-506 | one digit is tenths, two are hundredths |
| LyricLaws.TrailingZero | crates/core/src/lyrics.rs:498-506 | a zero after a fraction changes nothing |
| LyricLaws.ThousandthsAreWhole | crates/core/src/lyrics.rs:498-506 | three digits are milliseconds and any more are cut off |
| LyricLaws.NoiseIsIgnored | crates/core/src/lyrics.rs:498-506 | what is no digit does not count in a fraction |
| LyricLaws.FractionTimes | crates/core/src/lyrics.rs:488-509 | a tag with a fraction of any width is its minutes, seconds and fraction added up |
| LyricLaws.WholeTimes | crates/core/src/lyrics.rs:488-509 | a tag without a fraction is its minutes and seconds |
| LyricLaws.MetadataIsNoTime | crates/core/src/lyrics.rs:488-490 | a tag without a colon or without a number before it is no time |
| LyricLaws.NumbersParse | crates/core/src/lyrics.rs:490-496 | numbers are digits that fit 64 bits, with a plus sign if need be, and nothing else |
| LyricLaws.StampsRepeat | crates/core/src/lyrics.rs:462-482 | a line with several stamps stands once at each, with the text after the last |
| LyricLaws.NoStampNoLine | crates/core/src/lyrics.rs:462-482 | a raw line makes lines exactly when it begins with a stamp |
| LyricLaws.TrimUnpads | crates/core/src/lyrics.rs:464-465 | trimming takes off all the space around a text and none of the text |
| Lyrics.PiecesConserve | crates/core/src/lyrics.rs:1045-1075 | recognised tags with their words, and the characters between, spell the original text exactly |
| Lyrics.WordTimingsAreSound | crates/core/src/lyrics.rs:1035-1084 | a line is unchanged if and only if no tag is recognised; otherwise its words chain from the cue and are ordered slices of the original without exactly the recognised tags, and the shown text is that text trimmed |
| Lyrics.ShownWords | crates/core/src/lyrics.rs:1077-1080 | the words are slices of the shown text whenever nothing was trimmed off, and in a line timed throughout only then |
| Lyrics.WordCanStickOut | crates/core/src/lyrics.rs:1055-1080 | a line whose shown text is shorter than its only word |
| LyricLaws.TagsReadBack | crates/core/src/lyrics.rs:1045-1066 | tagged words written in a row read back as those tags, each with its own time and text |
| LyricLaws.WordsEndAtTags | crates/core/src/lyrics.rs:1049-1063 | each word ends at its own tag and starts at the tag before, the first at the cue |
| LyricLaws.EnhancedReadsBack | crates/core/src/lyrics.rs:1035-1084 | a line of tagged words becomes its texts in a row with exactly those words |
| Lyrics.WordsChain | crates/core/src/lyrics.rs:1041-1065 | the first word starts at the line's cue and each word starts where the one before ended |
| Lyrics.WordsAreSlices | crates/core/src/lyrics.rs:1050-1066 | words are slices of the stripped text in order and without overlap |
| Lyrics.NoBracketNoWords | crates/core/src/lyrics.rs:1038-1038 | a text without an opening angle bracket has no words, so skipping such lines loses nothing |
| Lyrics.ScanWords | crates/core/src/lyrics.rs:1039-1075 | the cursor always advances, and the buffer and words it leaves are the specified ones |
| Lyrics.ParseElrc | crates/core/src/lyrics.rs:1035-1084 | every parsed line gets its word timings in place, no line is added or lost |
| Korean.ComposeDecompose | crates/core/src/romanize.rs:172-189 | decomposing a Hangul syllable is the exact inverse of composing it, with every index in range of its table |
| Korean.ReadConcat | crates/core/src/romanize.rs:165-202 | a text is read as its first part, the meeting of final and initial, and the rest: each syllable depends on itself and its two neighbours only |
| Korean.SplitsExactly | crates/core/src/romanize.rs:1010-1132 | reading distributes over a split if and only if the final and initial there do not merge, or merge to their plain spelling |
| Korean.MergedReading | crates/core/src/romanize.rs:165-202 | 국 and 내 read apart do not give what they read together |
| KoreanSounds.FinalsLink | crates/core/src/romanize.rs:1010-1132 | before a silent initial a final moves over as the initial it is, a cluster leaves its first half behind, h falls silent |
| KoreanSounds.StopsNasalise | crates/core/src/romanize.rs:1010-1132 | a stop before n, m or r becomes the nasal made in its place; the one entry that stands out is named |
| KoreanSounds.LiquidsMeet | crates/core/src/romanize.rs:1010-1132 | what n, l, m and their clusters become before n, r and m |
| KoreanSounds.FinalsBreathe | crates/core/src/romanize.rs:1010-1132 | before h a final or second half of a cluster is said with breath |
| KoreanSounds.OthersDoNotMeet | crates/core/src/romanize.rs:1010-1132 | before any other initial nothing merges |
| KoreanSounds.SevenFinals | crates/core/src/romanize.rs:1006-1009 | a final alone is one of seven sounds, tense k apart |
| KoreanSounds.Gungnae | crates/core/src/romanize.rs:1158-1169 | the word for domestic in its tests reads gungnae |
| KoreanSounds.Silla | crates/core/src/romanize.rs:1158-1169 | the name in its tests reads silla |
| KoreanSounds.Joa | crates/core/src/romanize.rs:1158-1169 | the word for good in its tests reads joa |
| KoreanSounds.Hangugeo | crates/core/src/romanize.rs:1158-1169 | the word for Korean in its tests reads hangugeo |
| Korean.SplitsAtNonHangul | crates/core/src/romanize.rs:165-202 | reading splits at every character that is not Hangul |
| Korean.RomanizeKorean | crates/core/src/romanize.rs:165-202 | the one-pass loop with its pending final computes the neighbour-wise definition |
| Indic.SchwaRules | crates/core/src/romanize.rs:450-470 | the first syllable never drops its vowel, no two adjacent ones both do, only inherent vowels after a consonant are dropped, and an interior drop sits between voiced syllables |
| Indic.SilentRuns | crates/core/src/romanize.rs:450-470 | in any word, a vowel is dropped if and only if it stands an odd number of places before the end of its run of syllables whose neighbours allow it |
| Indic.BareWordAlternates | crates/core/src/romanize.rs:450-470 | special case: in a word of bare consonants exactly every second syllable from the end is silent, never the first |
| WritingLaws.WritingDropsSilent | crates/core/src/romanize.rs:471-482 | a word is written as the word with each schwa decided: left out where silent, an a elsewhere |
| WritingLaws.FlushIsSettled | crates/core/src/romanize.rs:471-482 | so a word is, syllable by syllable, its consonant, doubled where marked, its written vowel, its tail |
| WritingLaws.ConsonantReads | crates/core/src/romanize.rs:349-366 | a consonant takes a virama or vowel sign after it and keeps its own vowel before anything else |
| WritingLaws.OthersRead | crates/core/src/romanize.rs:367-418 | what a carrier, a doubling sign, a vowel sign, a listed mark and anything else read as |
| WritingLaws.TailStays | crates/core/src/romanize.rs:394-398 | a nasal or aspirate is the tail of the syllable before it, which then keeps its vowel |
| WritingLaws.MarksOutsideSyllables | crates/core/src/romanize.rs:394-414 | a vowel letter is a syllable, any other mark ends the word and is written as it reads |
| WritingLaws.Kamal | crates/core/src/romanize.rs:1214-1220 | the documented word of three bare consonants reads kamal |
| WritingLaws.Tumse | crates/core/src/romanize.rs:446-449 | the documented word with a schwa dropped inside reads tumse |
| WritingLaws.Namaste | crates/core/src/romanize.rs:1214-1220 | the greeting in its tests, with a cluster, reads namaste |
| WritingLaws.Pakkaa | crates/core/src/romanize.rs:1222-1227 | the word in its tests with an addak reads pakkaa |
| Indic.LettersConserve | crates/core/src/romanize.rs:341-418 | reading consumes every input character exactly once |
| Indic.LongestIsLongest | crates/core/src/romanize.rs:486-501 | table matching finds the longest key that begins the text, the first row among equals, and nothing only when no key fits |
| Indic.SplitsAtForeign | crates/core/src/romanize.rs:341-418 | romanization splits at a character outside the script's tables if and only if no doubling is pending there or nothing after takes it, and what it gives otherwise |
| Indic.DevanagariSplits | crates/core/src/romanize.rs:503-608 | with the Devanagari tables, romanization splits at every character outside the Devanagari block |
| Indic.GurmukhiSplits | crates/core/src/romanize.rs:610-702 | with the Gurmukhi tables, it splits at a character outside the Gurmukhi block if and only if no addak is pending there or no consonant takes it |
| Indic.AddakReachesPastSpace | crates/core/src/romanize.rs:341-418 | an addak, a space and a consonant do not read as their parts do |
| Indic.PendingMatters | crates/core/src/romanize.rs:341-418 | a pending doubling adds exactly one letter when something takes it and changes nothing otherwise |
| Indic.FlushWord | crates/core/src/romanize.rs:450-484 | the right-to-left pass and the writing pass spell the word by the silence rule |
| Indic.RomanizeIndic | crates/core/src/romanize.rs:341-418 | the scanner with its word buffer and doubling flag computes the specified reading |
| MainWindow.RunsAreConsistent | src-tauri/src/main_window.rs:329-388 | in every interleaving teardown runs at most once, and at most one armed timer can still fire |
| MainWindow.QuitIsEarned | src-tauri/src/main_window.rs:361-388 | a timer that quits was checked, then armed at least the grace period ago, nothing bumped the epoch since, and eligibility holds at firing; from check to arming, and from check to firing, it held throughout if and only if no step disturbed it; after arming only the play flag or the mini player can have |
| MainWindow.IdleUntilDisturbed | src-tauri/src/main_window.rs:353-372 | after a check that found the session idle, it stays idle up to any later moment if and only if no step before turns playback on, opens a window or starts a quit |
| MainWindow.LateArmCanQuit | src-tauri/src/main_window.rs:361-388 | a run in which a timer is armed while music plays and later quits the process |
| LifecycleLaws.NeverStranded | src-tauri/src/main_window.rs:160-388 | no run leaves a process that is neither quitting, nor in the background, nor holding its main window |
| LifecycleLaws.ChecksRetireWhenBusy | src-tauri/src/main_window.rs:361-369 | a check that finds the session busy retires every timer, one that finds it idle changes nothing |
| LifecycleLaws.WindowsRetire | src-tauri/src/main_window.rs:160-388 | building, showing, hibernating, a mounted frontend and a quit retire every timer, arming all but the new one |
| LifecycleLaws.WakingMeans | src-tauri/src/main_window.rs:373-387 | a timer wakes after five minutes and quits exactly if it is the last armed and the session is idle |
| LifecycleLaws.RevealsLeaveBackground | src-tauri/src/main_window.rs:187-263 | a window is shown out of the background only, once its frontend is there or given up on |
| LifecycleLaws.ShowRebuilds | src-tauri/src/main_window.rs:266-318 | a missing window is rebuilt once, in the background and not ready, and is there only if that went well |
| LifecycleLaws.ClosingHibernatesOrQuits | src-tauri/src/lib.rs:642-699 | closing to the tray enters the background, losing the window outside of it quits |
| LifecycleLaws.QuitIsFinal | src-tauri/src/main_window.rs:329-345 | a quit runs once and leaves the background |
| MainWindow.StaleTimersNeverFire | src-tauri/src/main_window.rs:349-375 | once the epoch has moved past a timer, no continuation lets it tear down |
| MainWindow.CancellersRetire | src-tauri/src/main_window.rs:160-263 | hibernating, showing, readiness of an existing window and resumed playback retire every armed timer |
| MainWindow.TimerSource | src-tauri/src/main_window.rs:361-372 | every armed timer goes back to a successful check and a later arming step of the run |
| MainWindow.Lifecycle.Drive | src-tauri/src/lib.rs:642-722 | the flags updated by any possible interleaving of the handlers follow the specified run, with one teardown at most and at most one timer that can still fire |
| MainWindow.Lifecycle.WakeTimer | src-tauri/src/main_window.rs:374-387 | the wake-up check tears down exactly as the specified step |
| MainWindow.Lifecycle.ShowMain | src-tauri/src/main_window.rs:187-210 | showing cancels the deadline, then reveals a ready window or rebuilds a missing one |
| MainWindow.Lifecycle.Hibernate | src-tauri/src/main_window.rs:168-183 | hibernating enters background mode and leaves it again if the window could not be destroyed |
| MainWindow.Lifecycle.OnMainDestroyed | src-tauri/src/lib.rs:686-699 | losing the main window schedules the idle exit in background mode, quits otherwise, and does nothing once quitting |
| MainWindow.Lifecycle.OnPlaying | src-tauri/src/lib.rs:875-879 | resumed playback cancels the deadline, a pause checks for one |
| RustStructure.CheckFile | scripts/check-rust-structure.py:10-52 | the errors are, line numbers aside, exactly: a closing delimiter that does not fit, the last four delimiters still open, the literal or comment the file ends in; none if and only if the delimiters met in code are well nested over the three bracket kinds and the file does not end in a string, raw string or block comment |
| LexingLaws.ScanReadsCode | scripts/check-rust-structure.py:11-50 | for any file written from code, comments nested to any depth, strings, raw strings, characters and lifetimes, the delimiters met are exactly those of its code |
| LexingLaws.CheckWritten | scripts/check-rust-structure.py:10-52 | such a file passes if and only if the delimiters of its code are well nested |
| LexingLaws.LiteralIsSilent | scripts/check-rust-structure.py:19-24 | a string or character literal meets no delimiter up to its closing quote, and a backslash hides what follows it |
| LexingLaws.RawIsSilent | scripts/check-rust-structure.py:25-28 | a raw string meets none up to a quote with all its hashes, and one with fewer does not end it |
| LexingLaws.CommentIsSilentToItsEnd | scripts/check-rust-structure.py:16-18 | a block comment meets none up to its own end, whatever is nested in it |
| LexingLaws.BracketsPair | scripts/check-rust-structure.py:6-7 | each bracket is closed by its own kind only |
| LexingLaws.UnclosedIsOpen | scripts/check-rust-structure.py:51-52 | a string or comment that is not closed leaves the file open, a lone quote does not |
| RustStructure.StackIffWellNested | scripts/check-rust-structure.py:44-51 | the stack accepts exactly the words generated by matched brackets around and after well-nested words |
| RustStructure.BreaksCompose | scripts/check-rust-structure.py:11-50 | a file that ends in code or a line comment, a line break, and another file scan to the two words in a row, unless a quote ends the first and another begins the second |
| RustStructure.QuotesMakeLiteral | scripts/check-rust-structure.py:39-43 | such a pair of files, whose break becomes a character literal and whose brace becomes code |
| RustStructure.TrailingCommentIsInvisible | scripts/check-rust-structure.py:14-15 | a line comment at the end of a file changes neither its delimiters nor its verdict |
| Personal.DeepEqualIffSameMeaning | client/lib/personal.js:304-322 | the comparison holds if and only if the two values mean the same, with objects as maps at every depth |
| Personal.DeepEqualIsEquivalence | client/lib/personal.js:304-322 | the comparison is reflexive, symmetric and transitive although it looks at membership one way |
| Personal.KeyOrderIsInvisible | client/lib/personal.js:300-322 | an object equals every reordering of its entries |
| Personal.Compare | client/lib/personal.js:304-322 | the recursive loops with their early exits compute the comparison |
| Radio.RecentHolds | crates/core/src/radio.rs:34-43 | the unbounded recency list has distinct ids and holds exactly the latest record of each |
| Radio.OneMore | crates/core/src/radio.rs:37-41 | forgetting the id, appending and dropping the oldest on the bounded cache is the newest part of the same step on the unbounded list |
| Radio.StationCache.Remember | crates/core/src/radio.rs:34-43 | after any run the cache is the newest part, at most the bound, of the recency list of everything remembered |
| Radio.StationCache.Cached | crates/core/src/radio.rs:45-47 | a lookup answers the last write for the ids still among the newest, and nothing for the rest |
| Database.SweepIsInvisible | crates/core/src/db.rs:281-321 | after any run of inserts, evictions and clears at non-decreasing time, no lookup can tell that expired rows were swept |
| Database.SweepTakesExpired | crates/core/src/db.rs:313-321 | an insert takes out exactly the rows whose time has come, its own included, and changes no other |
| Database.PutLeavesLiveRows | crates/core/src/db.rs:313-321 | after an insert the table holds live rows only |
| Database.ListingIsUnique | crates/core/src/db.rs:705-717 | position order determines a playlist's listing |
| Database.DeleteDrops | crates/core/src/db.rs:685-703 | deleting a row takes that track out of the listing and keeps the order and payloads of the rest |
| Database.InsertAppends | crates/core/src/db.rs:665-674 | a row past every position extends the listing at its end |
| Database.Playlists.NextPosition | crates/core/src/db.rs:665-669 | the next position is past every row of the playlist by exactly one, zero when there is none, also after the tail was removed |
| Database.Playlists.AddTrack | crates/core/src/db.rs:649-683 | the rows refine a duplicate-free sequence: append if absent and say whether, refuse a missing playlist, leave every other playlist alone, stamp the change |
| Database.Playlists.RemoveTrack | crates/core/src/db.rs:685-703 | removal refines dropping the track from the sequence, and stamps only a real change |
| Database.Playlists.Delete | crates/core/src/db.rs:637-646 | deleting takes the playlist and all its rows, or fails and changes nothing |
| Database.Playlists.TrackJson | crates/core/src/db.rs:705-717 | reading in position order gives the payloads of the sequence |
| Database.Memberships | crates/core/src/db.rs:539-564 | the index lists a playlist under a track once for each table holding the pair, and under nothing else |

## Left out

- Discord.PushSettles: a successful push is not always followed by idleness; the lemma gives the exact condition, see "What the proofs found".
- MainWindow.QuitIsEarned: eligibility at every moment from check to firing is promised only when nothing disturbed it on the way; `LateArmCanQuit` shows a run in which it fails.
- Discord.EstimateIsAnchored: the estimate is not always the time played; the lemma states by how much late messages put it off. Stamping a tick and sending it are one moment, as they are one expression in the source.
- Orchestrator.ChoiceRespectsRequest: speaks of places in the chain; `SourceIsEnabled` speaks of the client that answered.
- Lyrics.WordTimingsAreSound: the words are slices of the text before trimming; `ShownWords` says when they are slices of the shown text.
- Discord.RunsAreRateLimited: the loop applies a whole burst before one wake-up; the run allows any interleaving, which covers it. Shutting down is the disconnect step followed by nothing.
- Discord: field clamping, artwork and links of the card, the status byte, and sub-millisecond time.
- Mmr and Recommendations: scoring text helpers (trimming, lower-casing, credit splitting) and `decay` are given functions; ids compare by code point; inherited object keys and malformed blobs are not modelled; the missing-clock default is the caller's.
- LocalLibrary: the directory walk and tag reading are inputs; the first-artist rule and the splitting of paths into components are parameters; covers, album pages and single-file removal are not modelled.
- Orchestrator.Resolver.Resolve: format picking, URL deciphering, tokens and probes are inputs; a started heal only takes effect through later calls that clear the failure memory.
- Lyrics.ParseLrc: the cursor counts characters, and wrap-around of the final 64-bit product is not modelled (overflow of the parsed digits is).
- Lyrics: TTML, line and word merging (`lrc_mux`), choice by duration, and provider requests.
- Korean and Indic: script detection, Cyrillic tables and Pinyin, which are lookups or external.
- MainWindow: a wake-up check is one step, the epoch does not wrap, geometry and focus are not modelled, and the non-Linux branches are left out. A successful check may be armed more than once, which allows more runs than the program has. Whether a session could be resumed is not part of the state, since the code never asks.
- RustStructure.CheckFile: the line numbers in the messages are not specified; walking the source tree is not modelled.
- Personal: not-a-number, object identity shortcuts (harmless, as equality is reflexive) and the other reducers of the blob.
- Radio: station lookup over the network and validation of ids and addresses.
- Database: failing statements, artwork queries, renames of untouched tables, and the account identity transactions.
- Queue code (`state.rs`) is not part of this model.

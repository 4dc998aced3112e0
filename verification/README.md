# Verified engines of a voxel game

Dafny models of the stateful cores of the game client, each proved against what
its documentation and comments promise. `dafny verify dfyconfig.toml` checks the
whole project.

What the game does step by step is modelled step by step: classes whose methods
change fields, loops over arrays, maps iterated in any order. Each method is tied
to a function of the old state, or to a relation that fixes the new one, and the
promises are lemmas over those functions and over whole runs.

- **The mixer** (`Backend`, `SoundState`, `Mixing`, `Ranking`, `Tuning`, `Asking`,
  `Budget`, `Loudness`, `Sessions`, `SoundSystem`, `Sources`). Four stores hold the voices of one playback device.
  `SoundState` is a small calculus of slots: at any time every live voice is held
  in exactly one slot but for a set of loose ones, and each operation opens, puts
  in, takes out or closes one. The device is there or not, a flag anyone may flip
  between two requests; it grants what it likes; only a live voice may be updated or
  stopped. `Ranking` is the greedy budget, `Tuning` the level
  every voice must have after a frame, `Asking` the requests a frame adds to the
  backend's log, each under the layer it is made for, `Loudness` the bound ranking
  puts on a level, `Sessions` the epoch machine.
- **From the service to the mixer** (`Frames`, `Service`, `Streams`, `AudioRun`). The
  journal, its validator, and runs of every request in any order across world changes
  and device losses: a ledger computed from the requests alone says exactly which
  occurrences are realized, each once; the backend is asked at most once for each layer
  of each; no voice is lost, doubled or too loud; the streams granted to a session are
  those its machine opens.
- **Voice playout** (`Serial`, `Voice`, `VoiceRuns`, `VoiceOrder`, `VoiceGaps`). The jitter
  buffer on the circle of 2^32 sequence numbers, compared as in section 3.2 of
  RFC 1982.
- **Capture** (`Capture`, `CaptureForm`, `CaptureBursts`, `CaptureTalk`). Resampling,
  framing, and push-to-talk under three-thread interleaving: bursts never mix, and
  what is said while a key is held is not lost.
- **The minimap** (`Raster`, `Minimap`). An in-place shift of three rasters, a
  repaint of a strip and a re-shade of edges, against a full rebuild.
- **Grid rays** (`Dda`, `Interact`, `StepIntegral`, `Acoustics`). The block ray cast
  and the sound occlusion walk, over the reals.
- **Chunk boxes** (`Coord`, `CoordDiff`). The odometer enumeration and the
  span-skipping difference.
- **Optimistic edits** (`Inventory`, `Play`). Predict, confirm, roll back, with an
  exact ledger.
- **The app** (`Apps`). Screens, loading, hosting and joining: which slot may be
  open, served or deleted when.
- **Settings** (`SettingsText`, `SettingsTable`, `Settings`, `SettingsForms`,
  `SettingsClamp`). The settings file, character by character, over the real table of
  46 rows.
- **The hash** (`Hash`). The splitmix64 finisher and its stream.

## Where a promise fails

Seven promises hold only under a condition. Each has a concrete exception and the
exact condition, proved for all inputs in both directions.

- A voice session's epoch floor is forgotten by closing a session that is already
  closed; within a world it stands if and only if no tombstone is closed (`Sessions`).
- The minimap agrees with a full rebuild over an unchanging surface. A shift over a
  changed one stores the new stamp and keeps stale texels: it leaves the map current
  if and only if what the kept texels showed is what the surface has there now
  (`Minimap`).
- `coords_outside` equals the filtered enumeration if and only if no row runs
  through a span of `other` that is inside out with a gap; non-empty boxes have
  none, a vertical radius of -1 makes one. As a set it is always right (`CoordDiff`).
- Playout forgets arrival order if and only if the packets that start it span less
  than half the circle (`VoiceOrder`).
- Settings saved on one device and loaded on another come back whole if and only if
  the sample count is 1 or within the loading device's ceiling (`Settings`).
- What is said into a held key press is sent whole if and only if no sample of it was
  popped before the encoder's first load of the press; an iteration begun before the
  press may still be popping (`CaptureTalk`).
- An inventory takes what there is room for if and only if the room is below 2^32 or
  its low 32 bits suffice: `add` narrows the room with `as u32` (`Inventory`).

An eighth is a matter of range: a block coordinate is clamped to 2.05e9 either way, and
a ray runs inside the cells it visits if and only if each coordinate of its origin lies
in `[-2.05e9, 2.05e9 + 1]` (`Interact`). The comment at `src/math/mod.rs:85` names an
older limit; the constant at `src/math/mod.rs:30` is what the code uses.

## Model

| member | source | states |
|---|---|---|
| `SoundSystems.SoundSystem.Submit` | src/audio/runtime.rs:370-430 | How a submit ends. Without a device, and only then, it is dead and merely raises the mark; with one it is idle exactly when there is nothing to do, and blind only without a window: those change nothing. Otherwise it mixes: ranks exactly the aged, joined and reconciled sources, each observed once; drives each group one legal step; the backend's log then holds one more request for each due clip layer and each due layer of a winning emitter without a voice, with its clip, level and answer, and no other request for any origin; leaves every held voice, UI voices included, at exactly its level; releases exactly the finished groups; and holds the budget. Of the sources ranked none is heard while one that outranks it, for no more voices, is not. |
| `SoundSystems.SoundSystem.SilentWithoutSources` | src/audio/runtime.rs:359-368 | With no live source the voices alive at the backend are exactly those the menus play. |
| `SoundSystems.SoundSystem.OneSourceIsEnough` | src/audio/runtime.rs:359-363 | One group, loop or session keeps the mixer at work, a closed session's floor included. |
| `Asking.AskedIfDue` | src/audio/runtime.rs:616-705 | A mixed frame asks for a clip layer if and only if it is pending, its group won and its delay is over; for a loop's layer if and only if it has no voice, its emitter won and its delay is over. |
| `SoundSystems.SoundSystem.RealizeOccurrences` | src/audio/runtime.rs:432-469 | Exactly the occurrences above the mark as it stood before the loop become pending groups of age zero; older groups and emitters age; the mark ends at the highest id; no voice changes hands. |
| `Sources.RealizedOnceIfNew` | src/audio/runtime.rs:432-469 | An id is realized by a frame exactly once if the journal holds it and it lies above the mark, else not. |
| `Sources.MarkIsHighest` | src/audio/runtime.rs:432-469 | The mark ends at the highest id seen: no id of the journal or old mark is above it, and it is one of them. |
| `Sources.RealizedGroups` | src/audio/runtime.rs:432-469 | Field by field: a new occurrence's group has its cue, place and gain, age zero, unheard, each layer pending with the catalog's draw; every other group is as it was, a frame older. |
| `SoundSystems.SoundSystem.ReconcileEmitters` | src/audio/runtime.rs:471-520 | The emitters are afterwards exactly the table's: same id and cue keeps the loop and takes the new place and gain, anything else is stopped or starts anew; levels of surviving voices are untouched. |
| `Sources.ReconciledAt` | src/audio/runtime.rs:471-520 | Field by field: the emitter of a table's entry has its cue, place and gain; kept with its voices, age and smoothing if the cue is the same, else without a voice and with the catalog's draws. |
| `Sources.SaltsDiffer` | src/audio/runtime.rs:495-500 | Emitters' draw ids are distinct, and never their own ids. |
| `Mixing.FindsTabled` | src/audio/runtime.rs:477-482 | The search of the table finds an id exactly when it is listed, and an entry with that id. |
| `SoundSystems.SoundSystem.RankCandidates` | src/audio/runtime.rs:523-614 | Over any iteration order of the three maps: each source is observed once, every group and every present stream is listed once with its audibility and the voices it would hold, and exactly the greedy winners are marked. No source is heard while a louder one, or as loud a one earlier in the order clip, emitter, voice, then id, that asks for no more voices is not. |
| `SoundSystems.SoundSystem.GrantVoices` | src/audio/runtime.rs:588-612 | Walking down a ranking marks exactly the groups granted, skipping whole groups that do not fit. |
| `Sources.ObservedWhereTheyAre` | src/audio/runtime.rs:523-582 | Each source is traced to where it is, a placeless clip from nowhere; an absent session is left alone; marks are cleared. |
| `Sources.ObserveMoves` | src/audio/runtime.rs:105-137 | The first observation is taken as it is; a later one leaves exactly the share `1 - k` of the way and never goes past. |
| `Sources.CandidatesAreLevels` | src/audio/runtime.rs:533-582 | A source is ranked by exactly the level its loudest layer, or its stream, would be sent at, with the buses full and nothing cut off. |
| `Sources.PeakIsDrawn` | src/audio/runtime.rs:553-558 | The peak of an emitter's draws is the greatest of them, or zero. |
| `Sources.AbsentAreNotHeard` | src/audio/runtime.rs:566-582 | An absent session is granted no voice. |
| `Ranking.RankingIsUnique` | src/audio/runtime.rs:583-587 | Audibility descending then key ascending determines one order: sorted listings of the same candidates are equal. |
| `Ranking.WinnersIgnoreOrder` | src/audio/runtime.rs:525-612 | The winners do not depend on the order in which the maps were iterated. |
| `Mixing.WinnersAreDetermined` | src/audio/runtime.rs:525-612 | Any two listings of the same stores have the same winners, so the marks are a function of the stores. |
| `Ranking.WinsIfItFits` | src/audio/runtime.rs:588-594 | A candidate wins if and only if its cost fits what the winners ranked above it left. |
| `Ranking.CostsFitBudget` | src/audio/runtime.rs:588-594 | The winners' costs and the unused rest add up to the budget exactly. |
| `Ranking.LouderWins` | src/audio/runtime.rs:583-612 | Of two candidates the louder one wins if the other does, unless it costs more. |
| `Ranking.TieGoesToFirst` | src/audio/runtime.rs:583-612 | Of two equally loud ones that is the clip before the emitter before the voice, and of one kind the smaller id. |
| `Budget.FitsBudget` | src/audio/runtime.rs:538-729 | After a frame the sounding clip layers, the layers of winning emitters and the winning sessions, counted as a set of slots, are at most `max_voices`. |
| `SoundSystems.SoundSystem.ApplyClipLayer` | src/audio/runtime.rs:616-670 | One layer: the call made, its level, the layer's step (a due one sounds or is given up, a sounding loser stops for good), the log with one more request for this layer exactly if it was due, and ownership of the voice moved accordingly. |
| `SoundSystems.SoundSystem.ApplyClipGroups` | src/audio/runtime.rs:616-670 | In any order of the groups: each layer takes its step, the backend's log gains exactly one request for each due layer of each group and none for any other origin, and every clip voice ends at its level with all other voices untouched. |
| `SoundSystems.SoundSystem.ApplyEmitterLayer` | src/audio/runtime.rs:672-704 | One emitter layer: a voice it has is updated (to silence when the group lost), one it lacks is asked for, looped, once, exactly when due and won. |
| `SoundSystems.SoundSystem.ApplyEmitters` | src/audio/runtime.rs:672-705 | In any order: the log gains exactly one looped request for each layer without a voice that is due and won and none for any other origin; every emitter keeps its layers and their voices, and is left at its level. |
| `SoundSystems.SoundSystem.ApplySessions` | src/audio/runtime.rs:707-729 | Every stream is left at its level: zero when absent, deafened or outranked. |
| `Tuning.LosersAreSilent` | src/audio/runtime.rs:672-729 | Once a frame has set the levels, every layer of a losing emitter and every absent, losing or deafened session stands at gain zero, its voice still live. |
| `Tuning.WinnersSound` | src/audio/runtime.rs:616-729 | After a frame a winner is never silent, unless its response, a gain or its bus is zero. |
| `Tuning.LevelInFull` | src/audio/runtime.rs:984-997 | The level sent is the response, cut at one, times what was authored, times the bus, cut at four. |
| `Loudness.AppliedWithinRanked` | src/audio/acoustics.rs:373-385 | Ranking never starves a louder group: after any mixed frame the level of every voice held for a ranked source is at most the audibility that source was ranked by. What it asks of the state before the frame holds throughout every run (`AudioRuns.Play`). |
| `Loudness.ClipLevelWithin` | src/audio/runtime.rs:533-536 | With gains drawn as the catalog bounds them, no layer of a clip group is louder than the group was ranked, which counts the cue's loudest layer. |
| `Loudness.EmitterLevelWithin` | src/audio/runtime.rs:553-558 | The loudest draw bounds each of an emitter's layers, so none is louder than the emitter was ranked; muted ones included. |
| `Loudness.FrameKeepsWithin` | src/audio/runtime.rs:432-670 | Every layer a frame adds, keeps or steps has the gain its cue's draw allows, so the bound holds again next frame. |
| `Loudness.FrameBounds` | src/audio/runtime.rs:432-729 | After a mixed frame no voice held for a clip, a loop or a session is louder than its source is audible, and every source is within what the catalog authored for it, whatever the levels were before. |
| `Loudness.SessionBounds` | src/audio/runtime.rs:733-857 | Opening, bumping, placing or closing a session keeps that bound: the key's stream is gone, new and at level zero, or the same. |
| `SoundSystems.SoundSystem.ReleaseFinished` | src/audio/runtime.rs:405-429 | Exactly the groups past their duration go, their sounding voices stopped, all other levels unchanged. |
| `SoundSystems.SoundSystem.PollStarvation` | src/audio/runtime.rs:949-957 | A stream is reported exactly when its flag has risen since the last poll. |
| `SoundSystems.SoundSystem.IngestVoice` | src/audio/runtime.rs:733-785 | Whatever packet comes: one of an epoch beyond its session's, or of a session not known, stops the old stream if there is one and then, with a device, asks for one stream of that session and epoch; granted, the stream is recorded muted with the packet in its queue, refused or without a device the epoch known before stands. One of the stream's own epoch is offered to that stream, whose queue takes it or is full. Any other changes nothing and asks for nothing. |
| `SoundSystems.SoundSystem.OpenSession` | src/audio/runtime.rs:791-833 | With a device the stream is asked for exactly once, without one never. A granted stream is recorded muted and holding the packet; a refusal or a missing device leaves the floor as a tombstone. |
| `SoundSystems.SoundSystem.SetSessionPresent` | src/audio/runtime.rs:836-848 | Presence and place change, streams and ownership do not. |
| `SoundSystems.SoundSystem.CloseSession` | src/audio/runtime.rs:851-857 | A stream is stopped and leaves its epoch behind; any other key is forgotten, tombstones included. |
| `Sessions.FloorStands` | src/audio/runtime.rs:733-857 | One step keeps a key's epoch floor, or raises it, if and only if it neither closes the key's tombstone nor leaves the world. |
| `Sessions.StaleStaysShut` | src/audio/runtime.rs:851-857 | Stale epochs can open nothing after a step if and only if the step neither closed the tombstone nor left the world. |
| `Sessions.FloorStandsOverRuns` | src/audio/runtime.rs:733-857 | Over any run within a world that closes no tombstone of the key, its floor never decreases, whatever the backend refuses. |
| `Sessions.OpenedEpochsRise` | src/audio/runtime.rs:733-857 | Over any such run the epochs of successive streams opened for the key strictly increase, all above the floor it started with. |
| `Sessions.StretchRises` | src/audio/runtime.rs:733-857 | In any run, world changes and forgotten floors included, every stretch that forgets no floor of the key opens streams of strictly rising epochs, and the run's streams are those before, in and after the stretch. |
| `Sessions.StaysNewer` | src/audio/runtime.rs:733-857 | However often an epoch's stream was refused, and whatever was closed or left since, as long as none of it or of a later one was granted its epoch stays beyond what the session is known by: its next packet asks again. |
| `Sessions.ClosedTwiceReopensStale` | src/audio/runtime.rs:851-857 | The concrete exception: open at epoch 5, close twice, and epoch 3 opens a stream. |
| `SoundSystems.SoundSystem.Service` | src/audio/runtime.rs:887-899 | The `swap_remove` loop leaves exactly the UI voices with time left and stops the others. |
| `SoundSystems.SoundSystem.PlayUi` | src/audio/runtime.rs:907-944 | Only UI cues sound. With a device each layer is asked for exactly once, at its level, after the expired are stopped; each granted voice is kept with its expiry; the draw counter advances. Without one nothing is asked. |
| `SoundSystems.SoundSystem.UiCallsAreLayers` | src/audio/runtime.rs:918-940 | One request for each layer, once through, with the layer's clip, level and answer. |
| `SoundSystems.SoundSystem.UiLevelInFull` | src/audio/runtime.rs:918-946 | A UI layer is sent at the product of its gains, cut at four. |
| `SoundSystems.SoundSystem.ExpiresWithTheCue` | src/audio/runtime.rs:907-944 | A UI voice lasts as long as its cue's longest layer, and never less than no time. |
| `SoundSystems.SoundSystem.EnterWorld` | src/audio/runtime.rs:330-351 | All four stores, the starvation mirror and the mark are emptied and no backend voice is left live. |
| `AudioRuns.ValidKeepsVoices` | src/audio/runtime.rs:330-857 | What every operation keeps: each handle the backend granted is live and held in exactly one place, or was stopped exactly once and is held nowhere. |
| `AudioRuns.Perform` | src/audio/service.rs:457-529 | Every request to the service or the mixer, device loss and return included, keeps the joint invariant and the loudness bound, does to the ledger (next id, ids queued, ids realized, device) what the request says, and takes the session table one step of its machine, the log gaining the streams of that step alone; a world change leaves nothing live. A voice packet is answered as `IngestVoice` says. |
| `AudioRuns.Play` | src/audio/service.rs:348-529 | Over any sequence of requests, world changes and device losses included: no voice is lost or doubled; the backend's log holds at most one request for each layer of each one-shot; the occurrences realized are exactly those the ledger computes from the requests alone, each once; the streams granted to each session are exactly those the history of the script opens; over an authored catalog no voice is ever louder than its source is audible; after a world change every handle ever granted has been stopped exactly once. |
| `AudioRuns.Start` | src/audio/runtime.rs:287-322 | A new service and a new mixer meet what a run asks for, with nothing requested yet, and over an authored catalog no voice too loud. |
| `AudioRuns.GrantedEpochsRise` | src/audio/runtime.rs:733-857 | Over any stretch of a run that forgets no floor of the key, so in particular between world changes and closed tombstones, the epochs of the streams the backend granted for the key rise strictly, read off the backend's log. |
| `AudioRuns.StillAsks` | src/audio/runtime.rs:791-833 | The same over runs of requests, read off the backend's log. |
| `AudioRuns.RealizedWhenCommitted` | src/audio/service.rs:366-386 | Over any run, an occurrence that was queued is realized, exactly once, if and only if the request that next empties the journal is a commit made while there is a device; else never. |
| `Frames.New` | src/audio/frame.rs:72-136 | Over the reals, a snapshot is accepted if and only if it is admissible, and a refusal names the first fault in the documented order of checks. |
| `Frames.FaultlessIsAdmissible` | src/audio/frame.rs:90-128 | The running checks (each id against the one before) are the global property (ids strictly increasing, emitter ids distinct). |
| `Services.AudioService.PlayAt` | src/audio/service.rs:458-468 | A one-shot is queued under the next id, its gain clamped, unless the cue is missing or the journal full; ids stay strictly increasing. |
| `Services.AudioService.Refresh` | src/audio/service.rs:204-223 | A window asked for is there, and is fresh or of the same cell, the same edits and less than half a second old. |
| `Services.AudioService.BuildFrame` | src/audio/service.rs:374-381 | Every journal the service can hold makes an admissible frame, with a window whenever there is something to trace. |
| `Services.AudioService.Finish` | src/audio/service.rs:366-397 | With a device each journal entry is realized exactly once, now; without one none is, ever. The frame is mixed if and only if there is a device and something sounds, is queued or is an ambient bed, and is never blind. The journal is emptied; the joint invariant holds again. |
| `Services.AudioService.Commit` | src/game/audio.rs:60-68 | Whatever the skip test answered before the hooks ran, nothing queued is skipped: the journal is realized as by `finish`, and a commit that is skipped had none. |
| `Services.AudioService.SkippedInSilence` | src/audio/service.rs:286-300 | A commit is skipped only while no voice is alive at the backend, nothing is queued, the frame is idle and the listener still. |
| `Services.AudioService.SettleMenu` | src/audio/service.rs:399-405 | The dirty bit goes exactly when neither a journal nor an ambient bed needs it, so a queued journal stays dirty. |
| `Services.OnceKept` | src/audio/runtime.rs:432-670 | A mixed frame whose ids are new realizes each once, and leaves at most one request in the backend's log, ever, for each layer of a one-shot, none yet for a pending one. |
| `Services.IdsOnce` | src/audio/service.rs:348-352 | A journal of strictly increasing ids holds each id once and no other. |
| `Voice.JitterBuffer.Push` | src/audio/voice.rs:160-175 | Which packets are buffered, which are duplicates, which are stale behind or too far ahead, and the buffer after. |
| `Voice.JitterBuffer.Pull` | src/audio/voice.rs:185-243 | The playout decision and the state after it. |
| `Voice.JitterBuffer.OldestSeq` | src/audio/voice.rs:177-183 | The fold over the buffer. |
| `VoiceGaps.NearPushPlays` | src/audio/voice.rs:160-243 | A started buffer takes every number not held from its head to 100 steps ahead, and plays it at the pull its number names, in any interleaving. |
| `VoiceGaps.LateOrFarIsStale` | src/audio/voice.rs:160-175 | A number behind the head, or more than 100 steps ahead, is stale and leaves the buffer as it was. |
| `VoiceGaps.HeldIsDuplicate` | src/audio/voice.rs:160-175 | A number held already is a duplicate, and the packet that came first stays. |
| `VoiceGaps.PrebufferTakes` | src/audio/voice.rs:160-175 | While prebuffering every new number is taken, at the end of the buffer. |
| `VoiceGaps.StartsExactly` | src/audio/voice.rs:185-207 | A pull starts playout if and only if the target is met, or the producer is gone and something is held. |
| `VoiceGaps.GapIsConcealed` | src/audio/voice.rs:209-243 | Where the head's number is missing and a later one is held, the first five pulls in a row conceal, the others are silent and starved; the head moves on either way. |
| `VoiceGaps.GapThenPacket` | src/audio/voice.rs:209-243 | A whole gap: it conceals as long as the budget lasts, is silent for the rest, and then the packet held is decoded. |
| `VoiceGaps.DryIsConcealed` | src/audio/voice.rs:209-243 | With nothing left to play: finished if the producer is gone; else five pulls conceal, and the sixth is silent, starved and back to prebuffering. |
| `VoiceGaps.DecodingForgives` | src/audio/voice.rs:209-222 | A decoded packet wipes the count of concealed pulls. |
| `Serial.NewerIsFurther` | src/audio/voice.rs:33-40 | On numbers less than half a circle ahead of a common base, serial comparison is comparison of distances, across any wrap. |
| `VoiceRuns.PullDecodesTheHead` | src/audio/voice.rs:209-243 | A started pull decodes if and only if the head's number is buffered, and then that packet. |
| `VoiceRuns.PullAdvances` | src/audio/voice.rs:209-243 | Whatever a started pull decides, the head moves one step, and every packet up to half a circle ahead stays. |
| `VoiceRuns.FarPacketIsDropped` | src/audio/voice.rs:209-243 | A packet more than half a circle ahead is dropped undecoded by the next pull. |
| `VoiceRuns.PlaysInItsSlot` | src/audio/voice.rs:160-243 | In any interleaving of pushes and pulls, a packet `d` steps ahead of the head is decoded by exactly the `d`-th next pull. |
| `VoiceRuns.AcceptedPushPlays` | src/audio/voice.rs:160-243 | A push that a started buffer accepts is always played, at the pull its number names, within the forward window. |
| `VoiceRuns.HeadCountsPulls` | src/audio/voice.rs:160-243 | Within a playout episode the head is the starting number plus the pulls played since. |
| `VoiceRuns.DecodesInSerialOrder` | src/audio/voice.rs:160-243 | Within an episode of at most 2^31 pulls each decoded number is serially newer than all decoded before: in order, none twice. |
| `VoiceRuns.OldestIsFirst` | src/audio/voice.rs:177-183 | For packets within half a circle the head chosen at the start is the oldest, in whatever order they arrived. |
| `VoiceOrder.ArrivalOrderIsForgotten` | src/audio/voice.rs:160-243 | Buffers holding the same packets in different orders decide alike for ever, as long as what they hold at the start spans less than half a circle. |
| `VoiceOrder.ArrivalMattersExactly` | src/audio/voice.rs:160-207 | Whatever packets meet the prefill of a new buffer, or are left by a gone producer: every order of their arrival starts playout at the same number if and only if they span less than half a circle. |
| `VoiceOrder.OrderMattersExactly` | src/audio/voice.rs:177-183 | The fold chooses the same packet in all orders if and only if less than half a circle spans them. |
| `VoiceOrder.UnspannedOrderMatters` | src/audio/voice.rs:160-207 | The exception, reached from a new buffer: four packets a quarter of the circle apart, pushed in two orders, are started at a different one by the same pull. |
| `VoiceOrder.PrefillPlaysInOrder` | src/audio/voice.rs:160-243 | With a live producer: packets that meet the prefill in any arrival order, less than half a circle apart, are played from the oldest on, each by the pull its number names. |
| `VoiceOrder.ConcealsAreBounded` | src/audio/voice.rs:185-243 | In every run, at most `PLC_MAX_CONSECUTIVE` decisions in a row conceal. |
| `VoiceOrder.StarvedOnlyPastBudget` | src/audio/voice.rs:185-243 | Starvation is raised only by a silent frame of a started playout whose concealment budget is spent. |
| `VoiceRuns.DrainPlaysEverySlot` | src/audio/voice.rs:185-243 | Draining a started, abandoned buffer decodes each packet within half a circle in its slot, conceals only gaps, and answers `Finished` right after the last, for ever. |
| `VoiceRuns.DrainFromPrebuffer` | src/audio/voice.rs:185-243 | The same from prebuffering, with the exact reach of the first pull, which reclaims nothing. |
| `VoiceRuns.DrainEnds` | src/audio/voice.rs:185-243 | With nothing left to play every drained pull answers `Finished`. |
| `Raster.Shift` | src/minimap.rs:428-446 | The in-place, overlapping row copies move the raster: every kept value is the old value `dx` texels and `dz` rows on, the rest untouched. |
| `Raster.CopyWithin` | src/minimap.rs:435-439 | The source is read whole before anything is written. |
| `Minimap.Minimap.PaintRect` | src/minimap.rs:301-349 | Chunk tiling paints every texel of the rectangle with its own column's height and colour, and nothing else. |
| `Minimap.Minimap.ShadeRect` | src/minimap.rs:360-367 | Each texel of the rectangle is shaded once from what it held, against its west and north neighbours. |
| `Minimap.Minimap.RestoreUnshaded` | src/minimap.rs:352-358 | Exactly the rectangle returns to its unshaded colours. |
| `Minimap.Minimap.RebuildFull` | src/minimap.rs:248-252 | The rasters show the world around the position. |
| `Minimap.Minimap.MoveAndPaint` | src/minimap.rs:254-269 | After the shift and the repaint, unshaded colours and heights are those of the patchwork of old and new, and kept texels carry their old shading. |
| `Minimap.Minimap.RebuildShift` | src/minimap.rs:254-297 | Shift, repaint of the L-shaped strip and re-shading of the changed edges show exactly what a whole rebuild of that patchwork would. |
| `Minimap.Minimap.ShiftTo` | src/minimap.rs:216-226 | After a shift the rasters show the current surface if and only if what they showed on the kept texels is what the surface has there now; so always over a surface they already showed. |
| `Minimap.ShadedSource` | src/minimap.rs:254-297 | Away from the changed edges the neighbours came along, so the moved shading is the right one. |
| `Minimap.CurrentExactly` | src/minimap.rs:209-297 | A raster that portrays the patchwork of an old and a new picture portrays the new one if and only if the two agree on the texels kept. |
| `Minimap.Minimap.Rebuild` | src/minimap.rs:209-234 | When a rebuild paints, skips or is not due, and the centre, face and stamp it leaves. A full one leaves the rasters current; a shifting one if and only if the kept texels agree with the surface as it is; up-to-date rasters stay so. |
| `Minimap.Minimap.DueExactly` | src/minimap.rs:169-180 | No rebuild is due exactly while the throttle lasts, the face stays and the centre is nearer than the recentring distance both ways. |
| `Minimap.Minimap.ShiftsExactly` | src/minimap.rs:209-227 | A rebuild shifts exactly when the centre moved, the throttle lasts, the face stays, and some column shown is shown again. |
| `Minimap.Minimap.SkippedIsUpToDate` | src/minimap.rs:218-246 | Rasters current when their stamp was taken are current whenever a rebuild is skipped, if the stamps tell surfaces apart. |
| `Minimap.SameStampSamePicture` | src/minimap.rs:225-246 | A raster's stamp covers every column it shows: with stamps that tell surfaces apart, skipping on an unchanged stamp loses nothing. |
| `Minimap.TexelShows` | src/minimap.rs:301-350 | Each texel's bytes are the red, green, blue and alpha of the column at its offset from the centre, or the void's. |
| `Minimap.ShadeFollowsSlope` | src/minimap.rs:448-470 | A texel above both the neighbours it has is brightened, one below either is darkened, a level or lone one and its alpha stay. |
| `Minimap.Wander` | src/minimap.rs:171-234 | Over a fixed surface, after any sequence of rebuilds at any positions and faces, the rasters are those of a full rebuild at the centre and face the map then has. |
| `Minimap.EditHiddenByShift` | src/minimap.rs:209-234 | The exception when the surface changes: a shift stores the new stamp, so the next interval rebuild skips a stale texel. |
| `Interact.RunMarch` | src/interact.rs:103-180 | A hit is the first visited cell that is solid, `previous` the one before it (or itself at the start); a miss passed only open cells; the ray runs inside the visited cells all the way if and only if its origin is in range; the loop ends. |
| `Interact.NoTunnel` | src/interact.rs:103-180 | For every parameter up to the end, the ray's point lies in a visited cell entered by then. |
| `Interact.Advance` | src/interact.rs:153-165 | The nearest boundary is crossed into a face neighbour; of axes equally near, the first of x, y and z. |
| `Interact.ClampIsExact` | src/math/mod.rs:27-89 | The block coordinate is the floor if and only if the value lies in `[-2.05e9, 2.05e9 + 1)`. |
| `Interact.StartCellHolds` | src/math/mod.rs:27-89 | The start cell holds the point it was made from if and only if the value lies in `[-2.05e9, 2.05e9 + 1]`. |
| `Dda.CrossTracks` | src/interact.rs:124-165 | Crossing a boundary enters the neighbour and finds its far boundary. |
| `Dda.CrossingUsesRoom` | src/audio/acoustics.rs:244-266 | Each crossing within the length uses up one of finitely many boundaries. |
| `Acoustics.NewWindow` | src/audio/acoustics.rs:75-90 | A window is captured if and only if no side is too long and the cells fill it. |
| `Acoustics.IndexInjective` | src/audio/acoustics.rs:106-123 | Two cells of the window never share a stored place. |
| `Acoustics.ReadsRowMajor` | src/audio/acoustics.rs:105-121 | Cells are stored x fastest, then y, then z; any other cell reads unloaded. |
| `Acoustics.UniformAbsorbs` | src/audio/acoustics.rs:162-275 | Where all cells along a segment are alike the occlusion is that cover's own over the whole length: none, the solid's, or 16. |
| `Acoustics.CrossingsBounded` | src/audio/acoustics.rs:244-266 | A unit ray of length `len` crosses at most `3 ceil(len) + 3` boundaries. |
| `Acoustics.Charge` | src/audio/acoustics.rs:223-266 | The loop ends by its break, never by the cap, with every stretch up to `len` charged at its cell's absorption. |
| `Acoustics.Slab` | src/audio/acoustics.rs:195-211 | The slab test keeps exactly the parameters inside the box on that axis. |
| `Acoustics.Trace` | src/audio/acoustics.rs:179-272 | Occlusion is the absorption integrated along the segment: the walk inside plus the closed form outside. |
| `Acoustics.TraceUnclipped` | src/audio/acoustics.rs:179-272 | Clipping changes nothing: an unclipped cell-by-cell walk charges the same. |
| `StepIntegral.CutsAgree` | src/audio/acoustics.rs:247-266 | Every way of cutting a stretch into constant pieces has the same sum, so the charge is well defined. |
| `Coord.SplitJoin` | src/coord.rs:70-92 | Splitting and joining block coordinates undo each other, negatives included. |
| `Coord.AxisOrder` | src/coord.rs:462-468 | The up axis is innermost (y without one), the other two in order. |
| `Coord.StretchedHolds` | src/coord.rs:360-380 | Membership of a stretched box, measured along its up normal, for either sign. |
| `Coord.CubeHolds` | src/coord.rs:360-380 | A box without an up is a cube of the horizontal radius, whatever the vertical one, and does not stretch. |
| `Coord.MeetsIsSharing` | src/coord.rs:389-398 | Non-empty boxes meet if and only if they share a chunk. |
| `Coord.ChunkBoxIter.Next` | src/coord.rs:470-502 | The odometer yields the head of what remains and leaves the rest; it ends exactly when nothing remains. |
| `Coord.Collect` | src/coord.rs:421-431 | Running the odometer to its end gives the enumeration. |
| `Coord.CoordsAreTheBox` | src/coord.rs:411-431 | The enumeration holds each contained chunk exactly once, in lexicographic order of its axes, as many as the product of the sides. |
| `CoordDiff.OutsideIsFiltered` | src/coord.rs:433-457 | Skipping spans equals filtering, in order, if and only if no row runs through a span of `other` that is inside out with a gap. |
| `CoordDiff.NonEmptyNeverDoubles` | src/coord.rs:433-457 | For a non-empty `other`, with any up axes, the difference is exactly the filtered enumeration. |
| `CoordDiff.InsideOutRow` | src/coord.rs:433-457 | How often an inside-out span doubles part of a row. |
| `CoordDiff.OutsideHoldsTheDifference` | src/coord.rs:433-457 | For any two boxes, inside out or not, no chunk is missed and none added: it yields those of the box that `other` does not hold, each at least once. |
| `CoordDiff.InsideOutDoubles` | src/coord.rs:357-457 | Every `other` made with a vertical radius of -1 doubles a layer of a box around the same centre, so the difference is not the filtered enumeration. |
| `CoordDiff.OneChunkTwice` | src/coord.rs:357-457 | The least exception: a single chunk, yielded twice where filtering yields it once. |
| `Capture.Resampler.Process` | src/audio/capture.rs:346-362 | One call appends the output function of the state and the input and leaves the final state. |
| `Capture.OutputJoin` | src/audio/capture.rs:346-362 | Resampling in pieces is resampling at once. |
| `CaptureForm.ResampledInClosedForm` | src/audio/capture.rs:320-362 | From a reset, `n` inputs give `ceil(n dst / src)` outputs, the `j`-th the linear interpolation of the input at `j src / dst`, with a zero before the first sample. |
| `Capture.EncodeCore.Feed` | src/audio/capture.rs:386-403 | Closed, it clears; open, it emits the frames of all that was fed and keeps the leftover. |
| `Capture.FeedInPieces` | src/audio/capture.rs:365-403 | Feeding in pieces leaves the same state and the same frames in the same order as feeding at once. |
| `Capture.FramesAreTheOutput` | src/audio/capture.rs:365-403 | Since a reset, the frames followed by the leftover are the resampler's output, with fewer than a frame left over and numbers counting the frames. |
| `Capture.FramesKeepAll` | src/audio/capture.rs:386-400 | Every frame is full, frames are numbered in a row, and no sample is lost. |
| `Capture.FreshestJoin` | src/audio/capture.rs:406-434 | Dropping the oldest on each overflow keeps the freshest of everything ever pushed. |
| `Capture.OutRing.Push` | src/audio/capture.rs:420-427 | A push onto a full ring drops the oldest. |
| `CaptureBursts.BurstsNeverMix` | src/audio/capture.rs:186-197 | For every interleaving of key edges, audio callbacks and encoder steps, every frame ever emitted, first anchor included, is what samples of one nonzero epoch give a fresh encoder; with fewer than 2^32 presses, samples of one press. |
| `CaptureBursts.NextKeeps` | src/audio/capture.rs:242-318 | Every atomic step of the three threads keeps the invariant that keeps bursts apart. |
| `CaptureTalk.IterationTakesAll` | src/audio/capture.rs:274-318 | One iteration of the encoder while a key is held: exactly the ring's samples of its epoch are fed, in order, after what was fed of it before, and the frames they give are sent; the core is cleared first if and only if the epoch is new. |
| `CaptureTalk.ClosedIterationDiscards` | src/audio/capture.rs:274-318 | With no key held an iteration empties the ring, feeds nothing and sends nothing. |
| `CaptureTalk.RingKeepsAll` | src/audio/capture.rs:242-256 | Over any interleaving the ring is first in, first out: what was in it and pushed is what was popped and is in it. |
| `CaptureTalk.TalkIsWhole` | src/audio/capture.rs:186-318 | One press, held, in any interleaving: the frames sent since the encoder's first load of it, and the leftover, are the resampled samples the encoder took; and these are every sample pushed under the press if and only if none was popped before that load, so always if the encoder rested at the press. |
| `CaptureTalk.SaidUnderThePress` | src/audio/capture.rs:186-256 | With fewer than 2^32 presses, what was pushed with the epoch of a held press was pushed under that press. |
| `CaptureTalk.LostBeforeTheLoad` | src/audio/capture.rs:274-314 | The concrete exception: a sample said into a press is lost to an iteration that found no key held and is still popping. |
| `CaptureTalk.HeldKeyIsHeard` | src/audio/capture.rs:242-256 | While a key is held and there is room every sample of a callback goes into the ring under the press; while none is, none does. |
| `CaptureTalk.KeyOpensAndCloses` | src/audio/capture.rs:186-197 | Pressing opens the next epoch, once; letting go closes it; neither touches what is on the way. |
| `CaptureBursts.EpochsRepeatExactly` | src/audio/capture.rs:186-197 | Two presses share an epoch tag if and only if they are a multiple of 2^32 - 1 apart. |
| `Inventories.Inventory.Add` | src/inventory.rs:35-51 | The new contents, and whether all of it fitted. |
| `Inventories.AddCounts` | src/inventory.rs:35-51 | Adding takes what fits the shared capacity, changes that one count and no other, and says whether all fitted. It takes all there is room for if and only if the room is below 2^32 or its low 32 bits suffice. |
| `Inventories.WideRoomTakesNothing` | src/inventory.rs:39-43 | The exception: the room is narrowed to 32 bits, so an empty inventory with room for exactly 2^32 takes nothing. |
| `Inventories.Inventory.Consume` | src/inventory.rs:63-78 | The new contents, and whether it succeeded. |
| `Inventories.ConsumeCounts` | src/inventory.rs:63-78 | Consuming is all or nothing, and succeeds if and only if enough is held. |
| `Inventories.ConsumeKeepsOrder` | src/inventory.rs:9-12 | The display order is stable: spending moves no row, and drops one if and only if it spends the last of it. |
| `Inventories.Inventory.Revoke` | src/inventory.rs:82-99 | The new contents. |
| `Inventories.RevokeCounts` | src/inventory.rs:82-99 | Revoking takes what there is, at most `n`, and changes no other count. |
| `Inventories.RevisionTells` | src/inventory.rs:17-99 | The revision moves exactly when what is held changes. |
| `Inventories.SpendAndRefund` | src/inventory.rs:35-78 | Spending and giving back restores every count if and only if the narrowed room then suffices; so always below a capacity of 2^32. |
| `Inventories.GainAndRevoke` | src/inventory.rs:35-99 | A full gain, revoked, restores every count. |
| `Inventories.LoadPortable` | src/inventory.rs:137-160 | Contents are replaced by the known items in order; the unknown ones are counted. |
| `Inventories.PortableRoundTrip` | src/inventory.rs:128-160 | Loading what was saved, into any capacity, gives the same rows in the same order if and only if each row in turn finds room for its units as the inventory counts room; so always when the capacity is not smaller, and below 2^32. Every spec names its block. |
| `Play.Mirror.Break` | src/play.rs:261-300 | A predicted break is the step of the edit machine. |
| `Play.Mirror.Place` | src/play.rs:303-334 | A predicted placement is the step of the edit machine, and happens if and only if the cell is free and a unit is held. |
| `Play.Mirror.Rollback` | src/play.rs:408-434 | A rollback is the step of the edit machine: the cell is restored only when asked, the unit given back or taken back either way. |
| `Play.Mirror.ApplyIncoming` | src/play.rs:127-177 | One poll's edits and verdicts are applied in order, as the steps of the edit machine. |
| `Play.VerdictActsOnce` | src/play.rs:140-177 | A verdict settles its request; a verdict on a settled request changes nothing. |
| `Play.AcceptedStands` | src/play.rs:168-172 | An accepted edit stands as predicted: only its request is settled. |
| `Play.NewerCellStands` | src/play.rs:406-434 | A rejection that restores nothing changes no cell, settles its request, and changes the counts exactly as one that restores would, which puts back what its cell held and no other cell. |
| `Play.RemoteWriteStands` | src/play.rs:127-177 | What the server last wrote to a cell is what the cell ends with, whatever is accepted, and whatever is rejected without restoring it, later in the poll. |
| `Play.NewerEditSurvives` | src/play.rs:127-177 | One poll that brings another's edit of a cell and then turns down the player's own edit of it, not restoring it: the cell ends as the other's edit says, the request is settled, the unit given back. |
| `Play.BreakHappens` | src/play.rs:261-300 | Breaking clears the cell and no other and gains one unit if there is room; a sent edit is pending with what the cell held. |
| `Play.PlaceHappens` | src/play.rs:303-334 | Placing puts the block into the cell and no other and spends one unit; blocked, or with none held, it changes nothing. |
| `Play.UnsentEditChangesNothing` | src/play.rs:384-434 | A commit followed at once by its own rollback restores every cell and every count, the unit a placement spent included, if and only if the inventory's narrowed room takes that unit back; so always below a capacity of 2^32. |
| `Play.RejectedAtOnce` | src/play.rs:384-434 | The same of an edit that was sent under a fresh request and is turned down at once: it ends exactly where an edit that could not be sent does, so it restores every cell, every count and the pending edits if and only if the unit can be taken back. |
| `Play.StepAccounts` | src/play.rs:127-434 | One clean step, at any capacity, changes cells plus units held by exactly what was dropped, regained, settled without restoring a cell, or written. Remote writes may fall anywhere; a rejection restores no cell that something newer owns. |
| `Play.RefusedPlacementDrops` | src/play.rs:384-434 | A placement that cannot be sent loses the unit it spent if and only if the inventory's narrowed room does not take it back. |
| `Play.RunAccounts` | src/play.rs:127-434 | Over every clean run, at any capacity, cells holding an id plus units held stay equal up to exactly the units an inventory without room dropped (a refused placement's own unit included, where the narrowed room loses it), those a rejected break could not take back, those that rejections restoring no cell gave or took, and remote writes. |
| `Play.UndisturbedIsClean` | src/play.rs:127-434 | Runs in which no remote write touches a cell with a pending edit are clean whatever their rejections restore: every rejection finds its cell as the edit left it. |
| `Apps.Host.Start` | src/app/host.rs:39-78 | The first slot not passed over as unloadable is served, or its failure is the answer; nothing else is left running. That is the first readable save listed that loads, a failure of one ending it; and a fresh slot exactly when no readable save loads. |
| `Apps.App.HandleRequest` | src/app.rs:632-664 | A world is opened only with the server stopped; a slot is deleted only after a server serving it stopped, and no other server is touched; hosting and joining begin one attempt. |
| `Apps.App.Arrive` | src/app.rs:826-887 | The landed world becomes the open slot, or a mirror with none; a save that fails goes back to the menu or on to a new world. |
| `Apps.App.UpdateLoading` | src/app.rs:797-823 | Cancelling drops the job, and stops the server only for a join this app hosted. |
| `Apps.App.UpdateConnecting` | src/app/connect.rs:68-90 | A first refusal that names modules always retries, with those held off; any other failure, a second one or a cancel ends the join and lifts the hold. |
| `Apps.App.UpdatePlaying` | src/app.rs:1017-1066 | A world is left, its slot closed, exactly on leaving, on an escape no pause screen takes, or on an exit; it is quit on a quit, and on leaving where there is no menu to return to. |
| `Apps.App.ReturnToMenu` | src/app.rs:708-727 | No slot stays open and no package stays held. |
| `Apps.App.EnterDefault` | src/app.rs:730-741 | Without a root screen, the newest readable save is loaded, else a new world begins. |
| `Apps.App.Frame` | src/app.rs:503-513 | A frame serves the screen that is up: the world played, the connection, the world being built, or what the menu asks, each with its outcome. |
| `Apps.App.Run` | src/app.rs:485-513 | Over any run, which only quitting cuts short: while a slot is open, or a new world or a load is being built, no server runs; no slot is opened or deleted while it is served; a join makes at most two attempts. |
| `Hash.FinishIsBijective` | src/hash.rs:16-23 | The finisher is a bijection on the 64-bit words, with an explicit inverse. |
| `Hash.FoldUndone` | src/hash.rs:17-21 | A word exclusive-or its own shift by at least a third of the width is undone by two more shifts. |
| `Hash.TimesUndone` | src/hash.rs:18-20 | A wrapping product by an odd constant is undone by the constant's inverse. |
| `Hash.OutputsDiffer` | src/hash.rs:27-30 | From any state, 2^64 consecutive outputs are pairwise distinct. |
| `Hash.Next` | src/hash.rs:27-30 | One step of the stream hides nothing: unmixing the output gives the new state, and stepping that back the old one, which it differs from. |
| `SettingsFile.TextUndoesItself` | src/settings.rs:1067-1091 | At the level of characters: reading the written file over any settings gives back every persisted field, whatever option lines follow. |
| `SettingsFile.LoadRestoresSave` | src/settings.rs:1040-1109 | With clamping, on any device: everything is as saved, and the sample count too if and only if it is 1 or at most the loading device's ceiling. |
| `SettingsFile.MsaaSurvives` | src/settings.rs:1567-1572 | A clamped sample count survives another ceiling if and only if it is 1 or fits under it. |
| `SettingsFile.LesserDeviceLosesSamples` | src/settings.rs:1567-1572 | Four samples saved under a ceiling of eight are loaded as two under a ceiling of two. |
| `SettingsFile.ClampTwice` | src/settings.rs:1105-1109 | Clamping is safe to repeat, for every row and value. |
| `SettingsFile.ClampLands` | src/settings.rs:1105-1109 | For every row and value: what clamping leaves lies in the row's range, among its rates, or among the sample counts the device has, and a value is changed if and only if it did not. |
| `SettingsFile.ClampedIsOffered` | src/settings.rs:1105-1109 | The same of all 46 rows at once: clamped settings are unchanged if and only if each row already held a value it offers. |
| `SettingsForms.PaddedLineReads` | src/settings.rs:1480-1487 | Blanks around the key and around the value are no part of them, and a value may hold further `=` signs. |
| `SettingsForms.LineEnds` | src/settings.rs:1481 | A line may end in a carriage return and a line feed, and the last needs neither. |
| `SettingsForms.LastLineWins` | src/settings.rs:1067-1073 | After any text each row holds what the last line that names it, by key or alias, with a value it reads, says; with no such line it is unchanged. |
| `SettingsForms.IntReadsExactly` | src/settings.rs:1512-1520 | Exactly what reads as a number: digits with a plus, or a minus in a signed type, in the range of the type. |
| `SettingsForms.DigitsReadExactly` | src/settings.rs:1512-1520 | Digits read, and nothing else does. |
| `SettingsForms.DecimalReadsExactly` | src/settings.rs:1512-1520 | Exactly what reads as a finite decimal: digits and at most one point, with a digit on one side of it. |
| `SettingsForms.ZeroTrails` | src/settings.rs:1512-1520 | Zeros at the end of a fraction change nothing. |
| `SettingsForms.SignedReads` | src/settings.rs:1512-1520 | One sign may precede a decimal, and a minus negates it. |
| `SettingsClamp.ClampGoesTo` | src/settings.rs:1531-1622 | Where each row sends a value: a range, a fraction and a frame limit to the nearest value offered; a rate to the largest offered at most it, or the least; a sample count to the largest at most it and the device's. |
| `SettingsClamp.NameFindsRow` | src/settings.rs:374-377 | A row is found by its key and by each of its aliases. |
| `SettingsClamp.SwitchWords` | src/settings.rs:1489-1496 | A switch is read from four words either way and no other. |
| `SettingsClamp.AnyWordReads` | src/settings.rs:609-640 | Each of the three choices of the table is read from any word of its variants, and as that variant. |
| `SettingsFile.CodecReads` | src/settings.rs:441-640 | Every row reads back what it writes: words, enumeration codes, whole numbers, decimals. |
| `SettingsTable.NamesAreDistinct` | src/settings.rs:650-937 | No key or alias of the 46 rows belongs to two of them, so a written key finds its own row. |
| `SettingsTable.FormatKeyMatchesNone` | src/settings.rs:1087-1088 | The options format line names no setting. |
| `SettingsText.DecimalReads` | src/settings.rs:1512-1520 | A printed decimal reads back exactly. |
| `SettingsText.IntReads` | src/settings.rs:1512-1520 | A printed number of a machine type reads back exactly. |
| `SettingsText.LineFirst` | src/settings.rs:1480-1487 | A written line is the first line read, whatever follows. |
| `SettingsText.LineReads` | src/settings.rs:1480-1487 | It splits at its first `=` into its key and its value. |
| `SettingsFile.Settings.ParseFrom` | src/settings.rs:1067-1073 | The fields afterwards are those the text's lines set, in order; malformed, unknown and unreadable lines are skipped. |
| `SettingsFile.Settings.ToText` | src/settings.rs:1079-1091 | The file text: every row in order, the format line, the options. |
| `SettingsFile.Settings.Clamp` | src/settings.rs:1105-1109 | Every row is forced into its range, independently: afterwards each holds a value its row offers, and nothing changed if and only if each did before. |

## Left out

- Floating point: gains, positions, times and audibilities are reals. NaN, infinities
  and rounding are not modelled, so neither are the checks that turn them away; the
  f32 settings are finite decimals, without exponents or 24-bit rounding.
- Decibels, low-pass and pan of a played sound, the master volume, playback rate: only
  gains reach the modelled device. The response curves are a parameter, as is the
  catalog: a cue names its layers' draws, its duration and its response.
- The fault queue: starvation reports are returned by the poll; lost-device, bad-cue
  and dropped-occurrence faults are not queued.
- The modelled device grants a voice, or finds a packet queue full, as it likes, so any
  device behaves like it. Whether it is there at all is a flag that may change between
  any two requests, but not within one; the shipped backends never change theirs.
- Ids and epochs of sessions are natural numbers; the occurrence and UI counters wrap
  at 2^64, and the service's promises hold while the former has not.
- Aliasing: the maps of the mixer hold values, so an entry is replaced where the
  program mutates it through a reference.
- Voice payload codecs, the decoder thread and the packet ring's memory; the jitter
  buffer is driven by any interleaving of pushes and pulls instead.
- The acoustic window of a round world (`WindowFrame`), and `raycast_charted`: the
  world is a map of cells.
- The length of a segment is given as a number whose square is the sum of squares, the
  reals having no square root here.
- Minimap brighten and darken are uninterpreted functions of a byte, and the world
  a function from face and column to an optional height and colour. Drawing the map,
  its heading and its layout.
- Inventory counts and totals are natural numbers. The narrowing of the room to 32 bits
  is modelled; the overflow of a 32-bit total, which takes 2^32 units, is not.
- Placement blocking, tools, reactions, module hooks and sounds of an edit; `send_edit`
  is an optional fresh request id.
- Modules are a set of suspended packages, a save slot an id, the server a slot being
  served. Rendering, pausing, autosave, the bench's camera and quitting by signal.
- Settings stepping, profiles and human parsing, the legacy `modules.cfg`, the options
  registry's own text beyond its lines naming no setting. The engine's render-scale
  bounds are not part of this model; the row's documented 25 to 200 percent stands in.
- Unicode white space beyond Latin-1 when trimming a settings line.
- FNV-1a hashing, paths, session files, networking, saves.
- Apps.App.Frame: the frame that enters the default world goes on to serve its loading
  screen; of that only the invariant is stated.
- Frames.New: leaves out the two `NonFinite` refusals, the numbers being real.
- Services.AudioService.PlayAt: leaves out the refusals of a non-finite gain or place.
- Acoustics.Trace: takes the segment as the window sees it, without a round world's
  frame map, and its length as a number whose square is the sum of squares.
- Play.Mirror.ApplyIncoming: one poll's edits and verdicts; the cells of a snapshot's
  mutations and the tool results of the same poll are left out.
- Interact.RunMarch: cells are integers, so a march that would run 97 million cells past
  the limits, out of 32 bits, is not told apart.
- When a commit is skipped, the nearness of the listener to the last commit is given, and
  what the modules' hooks ask for are requests of the run.

# Chunked-task orchestrator of the stem-separation server

This project models the bookkeeping core of `server.py`, a Flask server
that cuts an uploaded mp3 into chunks and has a worker pool separate each
chunk into four stems (bass, drums, vocals, other). It then stitches the
stems back together and overlays the instruments the user selected. The
model covers the part between the HTTP layer and the audio and worker
libraries:

- the id allocator;
- upload registration;
- the chunk planner and the window loop of `splitMusic`;
- dispatch of one task per chunk;
- progress polling, which marks each finished Job exactly once and freezes
  the answer once the track is finished;
- the reassembly order: grouping by stem name, sorting by chunk index,
  joining, and overlaying the selection;
- the Job listing routes;
- reset.

Modules, one per concern:

- `Wrappers`: `Option`.
- `Text`, in `text.dfy`: `str.split`, substring tests, and `int()`/`str()`
  on decimal digits, used on the instrument list and on stem-key suffixes.
- `IdSpace`: the range `[100000, 999999]` that `generateID` draws from.
  It includes a pigeonhole argument that a fresh id exists while fewer than
  900000 ids have been drawn.
- `Chunking`: `chunkDuration`, the chunk length in milliseconds, and the
  windows `[start, min(start + length, total))` of `splitMusic`.
- `Seqs`: generic filtering and Python's stable `sorted`, with the lemma
  that sorting forgets the input order when keys are distinct.
- `Reassembly`: the grouping of stem keys, suffix sorting, joining and
  overlaying of `music_id_get`. It is written as a specification function
  (`Assemble`) and as the loops of the source, proved equal to it.
- `Ordering`: reassembly does not depend on the order in which tasks or
  keys arrive.
- `Orchestrator`: the records `Music`, `Track`, `Job`, `Progress` and
  `Instrument`, and the class `Server`. The module-level globals of
  `server.py` are the fields of `Server`, and each request handler is a
  method that updates them in place. `Valid()` keeps the registries
  consistent with each other; among other things, the Job id that every
  dispatched handle maps to belongs to a Job of the same track, and no id
  (a Job id or a track id) is held by two Jobs or twice by one. `Room()`
  says enough ids remain for every unmarked Job to get its four track ids.

What comes from outside the model:

- The worker pool. A dispatched task is named by a `Handle`, which pairs
  the track id with the chunk index the task was sent with. Its state and
  result reach a poll as the map `status`. A task it does not know is
  reported pending.
- The audio library. A dispatch is given the decoded length of the stored
  mp3 in milliseconds (`duration`, None where decoding raises). It is also
  given `getsizeof` of each encoded chunk (`sizes`).
- The ID3 reader. An upload is given its title and artist (`tags`, None
  where the tag cannot be read).
- Stem audio. A stem clip is an abstract byte string. Joining clips is
  sequence concatenation. Overlaying is the constructor `Overlay` of a mix
  tree, whose layers are listed by `Layers`.
- Exceptions. An exception that escapes a handler, and the 500 answer it
  produces, is the result `Crashed`. The state changes made before the
  exception are kept, as in the source.

Behaviour of the code that callers may not expect, and that the model keeps:

- **The selection is recorded before it is checked** (server.py:213-214).
  A rejected selection therefore blocks every later submission of the
  track. `Server.Dispatch` states this for every input: its `idTracks`
  postcondition records the split selection whenever the id is known, not
  yet submitted and the instruments are present, whether or not the
  selection is then accepted. `Server.RetryAfterRejection` works one case
  through: `piano`, then `bass`.
- **A success without a result makes the poll raise.** Reading its
  timestamp (`cb.info[1]`, server.py:306) fails, so the poll crashes.
- **A failed task is never reported.** The track stays below 100%.
- **A reassembly with a missing stem group or an unusable selection
  raises** (an `IndexError` on `bass[0]` or `files[0]`). Nothing is
  frozen, so a later poll tries again, and this poll crashes.
- **The Job size is `getsizeof` of the encoded chunk**, not the length of
  the payload.

## Model

| member | source | states |
|---|---|---|
| IdSpace.FreshIdExists | server.py:643-649 | while fewer than 900000 ids are drawn, some id in [100000, 999999] is not drawn yet, so the redraw loop ends |
| Orchestrator.Server.GenerateId | server.py:643-649 | returns an id in range that was not drawn before; the used-id list is the old one with that id appended; drawn ids stay distinct and in range |
| Orchestrator.Server.CreateMusicObj | server.py:553-597 | draws five fresh ids, for drums, bass, vocals, other and then the music id; appends the four tracks and the music, with those ids and names |
| Orchestrator.Server.MusicPost | server.py:107-146 | with no file, 'Invalid input' and nothing changes; otherwise the title and artist, or 'Unknown' when the tag is unreadable, are registered under a fresh id with the bytes stored; the Music returned is the one createMusicObj builds: tracks drums, bass, vocals, other under the next four drawn ids and the music under the fifth; the registries stay consistent |
| Chunking.ChunkDuration | server.py:656-674 | the target never exceeds the track length and is positive for a positive length |
| Chunking.ChunkDurationMonotone | server.py:656-674 | a longer track never gets a shorter chunk length |
| Chunking.ChunkLengthMs | server.py:684-685 | in exact arithmetic, `int(chunkDuration(ms / 1000) * 1000)` is the five-way step: the whole track up to 10 s, then 10 s, 30 s, 60 s and 120 s (the source's floating point differs for some short tracks, see Left out) |
| Chunking.AtMostTenChunks | server.py:656-694 | a track of at most ten minutes is cut into at most ten chunks |
| Chunking.Windows | server.py:688-690 | there are ceil(total / length) windows |
| Chunking.WindowsTile | server.py:688-690 | the windows are non-empty and consecutive, start at 0 and end at the track's end, and every window but the last is exactly `length` long |
| Chunking.TilesCoverTotal | server.py:688-690 | the window lengths add up to the track length |
| Chunking.FortyFiveSecondTrack | server.py:656-694 | a 45 s track gets 10 s chunks and five windows: four of 10 s and one of 5 s |
| Chunking.SplitWindows | server.py:679-694 | the loop over `range(0, total, length)` builds exactly those windows, which tile the track |
| Text.Split | server.py:214 | `split(',')` gives at least one piece and no piece contains a comma |
| Text.JoinSplit | server.py:214 | joining the pieces with commas gives the input back |
| Text.SplitWithoutSeparator | server.py:214 | a string without a comma splits into itself alone |
| Reassembly.StemNamed | server.py:219 | an instrument name is accepted exactly when it is one of the four stem names |
| Orchestrator.StemNamesKnown | server.py:219 | membership of the list `['bass', 'drums', 'vocals', 'other']` agrees with StemNamed |
| Orchestrator.CheckSelection | server.py:218-220 | the check loop accepts exactly the selections whose every name is a stem name |
| Orchestrator.Handles | server.py:251-271 | a dispatched track's handles are those of chunks 0, 1, ..., n-1, in dispatch order |
| Orchestrator.AppendedJobsOk | server.py:251-264 | Jobs appended with freshly drawn ids keep Job ids drawn, distinct, and every Job unmarked or fully marked |
| Orchestrator.AddedHandlesOk | server.py:257-269 | registering the handles of a newly dispatched track keeps the handle registries consistent |
| Orchestrator.AddedCallbacksOk | server.py:254-267 | each handle a dispatch binds names the Job appended in the same iteration, so every handle, old or new, has a Job of its track |
| Orchestrator.MarkedKeepsCallbacks | server.py:308-318 | marking changes no Job's id or track, so every handle keeps its Job |
| Orchestrator.DispatchedValid | server.py:251-273 | the chunk loop keeps every registry consistent and adds exactly one unmarked Job per window |
| Orchestrator.Server.DispatchChunks | server.py:251-273 | for window k, in order: one fresh Job id; a Job with that id, the chunk's size, no time, the track id and no track ids; handle k listed for the track; handle k bound to the Job id; earlier bindings kept |
| Orchestrator.Server.Enqueue | server.py:241-275 | an accepted track gets one task per window of `splitMusic`, as DispatchChunks describes, and the registries stay consistent |
| Orchestrator.Server.Start | server.py:218-275 | after recording, an unknown stem name gives 'Invalid Track' and changes nothing else; otherwise a decodable track of positive length is dispatched and every other case crashes unchanged |
| Orchestrator.Server.Dispatch | server.py:203-281 | checks in order, each an if-and-only-if: unknown id is 'Music not found'; a recorded selection is 'Music already submitted'; an unknown stem name is 'Invalid Track'; only a valid selection of a decodable, non-empty track is accepted; the selection is recorded before it is checked; nothing else changes unless accepted |
| Orchestrator.Server.RetryAfterRejection | server.py:205-220 | a rejected selection (`piano`) is recorded, so a following valid submission of the same track is 'already submitted' |
| Orchestrator.SuccessCount | server.py:301-319 | the count never exceeds the number of tasks and equals it exactly when every task succeeded |
| Orchestrator.Percent | server.py:322 | the whole percent, rounded down: `p * total <= 100 * successes < (p + 1) * total` |
| Orchestrator.PercentRange | server.py:322 | the percentage lies in 0..100 and is 100 exactly when every task succeeded |
| Orchestrator.FirstMissing | server.py:304-306 | the counting loop reaches the first success without a result, where reading the timestamp raises, or the end |
| Orchestrator.ProgressShapes | server.py:324-467 | below 100% the four instruments, in the order bass, drums, vocals, other, have empty links and the final link is empty; a finished track links `localhost:5000/static/<id>/<stem>.wav` and `final.wav` |
| Orchestrator.Server.AllocateTrackIds | server.py:311-318 | four distinct fresh ids, appended to the used ids |
| Orchestrator.Server.MarkJob | server.py:308-318 | one Job: marked with the time and four fresh distinct ids when it has the id and is unmarked, unchanged otherwise; exactly four ids are drawn when it is marked and none otherwise, and they are exactly the ids the Job newly holds |
| Orchestrator.Server.MarkJobs | server.py:308-318 | every Job with the id that is still unmarked gets the timestamp and four fresh distinct ids; every other Job is unchanged; the ids drawn are four per Job it marks (`|usedIds| + 4 * UnmarkedCount(jobs)` is unchanged), and they are exactly the ids the marked Jobs newly hold (NewlyHeld), so no two of them get the same id |
| Orchestrator.MarkedByCount | server.py:308-318 | after a marking round, the unmarked Jobs are the old unmarked ones less those newly marked |
| Orchestrator.MarkedCompose | server.py:301-319 | marking one more Job after a series of markings is one series of markings, and the first time recorded for a Job wins |
| Orchestrator.MarkedStays | server.py:308-309 | a Job that a poll marked, or found marked, keeps its time and its four ids through every later poll; since a poll draws four ids only per Job it newly marks (PollMarks), no ids are drawn for it again |
| Orchestrator.MarkingKeepsJobsOk | server.py:308-318 | marking keeps Job ids drawn and distinct, every Job unmarked or fully marked, and every id the Jobs hold drawn and held once at most |
| Orchestrator.PollKeepsJobsOk | server.py:301-319 | whatever a poll does to the Jobs, as PollMarks says, keeps them consistent with the drawn ids |
| Orchestrator.JobsShareNoIds | server.py:308-318 | since every id comes from `generateID`, which never repeats one (server.py:643-649), a track id of a Job is held by no other Job, neither as a track id nor as its Job id, and once by its own Job |
| Orchestrator.Server.CountTask | server.py:303-318 | one round of the counting loop, by RoundEffect: a success counts 1 and marks every unmarked Job with its id, drawing four ids per Job it marks, which are then exactly the ids newly held; any other readable state counts 0 and leaves Jobs and drawn ids unchanged |
| Orchestrator.CountingDone | server.py:301-319 | at the end of the counting loop, the stop is FirstMissing, the successes before it are counted, and the Jobs and drawn ids are as PollMarks says: each success's Job marked with its first time, four ids per newly marked Job, those ids exactly the ones the Jobs newly hold, nothing else changed |
| Orchestrator.Server.CountSuccesses | server.py:301-319 | the loop stops where FirstMissing says, counts the successes before that point, and changes the Jobs and drawn ids as PollMarks says; every handle keeps its Job |
| Orchestrator.CollectInfos | server.py:398-399 | when every task succeeded with a result, the results in dispatch order |
| Orchestrator.Outcome | server.py:320-474 | below 100%, the percentage and empty links; a crash at a success without a result; at 100%, the finished links if reassembly works, else a crash |
| Orchestrator.Decide | server.py:320-474 | from the counting loop's result, the answer that Outcome names |
| Orchestrator.Server.Respond | server.py:320-474 | the answer Outcome names; a finished answer is frozen in idProgress and nothing else is stored |
| Orchestrator.Server.Advance | server.py:296-474 | the answer Outcome names, the Jobs and drawn ids changed as PollMarks says, a finished answer frozen; the registries stay consistent, every handle keeping its Job |
| Orchestrator.Server.Poll | server.py:285-474 | an undispatched id is 'Music not found', an if-and-only-if; a frozen answer is returned unchanged and nothing changes; otherwise the answer is Outcome's, and as PollMarks says: the Job of every success before FirstMissing is marked, with its first time, exactly four ids are drawn per newly marked Job and none otherwise, the ids drawn are exactly those the marked Jobs newly hold, so no two Jobs share one, and a finished answer is frozen |
| Reassembly.Classify | server.py:401-408 | a key joins the first stem, in the order bass, drums, vocals, other, whose name it contains, and no group when it contains none |
| Reassembly.GroupMembers | server.py:401-408 | every key of a group classifies to that stem and is a key of some result |
| Reassembly.Table | server.py:410 | `allInstruments` holds exactly the keys of the results |
| Reassembly.TableLatest | server.py:410 | `dict.update` keeps the last binding: a key is bound to the clip of the last item with that key |
| Reassembly.Place | server.py:401-408 | one key is appended to the group Classify picks and to no other |
| Reassembly.GroupStems | server.py:399-410 | the items of one result extend the groups and the table as the specification says |
| Reassembly.GroupKeys | server.py:398-410 | the grouping loop gives the groups and the table of the flattened results |
| Seqs.SortBy | server.py:414-417 | `sorted` gives a permutation of the input that is sorted by the key |
| Seqs.SortByStable | server.py:414-417 | `sorted` is stable: for every key, the elements with that key come out in their input order |
| Seqs.SortByPermutation | server.py:414-417 | with distinct keys, every permutation of the input sorts to the same list |
| Text.ParseNatToString | server.py:414-417 | `int(str(n)) == n`: the decimal suffix of a chunk key parses back to its index |
| Text.ParseNat | server.py:414-417 | `int()` of a key suffix is defined exactly for non-empty digit strings |
| Reassembly.SuffixIndex | server.py:414-417 | the sort key `int(x[p:])` is defined exactly when the key is longer than the stem name and the rest is digits |
| Text.ContainsIffOccurs | server.py:400-407 | Python's `name in key`, written as a recursive test (Text.Contains), holds exactly when the name occurs at some position of the key |
| Reassembly.StemTrack | server.py:424-445 | the joined track of a group is the clips of its keys, in the group's order |
| Reassembly.JoinStem | server.py:424-427 | the first clip, then `+=` with each later one, gives StemTrack |
| Reassembly.JoinSorted | server.py:414-445 | joining a sorted group gives the stem track of the specification |
| Reassembly.MixOverlaysSelection | server.py:450-459 | a mix exists exactly for a non-empty selection of stem names, and overlays exactly the selected stems, in selection order |
| Reassembly.NoMixWithUnknownName | server.py:450-456 | a selection with a name that has no exported file gives no mix |
| Reassembly.MixOf | server.py:450-459 | the final mix exists exactly when the selection is non-empty and names only stems |
| Reassembly.OverlaySelection | server.py:450-459 | the overlay loop gives the mix MixOf names |
| Reassembly.Assemble | server.py:398-459 | reassembly succeeds exactly when every key of every group has a parsable suffix, every stem has a key, and the selection is non-empty and names only stems |
| Reassembly.Reassemble | server.py:398-459 | group, sort, join and overlay give exactly Assemble of the flattened results, with None where the source raises |
| Ordering.TablePermutation | server.py:410 | when no key names two different clips, the order of the items does not change `allInstruments` |
| Ordering.AssembleIgnoresArrivalOrder | server.py:398-459 | any permutation of the items gives the same stems and mix, when keys determine clips and chunk indices are distinct within a stem |
| Ordering.FlattenPermutation | server.py:398-399 | permuting the task results permutes their items |
| Ordering.ChunkKeyRoundTrip | server.py:401-417 | a key `<stem><index>` joins the group of its stem and sorts by that index |
| Ordering.ChunkKeysUnique | server.py:414-417 | chunk keys of one stem carry distinct indices |
| Ordering.ReassemblyIgnoresTaskOrder | server.py:396-459 | with chunk keys, the stems and mix do not depend on the order in which the tasks' results are listed |
| Orchestrator.Server.ListJobs | server.py:478-487 | the ids of all Jobs, in creation order |
| Orchestrator.Server.GetJob | server.py:490-496 | the first Job with the id, or 'Job not found' exactly when no Job has it |
| Orchestrator.Server.constructor | server.py:23-32 | every registry and the used-id list start empty and are consistent |
| Orchestrator.Server.Reset | server.py:522-532 | every registry and the used-id list emptied |

## Left out

- Flask routing, `request` parsing and JSON conversion (`toDict*`) are the HTTP layer. `index`, `music_get` and the redirect routes (server.py:159-199) are not part of this model.
- Reading the ID3 tag (server.py:118-125) is a call into mutagen. The title and artist are an input.
- MusicPost: a tag frame that is present but empty gives 'Unknown' for that field alone in the source. The model takes title and artist together, or neither.
- pydub decoding, slicing, mp3 and wav export, `+=` and `overlay`, and base64 are foreign audio and codec libraries. The decoded length and the chunk sizes are inputs, a stem clip is a byte string, and a mix is a tree of overlays.
- Celery (`apply_async`, `cb.state`, `cb.info`, `revoke`, the `purge` command) is an external worker pool. Task states and results are one snapshot per poll. Because of that snapshot, the second check for a missing result (server.py:353-379) never fires, so it is not modelled.
- `jobCallback` is keyed by the Celery result object. The model keys it by the pair of track id and chunk index, which is unique while a track is dispatched at most once between resets.
- Files and directories under `static/` (`os.makedirs`, the exports, the `os.walk` cleanup in reset) are filesystem effects. Only the link strings are kept.
- `threading.Lock` objects are created per request and exclude nothing, so the model is sequential.
- `random.randint` is modelled only as the choice of some fresh id in range, not as a distribution.
- Orchestrator.Percent: the source computes `int(successes / total * 100)` in floating point, which can round below the exact value (29/100 gives 28). The model uses exact integer division.
- Chunking.ChunkLengthMs: `len(audio) / 1000` then `* 1000` is floating point in the source, and the model uses exact real arithmetic. For 95 track lengths up to 10 s the source's value is one millisecond short (1001 ms gives 1000, since `1001 / 1000 * 1000` is 1000.9999999999999). The source then cuts a second window of 1 ms and dispatches two Jobs, where the model, and `Server.Dispatch` through ChunksDispatched, have one.
- Text.ParseNat: accepts only ASCII digits. Python's `int()` also accepts surrounding whitespace, a sign, underscores between digits and non-ASCII Unicode decimal digits.
- Reassembly.SuffixIndex: has the same gap, because it parses with Text.ParseNat. A suffix such as `' 3'` or `'+3'` has a sort key in the source and none in the model.
- `int(id)` on the URL's id string is request parsing, and ids are naturals in the model. `music_id_get` builds its links and directory name from the raw URL string (`str(id)`, server.py:384-385 and 464-467), while `Link` uses the decimal form of the number. So a request for `/music/0123456` freezes links containing `0123456`, where the model has `123456`.
- The check `instruments == None` after `.split` (server.py:215) is never reached. Calling `None.split` raises first, which the model returns as `Crashed` with nothing recorded.
- The check `id not in id_usados` (server.py:230) cannot fire, because every uploaded track is registered under a drawn id. The model asserts this instead of branching on it.
- The `percentage` global, which reset zeroes but nothing reads, is not modelled.
- Orchestrator.Server.Dispatch: requires enough unused ids for the track's Jobs and their later marking. The source has no such bound; it would loop forever in `generateID` once the id space is exhausted.
- Orchestrator.Server.MusicPost: requires five unused ids beyond those reserved for marking, for the same reason.
- Orchestrator.Server.Reset: revoking tasks and purging the queue (server.py:513-520) are calls into Celery and are left out.

# noodlizer core, modelled in Dafny

noodlizer is a small web application for a band. It keeps a catalog of
tracks, sets and setlists, and during a show ("a gig") it steps a performer
through the setlist one track at a time. This project models the core of
that logic:

- **Entity** (`entity.dfy`): the records (track, set, setlist, gig) and the
  gig constructor.
- **GigDb** (`gigdb.dfy`): the gig session store, a table of encoded gigs
  keyed by a random id, as a class whose methods change the table.
- **GigCodec** (`codec.dfy`): the payload format of a stored gig, with a
  proved round trip.
- **GigNav** (`gignav.dfy`): the "next"/"previous" navigation over the
  two-level (set, track) cursor.
  - `Next`/`Prev` are the index arithmetic and persistence decision of one
    request.
  - `DoGig`, `ShowGigNext`, `ShowGigPrev` and `EndGig` are the handlers.
    They run against the store.
- **Sync** (`sync.dfy`): the pause service.
  - It classifies `key=wait` / `key=ready` bodies and keeps the set of
    waiters.
  - Each tick it chooses between wait and proceed and fans the message out
    to every subscriber queue.
  - It formats subscriber ids in hexadecimal.
  - It models the life of one subscriber connection.
- **Mark** (`mark.dfy`): the lyrics markup renderer.
  - It splits lyrics into lines and runs the `|color|`/`{note}` tag state
    machine over each line's tokens.
  - It lays the rows out in columns and writes them as an HTML table.
- **Catalog** (`catalog.dfy`): the loops that fold joined query rows into
  tracks, sets and setlists, and the sequence number a track gets when it
  is added to a set.
- **Cli** (`cli.dfy`): command-line dispatch and the CSV import.
  - Each row is mapped to a track.
  - The distinct voice, era, genre and kit names are gathered.
  - The catalog inserts are planned.

Where the source works by updating variables in loops, the model does the
same: a `method` with a `while` loop, proved against a function that
specifies its result. Properties are then proved about that function. Go
panics (an index out of range, a nil dereference) are modelled as explicit
outcomes rather than excluded by preconditions:

- `Crash` in navigation;
- `Failure(i)` in the setlist loop.

### Behaviour of the code worth knowing

The model follows the code in each of these:

- Stepping past the last track of a set stores the cursor `(set + 1, -1)`,
  not `(set + 1, 0)`. The -1 marker makes the following "next" land on
  track 0 (http.go:811).
- "Next" past the last track of the final set reports the end of the show
  straight away. No end-of-set page is shown for that set.
- A span still open at the end of a lyrics line is closed by the literal
  text `<span>`, not `</span>` (db/mark.go:127).
- The opening page of a gig reads the key tone from the track indexed by
  the *set* cursor (http.go:746). This equals the current track only
  because both cursors start at 0.

## Model

| member | source | states |
|---|---|---|
| Entity.Set.TrackCount | entity.go:95-97 | the track count of a set is the number of its tracks |
| Entity.Setlist.SetCount | entity.go:110-112 | the set count of a setlist is the number of its sets |
| Entity.NewGig | entity.go:127-131 | a new gig takes the setlist's name and sets, which keep their length, elements and order; its cursor is at set 0, track 0; its id stays 0 until the store assigns one |
| Entity.LyricsPrettyText | entity.go:78-81 | rendering lyrics equals splitting the raw text into lines and rendering those lines |
| GigCodec.DecodeEncode | db/gigdb.go:45-49 | decoding the payload of any gig, in any cursor position, gives back that gig |
| GigCodec.EncodeInjective | db/gigdb.go:21-25 | distinct gigs encode to distinct payloads |
| GigCodec.DecodeSetsAfterEncode | db/gigdb.go:45-49 | decoding the encoded sets of a gig gives back the sets in order, and leaves whatever follows them |
| GigCodec.DecodeTracksAfterEncode | db/gigdb.go:45-49 | decoding the encoded tracks of a set gives back the tracks in order, and leaves whatever follows them |
| GigCodec.DecodeSetAfterEncode | db/gigdb.go:45-49 | one encoded set decodes back to itself |
| GigCodec.DecodeTrackAfterEncode | db/gigdb.go:45-49 | one encoded track, with its voice, era, genre, kit and lyrics, decodes back to itself |
| GigDb.GigTable.NewGig | db/gigdb.go:11-33 | the id is drawn from [0, 0x7FFFFFFF) and reported as a ghost result; the insert fails exactly when that id is already in the table (the id column taken as primary key), and then the table is unchanged; on success the table gains exactly that id, mapped to the setlist's new gig with that id; every stored payload stays decodable and keyed by its gig's id |
| GigDb.GigTable.GetGig | db/gigdb.go:35-54 | an absent id gives a no-rows error; a present id gives the gig last stored under it, and that gig carries the id |
| GigDb.GigTable.UpdateGig | db/gigdb.go:56-74 | only the record for the gig's own id is replaced; an absent id changes nothing |
| GigDb.GigTable.RemoveGig | db/gigdb.go:76-86 | exactly the record for the id is removed, if there is one |
| GigDb.GigTable.CleanupGigs | db/gigdb.go:88-97 | the table is left empty |
| GigNav.Next | http.go:771-821 | a gig written back differs only in its cursor, which moves to (set, track+1) or to (set+1, -1); a track page shows the stored track; from a cursor within bounds there is no crash, and the stored cursor is again within bounds |
| GigNav.Prev | http.go:879-925 | a gig written back differs only in its cursor, which moves to (set, track-1) or to (set-1, track count of that set); a track page shows the stored track; from a cursor within bounds there is no crash, and the stored cursor stays within bounds |
| GigNav.DoGig | http.go:702-752 | a failed setlist lookup answers "DoGig.2"; a failed insert answers "DoGig.3", leaves the store unchanged and happens only when the store already holds some id, so an empty store always starts the gig; otherwise the store gains the new gig for the setlist, and the page is its opening page |
| GigNav.ShowGigNext | http.go:754-860 | an unknown id answers "ShowGigNext.2" and changes nothing; otherwise the page and the store after the request are those of one "next" step on the stored gig |
| GigNav.ShowGigPrev | http.go:862-963 | an unknown id answers "ShowGigPrev.2" and changes nothing; otherwise the page and the store after the request are those of one "previous" step on the stored gig |
| GigNav.EndGig | http.go:965-975 | the gig's record is removed, and the client is redirected to "/" whatever the removal did |
| GigNav.NextWithinSet | http.go:771-854 | inside a set, "next" stores (set, track+1) and shows that track |
| GigNav.NextEndOfSet | http.go:772-821 | past the last track of a set that is not the last, "next" reports "End" with the finished set's name and stores (set+1, -1) |
| GigNav.NextEndOfShow | http.go:786-809 | past the last track of the final set, "next" reports the end of the show and stores nothing, so a repeated "next" reports it again |
| GigNav.PrevWithinSet | http.go:879-957 | inside a set, "previous" stores (set, track-1) and shows that track |
| GigNav.PrevBeginningOfSet | http.go:880-923 | below track 0 of set s > 0, "previous" reports "Beginning" with set s's name and stores (s-1, track count of set s-1) |
| GigNav.PrevBeginningOfShow | http.go:893-911 | below track 0 of set 0, "previous" reports the beginning of the show and stores nothing |
| GigNav.NextThenPrev | http.go:771-880 | inside a set, "next" then "previous" returns to the same track and cursor |
| GigNav.PrevThenNext | http.go:771-880 | inside a set, "previous" then "next" returns to the same track and cursor |
| GigNav.NextAfterSetEnd | http.go:771-811 | after an end-of-set report, the next "next" shows track 0 of the following set |
| GigNav.PrevAfterSetBeginning | http.go:879-914 | after a beginning-of-set report, the next "previous" shows the last track of the earlier set |
| GigNav.OpeningOfNewGig | http.go:734-746 | a new gig opens on track 0 of set 0 with that track's own key tone, and crashes exactly when set 0 is missing or empty |
| GigNav.WalkNextShowsAhead | http.go:771-821 | pressing "next" until the end of the show shows every track after the cursor exactly once, in show order, and ends with the end-of-show page; empty sets are passed through |
| GigNav.WholeShow | http.go:702-821 | a gig opened on a setlist whose first set has a track, then walked with "next", shows every track of the setlist in order |
| GigNav.OpeningAhead | entity.go:127-131 | the opening track of a new gig, followed by the tracks ahead of it, is the whole setlist's track list |
| Sync.Split | ws.go:102 | a body splits into one more piece than it has separators, and no piece holds a separator |
| Sync.SplitJoin | ws.go:102 | splitting loses nothing: the pieces joined with the separator are the body |
| Sync.JoinSplit | ws.go:102 | pieces that hold no separator, joined and split again, come back unchanged |
| Sync.SplitTwo | ws.go:102-103 | a body splits into exactly [key, value] iff it is key, "=", value with no other "=" |
| Sync.PauseOf | ws.go:102-119 | the split pieces are rejected with 400 iff there are not exactly two |
| Sync.PauseBadRequest | ws.go:93-106 | a body is rejected with 400 iff it has at most 512 characters and does not hold exactly one "="; it is rejected with 413 iff it has more than 512 characters |
| Sync.PauseWait | ws.go:102-113 | a body asks to wait for key iff it is key=wait with no other "="; the key may be empty |
| Sync.PauseReady | ws.go:102-117 | a body releases key iff it is key=ready with no other "=" |
| Sync.AfterPause | ws.go:108-119 | wait adds the key and changes no other waiter; ready removes the key and changes no other waiter (an absent key is a no-op); any other value or a rejected body leaves the waiters unchanged |
| Sync.PauseIdempotent | ws.go:108-117 | repeating the same pause request leaves the waiters as one request did |
| Sync.Hex | ws.go:63 | the upper-case hexadecimal digits of n, at least one, read back as n |
| Sync.FormatId | ws.go:63 | the display id is at least 8 upper-case hexadecimal digits and reads back as the drawn number |
| Sync.FormatIdLength | ws.go:58-63 | every id drawn from [0, 0x7FFFFFFFF) formats to 8 or 9 digits |
| Sync.FormatIdInjective | ws.go:63 | distinct ids give distinct display ids |
| Sync.TickMessage | ws.go:27-33 | a tick sends {"type":"wait"} iff someone is waiting, and {"type":"proceed"} iff no one is |
| Sync.Subscriber.constructor | ws.go:42 | a new subscriber's queue is empty |
| Sync.Broadcaster.UpdateGigPause | ws.go:92-121 | the status is 202 for every accepted body (at most 512 characters, one "=") and the rejection status otherwise; the waiters become what the classified request makes of them; subscribers are untouched; the queue-capacity invariant is kept |
| Sync.Broadcaster.AddSub | ws.go:132-136 | a subscriber whose queue is within its capacity is added; the waiters are untouched; the queue-capacity invariant is kept |
| Sync.Broadcaster.DelSub | ws.go:138-142 | the subscriber is removed; the waiters are untouched; the queue-capacity invariant is kept |
| Sync.Broadcaster.SendMsgAll | ws.go:123-130 | when every queue has room, the message is appended to every subscriber's queue, and each queue stays within its capacity of 16 |
| Sync.Broadcaster.Tick | ws.go:22-36 | one tick appends the wait/proceed message for the current waiters to every queue |
| Sync.FirstStop | ws.go:73-88 | the connection loop ends at the first failed write or at the first close, whichever comes first |
| Sync.TakenWithin | ws.go:73-76 | in a possible schedule, the handler never has taken more messages than the ticker queued |
| Sync.ArriveStep | ws.go:127-128 | a queued message joins the back of the queue, which had room for it; nothing more is delivered |
| Sync.WriteStep | ws.go:75-76 | the handler takes the front of the queue, which was not empty; it is the next message delivered |
| Sync.FillRun | ws.go:123-130 | while a subscriber writes nothing, the ticker can push up to the queue's capacity of 16 messages, one lock hold at a time |
| Sync.AsWrittenDeadlock | ws.go:123-142 | as written, there is a run from an empty queue in which the ticker blocks on the full queue holding the lock, the connection then returns, and its deferred removal waits for the lock: the subscriber is registered and no move is possible |
| Sync.CorrectedCanLeave | ws.go:123-142 | when a push into a full queue drops the message instead of waiting, every state has a run to the subscriber's removal, so no state is stuck |
| Sync.Subscribe | ws.go:39-89 | the subscriber is removed on every way out, so the registry and the waiters end as they began and every queue stays within its capacity; the connection receives the greeting with the formatted id, then, first in first out, the first messages the ticker queued, one per successful write up to the first failed write or close; nothing if the accept, the id draw or the greeting fails |
| Mark.NewMarkText | db/mark.go:21-30 | the newline scan produces exactly the lines of the raw text |
| Mark.LinesJoin | db/mark.go:21-30 | the lines put back together are the raw text, in order |
| Mark.LinesShape | db/mark.go:24-28 | every line is non-empty, holds a newline only as its last character, and every line but the last ends with one |
| Mark.RenderAll | db/mark.go:63-134 | each input line produces exactly one row |
| Mark.RenderAllSnoc | db/mark.go:54-75 | one more line is rendered from the tag state the earlier lines left, so the state persists across lines |
| Mark.StateFromTags | db/mark.go:75-98 | the tag state a line leaves depends only on its tag tokens, never on its words |
| Mark.ScanExtends | db/mark.go:75-124 | while a line is read, its row text and its note are only ever extended |
| Mark.RenderLineCells | db/mark.go:125-132 | every row's text starts with the lyrics cell opening and ends with "&nbsp;</td>\n"; every note is wrapped in "<td class='note'>" … "</td>\n" |
| Mark.ScanLine | db/mark.go:75-132 | the imperative token loop produces the row and next state of the tag state machine |
| Mark.ColumnsSnoc | db/mark.go:134-140 | each row joins the last column, and a new, possibly empty, column opens after every rows-per-column-th row |
| Mark.ColumnsLayout | db/mark.go:134-140 | read column after column, the columns hold exactly the rows in order; all columns but the last hold exactly rows-per-column rows and the last holds fewer; so line i sits in column i / rows-per-column |
| Mark.WriteCells | db/mark.go:146-151 | the cells of a table row are text and notes of each column that has that row, left to right |
| Mark.WriteTable | db/mark.go:143-154 | the table opens with <table class='lyrics'>, has one <tr> … </tr> line per row of the first column, and closes with </table> |
| Mark.PrettyText | db/mark.go:50-156 | the renderer's nested loops produce the table of the lines' rows laid out in columns, with rows per column defaulting to (line count + 1) / 2 when 0 is requested |
| Catalog.TrackFromRow | db.go:211-225 | a track row gives a track with the row's fields; click is set iff the stored value is 1 |
| Catalog.ExtractTracks | db.go:189-229 | one track per row, in row order |
| Catalog.ExtractSetlists | db.go:572-614 | the row loop computes the run-based grouping of the rows into setlists |
| Catalog.ScanMatchesRuns | db.go:577-610 | the row-by-row loop state, finished, equals the grouping of the rows into maximal runs of equal id |
| Catalog.ScanLeading | db.go:574-605 | leading rows with id 0 open no setlist: without a set they are skipped, and the first with a set fails on the missing setlist |
| Catalog.ScanGrouping | db.go:577-607 | after each row, the finished setlists and the open one are those of the runs read so far |
| Catalog.ScanFailedStays | db.go:598-605 | once the loop has failed, later rows do not change the outcome |
| Catalog.RunsMaximal | db.go:591-597 | every run has one id, and neighbouring runs have different ids |
| Catalog.RunsConcat | db.go:577-607 | the runs hold every row exactly once, in order |
| Catalog.GroupOpen | db.go:591-597 | a row whose id differs from the previous row's opens a new setlist holding that row's set, if it has one |
| Catalog.GroupContinue | db.go:598-606 | a row with the previous row's id adds its set, if any, to the current setlist |
| Catalog.SetlistsPerRun | db.go:572-614 | with a non-zero first id, the result is one setlist per maximal run of equal ids, in order of appearance |
| Catalog.NoRowsNoSetlists | db.go:573-612 | no rows give no setlists |
| Catalog.RepeatedIdSeparate | db.go:591-597 | an id that reappears after another id gives a second, separate setlist |
| Catalog.TrackOfSetRow | db.go:672-727 | column by column, a non-null value of a set row is the track's, and a null one reads as "" or 0 (the track id, title, tempo, key tone and the vox, era, genre and kit ids and names); click is always false and the lyrics are empty |
| Catalog.SetFromRows | db.go:657-734 | no rows give the zero set; otherwise the set has the requested id, and takes its name and number from the first row, or from the last when the requested id is 0 |
| Catalog.SetFromRowsSnoc | db.go:658-733 | one more row appends its track, or empties the track list when its track id is null |
| Catalog.GetSet | db.go:616-735 | the row loop computes the set its rows describe |
| Catalog.SetTracksInOrder | db.go:658-733 | rows that all carry a track give one track per row, in row order |
| Catalog.SetlistFromRows | db.go:555-569 | the lookup fails iff some set lookup fails; otherwise the setlist has the requested id and one set per row, in row order; its name and timestamp come from the last row, or are empty and 0 when there are no rows |
| Catalog.GetSetlist | db.go:537-570 | the row loop computes the setlist its rows describe |
| Catalog.FailurePersists | db.go:561-564 | once a set lookup fails, the setlist lookup fails |
| Catalog.MaxSeq | db.go:760-762 | the largest sequence number of the set's entries, or none when the set is empty |
| Catalog.AsWrittenAllZero | db.go:766-773 | as written, every track added to a set whose entries all have sequence number 0 also gets 0 |
| Catalog.AsWrittenTies | db.go:760-773 | as written, two tracks added to an empty set share sequence number 0 |
| Catalog.NextSeqAsWritten | db.go:766-770 | as written, the new number is the largest sequence number present, or 0 for an empty set, and so equals an existing one when there is any |
| Catalog.AddTrackAsWritten | db.go:758-778 | as written, adding a track keeps the entries and appends the track, sharing its sequence number with an existing entry when there is any |
| Catalog.NextSeq | db.go:766-773 | the corrected numbering of the Findings row: the new number is above every sequence number present |
| Catalog.AddTrack | db.go:758-778 | with the corrected numbering of the Findings row, adding a track keeps the entries and appends the track with a sequence number above all earlier ones |
| Catalog.AddAllIncreasing | db.go:760-773 | with the intended numbering, sequence numbers stay strictly increasing, so ordering by them is insertion order |
| Cli.DispatchCases | main.go:17-41 | with no command the program serves; "import" with both paths imports; "import" with fewer than 4 arguments, or any other command, exits with status 2 |
| Cli.Lower | main.go:129 | lower-casing keeps the length, maps each character, and leaves no upper-case ASCII letter |
| Cli.LowerIdempotent | main.go:129 | lower-casing twice is lower-casing once |
| Cli.EraName | main.go:101-111 | an era code maps to the empty name iff it is not one of the nine known codes |
| Cli.EraNamesDistinct | main.go:101-111 | different known era codes name different eras |
| Cli.Atoi | main.go:137 | a tempo cell always reads as a value within the 64-bit range |
| Cli.AtoiDecimal | main.go:137 | the decimal digits of any value in range, with or without a minus sign, read back as that value |
| Cli.AtoiNonNumeric | main.go:137 | a short tempo cell with a non-digit after the sign reads as 0 |
| Cli.CsvTrackCells | main.go:122-157 | click is set iff cell 4 is exactly "True"; missing cells leave zero values; an unknown era code gives an empty era; cells past the seventh do not matter |
| Cli.CsvTrackIgnoresExtra | main.go:123-156 | cells beyond index 6 are ignored |
| Cli.ReadRow | main.go:122-158 | reading a row yields the row's track and adds the row's kit, voice, era and genre names to the four name sets |
| Cli.TracksIn | main.go:119-160 | one track per row, in row order |
| Cli.GatherRows | main.go:113-160 | the row loop yields one track per row in order, and the distinct names found in the kit, voice, era and genre columns |
| Cli.Enumerate | main.go:183-197 | every name of a set is visited exactly once |
| Cli.NameBlocksFilter | main.go:183-197 | the names inserted of each kind are exactly that kind's block |
| Cli.PlanShape | main.go:183-207 | every name insert comes before every song insert |
| Cli.ImportPlan | main.go:113-207 | each distinct voice, era, genre and kit value is inserted exactly once; the songs inserted are the rows' tracks in row order; all names are inserted before any song |

## Left out

- The gob byte format of a stored gig is library code. It is replaced by a
  tagged-field payload (`GigCodec`) whose round trip is proved. The stored
  bytes therefore differ from the source's.
- `crypto/rand` is modelled differently at each call site:
  - in `GigDb.GigTable.NewGig` the id is a nondeterministic choice in
    range;
  - in `Sync.Subscribe` the id is a parameter, with `None` standing for a
    failed draw.
- Goroutines, the mutex, `time.Sleep` and channel blocking are concurrency
  and are not modelled.
  - `servicePause` is modelled as one `Tick`.
  - `Sync.Broadcaster.SendMsgAll` requires that every queue has room,
    because a full queue would block the sender. The blocking itself is
    modelled separately, as a small transition system of the ticker, one
    subscriber and the lock (`Sync.Move`); see the second Findings row.
- WebSocket accept, framing, write deadlines and contexts are library I/O.
  `Sync.Subscribe` receives their outcomes as an event script. The script
  also carries the ticker's messages arriving in the subscriber's queue, so
  one script is one interleaving of the handler and the ticker. A script
  must be a possible schedule of the channel (`Sync.Schedule`): nothing is
  queued into a full queue and nothing is taken from an empty one, because
  the send or the receive would wait instead.
- SQL, the driver and the schema are not modelled. Each query is replaced
  by the rows it returns, in order, with nullable columns as `Option`.
  - A scan error of a row is not modelled.
  - Query errors are not modelled, except the set lookup inside
    `getSetlist`, which is a parameter.
- `text/scanner` tokenization is a parameter (`scan`). A lyrics line
  arrives as words, each with a "followed by a space" flag, and the tag
  characters.
- `cases.Title` (the ProperName and ProperTitle methods) and the time
  formatting of `CreatedAt` are library text formatting and are not
  modelled. Pages carry the raw names.
- Template rendering and HTTP plumbing are abstracted to a `Page` value.
  - The "DoGig.1", "ShowGigNext.1", "ShowGigPrev.1" and "EndGig.1" path
    parse errors are not modelled; handlers take the id as an integer.
  - The re-fetch of a track's lyrics by `GetTrack` in the handlers is not
    modelled; a track page carries the track from the gig.
- `RowsAffected` on a possibly nil result after a failed `Exec`
  (db/gigdb.go:67-68) is an error-path crash in library plumbing. It is not
  modelled, and the store's update, delete and delete-all always succeed.
- Cli.Lower: lower-cases ASCII letters only, because full Unicode case
  mapping is library behaviour.
- GigDb.GigTable.NewGig: the insert failing on an id already in use rests
  on the id column being the table's primary key. The source neither checks
  for a collision (db/gigdb.go:28-32) nor creates the table, so that is an
  assumption about the schema.
- Sync.PauseBadRequest: the 512 limit counts characters, whereas
  `http.MaxBytesReader` (ws.go:93) counts bytes, so a body with multi-byte
  UTF-8 characters is not measured as the source measures it.
- Reading the CSV file, `os.Stat`, opening the database, serving and
  signal handling are I/O. The import is modelled from the parsed rows.
- Cli.ImportPlan: plans the inserts as a sequence instead of calling
  `AddVox`, `AddEra`, `AddGenre`, `AddKit` and `AddSong`, which are not
  part of this model. For the same reason an `AddSong` error ending the
  import early is not modelled.
- Catalog.SetFromRows: integer columns are unbounded, so the
  `int(setnum)` and `int(tempo)` conversions are not modelled (they are
  the identity on 64-bit platforms).

## Findings

| source | as written | input that shows it | evidently intended | confidence | as-written member | corrected member |
|---|---|---|---|---|---|---|
| db.go:760-773 | `addTrackToSet` gives the new entry `max(seq)` of the set, or 0 when the set is empty | add two tracks to an empty set: both get sequence number 0, so `ORDER BY sets_tracks.seq` in `getSet` no longer fixes their order | the new entry gets one more than the largest sequence number present, so that sequence order is insertion order | not executed | Catalog.AsWrittenTies | Catalog.AddAllIncreasing |
| ws.go:123-130 | `sendMsgAll` holds `ws_mtx` while it sends into each subscriber's queue, and a send into a full queue waits | a slow reader whose writes keep succeeding just inside their 5-second deadline (ws.go:76, ws.go:144-148), so that about nine ticks of 500 ms (ws.go:34) are queued per write, until the queue holds 16: the ticker then waits on the full queue holding the lock; when the next write times out or the peer closes, the handler returns (ws.go:76-79, ws.go:81-86) and its deferred `delSub` (ws.go:44, ws.go:138-142) waits for the same lock forever. `Sync.Move` abstracts the write deadline and the clock, so the exhibited run of 16 pushes with no write between them stands for this schedule, in which slow writes are interleaved | a send that cannot proceed does not wait while the lock is held (it drops the message), so a leaving subscriber can always be removed | not executed | Sync.AsWrittenDeadlock | Sync.CorrectedCanLeave |

# SeismoX core, modelled in Dafny

This project models the processing core of the SeismoX prototype, a small
seismic monitoring service. It covers the following parts:

- **Records** (`models.dfy`). The station, waveform, phase-pick and event
  records, with the defaults their declarations give.
- **Store** (`store.dfy`). The database, reduced to one map per table and one
  key counter. Its invariant holds that station codes are unique, as the
  unique index on `Station.code` requires.
- **Processing pipeline** (`pipeline.dfy`). A single worker drains a FIFO
  queue of processing requests. Each request yields four simulated phase
  picks ("Pg", "Sg", "Pn", "Sn"). It also yields one event, whose origin is
  the earliest pick and whose location is near the station. The picks are
  stamped with the event's key and saved, and the request's waveform is
  marked processed.
- **Phase-picker adapter** (`pickers.dfy`). The model is loaded once and
  cached, and an absent model is remembered too. The input block is
  normalised to the time-major (N, 3) layout. The output rows become
  `(phase index, sample index, confidence)` triples, and malformed rows are
  skipped.
- **SeedLink bridge** (`iris_stream.dfy`). Start and stop are guarded by the
  `running` flag. The data callback drops traces once the stop flag is up,
  and the streaming thread's teardown always raises the flag and clears
  `running`. The relay loop registers unknown stations by code. It stores
  each trace as an unprocessed waveform and queues a processing request.
  It then counts the frame and keeps a downsampled copy of the latest trace.
- **USGS feed importer** (`usgs.dfy`). Each feature id is imported at most
  once. A feature is skipped when its id was already seen in this process or
  an event tagged `usgs:<id>` is already stored. Every other feature becomes
  an event with the documented defaults. It also gets four virtual picks
  1 to 4 seconds after the origin, at a virtual "USGS" station, and one
  processed waveform.
- **FDSN station catalogue parser** (`iris.dfy`). Comment rows and the column
  header are skipped, and so are rows with fewer than seven fields. The first
  row of each station code wins. Reading stops at `max(limit, 1)` stations.
  The catalogue's stations can be exported as dictionaries.

Stateful parts are classes whose methods update fields: the store `Db`, the
request queue, the picker cache, the live stream and the feed poller. Each
method's `ensures` relates the tables and fields it changes to their old
values and names what it keeps. The store's key counter is stated only where
key values matter. Where a loop changes a table many times, the new table is
a recursive function of the old one and the loop's inputs
(`Pipeline.WaveformsAfter`, `IrisStream.RegisteredStations`,
`IrisStream.StoredWaveforms`), and lemmas state what that function keeps and
adds. Pure parts are functions with lemmas. The catalogue loop is a method
proved equal to a declarative definition, `Iris.Catalog`: the first row per
code among the data rows, truncated to the limit, then converted.

Everything outside the program is a parameter. This covers random draws,
constrained to the ranges they are drawn from, and clock readings. It also
covers the path and time under which raw bytes were stored, the decoded HTTP
responses, `float()` and the neural network.

Two behaviours of the code shape the model:

- **A failing request ends the worker.** `process_waveforms` calls
  `task_done` in `finally` and does not catch the exception, so the
  exception raised for an unknown station leaves the loop. The model's
  `ProcessWaveforms` stops at the first failing request, marks it done and
  reports `crashed`. The failed request writes nothing, and its waveform
  stays unprocessed.
- **Live frames can hold up to 1599 points.** The step is
  `max(1, n // 800)`, so a frame has fewer than 1600 points, and from 1600
  samples on the step is exactly `n // 800`. `IrisStream.Downsample` proves
  the bound.

## Model

| member | source | states |
|---|---|---|
| Models.NewStation | app/models.py:11-18 | A station given only code, name and position has elevation 0.0, is active and has status "healthy". |
| Models.NewWaveform | app/models.py:32-36 | A new waveform keeps its station, path and time and is not processed. |
| Models.NewPick | app/models.py:44-51 | A pick given station, phase and time has no event, quality 0.0, and no motion or earthquake type. |
| Models.NewEvent | app/models.py:60-67 | An event given origin and position has depth 10 km, magnitude 0.0, type "earthquake" and no preferred station. |
| Models.AddKeepsCodesUnique | app/models.py:12 | Adding a station under a new key with a code not yet present keeps station codes unique. |
| Store.Db.FindStationByCode | app/iris_stream.py:172 | The lookup by code finds a key exactly when some station has that code, and the key found holds that code. |
| Store.Db.FindOrCreateStation | app/iris_stream.py:171-184 | An existing station with the code is returned and the store is unchanged. Otherwise the candidate is inserted under a fresh key. Codes stay unique and no other table changes. |
| Store.Db.AddWaveform | app/iris_stream.py:190-193 | The waveform is stored under a fresh key, and no other table changes. |
| Store.Db.AddPick | app/pipeline.py:92-95 | The pick is stored under a fresh key, and no other table changes. |
| Store.Db.AddEvent | app/pipeline.py:84-86 | The event is stored under a fresh key that `refresh` hands back, and no other table changes. |
| Pipeline.SimulatePhasePicks | app/pipeline.py:48-64 | The label loop builds exactly `SimulatedPicks` of the request and its draws. |
| Pipeline.EarliestPickTime | app/pipeline.py:70 | The result is the minimum of the pick times: no pick is earlier, and some pick has exactly that time. |
| Pipeline.SimulatedPicks | app/pipeline.py:48-64 | Four picks are made, one per label Pg, Sg, Pn, Sn in order, each at the request's station with no event. Pick i is the arrival time plus its offset draw, 0.5 to 6.0 s later. Its quality is its draw, in [0.7, 0.99], and its motion and type come from the allowed choices. |
| Pipeline.AssociatedEvent | app/pipeline.py:69-83 | The origin is the earliest pick time. The position is within 0.05 degrees of the station, the depth is non-negative and the magnitude is in [1.5, 4.5]. The type is "earthquake" and the preferred station is the request's. |
| Pipeline.AssociateEvent | app/pipeline.py:67-87 | The method fails exactly when the station is unknown or the batch is empty, and a failure writes nothing. Otherwise it stores the associated event under a fresh key and returns that key. |
| Pipeline.StampEvent | app/pipeline.py:92-93 | Every pick gets the event key, and every other field is unchanged. |
| Pipeline.AttachPicksToEvent | app/pipeline.py:90-95 | The stamped picks are saved in batch order under consecutive fresh keys. Earlier picks are kept, and nothing else is added. |
| Pipeline.MarkProcessed | app/pipeline.py:98-104 | The same keys remain. The given waveform, when present, is processed with its other fields kept, and all other waveforms are unchanged. |
| Pipeline.MarkProcessedUnknownIsNoOp | app/pipeline.py:100-101 | An unknown waveform key leaves the table unchanged. |
| Pipeline.MarkProcessedIdempotent | app/pipeline.py:98-104 | Marking a waveform twice is the same as marking it once. |
| Pipeline.UpdateWaveformProcessed | app/pipeline.py:98-104 | The waveform table becomes `MarkProcessed` of the old one, and nothing else changes. |
| Pipeline.HandleRequest | app/pipeline.py:41-45 | The request fails exactly when its station is unknown, and then the store is unchanged. Otherwise the event stored under the returned key is `AssociatedEvent` of the station and the simulated picks. With the model's single key counter, the next four keys hold those picks stamped with the event key, in label order, each no earlier than the origin and within the draw window. Earlier picks are kept and no other pick is added. The waveform is then marked processed. |
| Pipeline.RequestQueue.Put | app/pipeline.py:28-29 | The request is appended at the tail, and one more task is unfinished. |
| Pipeline.RequestQueue.Get | app/pipeline.py:34 | The oldest request is taken from the head. |
| Pipeline.RequestQueue.TaskDone | app/pipeline.py:38 | One fewer task is unfinished, and the items are unchanged. |
| Pipeline.ProcessWaveforms | app/pipeline.py:32-38 | Requests are handled oldest first, and each one is marked done. The old events and picks are kept. Request k's event is recorded under `eventIds[k]`, and its four picks under the next four keys of the model's single counter. No other key is added. The waveform table is the old one with the handled requests' waveforms marked. The first request with an unknown station stops the worker, and the requests after it stay queued. |
| Pipeline.WaveformsAfter | app/pipeline.py:32-45 | Marking the waveforms of the first n requests in order keeps the same keys. A waveform is processed afterwards exactly when it was before or one of those requests names it, and its other fields are unchanged. |
| Pipeline.RecordedMeans | app/pipeline.py:32-45 | Each handled request has its own record under its key: the event associated from its simulated picks, and those picks, stamped, under the next four keys. |
| Pipeline.HandledMeans | app/pipeline.py:32-45 | After the worker, each handled request's event is new, at its own station and typed "earthquake". The event keys grow in queue order. Each handled request's waveform is processed, the waveform keys are the same, and every other waveform is as it was. |
| Pickers.Transpose3 | app/pickers/__init__.py:50-51 | `transpose(0, 1)` of a (3, N) block gives an (N, 3) block whose entry [s][c] is input entry [c][s]. |
| Pickers.Squeeze0 | app/pickers/__init__.py:55 | `squeeze(0)` of a (1, a, b) block keeps the entries and drops the leading 1 from the shape. |
| Pickers.NormalizeChannelFirst | app/pickers/__init__.py:50-51 | A (3, N) block with N other than 3 becomes (N, 3) with time order kept, and it is accepted. |
| Pickers.NormalizeBatch | app/pickers/__init__.py:54-55 | A (1, 3, N) batch becomes (N, 3): entry [s][c] is input entry [0][c][s], and it is accepted. |
| Pickers.FallbackStepIsDead | app/pickers/__init__.py:57-59 | The generic fallback transpose never changes what the first two steps produced. |
| Pickers.SquareBlockUnchanged | app/pickers/__init__.py:50 | A (3, 3) block passes through untouched and is accepted. |
| Pickers.AcceptedInputs | app/pickers/__init__.py:48-63 | A block reaches the model exactly when it is two-dimensional with three columns or three rows, or is a (1, 3, N) batch. |
| Pickers.TruncateToInt | app/pickers/__init__.py:76 | Python's `int()` on a float truncates toward zero. |
| Pickers.DetectionsSkipMalformed | app/pickers/__init__.py:71-78 | A row with fewer than three fields is skipped, and the other rows convert as if it were absent. |
| Pickers.DetectionsOfFullRows | app/pickers/__init__.py:74-76 | When every row has three fields, row i yields detection i, built from its first three fields. |
| Pickers.ConvertOutput | app/pickers/__init__.py:68-79 | The output loop yields the detections of the rows in row order. |
| Pickers.PickerOutput | app/pickers/__init__.py:61-79 | A block whose normalised shape is not (N, 3) gives no detections. Otherwise there is at most one detection per output row. |
| Pickers.Picker.LoadModel | app/pickers/__init__.py:17-28 | The first call records whether the artifact exists: loaded or absent. Every later call returns the recorded state without looking again. |
| Pickers.Picker.RunPhasePicker | app/pickers/__init__.py:31-79 | With no model there are no detections. With a model, the result is `PickerOutput` of the samples. The cache is updated as by `LoadModel`. |
| IrisStream.DownsampleStep | app/iris_stream.py:154 | The step `max(1, n // 800)` is at least 1 and is 1 below 1600 samples. From 1600 samples on it is exactly `n // 800`, and it always lies between `n // 800` and `n // 800` plus one. |
| IrisStream.StrideLength | app/iris_stream.py:155 | The slice `s[::step]` has ceil(n / step) elements. |
| IrisStream.StrideAll | app/iris_stream.py:155 | Element i of `s[::step]` is `s[i * step]`. |
| IrisStream.DownsampleLengthBound | app/iris_stream.py:153-155 | A downsampled frame has fewer than 1600 points, whatever the trace length. |
| IrisStream.Downsample | app/iris_stream.py:153-155 | The frame's samples are the input at multiples of the step, starting with the first sample. There are ceil(n / step) of them, always fewer than 1600. |
| IrisStream.FrameOf | app/iris_stream.py:156-163 | The latest frame carries the trace's network, station, channel, start time and rate, with downsampled samples. |
| IrisStream.StreamedStation | app/iris_stream.py:174-181 | An auto-registered station has the trace's code, is named "<network>-<code>", sits at 0/0/0 m, is active and has status "streaming". |
| IrisStream.HandleTrace | app/iris_stream.py:168-202 | The station is found or registered by code. The trace is stored as an unprocessed waveform under a fresh key. The request naming both is appended to the pipeline queue. |
| IrisStream.LiveStream.Start | app/iris_stream.py:40-65 | Start is refused while running, and the status is then unchanged. Otherwise it clears the stop flag, sets running, resets frames and the error, and records the selectors. `last_frame` is kept. |
| IrisStream.LiveStream.Stop | app/iris_stream.py:68-100 | Stop is refused unless running, and the status is then unchanged. Otherwise it raises the stop flag and clears `running`. |
| IrisStream.LiveStream.GetLiveStatus | app/iris_stream.py:103-104 | The status is returned as a value. Every field is current: the running flag, the frame count, the four selectors, the last frame time and the error. |
| IrisStream.LiveStream.OnTrace | app/iris_stream.py:116-119 | A trace is forwarded to the handoff exactly when the stop flag is down. |
| IrisStream.LiveStream.PumpExit | app/iris_stream.py:121-137 | However streaming ends, the stop flag is up and `running` is cleared. A failure's message becomes the status error. |
| IrisStream.LiveStream.RelayOne | app/iris_stream.py:142-163 | The oldest trace is handled. The station table is unchanged when a station has the trace's code, and otherwise gains the streamed station under the request's new key. The waveform table gains exactly the new unprocessed waveform under a fresh key, and picks and events are unchanged. One frame is counted, `last_frame` is stamped, and the latest frame is replaced by this trace's. |
| IrisStream.LiveStream.ConsumeTraces | app/iris_stream.py:140-165 | While the stop flag is down, every handed-off trace is relayed oldest first, and request k is `Relayed` for trace k. The station table is `RegisteredStations` and the waveform table is `StoredWaveforms` of the old tables and the requests, with fresh waveform keys. Picks and events are unchanged. The frame count grows by the number of traces, and the latest frame is the last trace's. |
| IrisStream.RelayedMeans | app/iris_stream.py:168-202 | Request k names a station that holds trace k's code, and trace k's stored path and arrival time. |
| IrisStream.RegisteredStationsFrame | app/iris_stream.py:171-184 | The relay keeps every station already present. Every station it adds is the streamed station of one of the traces, and every request's station is present. |
| IrisStream.StoredWaveformsKeep | app/iris_stream.py:190-193 | Storing the requests' waveforms under fresh keys keeps every waveform already there. |
| IrisStream.StoredWaveformsKeys | app/iris_stream.py:190-193 | The relay adds no waveform key other than the requests' own. |
| IrisStream.StoredWaveformsContent | app/iris_stream.py:190-200 | Each request's key was not in the table before, and afterwards holds an unprocessed waveform for the request's station, with its arrival's path and time. |
| Usgs.UsgsTag | app/usgs.py:15 | The tag is "usgs:" followed by the id. |
| Usgs.UsgsTagInjective | app/usgs.py:86 | Distinct ids give distinct tags, so the stored-event check on a tag identifies one feature. |
| Usgs.UsableId | app/usgs.py:73-74 | A feature is considered exactly when its id is present and non-empty. |
| Usgs.MaterializedEvent | app/usgs.py:91-113 | A non-empty coordinate list shorter than three raises. Otherwise: origin = time/1000 s, or the clock when time is missing or zero. Latitude and longitude default to 0.0, depth = abs(depth), or 10.0 when missing, magnitude = mag or 0.0. The type is the USGS tag, and the preferred station is the given one. |
| Usgs.UsgsStation | app/usgs.py:138-146 | The virtual station has code "USGS", status "virtual", is active, and sits at 0/0/0 m. |
| Usgs.EnsureUsgsStation | app/usgs.py:132-150 | The existing "USGS" station is returned unchanged, or a virtual one is created under a fresh key. |
| Usgs.VirtualPicks | app/usgs.py:153-168 | Four picks are made, one per label in order, at the given station and linked to the event. Pick k is k+1 s after the origin, strictly after it and in increasing time. Quality is in [0.75, 0.98], and the type is "usgs-feed". |
| Usgs.AddVirtualPicks | app/usgs.py:118-120 | The four virtual picks are saved under the four keys after the event's in the model's single counter: each with its label, the event's station and key, a time k+1 s after the origin, quality in [0.75, 0.98], an up or down motion and type "usgs-feed". Earlier picks are kept, and no other pick is added. |
| Usgs.MaterializeUsgsEvent | app/usgs.py:91-129 | A malformed feature raises "list index out of range" before anything is written. Otherwise the event built from the feature is stored under a fresh key, at the "USGS" station. With the model's single counter, its four virtual picks follow under the next four keys, then a processed waveform "usgs:<id>" at the origin time. Existing stations, events and picks are kept, the only possible new station is the virtual one, and no other pick or waveform is added. |
| Usgs.AddEventKeepsConsistent | app/usgs.py:76-80 | Storing an event whose USGS tag is not yet stored keeps two facts: every seen id has a stored event, and no USGS tag is stored twice. |
| Usgs.HandledKeepsConsistent | app/pipeline.py:75-83 | The worker's events are typed "earthquake", so handling requests keeps every seen id stored and no USGS tag stored twice. |
| Usgs.FeedIdsMembers | app/usgs.py:72-74 | The ids a feed contributes are exactly its features' usable ids, never the empty string. |
| Usgs.PullStep | app/usgs.py:72-80 | Each feature that does not fail adds its usable id to the seen set. Stored events are kept, and every new event carries the tag of a newly seen id. |
| Usgs.UsgsFeed.Start | app/usgs.py:23-28 | Start is refused while a poll task is live. Afterwards a task is live. |
| Usgs.UsgsFeed.Stop | app/usgs.py:31-41 | A live task is cancelled and awaited. No task remains, and the answer is true. |
| Usgs.UsgsFeed.Status | app/usgs.py:44-51 | The status reports running iff a task is live, the number of seen ids, the last fetch and error, and the feed URL. |
| Usgs.UsgsFeed.ImportFeature | app/usgs.py:73-80 | A feature with no usable id, or a seen id, is skipped. One already stored only marks its id seen. A malformed one fails with the coordinate error and nothing written. Otherwise the feature is materialised as by `MaterializeUsgsEvent`, with its picks and waveform, and the id is seen. The store never holds two events with the same USGS tag. |
| Usgs.UsgsFeed.PullOnce | app/usgs.py:67-80 | Features are imported in feed order until the first failure, which is the coordinate error of a feature with an unseen usable id. The seen set grows by exactly the usable ids of the imported features. Stored events, stations, picks and waveforms are kept. Each new event carries a newly seen id's tag, each new station is the virtual one, each new pick is a virtual pick of a new event, and each new waveform is the processed waveform of a new event. |
| Usgs.UsgsFeed.PollRound | app/usgs.py:54-64 | The fetch time is stamped. A fetch failure is recorded as the error and writes nothing. The error is cleared exactly when the fetch succeeded and every usable id of the feed is now seen. Otherwise, after a successful fetch, it is the coordinate error of some malformed feature. After a successful fetch, the seen set grows by the usable ids of a prefix of the feed, and that prefix ends just before the malformed feature when there is an error. The event, station, pick and waveform tables change only as `PullOnce` allows (`Imported`, `StoreImported`). |
| Iris.AsDict | app/iris.py:24-32 | The dictionary has exactly the six keys network, code, latitude, longitude, elevation_m and name. |
| Iris.AsDictRoundTrip | app/iris.py:24-32 | Reading the dictionary back gives the station: every field is kept unchanged. |
| Iris.AsDictInjective | app/iris.py:24-32 | Distinct stations give distinct dictionaries. |
| Iris.NonComment | app/iris.py:50-51 | Empty rows and rows whose first field starts with "#" are dropped. |
| Iris.LongRows | app/iris.py:55-58 | Rows that do not unpack into seven fields are dropped. |
| Iris.FirstByCodeKeepsCodes | app/iris.py:59-60 | Keeping the first row per code loses no code. |
| Iris.FirstByCodeDistinct | app/iris.py:59-61 | No two kept rows share a station code. |
| Iris.FirstByCodeFirstWins | app/iris.py:59-60 | Every kept row is the first row carrying its code. |
| Iris.StationOf | app/iris.py:61-68 | A station is built exactly when the three coordinates parse. Network and code come from fields 0 and 1, and the name is "<network>-<code>". |
| Iris.Convert | app/iris.py:61-68 | Conversion succeeds exactly when every row's coordinates parse, with one station per row in order. Otherwise it is the float conversion error. |
| Iris.CatalogShape | app/iris.py:59-72 | A catalogue holds at most max(limit, 1) stations, with no two sharing a code, each named "<network>-<code>". |
| Iris.CatalogFirstRowWins | app/iris.py:59-61 | Each catalogue station is built from the first data row with its code. |
| Iris.NonPositiveLimitKeepsOne | app/iris.py:69-70 | A limit of zero or less still lets the first station through. |
| Iris.CommentRowIgnored | app/iris.py:50-51 | Removing an empty or comment row anywhere leaves the catalogue unchanged. |
| Iris.HeaderContentIgnored | app/iris.py:52-54 | The first non-comment row is discarded as the header, whatever it holds. |
| Iris.CandidatesStep | app/iris.py:49-58 | Reading one more row adds it to the data rows exactly when it is a long, non-comment row after the header. |
| Iris.FoundIsFirstByCode | app/iris.py:59-61 | The row-by-row dictionary build agrees with the declarative first-row-per-code of the data rows. |
| Iris.SkippedRow | app/iris.py:50-58 | A comment, header or short row adds no station, and the header flag is set by the first non-comment row. |
| Iris.RepeatedRow | app/iris.py:59-60 | A data row whose code was already collected adds nothing. |
| Iris.NewRow | app/iris.py:59-68 | A data row with a new code is collected. The conversion then fails exactly when its coordinates do not parse, and otherwise gains its station. |
| Iris.NewRowFails | app/iris.py:61-68 | A new row whose coordinates do not parse makes the whole catalogue fail. |
| Iris.NewRowCompletes | app/iris.py:69-70 | The station that reaches the limit completes the catalogue. |
| Iris.CatalogFromPrefix | app/iris.py:69-72 | Once max(limit, 1) stations are collected, or all rows are read, the catalogue is what was collected. |
| Iris.ParseCatalog | app/iris.py:44-72 | The row loop returns exactly `Catalog`: the first row per code among the data rows, at most max(limit, 1), converted in order, or the conversion error. |

## Left out

- Threads and the asyncio scheduler are not modelled. The bridge, the
  pipeline and the feed poller are sequential transitions on their objects.
  The trace handoff queue is a sequence and the stop flag is a boolean. The
  worker's one-second dequeue timeout, the three-second grace period in
  `stop_live_stream`, task cancellation and closing the SeedLink client are
  left out.
- The streaming client itself (`create_client`, `select_stream`, `run`) is
  not modelled. A session is a series of `OnTrace` calls ended by
  `PumpExit`.
- HTTP requests, `raise_for_status`, JSON decoding and CSV tokenisation are
  outside the model. The parser receives rows of fields, and the importer
  receives decoded features or the failure.
- `float()` is the parameter `toFloat`, and Python floats are reals. The
  model has no rounding, and no NaN or infinity (so `int()` never raises).
- Clock readings (`utcnow`) and random draws are parameters. Datetimes are
  seconds on one time line, and ISO strings are those instants.
  `round(…, 2)` of the magnitude is folded into its draw. The Gaussian depth
  draw is unconstrained before `abs`.
- Usgs.MaterializeUsgsEvent: it takes one clock reading per feature.
- torch is not modelled: tensor construction from ragged lists (which
  raises), `no_grad`, and `tolist`. Inputs are required to be rectangular,
  and the network is an opaque function from the normalised block to rows.
- Phase labels for picker indices, and absolute pick times from sample
  offsets, are not part of the adapter file and are not modelled.
- Pickers.RunPhasePicker: the sampling rate is accepted and ignored, as in
  the adapter.
- The store uses one key counter for all tables, where SQLite numbers each
  table separately. Because of that single counter, a request's or feature's
  records sit at fixed offsets from its event key: the four picks at the next
  four keys, and a USGS waveform five keys after its event. The contracts
  state those offsets. They are a property of the model's counter only. The
  code links a pick to its event by `event_id`, and a USGS waveform to its
  feature by its "usgs:<id>" path.
- Sessions, commits and rollbacks are not modelled: each write takes effect
  at once.
- The 32-character limit on station codes is not modelled, because SQLite
  does not enforce it.
- Persisting the trace bytes (miniSEED encoding and the storage helper) is
  not part of this model. Each trace comes with its stored path and time.
- Pipeline.ProcessWaveforms: it returns when the queue is empty, where the
  real worker waits forever for the next request.
- Pipeline.HandleRequest: it models only the failure the code can raise on
  its own data: an unknown station. Database errors are not modelled.
- Usgs.UsgsFeed.PollRound: only one turn of `_poll_loop` is modelled. The
  endless repetition and the sleep between turns are left out.
- Usgs.UsgsFeed.ImportFeature and Usgs.UsgsFeed.PullOnce: they require the
  store invariant `Usgs.Consistent`: every seen id has a stored event and no
  USGS tag is stored twice. The empty store satisfies it. The feed's
  operations keep it by their `ensures`. `Usgs.HandledKeepsConsistent` shows
  that the worker's events keep it. The bridge's `ConsumeTraces` leaves the
  event table unchanged.
- Feature fields other than id, time, magnitude and coordinates are not
  modelled, and neither are non-string ids or a non-list `coordinates`.
- `fetch_waveform_plot`, the HTTP API, the dashboard and logging are not
  part of this model.

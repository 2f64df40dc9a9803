# findme-api zone scheduler in Dafny

findme-api is the backend of a battle-royale location game. The safe zone is a
sequence of circles that shrinks over time. This project models the logic at
the core of that backend and proves properties of the model:

- **Window assignment** (`populateCircles`, module `Schedule`). The fetched
  circles are sorted in place by radius, largest first. Circle 0 gets the
  window `[start, start + interval)`. Every later circle gets a window that
  starts at the `end` stored at the previous index and ends one interval after
  that end. The result is the sequence of records handed to the store's update
  call, or an error.
- **Active-circle resolution** (`getCurrentCircle`, module `Resolution`). The
  circles are scanned in the order given, and the first one whose window holds
  `now` is returned. A timestamp that does not parse stops the scan with an
  error, and so does finding no match.
- **Bearer-token extraction** (`getAuthToken`, module `Auth`). An empty
  Authorization header is an error. Any other header gives its token, with one
  leading `"Bearer "` removed.

Files:

- `types.dfy` holds the `Circle` record, the errors and Go's `(value, error)`
  pair (module `Types`). It also holds the abstract time codec (module
  `Timestamps`).
- `schedule.dfy` holds the in-place sort, the window assignment as written and
  the corrected assignment.
- `resolution.dfy` holds the scan and its reference definition.
- `auth.dfy` holds the token extraction.
- `zone.dfy` holds lemmas that combine the schedule and the scan.

How the model represents things:

- A timestamp is an integer count of one time unit. The model assumes that
  unit is the precision of the textual layout, so that formatting a timestamp
  of the schedule loses nothing. This is an assumption of the model: the
  layout constant is not part of it.
- Formatting and parsing are library calls whose layout constant is not shown.
  Every operation therefore takes them as a `TimeCodec` value: a total
  `format: int -> string` and a partial `parse: string -> Option<int>`.
- `RoundTripsOn(codec, startTime, interval, n)` states
  `parse(format(t)) == Some(t)` for the instants `t = startTime + i·interval`,
  `0 <= i <= n`. These are the boundaries of an `n`-window schedule. A real
  layout round-trips only timestamps within its range and precision, so
  nothing more is asked. Only the lemmas that need it assume it. No operation
  requires it.
- `time.Now()` becomes the parameter `now`.
- The circle list the store returns is an `array<Circle>` that the window
  assignment sorts and writes in place. The list the scan reads is a
  `seq<Circle>`, which it never changes.
- `types.go` does not declare the `Start` and `End` fields that `helpers.go`
  reads and writes. The model's `Circle` adds them as `start` and `end`.
- `Items[0]` on an empty list is a runtime panic in Go. The model reports it
  as the error `IndexOutOfRange` and emits no updates.

Four behaviours of the code are worth noting. The model follows the code in
each:

- The sort is not stable, so ties may land in any order.
- A parse error stops the loop, but the updates already sent stand; nothing is
  rolled back.
- Windows are matched with strict comparisons on both ends.
- An empty list is not guarded.

The last two, and the missing write-back in the window loop, are listed under
"Findings".

## Model

| member | source | states |
|---|---|---|
| `Schedule.SortByMetersDesc` | helpers.go:140-143 | the array ends non-increasing in `meters` and is a permutation of what it held; the order of ties is left open |
| `Schedule.PopulateCircles` | helpers.go:140-167 | an empty list gives `IndexOutOfRange` and no updates; otherwise the array is the sorted input with only circle 0's window written, and the updates and the error are those of `AsWritten` on the sorted circles |
| `Schedule.ChainFromShape` | helpers.go:156-165 | the loop from index `k` emits circle `i` as a copy of `a[i]` starting at `a[i-1].end` and ending one interval after that end parses; it emits up to the first end that does not parse, that failure is the error, and the error is absent exactly when every index was reached |
| `Schedule.AsWrittenShape` | helpers.go:145-167 | at least one update is emitted and update 0 is the opened circle 0; update `i` is circle `i` chained off the array's `end` at `i-1`; the error is `None` exactly when all circles were emitted, and otherwise it is the parse error of the first end that failed, with earlier updates kept |
| `Schedule.FirstUpdateOpensAtStart` | helpers.go:145-153 | the first update is sorted circle 0 with `start = format(startTime)` and `end = format(startTime + interval)` |
| `Schedule.UpdatesKeepIdentity` | helpers.go:157-164 | every update equals the sorted circle at its index except for `start` and `end` |
| `Schedule.FirstTwoWindowsContiguous` | helpers.go:156-163 | when circle 1 is emitted, it starts at circle 0's new end and ends one interval after that end parses |
| `Schedule.LaterWindowsChainOffFetchedEnds` | helpers.go:157-163 | for `i >= 2`, update `i` starts at the `end` fetched with circle `i-1` and ends one interval after that fetched end, because the loop never writes its copy back |
| `Schedule.SecondWindowAlwaysEmitted` | helpers.go:146-164 | when the codec round-trips at the schedule's instants and there are two or more circles, circle 1 is always emitted with the window `[start + interval, start + 2·interval)` |
| `Schedule.UnscheduledCircleAborts` | helpers.go:159-162 | when the codec round-trips at the schedule's instants, there are three or more circles and the `end` fetched with circle 1 does not parse, the call stops with that parse error after emitting circles 0 and 1 only |
| `Schedule.StaleEndBreaksContiguity` | helpers.go:157-158 | when the codec round-trips at the schedule's instants, there are three or more circles and circle 1 was fetched with an end that parses but is not the text of its new end, window 2 does not start where window 1 ends |
| `Schedule.RerunGetsOneCircleFurther` | helpers.go:156-164 | when the codec round-trips at the schedule's instants and there are four or more circles, and the ends at 1 and 2 do not parse, a first run emits circles 0 and 1 and stops at circle 1's end; once those records are stored, a rerun with the same start, interval and order emits exactly the intended first three windows and stops at circle 2's end |
| `Schedule.PopulateCirclesIntended` | helpers.go:115-167 | corrected operation: an empty list gives `EmptyInput`; otherwise no error, and both the updates and the array are the intended schedule of the sorted circles |
| `Schedule.IntendedContiguous` | helpers.go:115 | for one or more circles, the intended schedule opens at `format(startTime)` and each window's end string equals the next window's start string |
| `Schedule.IntendedExactWindows` | helpers.go:145-165 | when the codec round-trips at the schedule's instants, window `i` of the intended schedule parses to `[start + i·interval, start + (i+1)·interval)`, and the circle keeps its identity |
| `Schedule.AsWrittenIntendedWhenEndsCurrent` | helpers.go:156-165 | when the codec round-trips at the schedule's instants and every fetched end the loop chains off is already the intended one, the code produces the intended schedule with no error |
| `Schedule.AsWrittenNotIntendedWhenEndStale` | helpers.go:156-165 | if some fetched end the loop chains off differs from the intended one, the code does not produce the intended schedule |
| `Schedule.AsWrittenIsIntendedIff` | helpers.go:156-165 | when the codec round-trips at the schedule's instants, the code produces the intended schedule exactly when the fetched ends of circles 1 to n-2 are the intended ones, as after a run that stored every intended end, with ties sorted the same way |
| `Resolution.FirstBadField` | helpers.go:198-208 | a circle is malformed exactly when its start or its end does not parse; the text reported is the start when the start does not parse, and otherwise the end |
| `Resolution.GetCurrentCircle` | helpers.go:195-215 | the scan returns the same circle and error as the reference `Resolve` with strict comparisons |
| `Resolution.ResolveSkipsPassedOver` | helpers.go:196-213 | circles that parse and do not hold `now` do not change the answer |
| `Resolution.ResolveFindsFirstHit` | helpers.go:210-211 | the first circle holding `now`, after well-formed misses, is returned with no error |
| `Resolution.ResolveStopsAtBadCircle` | helpers.go:198-208 | a circle with an unparsable start or end, met before a match, gives that parse error (start checked first) and the zero circle |
| `Resolution.ResolveFindsNothing` | helpers.go:215 | when every circle parses and none holds `now`, the answer is "no circle found" with the zero circle |
| `Resolution.ResolveOutcomes` | helpers.go:195-215 | every answer is one of three: the first hit after well-formed misses; the parse error of the first malformed circle after well-formed misses; or "no circle found", which occurs exactly when all circles missed; every failure carries the zero circle |
| `Resolution.ResolveIgnoresLaterCircles` | helpers.go:196-212 | circles after the one that ends the scan are never parsed: replacing them changes nothing |
| `Resolution.ContiguousWindowsDisjoint` | helpers.go:195 | in a contiguous schedule no instant lies in two half-open windows |
| `Resolution.StrictScanMissesBoundary` | helpers.go:210 | with strict comparisons, the instant a window of a contiguous schedule opens matches no circle |
| `Resolution.HalfOpenScanAtWindowStart` | helpers.go:195 | in a contiguous schedule with half-open windows, the instant window `k` opens resolves to circle `k` |
| `Resolution.HalfOpenScanCoversSchedule` | helpers.go:195 | with half-open windows, every instant from the first start up to the last end of a contiguous schedule resolves to a circle whose window holds it |
| `Zone.IntendedScheduleIsContiguous` | helpers.go:115 | when the codec round-trips at the schedule's instants and the interval is positive, the intended schedule is contiguous |
| `Zone.ScheduleBoundaryInstant` | helpers.go:195-212 | when the codec round-trips at the schedule's instants and the interval is positive, at `start + k·interval` for any circle `k` the strict scan of the intended schedule finds no circle and the half-open scan finds circle `k` |
| `Zone.EveryGameInstantResolves` | helpers.go:195 | when the codec round-trips at the schedule's instants, the interval is positive and there is at least one circle, every instant in `[start, start + n·interval)` resolves, with half-open windows, to the one circle of the intended schedule whose window holds it |
| `Auth.TrimPrefix` | server.go:127 | the result is a suffix of the input; the prefix plus the result is the input when the input starts with the prefix, and otherwise the result is the input unchanged |
| `Auth.GetAuthToken` | server.go:122-129 | an empty header gives an error and an empty token; a non-empty header never errors and gives a suffix of itself: the header minus one leading `"Bearer "` if it has one, and the header unchanged otherwise |
| `Auth.BearerHeader` | helpers.go:218-220 | the header value sent for a token is non-empty and starts with `"Bearer "` |
| `Auth.BearerHeaderRoundTrip` | server.go:122-129 | reading back the header sent for any token, the empty token included (header `"Bearer "`), gives that token with no error |
| `Auth.OnlyOnePrefixRemoved` | server.go:127 | `"Bearer Bearer " + t` gives `"Bearer " + t`: only one prefix is removed |

## Left out

- HTTP and record-store I/O is not modelled: the request and decoding halves of `populateCircles` and `getCurrentCircle`, `updateCircle`, `insertPlayerLocation`, `getAllPlayerLocations`, the request side of `authorizeRequest`, environment variables, the routes, CORS and the `.env` loading. These are network clients and configuration.
- The pagination loop of `getAllPlayerLocations` is not modelled, because the remote responses alone drive it and decide when it ends.
- The store's answers to `updateCircle` are not modelled. The code ignores them, so the emitted sequence does not depend on them.
- Real time formatting and parsing, the layout constant and `time.ParseDuration` are abstract. They are library calls, and the layout is not part of this model.
- `time.Now()` is not read. It becomes the parameter `now`.
- Float parsing of latitude and longitude is not modelled. It is floating-point work in a library.
- `getGameState` and the game phase are not part of this model. The function is called but its definition is not among the files.
- The `/current_circle` handler is not modelled. It takes one value from the two-valued `getCurrentCircle` and does not compile as shown.
- Debug printing is not modelled.
- Concurrent rebuilds are not modelled. Each operation is modelled as one sequential call.
- Intervals are whole timestamp units. Durations finer than the unit, and the truncation `Format` applies to such times, are not modelled.
- Schedule.SortByMetersDesc: it is an insertion sort in place of the library's `sort.Slice`. Only the library's contract is claimed: the result is non-increasing by radius and is a permutation. The order the library puts ties in is not modelled.
- Schedule.PopulateCircles: Go's `time.Duration` and `Time.Add` are 64-bit nanoseconds, and the model does not model their overflow. Timestamps and intervals are unbounded integers.
- Schedule.PopulateCircles: an empty list gives an error value here, where Go panics. No updates are emitted in either case.

## Findings

| source | as written | input that shows it | evidently intended | confidence | as-written member | corrected member |
|---|---|---|---|---|---|---|
| helpers.go:156-164 | each later circle is a copy of the array element and is never written back, so window `i >= 2` starts at, and is timed from, the `end` circle `i-1` was fetched with | circles never scheduled before, whose `end` is empty: the call stops with a parse error after updating circles 0 and 1 (`Schedule.UnscheduledCircleAborts`), and a rerun over the stored records gets only one circle further (`Schedule.RerunGetsOneCircleFurther`); circles still holding an earlier schedule, rescheduled with a new start: window 2 starts at the old end of circle 1 | every window starts where the previous new window ends: window `i` is `[start + i·interval, start + (i+1)·interval)` | high, not executed | `Schedule.StaleEndBreaksContiguity` | `Schedule.PopulateCirclesIntended` |
| helpers.go:195-212 | the match test is `After(start) && Before(end)`, strict on both ends, while the comment above the loop says `start <= currentTime < end` | a contiguous schedule queried at the instant its second window opens, `start + interval`: no circle is found, since window 0 has ended and window 1 has not strictly begun | the start is inclusive and the end exclusive, so every instant of the game belongs to exactly one window | high, not executed | `Resolution.StrictScanMissesBoundary` | `Resolution.HalfOpenScanCoversSchedule` |
| helpers.go:146-147 | `Items[0]` is written with no check that the store returned any circle | no circle records in the store: an index-out-of-range panic | an explicit error for an empty circle list | medium, not executed | `Schedule.PopulateCircles` | `Schedule.PopulateCirclesIntended` |

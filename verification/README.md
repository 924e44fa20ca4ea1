# The Variable Complexity Grid-Walk optimiser, verified

This is a Dafny 4.11 model of the distributed optimiser in `netcpu/`. A server walks a grid of coefficient values. Every
way of moving some coefficients while the others stay at the current centre has a number, a *complexity*; the server hands
out complexities to peers, moves the centre to better finds, goes on from one coefficient at a time to two at a time and
so on, and shrinks the search box once the whole neighbourhood of the centre has been looked at.

The main results:

* **Nothing is skipped.** In every run of the server with any peers, which may come, go, lag and be caught up at any time,
  the server shrinks only when every complexity's point has been evaluated by a peer with the server's own resolutions and
  box (`Runs.NothingSkipped`, resting on the coverage invariant of `Search.SyncKeepsInv`).
* **Only reports of the present epoch count**, although every peer builds its own table (`Runs.AcceptedIsCurrent`). When
  that table is the server's is settled exactly (`Views.SameTablesIff`), and so is when building it reads past the end of a
  list of resolutions (`Tables.PastIff`), with zoom levels and runs that lead there (`ZoomedTables`).
* **No unit gets lost** between server and peers but behind a waiting draft (`Accounts.NothingForgotten`). So the server sees
  every peer that is through with its work, unless units were dropped that way (`Accounts.AtRestIsDone`). Where they were, the
  search can come to a standstill, and only then (`Stalls.StalledMeansDropped`); it does, over any table with six units to
  hand out (`Stalls.SomeRunStalls`), and nothing but a new peer ends it (`Stalls.StallsForever`).
* **No work is done twice** in a run if and only if each scan for duplicates that the server skips is safe to skip
  (`Runs.NoWorkTwice`, `UncleanRuns.NoWorkTwiceIff`), over all tables it comes to (`UncleanRuns.NoWorkTwiceAnywhereIff`);
  when it is safe is settled level by level (`SkippedScan.SkipRightIff`).
* **Whether the neighbourhood holds nothing better** when the box shrinks is decided by the finds that peers have written
  over while a write was pending (`Optimum.OverlookedIff`). It is exhausted if the server has come down to all of them
  (`Optimum.LossesMet`), and not if one of the neighbourhood is below the target (`Optimum.LossBelow`). The two halves are one
  if-and-only-if at ratio one (`Optimum.ExhaustedIffMet`), and for every ratio while the centre has not moved since
  (`Optimum.ExhaustedIffNothingLost`). Otherwise a lost find may lie between the server's target and its value, and then these
  finds alone do not decide (`LostFind.HalvesDiffer`). A run that shrinks next to a better point is `LostFind.FindLost`.
* **Complexities are a bijection** onto levels, subsets and digits, built and decoded in place (`CombosBuilder.Builder`,
  `Positions.DecodeThenEncode`, `Positions.EncodeThenDecode`), in a definite order (`Positions.EncodeOrdered`), and position codes
  are faithful (`Sites.SameSite`).
* **Shrinking keeps step and ends**: all coefficients share one ratio, end together, and do so after a bounded number of
  shrinks iff their end ranges are positive (`Shrink.ShrinkInStep`, `Shrink.Bound`, `Shrink.NeverEnds`). A whole shrink, with
  the zoom levels and the new table, is `ShrunkTables.OnShrink`.
* The interval maps, the distribution of work, the messages, the copy-on-write integers, the Halton columns, the
  write/keepalive driver and the lists of tasks are proved against what they are for.

## Layout

| files | what they hold |
|---|---|
| `Ranges` | sets of numbers as ordered maps of ranges: the class `RangeMap` and its canonical form |
| `Coefficients`, `Combos`, `Positions` | grids, the table of complexities, the position a complexity stands for, and their inverses |
| `Demodulation`, `CombosBuilder` | the builder and decoder that work on a shared array and on the coefficients in place |
| `Zooming`, `Tables`, `ZoomedTables` | the resolutions zoom levels give; two tables over the same resolutions; runs after which they differ |
| `Sites`, `Duplicates`, `SkippedScan` | visited places, coverage, duplicates, the skipped scan |
| `Search`, `TaskProcessor` | the server's search as a step function, and the class whose methods refine it |
| `Views`, `Protocol`, `Safety`, `Runs` | the peer's own table; server, peers and links as one state machine; its invariant; what holds in every run |
| `Duties`, `Service` | what peers owe the server and what it does for them: when a report is made and what it lists, who hears what and when |
| `Accounts`, `Stalls` | what becomes of every unit handed out; the runs that come to a standstill |
| `FlatRuns`, `UncleanRuns` | runs with one peer through all levels and from table to table; those in which a place is handed out twice |
| `Processor` | the peer's class, whose handlers refine the peer's steps |
| `Values`, `Optimum`, `LostFind` | the objective's values along a run, what a shrink means for them, and the runs in which a find is lost |
| `Distribution` | handing out work |
| `Shrink`, `ShrunkTables` | the shrink arithmetic over reals; the whole shrink, from the ranges to the new table |
| `Wire`, `Message`, `BigInt`, `Halton`, `IoDriver`, `TaskQueue` | the supporting parts |
| `Arithmetic`, `Reals` | products, quotients and remainders |

Objects whose methods update fields are classes; each method's `ensures` ties the new state to a function of the old one,
and the properties are lemmas about that function and invariants it keeps. Containers are sequences (an ordered map is the
sequence of its entries, an iterator an index) and sets. Integers are unbounded and reals exact. The objective, timers and
completions of I/O are parameters or events that may come in any order. A yield of the server's coroutine is a step
boundary of `Protocol`: `Start` runs up to the point where the centre and the whole-state message have been changed under
the old key, `Finish` does the rest, and any other event may come in between. What a program reads past the end of a list of
resolutions is any number, another one for each peer, key and place.

Where comments and code disagree the code was followed. The comment at `netcpu/converger_1/server.h:1522-1525` takes equal
resolutions of a new level and the *first* level as enough to do without the scan for duplicates; the code tests just that.
`SkippedScan.SkipRightIff` shows that the level *before* matters: `SkippedScan.UnsafeGrid` is a grid with resolutions
4, 2, 4 for which the skipped scan leaves a place on the list twice, and `UncleanRuns.UncleanGrid` a run that does so. The
comment at `netcpu/converger_1/server.h:1738` has the latest acceptable zoom level picked; the code picks it for each
coefficient by itself, and the number of coefficients at once by all of them, so resolutions of several levels are mixed
(`ZoomedTables.ShortListRead`, `ZoomedTables.LevelMore`, `ZoomedTables.FirstLevelTooBig`). The comment at
`netcpu/converger_1/server.h:1419-1421` has all remaining work done in the end because a peer that completes its share makes
the work be dealt anew; `netcpu/converger_1/processor.h:633-638` clears what is unreported when a report goes out that was
packed before the last unit, and then that never happens (`Stalls.SevenStepsStall`).

## Model

| member | source | states |
|---|---|---|
| Runs.NothingSkipped | netcpu/converger_1/server.h:1599-1717 | Coverage end to end: in every run of a fresh task, when the server comes to shrink, the point of every complexity in [0, total) around its centre has been evaluated by some peer with these very resolutions, box and set of ended ranges, although every peer has built a table of its own |
| Runs.AcceptedIsCurrent | netcpu/converger_1/server.h:2153-2180 | Epoch safety: in every run, a waiting report with the server's key, seen while no sync is under way, was computed in the server's mode with exactly its centre, resolutions, ended ranges and box, by a table that the peer has built itself and that takes every complexity of the server's table for the same point; its points were evaluated, its units are known to the server, and the server acts on it. Full, recentring, work-only, late and stale syncs, and peers joining in the middle of a sync, are all steps of a run |
| Accounts.NothingForgotten | netcpu/converger_1/server.h:2113-2140 | No unit gets lost: in every state of every run, of a peer that is not late, the share the server takes it to be busy with is part of the last list on its way; and once it has read everything, each unit of the share is on its list, kept back to be reported, listed in a report the server will accept, or dropped |
| Accounts.AtRestIsDone | netcpu/converger_1/server.h:1419-1421 | So a peer that has come to rest and has dropped nothing is known by the server to have nothing left, which is what the dealing relies on |
| Accounts.KeepsBack | netcpu/converger_1/processor.h:572-638 | Over every run, what a peer keeps back is exactly what it has done since a report of its last went out or it read a new key |
| Stalls.StalledMeansDropped | netcpu/converger_1/server.h:1419-1421 | A run in which work is dealt to all comes to a standstill (units left to do, every peer at rest, nothing under way, no deal due) only where each peer has a share and has dropped every unit of it |
| Stalls.StallsForever | netcpu/converger_1/server.h:1419-1421 | Out of a standstill no run leads unless a peer joins: nothing more is evaluated and the list stays as it is |
| Stalls.ToStandstill | netcpu/converger_1/processor.h:633-638 | And it does happen: from the state in which any list of at least six units has been handed out, over any table, there is a run to a standstill, by one unit done behind a waiting draft |
| Stalls.SomeRunStalls | netcpu/converger_1/processor.h:633-638 | So from a fresh task, over any table and around any centre but index zero, wherever a level has six units to hand out |
| Stalls.SevenStepsStall | netcpu/converger_1/processor.h:633-638 | One coefficient with seven steps will do |
| Duties.ReplyMade | netcpu/converger_1/processor.h:938-953 | Once it has read a list that asks for a reply, or the whole state again under its own key, a peer that has something to report does so with the next unit it does, whatever happens in between to others and on the wire: the report, sent or drafted, lists all of it |
| Duties.OwesAlong | netcpu/converger_1/processor.h:847-851 | Until then it owes it: no run without a unit, a new key or a draft of its going out changes what is due |
| Duties.NotAsked | netcpu/converger_1/processor.h:938-953 | A list that asks for no reply changes nothing but the work, and lets the peer go on |
| Duties.AskedAgain | netcpu/converger_1/processor.h:843-855 | The whole state under the peer's own key brings new work and, where something is unreported, makes a report due; nothing else |
| Duties.NewKeyRead | netcpu/converger_1/processor.h:819-841 | Under a new key, recentring or not, everything of the old one is forgotten, also what waits to be sent; value and work are the message's |
| Duties.AfterUnit | netcpu/converger_1/processor.h:533-629 | A unit is a find if it has moved off the centre and gets below the target; a report is made exactly after a find, with nothing left, or where one is due; it lists all that is unreported, and the peer then goes on only where one had been due |
| Duties.NextEndsRun | netcpu/converger_1/processor.h:533-535 | The unit done next is the end of the first run of the list |
| Duties.OnlyComputed | netcpu/converger_1/processor.h:553-560 | What counts as evaluated is what the objective has been computed for: the point a peer has moved to, if it has moved |
| Duties.AfterAttempt | netcpu/converger_1/processor.h:661-700 | A bootstrapping attempt is reported exactly if it has moved and gets below the target, and stops the peer; of any other nothing is left |
| Duties.AfterWrite | netcpu/converger_1/processor.h:733-738 | Once a write is through, the draft goes out as it stands, and everything counts as reported, also what was done since |
| Duties.AfterWait | netcpu/converger_1/processor.h:640-646 | The timer makes a report due if something is unreported, and changes nothing else |
| Duties.AfterRest | netcpu/converger_1/processor.h:528-532 | A peer that finds nothing left to do only stops |
| Duties.OthersLeaveAlone | netcpu/converger_1/server.h:2113-2200 | Whatever the server and other peers do, a peer is as it was, and so is what it has sent but for the report taken from its front |
| Service.UnitsReported | netcpu/converger_1/server.h:1284-1342 | Every unit of a report with the current key leaves the share and waits for the sync; a find becomes the best exactly if its value is lower than the server's; work is to be dealt anew then, or if the share has run empty |
| Service.OldReport | netcpu/converger_1/server.h:2153-2180 | Of a report with an old key only the echo is taken; a peer silent for too many keys hears the whole state again |
| Service.FirstPoint | netcpu/converger_1/server.h:1216-1279 | The first report of a point makes it the centre, but for what has ended, and brings a new key |
| Service.FirstHears | netcpu/converger_1/server.h:1216-1279 | And everybody gets a share with the whole state |
| Service.SharesTaken | netcpu/converger_1/server.h:1634-1647 | At a sync what has been reported leaves every share, unless the list has run empty by it |
| Service.SyncStarts | netcpu/converger_1/server.h:1604-1717 | It becomes visited and leaves the list; with a better find its point becomes the centre, otherwise centre and level stay |
| Service.SyncDealsAnew | netcpu/converger_1/server.h:1640-1647 | The work is to be dealt anew exactly if it had to be already, or if the list or some share has run empty by what was reported |
| Service.SyncRecentres | netcpu/converger_1/server.h:1675-1717 | After a recentring everybody hears of it under a new key, with a share of the first level that has something to do |
| Service.SyncDeals | netcpu/converger_1/server.h:1831-1832 | Where work is to be dealt anew everybody gets a share under the old key and is asked for what is unreported |
| Service.SyncAssists | netcpu/converger_1/server.h:1833-1847 | Otherwise only those hear whom others have done work for, and nobody is asked |
| Service.SyncShrinks | netcpu/converger_1/server.h:1719-1829 | With no level left, the task is over if every range has ended; otherwise the search starts over in the new box under a new key, and everybody hears the whole state |
| Service.LateHears | netcpu/converger_1/server.h:2134-2142 | Once its write is through, a late peer hears of everything at once, with what is its share by now |
| Service.NewcomerHears | netcpu/converger_1/server.h:1388-1402 | Whoever joins hears the whole state, without work, and makes the work be dealt anew |
| Service.AdvancesAnyway | netcpu/converger_1/server.h:1670-1674 | Whether work is to be dealt anew is asked before the levels are gone through, but in no run does it matter: where the list is empty it is to be |
| Runs.NoWorkTwice | netcpu/converger_1/server.h:1504-1571 | No duplicate work: in every run, where each scan that is skipped is safe to skip, the list of every state in which work is handed out names no grid point twice and none that was visited |
| UncleanRuns.NoWorkTwiceIff | netcpu/converger_1/server.h:1504-1571 | And that condition is exact: for every table the server builds, no run of a fresh task that starts with it, whatever peers and objective do, has a list over it that names a place twice or a visited one, if and only if each skipped scan is safe |
| UncleanRuns.NoWorkTwiceAnywhereIff | netcpu/converger_1/server.h:1504-1571 | It is exact across every shrink as well: no run of a fresh task, whatever peers and objective do, ever has a list that names a place twice or a visited one, if and only if over every table that such runs come to each skipped scan is safe |
| UncleanRuns.SomeRunUnclean | netcpu/converger_1/server.h:1504-1571 | Where some skipped scan is not safe there is a run that gets there: one peer bootstraps at a chosen point and does the levels below one after the other |
| UncleanRuns.LaterRunUnclean | netcpu/converger_1/server.h:1504-1571 | A run that comes to an unsafe table by a shrink goes on to such a list too |
| UncleanRuns.UncleanGrid | netcpu/converger_1/server.h:1520-1537 | Such a run over four coefficients with resolutions 4, 2 and 4 |
| FlatRuns.LevelRuns | netcpu/converger_1/server.h:1599-1673 | From the state in which a level has just been handed out, a run to the next level that has something to do, with exactly the places of all lower levels visited |
| FlatRuns.SeenNext | netcpu/converger_1/server.h:1604-1616 | Once the list of a level is done, exactly what that level reaches has been visited as well |
| FlatRuns.NextTable | netcpu/converger_1/server.h:1719-1829 | From any table the server bootstraps with there is a run through all its levels and the shrink to any table that is no wider and that the server could build |
| FlatRuns.ToLevel | netcpu/converger_1/server.h:1216-1279 | From a table the server bootstraps with, a run to any level that has something to do, around any centre but index zero |
| Runs.NoWorkTwiceNonIncreasing | netcpu/converger_1/server.h:1520-1537 | So where resolutions do not grow from level to level |
| Runs.NeverWrapped | netcpu/converger_1/server.h:2102-2106 | The test for a key that has come round never drops a peer: under unbounded keys every echoed key is below the next one |
| Runs.StepKeepsInv | netcpu/converger_1/server.h:1216-1861 | Each of the twelve kinds of step, whatever its order, keeps the invariant that links server, inboxes, peers, drafts and reports in flight |
| Runs.RunKeepsInv | netcpu/converger_1/server.h:1216-2180 | Hence every run keeps it |
| Runs.ReportKeepsInv | netcpu/converger_1/server.h:1216-1342 | Reading a report keeps the invariant in each of its cases: stale key, bootstrapping report, report about units |
| Runs.StartKeepsInv | netcpu/converger_1/server.h:1599-1712 | So does the part of a sync up to its first yield, which may already move the centre under the old key |
| Runs.FinishKeepsInv | netcpu/converger_1/server.h:1714-1861 | So does the rest of a sync in each of its outcomes: shrink, convergence, recentring, new lists, assistance only |
| Runs.ShrinkMeansEvaluated | netcpu/converger_1/server.h:1670-1717 | From the invariant alone: past the last level, every complexity's point is among the evaluated ones |
| Safety.Deliver | netcpu/converger_1/server.h:2114-2130 | A message appended to an inbox fits if it fits the state the peer will have reached by then |
| Safety.LinkFollows | netcpu/converger_1/server.h:2185-2218 | A change of the server under an unchanged key leaves every connection in order |
| Safety.LinkBumped | netcpu/converger_1/server.h:1378-1387 | A new key leaves every connection safe: what is in flight counts as old |
| Safety.SendFull | netcpu/converger_1/server.h:2114-2130 | A whole state may be sent to any peer at any time, and either catches it up or leaves it marked late or stale |
| Safety.FullHere | netcpu/converger_1/processor.h:825-841 | Whoever reads the whole state agrees with the server, whatever its build has read past the lists |
| Safety.SendWork | netcpu/converger_1/server.h:1831-1847 | A bare list of work may be sent only because a peer that would misread it is never sent one without being caught up |
| Safety.SendCentre | netcpu/converger_1/server.h:1714-1716 | The recentring message is right both for peers at the old centre and for those who were told the new one during the sync, since applying it twice changes nothing |
| Safety.WrittenKeeps | netcpu/converger_1/server.h:2132-2151 | A completed write to a late peer sends the whole state and leaves the connection in order |
| Safety.NewLink | netcpu/converger_1/server.h:1389-1402 | A peer that joins, also in the middle of a sync and with any memory, is in order |
| Safety.ProcessedOk | netcpu/converger_1/processor.h:514-629 | What a peer reports about its units is about evaluated points of its own epoch, and a find is among the units |
| Safety.ReadingKeeps | netcpu/converger_1/processor.h:780-958 | Reading any message of the inbox leaves the connection in order |
| Optimum.OverlookedIff | netcpu/converger_1/server.h:1670-1717 | The only points that can be missed are those listed by peers that had written over a find: in every run that comes to shrink, the server's value is its centre's, and the neighbourhood is exhausted (no complexity's point is below the improvement target) if and only if no such point of it is |
| Optimum.LossesMet | netcpu/converger_1/server.h:1284-1342 | If the server's value is at most that of every find written over since the last shrink, the neighbourhood is exhausted, including the units a peer passed over because its own value was lower than the server's |
| Optimum.NothingLost | netcpu/converger_1/processor.h:600-638 | So wherever no waiting find has been written over |
| Optimum.LossBelow | netcpu/converger_1/processor.h:600-638 | If a find written over is of the neighbourhood and below the server's target, the neighbourhood is not exhausted |
| Optimum.LostHere | netcpu/converger_1/processor.h:600-638 | A find written over around the very centre at which the server comes to shrink always is |
| Optimum.ExhaustedIffNothingLost | netcpu/converger_1/processor.h:600-638 | So, for every ratio, while the server has not recentred since: exhausted if and only if no waiting find was written over |
| Optimum.ExhaustedIffMet | netcpu/converger_1/processor.h:600-638 | At ratio one, with the finds written over in the neighbourhood: exhausted if and only if the server has come down to each of them |
| LostFind.LossAndUnit | netcpu/converger_1/processor.h:600-638 | Runs of one coefficient and two peers, for every ratio and every value of a passed-over unit for which they are possible: one find of value 1.0 is written over, the server comes to shrink with 1.05, and whether the neighbourhood is exhausted hangs on that unit as well |
| LostFind.FindLost | netcpu/converger_1/processor.h:600-638 | Local optimality is false of some runs: at ratio one the server comes to shrink next to a better point |
| LostFind.HalvesDiffer | netcpu/converger_1/processor.h:600-638 | Above ratio one the finds written over do not decide: two such runs with the same ratio 1.2, the same find written over and the same value of the server, between whose target and itself the find lies, end exhausted and not exhausted |
| Optimum.OverwrittenFindIsLost | netcpu/converger_1/processor.h:600-638 | How a find gets lost in any state: the report that overwrites the waiting one lists the find's unit as done without naming the find |
| Values.AimFacts | netcpu/converger_1/processor.h:282-309 | The target a find must get below never exceeds the value and follows it, for either sign |
| Duties.AimExact | netcpu/converger_1/processor.h:286-312 | What a value must get below to be a find: the ratio below a value that is not negative, and beyond a negative one |
| Values.StepKeepsValue | netcpu/converger_1/processor.h:514-638 | Each step keeps the value invariant: a peer's value is never below what the server will have heard once the reports in flight arrive, unless it has written over a find, and then it is that find's |
| Values.RunKeepsValue | netcpu/converger_1/processor.h:514-638 | Hence every run keeps it |
| Values.StepRecords | netcpu/converger_1/processor.h:600-638 | A find that is written over was a unit around the server's centre and below its target; whatever its peer then lists without a find does not improve on it |
| Views.ViewAgrees | netcpu/converger_1/processor.h:825-841 | A peer that takes over a whole state builds, for as many coefficients at once as its first one has resolutions, a table that agrees with the server's: the same resolutions and at least its levels, whatever it finds where it reads past a list |
| Views.FoundTable | netcpu/converger_1/processor.h:825-841 | A build over the lists with whatever lies past their ends lays out the very table of the peer's view, also where it reads that far |
| Views.AgreesPoint | netcpu/converger_1/processor.h:835-841 | Then every complexity of the server's table stands for the same point at the peer |
| Views.SameTablesIff | netcpu/converger_1/processor.h:837-837 | Where the peer's build reads past no list, its table has exactly the server's levels if and only if the server's build stopped short, or both build for as many coefficients at once, or the next level is not complete under the limit |
| Tables.SameDecode | netcpu/combos_builder.h:263-327 | Over lists that go on further, and with more levels, a complexity of the smaller table decodes to the same level, subset and digits |
| Tables.SamePosition | netcpu/combos_builder.h:263-327 | So it stands for the same position |
| Tables.SameTable | netcpu/combos_builder.h:87-132 | The common levels have the same entries and ends |
| Tables.SameBuilt | netcpu/combos_builder.h:87-132 | A build that reads past no list depends on nothing there; one that does still agrees on the levels it completes |
| Tables.CoincideIff | netcpu/converger_1/server.h:1809-1812 | When a build for more coefficients at once has exactly the levels of that for fewer |
| Tables.PastIff | netcpu/combos_builder.h:187-199 | Exactly when a build reads past the end of a list of resolutions: it comes to a subset, with all before it under the limit, of which some coefficient has too few |
| ZoomedTables.ShortListRead | netcpu/converger_1/server.h:1738-1755 | For any three fresh ranges whose first shrink leaves something to do there are zoom levels the controller accepts, and a run of a fresh task through all levels and this shrink, after which the first coefficient has three resolutions, another has two, two at once are intended, and the peer's build of the whole state it is sent reads past a list |
| ZoomedTables.LevelMore | netcpu/converger_1/server.h:1738-1755 | Likewise zoom levels and a run after which the peer's table has a level more than the server's |
| ZoomedTables.FirstLevelTooBig | netcpu/converger_1/server.h:1809-1812 | Likewise zoom levels, each of which fits alone, and a run to a shrink that leaves the server without any level |
| ShrunkTables.SomeTask | netcpu/converger_1/server.h:210-230 | For any lists there is a task whose first shrink leaves something to do |
| Zooming.RefinedFine | netcpu/converger_1/server.h:1738-1764 | Whatever mix of zoom levels a shrink chooses, afterwards every list is as long as intended, none has more entries than there are coefficients, and its first resolution is the finest |
| Zooming.ChosenIsLast | netcpu/converger_1/server.h:1738-1764 | A coefficient's list and slowdown are those of the last zoom level whose threshold its range has come down to |
| Zooming.IntendedIsLast | netcpu/converger_1/server.h:1738-1764 | The number at once is that of the last zoom level to whose thresholds all ranges have come down |
| Sites.MadeFine | netcpu/converger_1/server.h:1809-1812 | A table built from such lists reads past none of them and has a level if and only if the first one fits, and then it is one a search can work with |
| Search.SyncKeepsInv | netcpu/converger_1/server.h:1599-1717 | Coverage before shrink: a sync either ends with work left and the coverage invariant kept, or past the last level with the place of every complexity visited; and the centre moves exactly if a better find was waiting |
| Search.AdvanceSettles | netcpu/converger_1/server.h:1504-1571 | Moving on through the levels changes only level and list; it ends with work that covers the level reached, or with everything visited |
| Search.RecentredSettles | netcpu/converger_1/server.h:1682-1712 | After a recentring the first level around the new centre is covered and the new centre is visited |
| Search.AbsorbSettles | netcpu/converger_1/server.h:1604-1656 | Absorbing reports keeps every complexity of the level claimed: visited, or listed by itself or by one of the same place |
| Search.CleanAbsorb | netcpu/converger_1/server.h:1604-1656 | Absorbing keeps a list without repeated or visited places that way |
| Search.BootReportKeepsInv | netcpu/converger_1/server.h:1216-1279 | The first report puts a covered, nonempty first level around the reported point |
| Search.FirstWorkExists | netcpu/converger_1/server.h:1243-1268 | While some range has not ended there is a first place to go |
| Search.PeerReportKeepsInv | netcpu/converger_1/server.h:1284-1342 | A peer's report keeps the coverage invariant |
| Search.ShrunkInv | netcpu/converger_1/server.h:1807-1829 | The state after a shrink meets the invariant of a bootstrapping server |
| TaskProcessor.TaskProcessor.constructor | netcpu/converger_1/server.h:992-1194 | A fresh task is the bootstrapping state over the table the builder made |
| TaskProcessor.TaskProcessor.Offset | netcpu/converger_1/server.h:1473-1475 | Demodulating from offset zero gives the position code of the complexity's grid point and leaves the centre alone |
| TaskProcessor.TaskProcessor.DropVisited | netcpu/converger_1/server.h:1473-1482 | Takes one complexity off the list exactly if its place is visited |
| TaskProcessor.TaskProcessor.ReduceRemaining | netcpu/converger_1/server.h:1469-1485 | Takes off exactly the listed complexities of the interval whose place is visited |
| TaskProcessor.TaskProcessor.ScanUnit | netcpu/converger_1/server.h:1541-1545 | One unit of the duplicate scan: its place is new, or the unit is noted |
| TaskProcessor.TaskProcessor.DropDuplicates | netcpu/converger_1/server.h:1538-1555 | Of complexities with one place exactly the smallest stays |
| TaskProcessor.TaskProcessor.NeedsScan | netcpu/converger_1/server.h:1534-1537 | The scan is made iff a resolution differs from the first level's or some range has ended |
| TaskProcessor.TaskProcessor.EnterLevel | netcpu/converger_1/server.h:1513-1556 | The list of a level just entered: unvisited places, once each where a scan is made |
| TaskProcessor.TaskProcessor.GoToNextLevel | netcpu/converger_1/server.h:1507-1557 | One round of the loop: the next level laid out, or the end of the levels |
| TaskProcessor.TaskProcessor.Redistribute | netcpu/converger_1/server.h:1504-1571 | The loop over the levels refines the step function whose coverage is proved |
| TaskProcessor.TaskProcessor.ScanFirstLevel | netcpu/converger_1/server.h:1252-1266 | The scan after bootstrapping with ended ranges leaves exactly the unvisited complexities of the first level |
| TaskProcessor.TaskProcessor.ReduceFirstLevel | netcpu/converger_1/server.h:1706-1707 | What stays of the first level are the complexities of unvisited places |
| TaskProcessor.TaskProcessor.GoToReported | netcpu/converger_1/server.h:1225-1240 | The reported point becomes the centre, but for ended coefficients, and the only visited place |
| TaskProcessor.TaskProcessor.OnBootstrappingPeerReport | netcpu/converger_1/server.h:1216-1279 | The handler refines the bootstrapping step |
| TaskProcessor.TaskProcessor.OnPeerReport | netcpu/converger_1/server.h:1284-1342 | The handler refines the report step: value and find, units out of the peer's map and into the accumulated ones, redistribution wanted after a find or once that map was empty after some range |
| TaskProcessor.TaskProcessor.VisitAccumulated | netcpu/converger_1/server.h:1607-1616 | The visited set grows by exactly the places of the accumulated complexities |
| TaskProcessor.TaskProcessor.AbsorbReports | netcpu/converger_1/server.h:1604-1656 | The first part of the sync refines the absorbing step, and takes the units from the peers' own maps unless the server has nothing left itself |
| TaskProcessor.TaskProcessor.TakeReported | netcpu/converger_1/server.h:1634-1647 | What has been reported leaves the list and, unless that has run empty, the peers' own maps; which peers others have done work for, and whether all has to be dealt anew |
| TaskProcessor.SubtractFromPeers | netcpu/converger_1/server.h:1643-1646 | Every peer's map loses exactly the reported units; which maps have changed, and whether one is empty now |
| TaskProcessor.TaskProcessor.MoveCentre | netcpu/converger_1/server.h:1694-1699 | The centre becomes the point of the complexity |
| TaskProcessor.TaskProcessor.Recentre | netcpu/converger_1/server.h:1682-1712 | The second part refines the recentring step |
| TaskProcessor.TaskProcessor.StartSync | netcpu/converger_1/server.h:1599-1712 | The sync up to where it may first yield refines absorbing and recentring, and says which peers others have done work for |
| TaskProcessor.TaskProcessor.InsertPeer | netcpu/converger_1/server.h:1389-1402 | A peer that joins between the parts makes the work be dealt anew |
| TaskProcessor.TaskProcessor.FinishSync | netcpu/converger_1/server.h:1670-1855 | The rest refines the way on through the levels, and its outcome is determined |
| TaskProcessor.TaskProcessor.OnSync | netcpu/converger_1/server.h:1599-1717 | Without anything in between, the whole sync refines the step proved to cover: shrink iff past the last level, else recentring iff a find was waiting, else new lists iff redistribution was wanted |
| TaskProcessor.TaskProcessor.Restart | netcpu/converger_1/server.h:1738-1829 | After the shrink the resolutions are the ones the zoom levels give, padded, offsets and table are rebuilt, and the state is the bootstrapping one over the new grid, if and only if the first level of this mix fits |
| TaskProcessor.TaskProcessor.StartOver | netcpu/converger_1/server.h:1809-1823 | Over any lists that are long enough: the table, and the bootstrapping state if and only if the first level fits |
| TaskProcessor.TaskProcessor.ChooseGrid | netcpu/converger_1/server.h:1738-1764 | The lists, slowdowns and the number of coefficients at once that the zoom levels give, whatever mix of them |
| ShrunkTables.OnShrink | netcpu/converger_1/server.h:1719-1829 | A whole shrink: both loops, the zoom levels and the fresh start. Unless all ranges have ended, the table is the one that zoom levels and new ranges give, the boxes are those of the shrink, all coefficients are in step again, the count of free ones is right, and the server bootstraps over the new table if and only if its first level fits |
| ShrunkTables.RestartsInStep | netcpu/converger_1/server.h:1732-1764 | Whatever resolutions and slowdowns the zoom levels choose, the ranges are in step as the next box begins |
| ShrunkTables.IntoNarrower | netcpu/converger_1/server.h:1732-1764 | The table that a shrink makes is no wider than the one before: as many coefficients, what has ended stays so, each box inside the one before; and something is left where the ratio is below one |
| ShrunkTables.AsksTheSame | netcpu/converger_1/server.h:210-230 | What a coefficient asks for at a shrink does not depend on where in its box the centre is |
| Sites.SameSite | netcpu/converger_1/server.h:130-141 | A hit in the visited places means the same grid point, for any two points with ended coefficients at index 0 |
| Sites.SameSiteSamePoint | netcpu/converger_1/server.h:1604-1616 | The same for the points of two complexities around one centre |
| Sites.RecentreTwice | netcpu/converger_1/server.h:1694-1699 | Recentring twice on one complexity changes nothing the second time |
| Sites.CoveredFresh | netcpu/converger_1/server.h:1469-1485 | Laying out the unvisited part of a new level extends coverage to its end |
| Sites.CoveredFirsts | netcpu/converger_1/server.h:1538-1555 | Dropping later duplicates keeps coverage |
| Sites.CoveredAbsorb | netcpu/converger_1/server.h:1604-1656 | Taking reported complexities off the list as their places become visited keeps coverage |
| Sites.CoveredDone | netcpu/converger_1/server.h:1507-1510 | An empty list means all places are visited |
| Sites.FirstsDistinct | netcpu/converger_1/server.h:1538-1555 | The survivors of the scan have pairwise distinct places, and each is the smallest of its place |
| SkippedScan.SkipRightIff | netcpu/converger_1/server.h:1520-1537 | Exactly when the server may skip the scan of a level: no centre ever gets a place twice iff the level before is as fine as the first or there is at most one subset of the level's size |
| SkippedScan.SkipFails | netcpu/converger_1/server.h:1520-1537 | Otherwise a centre, a visited set and two listed complexities of one place exist |
| SkippedScan.UnsafeGrid | netcpu/converger_1/server.h:1520-1537 | A concrete grid the server accepts for which the skipped scan lists a place twice: four coefficients, resolutions 4, 2 and 4 |
| Duplicates.NonIncreasingIsSafe | netcpu/converger_1/server.h:1520-1537 | Resolutions that never grow from level to level make every skip right |
| Duplicates.UnscannedPair | netcpu/converger_1/server.h:1520-1556 | Where the skip is right, two complexities of the level with one place have that place visited by a lower level: the subset-intersection argument |
| Duplicates.FirstLevelPair | netcpu/converger_1/server.h:1249-1266 | At the first level unvisited places never coincide, whatever has ended |
| Duplicates.LevelWorkFacts | netcpu/converger_1/server.h:1504-1571 | The list of a level entered with everything below visited covers the level, holds no visited place and, where skips are right, none twice |
| Duplicates.BootScanIdle | netcpu/converger_1/server.h:1252-1266 | The scan after bootstrapping removes no unvisited place |
| Duplicates.ScanDone | netcpu/converger_1/server.h:1538-1555 | A finished scan has noted exactly the complexities that are not the first of their place |
| Combos.SubsetsSound | netcpu/combos_builder.h:157-220 | Only strictly increasing k-subsets are enumerated |
| Combos.SubsetsComplete | netcpu/combos_builder.h:157-220 | Every one of them is |
| Combos.SubsetsSorted | netcpu/combos_builder.h:157-220 | In lexicographic order, so once each |
| CombosBuilder.Builder.BuildComboInstance | netcpu/combos_builder.h:157-220 | The recursion over the shared vector lays out exactly the subsets that start with its prefix, as consecutive intervals, restores the prefix and leaves the rest one further on; or it stops because the rest is too big, or because it would read past a list |
| CombosBuilder.Builder.ResetTail | netcpu/combos_builder.h:176-177 | How a finished round leaves the shared vector |
| CombosBuilder.Builder.AddCombo | netcpu/combos_builder.h:187-215 | One subset's interval is as long as the product of max(resolution, 2), and fits or not; a list may be too short |
| CombosBuilder.Builder.BuildCombo | netcpu/combos_builder.h:140-149 | One level from a fresh vector |
| CombosBuilder.Builder.Build | netcpu/combos_builder.h:87-132 | The table holds exactly the complete levels that fit under the limit, with their ends and resolutions, whatever an earlier build left; or the build comes to read past the end of a list |
| CombosBuilder.CutBack | netcpu/combos_builder.h:106-110 | Erasing from the first key of the level that did not fit removes that level and nothing else |
| Combos.FittingFits | netcpu/combos_builder.h:95-131 | The levels kept end within the limit and one more would not |
| Positions.RebuildSame | netcpu/combos_builder.h:87-132 | Building with the sizes a build returned gives the same levels again |
| Positions.TableSorted | netcpu/combos_builder.h:87-132 | Keys increase strictly and stay below the total |
| Positions.LaySizeMono | netcpu/combos_builder.h:157-220 | Intervals of earlier subsets end before those of later ones begin |
| Positions.DecodeThenEncode | netcpu/combos_builder.h:263-327 | Every complexity in [0, total) decodes to a level, a subset and in-range digits that encode to it |
| Positions.EncodeThenDecode | netcpu/combos_builder.h:263-327 | And the other way about, inside the interval of its level: a bijection |
| Positions.EncodeOrdered | netcpu/combos_builder.h:160-262 | Which move has which number: complexities compare by level, then by coefficients in lexicographic order, then by digits, the last one first |
| Positions.LevelUnique | netcpu/combos_builder.h:290-293 | The level of a complexity is determined by the level ends |
| Combos.NumberThenDigits | netcpu/combos_builder.h:296-316 | Digits from the most significant down undo the sum of digit times offset |
| Combos.DigitsThenNumber | netcpu/combos_builder.h:296-316 | And the sum of digit times offset undoes the digits, which are in range |
| Demodulation.FindsEntry | netcpu/combos_builder.h:266-277 | The lookup by lower bound finds the entry whose interval holds the complexity, with its subset and offsets |
| Demodulation.FindsLevel | netcpu/combos_builder.h:290-294 | The lookup by upper bound finds its level |
| CombosBuilder.Builder.Demodulate | netcpu/combos_builder.h:263-327 | One run calls every coefficient exactly once, from the last to the first, with its digit or to stay, also where the descending index wraps past zero; the table may be over lists that go on further than the coefficients' own |
| CombosBuilder.Builder.LookUp | netcpu/combos_builder.h:263-295 | The two lookups it begins with: the subset and its offsets, what is left for the digits, and the resolutions of the level |
| CombosBuilder.Builder.ResetDownTo | netcpu/combos_builder.h:296-314 | Coefficients between two moved ones are reset once each |
| CombosBuilder.Builder.ResetRest | netcpu/combos_builder.h:318-320 | Those below the last moved one as well, none if the index has wrapped |
| Demodulation.MovedAll | netcpu/combos_builder.h:263-327 | After a run the working point is the complexity's position and, where what has ended stands at index zero, the offset has grown by its code |
| Positions.TargetInRange | netcpu/converger_1/coefficient_metadata_base.h:142-165 | The position stays on the finest grid |
| Coefficients.RescaleBelow | netcpu/converger_1/coefficient_metadata_base.h:142-165 | A coarse index lands below the fine resolution |
| Coefficients.RescaleLands | netcpu/converger_1/coefficient_metadata_base.h:143-163 | Exactly where a coarse step lands: in the fine cell that holds the middle of the coarse one |
| Coefficients.RescaleIncreasing | netcpu/converger_1/coefficient_metadata_base.h:142-165 | Strictly increasing when the coarse grid has no more steps than the fine one |
| Coefficients.RescaleIdentity | netcpu/converger_1/coefficient_metadata_base.h:142-165 | The identity between equal grids |
| Coefficients.SeparatesIff | netcpu/converger_1/coefficient_metadata_base.h:142-165 | No two coarse steps collapse iff the coarse grid has no more steps than the fine one |
| Coefficients.CodeInjective | netcpu/converger_1/server.h:130-141 | One code, one grid point |
| Coefficients.CollectedIsCode | netcpu/converger_1/server.h:347-372 | Adding offset times index over the coefficients gives the mixed-radix number of the point |
| Coefficients.CoefficientArray.constructor | netcpu/converger_1/server.h:430-451 | Coefficients start at index zero with offsets that are prefix products |
| Coefficients.CoefficientArray.RebuildOffsets | netcpu/converger_1/server.h:130-141 | Afterwards each offset is the product of the finest resolutions before it; nothing else changes |
| Coefficients.CoefficientArray.ApplyStage | netcpu/converger_1/server.h:1742-1751 | One zoom level: exactly the coefficients whose range passes its threshold take its resolutions and slowdown; and whether all pass |
| Coefficients.CoefficientArray.ChooseResolutions | netcpu/converger_1/server.h:1738-1755 | All zoom levels in turn: each coefficient has the latest it passes, the number at once is of the latest that all pass |
| Coefficients.CoefficientArray.PostShrink | netcpu/converger_1/server.h:276-343 | Short lists are padded with their last entry up to the intended length, every index is zero, offsets are rebuilt |
| Coefficients.CoefficientArray.Sync | netcpu/converger_1/processor.h:181-198 | Resolutions, ended ranges and both indices of a whole state |
| Coefficients.CoefficientArray.ValueFromGrid | netcpu/converger_1/coefficient_metadata_base.h:143-163 | Sets one working index to the fine cell that holds the middle of the coarse step, and adds its part of the code; nothing at all for an ended range |
| Coefficients.CoefficientArray.ValueReset | netcpu/converger_1/server.h:362-372 | Returns one working index to the centre and adds its part of the code |
| Coefficients.CoefficientArray.ResetAfterBootstrapping | netcpu/converger_1/server.h:453-466 | The reported index for every coefficient that has not ended; the code of the point is collected |
| Coefficients.CoefficientArray.ValueOnBootstrap | netcpu/converger_1/processor.h:220-226 | The index that chance has given, unless the range has ended |
| Coefficients.CoefficientArray.SaveAll | netcpu/converger_1/coefficient_metadata_base.h:106-110 | The working point becomes the centre |
| Processor.Processor.ReadFull | netcpu/converger_1/processor.h:793-851 | A whole state refines the peer's step for all lists the wire may bring: everything under a new key, the table being the peer's own; only the work under the same key, and a report is due for what has not been reported |
| Processor.Processor.ReadNew | netcpu/converger_1/processor.h:819-841 | Under a new key everything is replaced |
| Processor.Processor.ReadCentre | netcpu/converger_1/processor.h:883-936 | A recentring message moves the peer's own centre to the complexity's point, by whatever table it has |
| Processor.Processor.Recentre | netcpu/converger_1/processor.h:906-910 | The peer's centre becomes the complexity's point |
| Processor.Processor.ReadWork | netcpu/converger_1/processor.h:938-953 | A list replaces the work, and unless no reply is asked for a report is due for what has not been reported |
| Processor.Processor.TakeOver | netcpu/converger_1/processor.h:825-841 | Indices, ended ranges and resolutions of the whole state are the peer's own afterwards, and the table is that of its view, whatever it finds where it reads past a list |
| Processor.Processor.NextUnit | netcpu/converger_1/processor.h:528-537 | The unit done next is the end of the first run of the list |
| Processor.Processor.Evaluate | netcpu/converger_1/processor.h:535-599 | The unit moves from remaining to unreported; a find iff its point differs from the centre and beats the target |
| Processor.Processor.OnProcessTimeout | netcpu/converger_1/processor.h:514-629 | The handler refines the protocol's step: with an empty list the iterations rest, otherwise report, draft or silence, and whether the iterations go on |
| Processor.Processor.DoUnit | netcpu/converger_1/processor.h:533-629 | One unit: its evaluation and what is reported |
| Processor.Processor.ReportUnits | netcpu/converger_1/processor.h:600-629 | The report goes out or waits, and the iterations go on only if it had been due |
| Processor.Processor.OnBootstrappingTimeout | netcpu/converger_1/processor.h:648-719 | The bootstrapping handler refines the step: a point better than the target is reported and the iterations stop |
| Processor.Processor.OnRollbackTimeout | netcpu/converger_1/processor.h:640-646 | What has not been reported for long is due |
| Processor.Processor.OnWrite | netcpu/converger_1/processor.h:730-740 | A completed write sends the draft, if one waits, and clears what was unreported |
| Ranges.CanonicalUnique | netcpu/range_utils.h:50-73 | A set of naturals has one canonical form |
| Ranges.RangeMap.Subtract | netcpu/range_utils.h:81-156 | Exactly the set difference, in canonical form |
| Ranges.RangeMap.SubtractAll | netcpu/range_utils.h:165-246 | Exactly the set difference in canonical form, true iff the set changed; ends although one branch advances neither cursor |
| Ranges.SubtractDone | netcpu/range_utils.h:165-246 | A run that has used up either sequence has removed exactly the second one |
| Ranges.RangeMap.ExtendRight | netcpu/range_utils.h:279-305 | Extending an entry to the right swallows exactly the ranges it meets |
| Ranges.WidenedUnion | netcpu/range_utils.h:279-305 | Which adds exactly the extension to the set |
| Ranges.WidenedCanonical | netcpu/range_utils.h:279-305 | And keeps strict gaps |
| Ranges.RangeMap.Add | netcpu/range_utils.h:251-337 | Exactly the set union, in canonical form |
| Ranges.RangeMap.AddAll | netcpu/range_utils.h:339-438 | Exactly the set union, in canonical form, for the bulk form |
| Ranges.AddDone | netcpu/range_utils.h:339-438 | A run that has used up the second sequence has added exactly it |
| Ranges.FoldIsBulk | netcpu/range_utils.h:165-246 | The bulk forms leave the very map that the single forms, folded, leave |
| Ranges.RangeMap.Find | netcpu/range_utils.h:440-475 | Membership |
| Ranges.FindClear | netcpu/range_utils.h:440-475 | Only the last entry that does not start past the point can hold it |
| Ranges.StartCursor | netcpu/range_utils.h:86-97 | Everything before the cursor an operation starts from ends before its key |
| Shrink.ShrinkInStep | netcpu/converger_1/server.h:190-274 | Lockstep: one shrink moves every coefficient that has not ended to one common ratio, strictly further; each new box lies in the old one around the centre and both neighbours; all end or none |
| Shrink.PrepareGrows | netcpu/converger_1/server.h:211-229 | A coefficient asks for strictly more than where it stands, by a known amount |
| Shrink.ExecuteMeets | netcpu/converger_1/server.h:231-242 | Executing any ratio between the two meets it and nests, keeps the centre's neighbours, and loses the same part of the slack on either side |
| Shrink.ExecuteBalanced | netcpu/converger_1/server.h:231-242 | The new box takes the same part of the slack on either side of the centre's neighbours |
| Shrink.BalancedOnce | netcpu/converger_1/server.h:231-242 | Which with its length says where it lies |
| Shrink.EndedAtOne | netcpu/converger_1/server.h:169-181 | A range has ended iff the ratio has come to one |
| Shrink.LeastRatio | netcpu/converger_1/server.h:1725-1732 | The smallest ratio asked for by a coefficient that has not ended |
| Shrink.ExecuteAll | netcpu/converger_1/server.h:1735-1736 | Everybody executes it, and the count of free coefficients is right |
| Shrink.ShrinkAll | netcpu/converger_1/server.h:1725-1736 | Both loops together are the shrink proved to keep step |
| Shrink.RunPaced | netcpu/converger_1/server.h:1717-1829 | Along every run of shrinks, whatever happens between them to centres, resolutions and slowdowns, all keep in step and the ratio has grown by the pace each time |
| Shrink.PaceExists | netcpu/converger_1/server.h:211-229 | Positive end ranges leave a positive pace |
| Shrink.Bound | netcpu/converger_1/server.h:1717-1829 | One number bounds all runs of shrinks from given ranges |
| Shrink.Terminates | netcpu/converger_1/server.h:1717-1829 | After pace times n reaches one nothing is left to shrink |
| Shrink.NeverEnds | netcpu/converger_1/server.h:169-181 | And only positive end ranges do: where one free range has an end that is not positive, no free coefficient ever ends |
| Distribution.Deal | netcpu/converger_1/server.h:1404-1467 | Peer j gets exactly its due, as a canonical map |
| Distribution.DueAscend | netcpu/converger_1/server.h:1404-1467 | With at least as many units as peers each share lies before the next one, so shares are disjoint |
| Distribution.DueSize | netcpu/converger_1/server.h:1423-1424 | Every share has floor(T/P) units, or one if there are fewer units than peers |
| Distribution.DueInTurn | netcpu/converger_1/server.h:1404-1467 | With fewer units than peers each peer gets one, in turn |
| Distribution.LeftOver | netcpu/converger_1/server.h:1418-1462 | With at least as many units as peers a unit is nobody's iff it is one of the last T mod P |
| Distribution.DueCovers | netcpu/converger_1/server.h:1404-1467 | Every unit but the last T mod P is somebody's; with fewer units than peers every unit is |
| Distribution.DueRemains | netcpu/converger_1/server.h:1404-1467 | Shares hold remaining units only |
| Distribution.UnitsAreUnion | netcpu/converger_1/server.h:2185-2196 | The units of a map are its points |
| Distribution.TotalSize | netcpu/converger_1/server.h:1411-1416 | The first loop counts them |
| Message.MessageRoundTrip | netcpu/message.h:542-584 | Decoding an encoded message into a fresh one of the same type rebuilds the same flat list, with no byte left |
| Message.DecodesIff | netcpu/message.h:542-558 | On any bytes: decoding gives these fields with this left over if and only if the bytes are an encoding of a message of the type with this behind it, and it fails if and only if they begin with none |
| Message.EncodedByte | netcpu/message.h:119-163 | Every byte on the wire: fields in list order, each number with its low byte first, an array behind its length of eight bytes |
| Message.TreeRoundTrip | netcpu/message.h:542-584 | The same for the tree of fields, and what follows is untouched |
| Message.FlatIsTree | netcpu/message.h:897-913 | Splicing the elements' fields right behind their array makes the flat traversal decode like the recursion over the type, errors included, on any bytes |
| Message.FlatInOrder | netcpu/message.h:897-913 | The flat list keeps the order of the fields |
| Message.ItemsInOrder | netcpu/message.h:897-913 | And that of the elements of an array |
| Message.FlatSingle | netcpu/message.h:897-913 | An array of structures comes as its head, then its elements' fields |
| Message.MessageBase.Register | netcpu/message.h:488-495 | A field goes in behind the one registered last |
| Message.MessageBase.constructor | netcpu/message.h:488-495 | A fresh message holds its type's fields in order |
| Message.MessageBase.SpliceElements | netcpu/message.h:897-944 | Resizing an array of structs puts the elements' fields right behind it, in order |
| Message.MessageBase.FromWire | netcpu/message.h:542-558 | One pass over the growing list decodes exactly the flat decoding, or fails where that fails |
| Message.MessageBase.ToWire | netcpu/message.h:560-584 | The buffer holds exactly the encoding |
| Wire.BytesRoundTrip | netcpu/message.h:119-163 | Little-endian bytes decode to the number |
| Wire.ByteAt | netcpu/message.h:128-135 | The byte at k counts the 256 to the k |
| Wire.NumberRoundTrip | netcpu/message.h:119-163 | And bytes of the width encode back to themselves |
| Wire.SignedInverts | netcpu/message.h:647-657 | Reading an unsigned number as signed inverts the conversion modulo the number of values |
| BigInt.Context.constructor | netcpu/big_int_context.h:78-84 | No variables, a pool of unowned numbers |
| BigInt.Context.GetNumber | netcpu/big_int_context.h:110-123 | A number nobody owns; no value changes |
| BigInt.Context.Create | netcpu/big_int.h:81-84 | A new variable with a number of its own; no other value changes |
| BigInt.Context.Copy | netcpu/big_int.h:86-89 | The copy has the value, sharing the number |
| BigInt.Context.Destroy | netcpu/big_int.h:99-103 | Other values stay; the number goes to the pool iff nobody shares it |
| BigInt.Context.Assign | netcpu/big_int.h:114-126 | One value is replaced, no other changes |
| BigInt.Context.CopyOnWrite | netcpu/big_int_context.h:125-140 | The variable owns its number alone and no value has changed |
| BigInt.Context.IsolateOnWrite | netcpu/big_int_context.h:142-148 | The variable owns its number alone and no other value has changed |
| BigInt.Context.AddAssign | netcpu/big_int.h:144-150 | Adds to one value only, also with itself or a sharer as the operand |
| BigInt.Context.SubAssign | netcpu/big_int.h:169-175 | Subtracts from one value only |
| BigInt.Context.MulAssign | netcpu/big_int.h:185-191 | Multiplies one value only |
| BigInt.Context.AddMul | netcpu/big_int.h:261-268 | Adds a product to one value only, with aliasing |
| BigInt.Context.Plus | netcpu/big_int.h:136-142 | The sum in a new variable, both operands unchanged |
| Halton.Sequence | censoc/halton.h:223-251 | Entry n is the base-p radical inverse of n for every array size, the last segment truncated or not |
| Halton.RadicalTop | censoc/halton.h:223-251 | A further top digit adds its part, which is what the inner loop does |
| Halton.RadicalBelowOne | censoc/halton.h:223-251 | Entries lie in [0, 1) |
| Halton.RadicalInjective | censoc/halton.h:223-251 | Entries are pairwise distinct |
| IoDriver.OneWriteAtATime | netcpu/io_driver.h:519-528 | In every reachable uncancelled state at most one write is under way, and accepted messages have been handed over once each and in order but for one that waits |
| IoDriver.GivesUpAtFourth | netcpu/io_driver.h:292-314 | In every run a timeout cancels if and only if it is the fourth to find no keepalive under way since the other side was last heard; if not, a keepalive goes out if and only if nothing is being written and nothing has been written since the last timeout |
| IoDriver.Counts | netcpu/io_driver.h:292-314 | Along every run the driver's count and flag are just these |
| IoDriver.DeferredGoesOut | netcpu/io_driver.h:316-329 | The waiting one goes out, once, when the keepalive completes |
| IoDriver.WriteThrough | netcpu/io_driver.h:564-586 | The user may write again after a write that went through, and only then; a cancelled driver takes no notice |
| IoDriver.KeepaliveThrough | netcpu/io_driver.h:316-329 | A keepalive that fails cancels; with any other outcome the timer runs again and the message that waits goes out |
| IoDriver.CancelOnce | netcpu/io_driver.h:629-650 | Cancelling stops the timer and gives up the write; done again it changes nothing |
| IoDriver.KeepaliveGoesOn | netcpu/io_driver.h:292-329 | Once started, the timer runs or a keepalive is under way until cancellation |
| IoDriver.FailureIsFinal | netcpu/io_driver.h:564-586 | A failed user write that is not cancelled blocks writing and keepalives for good |
| IoDriver.RunKeepsInv | netcpu/io_driver.h:292-329 | The invariant behind these, over every run |
| IoDriver.AsyncDriver.Write | netcpu/io_driver.h:519-528 | Refines the step: hands over at once, or waits for the keepalive |
| IoDriver.AsyncDriver.OnWrite | netcpu/io_driver.h:564-586 | Refines the completion of a user write |
| IoDriver.AsyncDriver.OnKeepaliveTimeout | netcpu/io_driver.h:292-314 | Refines the timeout: nothing, cancel after three in a row, send, or go on |
| IoDriver.AsyncDriver.OnWriteKeepalive | netcpu/io_driver.h:316-329 | Refines the completion of a keepalive |
| IoDriver.AsyncDriver.OnPeek | netcpu/io_driver.h:456-492 | Hearing from the other side restarts the count, unless cancelled |
| IoDriver.AsyncDriver.Cancel | netcpu/io_driver.h:629-650 | Cancelling happens once |
| TaskQueue.MovedFacts | netcpu/server.cc:313-340 | A move keeps the members, shifts the task by exactly the steps asked clamped to the ends, and keeps the others' order |
| TaskQueue.MovedNearest | netcpu/server.cc:313-340 | That is the position nearest to the one asked for |
| TaskQueue.ReseatedIsMove | censoc/scoped_membership_iterator.h:73-81 | Inserting first and erasing the old position after is that move, on either side of it |
| TaskQueue.Tasks.Create | netcpu/server.cc:287-290 | A new task is filed by its birthday |
| TaskQueue.FiledFacts | netcpu/server.cc:341-354 | Filing keeps the order by age and the others' order, and puts a task behind those of its age |
| TaskQueue.Tasks.MarkPending | netcpu/server.cc:303-312 | Appends; at most the front task is active |
| TaskQueue.Tasks.MarkCompleted | netcpu/server.cc:341-354 | Moves the task to the completed ones, filed by age, and the next front runs |
| TaskQueue.Tasks.Walk | netcpu/server.cc:313-340 | Where the iterator stops, one further when going down |
| TaskQueue.Tasks.Move | netcpu/server.cc:313-340 | The move above, or nothing but one completion on the way |
| TaskQueue.Tasks.OnMoveTaskInList | netcpu/server.cc:677-704 | Moves after completions on the way, which are filed by age, as long as the task is pending |
| TaskQueue.Tasks.OnDeleteTask | netcpu/server.cc:706-727 | Only this task goes, and the front one runs |
| TaskQueue.Tasks.Purge | netcpu/server.cc:466-487 | From the oldest on the tasks go that are too old by the clock, which is read anew for each, up to the first that is not; the others keep their order in each list, and the front is looked at once |
| TaskQueue.PurgedByAge | netcpu/server.cc:466-487 | While the clock does not go back, exactly those go that are too old at its last reading |
| TaskQueue.Tasks.OnPendingTasksUpdate | netcpu/server.cc:997-1020 | The front task runs once loading is over |
| Optimum.ShrinkMeansOptimum | netcpu/converger_1/server.h:1670-1717 | From the invariants alone: past the last level the server's value is the centre's, and the neighbourhood is exhausted if and only if no overlooked point of it is below the target |
| Safety.ProcessKeeps | netcpu/converger_1/processor.h:514-629 | Evaluating a unit, with or without a report or a draft, leaves the connection in order |
| Safety.BootstrapKeeps | netcpu/converger_1/processor.h:648-719 | So does a bootstrapping attempt |
| Safety.SentKeeps | netcpu/converger_1/processor.h:735-740 | And the completion of a write, which sends the draft if there is one |
| Safety.DueKeeps | netcpu/converger_1/processor.h:640-646 | And the timer that makes a report due |
| Safety.RestKeeps | netcpu/converger_1/processor.h:528-532 | And an iteration that finds nothing left to do |
| Runs.BootHub | netcpu/converger_1/server.h:1216-1279 | After a bootstrapping report the server's new centre has been evaluated and a new key is in force |
| Combos.LayConcat | netcpu/combos_builder.h:157-220 | Laying out two runs of subsets is laying out the one behind the other |
| Combos.ResIs | netcpu/combos_builder.h:191-199 | A resolution below two counts as two |
| Combos.LayCompleteIff | netcpu/combos_builder.h:157-220 | Laying out subsets completes, without reading past a list, if and only if all of it fits under the limit |
| Combos.BuiltIsFitting | netcpu/combos_builder.h:87-132 | Where every list is long enough, a build is the levels that fit |
| CombosBuilder.Builder.SetNext | netcpu/combos_builder.h:297-307 | One round of the descent leaves everything from the moved coefficient on as the move says |
| TaskProcessor.TaskProcessor.ScanRange | netcpu/converger_1/server.h:1539-1549 | The scan of one range of the list |
| TaskProcessor.TaskProcessor.DropNoted | netcpu/converger_1/server.h:1550-1554 | What the scan noted leaves the list, and the scan is forgotten |
| TaskProcessor.TaskProcessor.FirstLevelWork | netcpu/converger_1/server.h:1249-1266 | In either branch the unvisited complexities of the first level stay |
| TaskProcessor.TaskProcessor.VisitRange | netcpu/converger_1/server.h:1608-1615 | The places of one accumulated range become visited |
| TaskProcessor.TaskProcessor.VisitUnit | netcpu/converger_1/server.h:1608-1615 | One round: one more place becomes visited |
| TaskProcessor.TaskProcessor.LayFirstLevel | netcpu/converger_1/server.h:1705-1707 | The first level around the new centre, without what is visited |
| Processor.Processor.ReplaceRemaining | netcpu/converger_1/processor.h:753-765 | The list is exactly the message's ranges, also when there are none |
| Processor.Processor.Demodulate | netcpu/converger_1/processor.h:541-541 | The working point is the unit's point, the centre stays |
| Processor.Processor.Modified | netcpu/converger_1/processor.h:557-562 | Some coefficient has moved iff the working point is not the centre |
| Processor.Processor.Report | netcpu/converger_1/processor.h:618-638 | At once, clearing the unreported units, or as the draft, keeping them |
| BigInt.Context.CreateFrom | netcpu/big_int.h:91-97 | A new variable with the given value |
| BigInt.Context.SetNumber | netcpu/big_int.h:121-126 | One value is set, no other changes |
| IoDriver.AsyncDriver.constructor | netcpu/io_driver.h:588-602 | The initial state of every run |
| IoDriver.AsyncDriver.SetKeepalive | netcpu/io_driver.h:277-283 | Starts the timer |
| IoDriver.StepKeepsInv | netcpu/io_driver.h:292-329 | Every event keeps the invariant |
| TaskQueue.Tasks.Deactivate | netcpu/converger_1/server.h:1196-1202 | Stopping a processor may complete its task, and then the next front runs |
| TaskQueue.Tasks.StopForMove | netcpu/server.cc:328-333 | Whatever is or becomes the front is stopped first, unless a task completes by that |
| TaskQueue.Tasks.Destroy | censoc/scoped_membership_iterator.h:92-99 | A destroyed task leaves the list it is in |

## Left out

- Fixed-width integers: indices, keys and sizes are unbounded. The guard at `netcpu/combos_builder.h:201-206` does not notice every product that wraps, so nothing is claimed about wrapping.
- Floating point: ranges, ratios, values and Halton entries are exact reals; the early exit of the likelihood counts only as "not below the target", and the guard at `netcpu/converger_1/processor.h:578` compares with the exact value.
- Likelihood models: the objective is an arbitrary function of resolutions, box, ended ranges and grid point.
- Resuming from `convergence_state.bin`: runs start from a fresh task. The restored value (`netcpu/converger_1/server.h:422-425`) does not mirror what a peer makes of the whole state.
- Liveness: peers may vanish and reports may wait for ever, and a sync may never come. What is proved is where units are and, in `Stalls`, that some states are left by no run.
- Stalls.StalledMeansDropped: of the deals it requires that nobody gets an empty share, which `Distribution.DueSize` proves of those the server makes.
- Stalls.StallsForever: of a sync it requires that nobody is told of work others have done, which the server does only for shares that reports have just reduced.
- Reuse of a message for a second decoding, with its cached buffers (`netcpu/message.h:775-778`): the round trip is for a message fresh from its constructor. Compression is an inverse pair and left out.
- Sockets, SSL, files, process start, logging, waking machines, timers as clocks, CSV, spreadsheets, installers, the update and other auxiliary programs.
- The reading half of the driver, apart from its effect on the keepalive count.
- Debug-only sweeps (`NDEBUG`): what they assert is proved or, where it is a demand on callers, required.
- Protocol: the shares a sync deals are any subsets of the list, and the next table is any that the server could build for as many coefficients, with each box inside the one before; `Distribution.Deal` and `ShrunkTables.OnShrink` give the ones it makes. A sync may start at any time. Which peers a work-only message for assisted units goes to is any set. A server whose first level does not fit goes no further.
- Optimum.LossesMet: for a ratio above one and a centre that has moved, sufficient but not necessary, and `Optimum.LossBelow` the other way about; what decides in between is `Optimum.OverlookedIff`.
- ShrunkTables.OnShrink: once all ranges have ended, the source still chooses resolutions before it stops; the model stops at once.
- TaskProcessor.TaskProcessor.constructor: requires that the first level fits under the limit, as the assertion after the first build does (`netcpu/converger_1/server.h:1119-1121`), and that no level is finer than the first (`netcpu/converger_1/server.h:136-137`).
- CombosBuilder.Builder.Build: when it has come to read past a list, nothing is promised of the table.
- Processor: what a build finds past the end of a list of resolutions are numbers; that a program may as well fail there is not modelled.
- Processor.Processor.OnBootstrappingTimeout: what has ended stands at index zero, where every server has it.
- Ranges.RangeMap.SubtractAll: the second map must be canonical and not empty, which the source asserts; the same holds for AddAll.
- Shrink.Bound: the slowdowns stay below some q < 1 throughout, which finitely many zoom levels guarantee.
- BigInt.Context.Destroy: numbers are recycled with whatever they held, as in the source; memory of their digits is not modelled, nor are bit operations, input and output.
- Names and files of tasks.
- TaskQueue.Tasks.Deactivate: whether stopping a processor completes its task is any boolean.

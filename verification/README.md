# A model of the asock event-loop core

asock runs sockets on one loop. Sockets sit in doubly linked lists, one per context; a timer
sweeps those lists to count down timeouts; `kevent` fills an array of ready polls that the
loop dispatches by type; closed sockets wait on a close list until the round is over; and a
socket that another context adopts may be moved in memory. Every user callback is
re-entrant: while the loop walks a list or the array, a callback may close, shut down,
write to, re-arm or adopt any socket. The project models this core, in classes that are
updated in place, and proves what its functions keep between them.

## How it is built

- `PollWord`, `Kernel`: the four-bit poll word, the change list of `asock_poll_kqueue_change`
  and the kernel's filter table.
- `Memory`, `Sequences`: the classes `Socket` and `Context`, and the intrusive list. `prev`
  is a three-way datatype, so the cast of a context into it is explicit. A ghost pair
  `done + todo` is the list, split at a sweep's iterator.
- `Journal`: the history of a loop, one event for everything that happens to a socket and
  every callback it is given. Folds over it give each socket's phase, countdown, unsettled
  short writes, interest and registered filters. `Allowed` says which event may follow which
  history; the lemmas of the module hold of every lawful journal, and the loop's journal is
  always lawful.
- `Wakeups`: the interest bits over the life of a socket, for lawful journals.
- `State`: the abstract state of a loop, its invariant `Inv`, and one function for each
  operation of the library. `Retuning`, `Relinking`, `Repolling`, `Masks` and `Batch` prove
  that the operations keep the invariant, part by part.
- `Interference`: `Rely`, what a callback may do, a reflexive and transitive relation.
  `Steps` proves that every call of the library is one step of it.
- `EventLoop`: the class `Loop`. `Good()` says that memory represents the state `g` and that
  `g` satisfies `Inv`; every method keeps `Good()` and says what became of `g`.
- `Callbacks`: any finite sequence of calls, calling back in turn when a socket is closed. The
  one method that gives control to a callback records it in `calls`; `Gives` is `Rely` with
  that record.
- `Sweeping`, `Timer`: the timeout sweep. `Turns`, `Dispatch`: what the dispatch of one poll
  may do, as a relation between states, up to whole rounds and runs, and the code that does it.
  `Run`: the loop over rounds.
- `Outcomes`: what an entry of a batch comes to, by what the kernel and the application say:
  the events that are noted first, the callback that gets control then, and what is left.
  `Answering`: who gets control over a run.
- `Timeouts`: from seconds to sweeps. `Ticking`: the sweeps of a run, and the one in which a
  timeout fires.
- `Http`: the streaming client of `examples/http_server.c`; its handlers satisfy `Rely`, so
  they are callbacks that the loop may run. `HttpRuns`: runs with these handlers.
- `Guarantees`: what all of this means for a user. `Examples`: runs from a new loop on that
  end where the library does not do what it is meant to.

Safety over whole runs is the combination of two facts. `Good()` holds before and after
every step of every method, including at every point where a callback gets control, so
every reachable state satisfies `Inv`. And `Inv` contains that the journal is lawful, and
that memory and kernel are what the folds over it say, so every lemma about lawful journals
holds of every run.

`asock_poll_change` crosses the interest bits when it stores them (`src/core/poll.c:141-142`):
a writable interest is stored as IN, a readable one as OUT, unlike in `asock_poll_start` and
in the decoder. The model has both forms as a parameter, `mapping`: `AsWritten` is the code
as it stands, `AsIntended` stores the bits uncrossed. Memory safety, list, sweep, close,
adoption and life-cycle properties are proved for both alike. Four properties that the masks
are there for fail as written; with uncrossed bits they hold, save for one case of the
third. For these the theorems say exactly when the written code has them, in every reachable
state or over every run:

- *A socket with unsent data is told when it is writable* (`Guarantees.NoLostWakeup`). As
  written, if and only if no FIN came after its last short write (`Short`) and it is not
  `Deaf`: a drain leaves writable in the poll word though the filter is gone, so that the
  next short write registers nothing. `Examples.SecondShortWriteIsLost` is a run.
- *on_writable is not called after shutdown* (`Guarantees.WritableDispatchedExactly`). As
  written an entry for a writable socket calls it if and only if a short write was
  outstanding at the shutdown, with no FIN after it, and no writable dispatch has completed
  since. `Examples.WritableAfterShutdown` is a run.
- *A socket is told of new data* (`Guarantees.NoLostData`). As written, until the peer's FIN,
  if and only if a short write is outstanding, or it was accepted and no write on it ever
  fell short: after the first short write is drained, on_data stops. A socket that connected
  asks for writable only (`src/core/poll.c:223`), so it is told of data from its first short
  write on with uncrossed bits, and only while a short write is outstanding as written
  (`Examples.ClientIsNotHeard`). `Guarantees.DataIsHeard` has the condition also after a FIN.
- *Cached interest and registered filters agree* (`Kernel.WrittenAgreesExactly`); by
  `Wakeups.PollIsRun` the polls of the loop go through just such runs of changes.

`Short`, `Muted`, `Deaf`, `ReadsOnly` and `Blind` are predicates on the history of calls and
dispatches of one socket, characterised by positions in `Wakeups.ShortMeans`, `MutedMeans`,
`DeafMeans`, `ReadsOnlyMeans` and `BlindMeans`.

## Model

| member | source | states |
|---|---|---|
| PollWord.ChangeDecodes | src/core/poll.c:135-146 | after a change the type is kept and the interest that is read back is the stored one, in both mappings |
| PollWord.WrittenAgreesOnSymmetricMasks | src/core/poll.c:140-142 | the written and the intended form store the same word exactly for the empty and the full mask |
| Kernel.KqueueChangeEffect | src/core/poll.c:152-181 | a change list leaves other descriptors alone, installs only the poll's own address, and registers what is computed also when the kernel rejects a delete |
| Kernel.ChangeFromAgreement | src/core/poll.c:152-181 | if the old mask is what is registered, exactly the new one is registered afterwards |
| Guarantees.FiltersAreInterest | src/core/poll.c:135-181 | every filter on an open socket's descriptor names it; its poll word and its filters are what its history says; with uncrossed bits the filters are exactly the cached interest |
| Retuning.ChangeIsChanged | src/core/poll.c:135-146 | a change of an open socket's interest in the loop is one step of the poll record, in both mappings |
| Wakeups.PollIsRun | src/core/poll.c:135-146 | interest and filters of a socket that was not moved are those of the run of changes that its history asked for |
| Kernel.IntendedAlwaysAgrees | src/core/poll.c:135-146 | with uncrossed bits, cached interest and registered filters agree at every point of every run of changes |
| Kernel.WrittenAgreesExactly | src/core/poll.c:135-146 | as written they agree throughout a run if and only if every request is empty, full, or repeats the starting mask before any other request |
| Kernel.WrittenLosesWritable | src/core/poll.c:135-146 | short write, drained, short write as changes of one poll: writable is cached but not registered |
| Examples.SecondShortWriteIsLost | src/core/poll.c:301-308 | the same in a run of the loop from its creation: data is owed, the filter is gone, and between the two writes reports of new data are filtered out |
| Memory.Context.Link | src/core/context.c:37-48 | link is prepend, before any iterator, with the timeout cleared |
| Memory.Context.Unlink | src/core/context.c:54-82 | unlink deletes exactly that socket, from the list and from the part ahead of the iterator, wherever it stands |
| Memory.Context.SoleMember | src/core/context.c:62-65 | the test `prev == next` holds exactly for the only socket of a list |
| Memory.Context.Advance | src/core/timer.c:102-107 | the iterator moves past the first socket ahead of it |
| Batch.BoundedSearchIsComplete | src/core/loop.c:151-170 | giving up after `k` hits rewrites every entry for a poll if and only if there are at most `k` |
| Batch.TwoHitsSuffice | src/core/loop.c:159-170 | so two hits rewrite all of a batch's entries for the poll, in place |
| Batch.TwoHitsAtMost | src/core/loop.c:148-151 | a batch without duplicate filters names a poll at most twice |
| EventLoop.Loop.constructor | src/core/loop.c:64-99 | a new loop has no polls, contexts or sockets and satisfies the invariant |
| EventLoop.Loop.KqueueChange | src/core/poll.c:152-181 | builds and submits the change list |
| EventLoop.Loop.PollStart | src/core/poll.c:36-43 | keeps the type, caches and registers the events |
| EventLoop.Loop.PollChange | src/core/poll.c:135-146 | does nothing if the cached mask reads as the new one, else stores it in the given mapping and submits the difference |
| EventLoop.Loop.UpdatePending | src/core/loop.c:145-171 | entries from the current one on are rewritten up to the second hit; nothing else in the array changes |
| EventLoop.Loop.PollStop | src/core/poll.c:49-61 | unregisters the cached interest and blanks pending entries |
| EventLoop.Loop.Resize | src/core/poll.c:187-201 | a moved block keeps its fields; filters and entries are pointed at it if its interest is not empty |
| EventLoop.Loop.ClosedMark | src/core/socket.c:126-129 | `prev == context` holds exactly for the sockets that are closed, which are those on the close list |
| EventLoop.Loop.Timeout | src/core/socket.c:96-108 | zero seconds store 0; otherwise at least 1 is stored, and the number of sweeps for the seconds if it fits the field |
| EventLoop.Loop.Shutdown | src/core/socket.c:59-71 | nothing on a closed or shut-down socket; else, connecting and listening ones included, the type changes and the interest that is read back without writable is stored |
| EventLoop.Loop.Write | src/core/socket.c:9-26 | nothing on a closed or shut-down socket; on any other, connecting and listening ones included, a short or failed send marks the loop and polls for both events; failure counts as 0 bytes |
| EventLoop.Loop.CloseQuietly | src/core/core.c:152-173 | the socket leaves its list, the kernel and the batch, and is the new head of the close list, marked with its context |
| EventLoop.Loop.EndReading | src/core/poll.c:340-343 | stops polling for readable |
| EventLoop.Loop.CreateCallbackPoll | src/core/timer.c:12-28 | the counter grows by one, unless it is a fallthrough poll |
| EventLoop.Loop.Create | src/core/context.c:195-205 | a counted poll is created, started, and linked |
| EventLoop.Loop.Adopt | src/core/context.c:258-274 | a closed socket is returned as it is; an open one moves to the new context, in memory too if `realloc` says so |
| EventLoop.Loop.CreateContext | src/core/context.c:10-22 | a new context heads the loop's list; a sweep in progress does not reach it |
| EventLoop.Loop.FreeClosed | src/core/socket.c:77-90 | the whole close list is freed, each socket once |
| EventLoop.Loop.Wait | src/core/loop.c:24-25 | a batch is any duplicate-free choice of at most 1024 registered filters, timers and user events, or an error |
| EventLoop.Loop.Accept | src/core/core.c:255-289 | a descriptor that no open socket has, and one connection fewer in the queue; or -1, which is an error unless the queue is empty or the descriptor does not listen |
| EventLoop.Loop.NextEntry | src/core/loop.c:28-30 | the entry that the loop comes to, and all after it, name open sockets or nothing |
| EventLoop.Loop.Visit | src/core/timer.c:95 | counts down, and fires exactly at one |
| EventLoop.Loop.Drain | src/core/poll.c:303-308 | the interest that is read back without writable is stored, in the given mapping |
| EventLoop.Loop.Connected | src/core/poll.c:223-228 | the change of interest does nothing; the type becomes that of a proper socket |
| Callbacks.Listen | src/core/context.c:185-210 | null and no change if there is no descriptor, else a new semi-socket polling for readable |
| Callbacks.Connect | src/core/context.c:217-240 | null and no change if there is no descriptor, else a new semi-socket polling for writable |
| Callbacks.Close | src/core/socket.c:33-53 | a closed socket is returned as it is; an open one is closed, on_close gets control in exactly that state, and it stays closed where it is |
| Callbacks.Callback | src/core/poll.c:211-216 | the callback gets control, which is recorded, and makes any finite sequence of calls |
| Callbacks.CallbackOn | src/core/poll.c:294 | the same for a socket's callback; whatever it does, it returns the same socket where it is now |
| Interference.RelyTransitive | src/core/timer.c:97-103 | any finite sequence of calls is within what callback sites rely on |
| Steps.CloseStep | src/core/socket.c:33-53 | closing keeps the invariant and is a step that callbacks may make |
| Steps.CreateStep | src/core/context.c:195-205 | so is creating a socket |
| Steps.AdoptStep | src/core/context.c:258-274 | so is adopting one, moved or not |
| Steps.WriteStep | src/core/socket.c:9-26 | so is writing, however much the kernel takes |
| Steps.ShutdownStep | src/core/socket.c:59-71 | so is shutting down |
| Steps.FlushKeeps | src/core/socket.c:77-90 | freeing the close list keeps the invariant and removes exactly the closed sockets, with one unit of the count each |
| Sweeping.FirstOrGone | src/core/timer.c:97-103 | after a callback the socket being visited is still first ahead of the iterator, or not ahead of it at all |
| Sweeping.MidPassStayed | src/core/timer.c:100-103 | stepping past a visited socket that stayed keeps account of the pass |
| Sweeping.MidPassLeft | src/core/context.c:56-60 | so does not stepping when the callback unlinked it, also if it was linked again |
| Timer.SweepOne | src/core/timer.c:93-108 | one turn: the first socket ahead is seen, a callback runs only if it was due, it is stepped past if still first, and what is ahead gets shorter whatever the callback does |
| Timer.SweepContext | src/core/timer.c:91-109 | one pass is a chain of such turns to the end of the list; each identity in the list at its start is visited at most once and no other at all; no socket that stayed linked is missed |
| Timer.Sweep | src/core/timer.c:85-111 | such passes, each from where the one before it ended, until no context is ahead; it terminates |
| Timer.PassesInOrder | src/core/timer.c:88-89 | the passes of a sweep are over the contexts there were when it began, and no others, in list order |
| Guarantees.SeenExactlyOnce | src/core/timer.c:92-109 | the identity of a socket linked before the pass and still linked is visited exactly once; one not in the list when the pass began, not at all |
| Ticking.PassesPrompt | src/core/timer.c:95-97 | in a sweep nothing is done to any socket until it has called an on_timeout |
| Ticking.SweepMeets | src/core/timer.c:93-108 | a sweep visits every socket that was open when it began, or it is closed, adopted or armed before |
| Ticking.SweepVisitsOnce | src/core/timer.c:85-111 | of the sockets open when a sweep began and not adopted in it, each is visited exactly once, whatever its on_timeout does, or not at all if and only if it was closed before its turn |
| Ticking.TicksVisit | src/core/timer.c:85-111 | over any sequence of sweeps, with anything in between, a socket that stays linked is visited once a sweep |
| Ticking.RunTicks | src/core/loop.c:187-193 | every run of the loop is such a sequence: the sweeps that its batches dispatch, and no visit elsewhere |
| Ticking.RunTicksFrom | src/core/loop.c:187-193 | so is what follows on any point outside of sweeps in a step of a run |
| Guarantees.NoIteratorOutsideSweeps | src/core/timer.c:88-92 | outside a sweep every iterator is null |
| Guarantees.IteratorIsOfSweptContext | src/core/timer.c:88-92 | in a sweep only the context being swept has an iterator, and it points into that context's list |
| Timeouts.SweepsExact | src/core/socket.c:98-103 | `s` seconds become `max(1, (s + 2) / 4)` sweeps, and fit the field exactly up to 262141 |
| Ticking.FiresInNthSweep | src/core/timer.c:93-98 | a timeout of `n` sweeps calls on_timeout in the n-th sweep and in no other, whatever on_timeout does to the socket; the only exception is a socket that another one's on_timeout closes, adopts or arms in that sweep before its turn |
| Ticking.FiresInWindow | src/core/socket.c:94-108 | with sweeps 4 seconds apart, a sweep that calls on_timeout comes after `s - 5` and no later than `s + 3` seconds, and one of the sweeps in that time calls it, with the same exception |
| Ticking.ZeroTurnsOff | src/core/socket.c:104-107 | after a timeout of 0 sweeps no sweep calls on_timeout for the socket until it is given another timeout |
| Journal.FiresAtNthVisit | src/core/timer.c:95-97 | a timeout not set again nor cleared by adoption fires at its n-th later visit and at no other |
| Journal.PhasesAdvance | src/core/poll.c:209-353 | created, opened, shut down, closed, told, freed: a socket only moves forward |
| Journal.MilestonesHappenOnce | src/core/socket.c:35-49 | each of these happens at most once, in this order |
| Journal.NothingAfterClose | src/core/socket.c:41-49 | after closing, the only callback left is one on_close |
| Wakeups.NothingSentAfterShutdown | src/core/socket.c:12-15 | after shutdown nothing is sent; on_writable is not called with uncrossed bits, and as written only if a short write was outstanding, with no FIN after it, and no writable dispatch has completed since |
| Guarantees.WritableDispatchedExactly | src/core/poll.c:288-294 | an entry for an open socket that was shut down calls on_writable if and only if the bits are crossed and that condition holds |
| Examples.WritableAfterShutdown | src/core/socket.c:66-68 | a run from a new loop on, as written: both entries of a socket are pending, on_data shuts it down, and on_writable is called for the second |
| Journal.OwesMeans | src/core/socket.c:18-23 | a socket owes exactly if a write fell short and nothing has settled that since |
| Journal.DrainsAfterFullWrites | src/core/poll.c:301-308 | polling for writable ends only in the socket's own writable dispatch, and only if no write in the loop fell short in it |
| Wakeups.ShortMeans | src/core/socket.c:18-23 | `Short` by positions: a short write after which nothing ended polling for both events |
| Wakeups.MutedMeans | src/core/poll.c:303-308 | `Muted` by positions: a drain of a short write, and since then no short write, drain, shutdown or move |
| Wakeups.DeafMeans | src/core/socket.c:18-23 | `Deaf` by positions: a short write on a muted socket, and nothing since that registers the filter |
| Wakeups.OwingIsHeardExactly | src/core/socket.c:18-23 | in every lawful history, a socket that owes has writable both cached and registered if and only if the bits are uncrossed, or it is short and not deaf |
| Guarantees.NoLostWakeup | src/core/socket.c:18-23 | in every reachable state, after a short write that nothing settled: the socket is open, and its writable filter is registered, names it and is not filtered out, always with uncrossed bits, and as written if and only if it is short and not deaf |
| Guarantees.ShortWriteRegistersExactly | src/core/socket.c:18-23 | a short write leaves the writable filter registered if and only if it was, or the poll word did not ask for it |
| Guarantees.DrainStoresExactly | src/core/poll.c:303-308 | what a drain leaves cached and registered, in both mappings; as written, of interest in both events writable is left |
| Guarantees.NoLostData | src/core/loop.c:46-48 | before any FIN: an open socket's readable filter is registered, names it and is not filtered out, as written if and only if a short write is outstanding, or it was created for reading and no write ever fell short; with uncrossed bits if and only if it was created for reading or some write fell short |
| Guarantees.DataIsHeard | src/core/poll.c:339-343 | the same at any point of an open socket's life, FINs, moves and shutdown included, in both mappings |
| Wakeups.DataIsHeardExactly | src/core/poll.c:135-181 | in every lawful history, readable is both cached and registered exactly in these cases |
| Wakeups.ReadsOnlyMeans | src/core/poll.c:339-343 | `ReadsOnly` by positions: creation for reading, or a FIN on a short socket, and since then no short write or FIN |
| Wakeups.BlindMeans | src/core/poll.c:339-343 | `Blind` by positions: a FIN on a short socket, and nothing since that registers the filter or ends the interest |
| Examples.ClientIsNotHeard | src/core/poll.c:219-231 | a client that just connected is open, and its data is not heard of, in both mappings |
| Guarantees.ShutdownStoresExactly | src/core/socket.c:66-68 | a shutdown leaves writable in the poll word if and only if the bits are crossed and it asked for both; the filter stays if and only if it was there unasked for |
| Guarantees.ShutdownIsPolledExactly | src/core/socket.c:66-68 | for the rest of the run, when an open socket that was shut down asks for writable and when it has the filter: never with uncrossed bits, and exactly when as written |
| Guarantees.OnlyOpenIsNamed | src/core/loop.c:32-51 | lists, filters and later entries of the batch name open sockets only |
| Guarantees.ClosedIsForgotten | src/core/socket.c:37-47 | a closed socket is queued once, and nothing else names it, the current entry included |
| Guarantees.FlushForgets | src/core/socket.c:77-90 | a freed socket is named by nothing, and open ones are untouched |
| Guarantees.AdoptionMovesAll | src/core/context.c:267-273 | head of the new list, timeout 0; descriptor, type, interest, identity and count kept; no trace of the old address |
| Guarantees.CreatedIsReady | src/core/poll.c:247-261 | counted once, registered for exactly the asked events under its own address, linked once at the head, before on_open |
| Guarantees.WriteWhileConnecting | src/core/poll.c:219-221 | a connecting socket that is written to is told from a listener, whatever the kernel takes, if and only if it was closed before the call |
| Guarantees.ShortWriteWhileConnecting | src/core/poll.c:219-235 | after a short write its dispatch takes the accept branch, nothing is accepted and nothing changes: on_open is not called |
| Guarantees.ShutdownOfSemi | src/core/socket.c:59-71 | a listening or connecting socket that is shut down is still dispatched as one if and only if it was closed; a connecting one has no filter left |
| Examples.MovedListenerIsGone | src/core/poll.c:239-268 | a run from a new loop on, in which the on_open of the first accepted connection adopts the listener and its block moves: the accept loop has no listener to go on with |
| Examples.IdleMoveLeavesStaleEntry | src/core/poll.c:193-198 | a run from a new loop on, in both mappings: a timer's callback shuts down and adopts a connected client whose writable entry is pending; the entry then names freed memory |
| Repolling.MoveIsSafeExactly | src/core/poll.c:193-198 | after a move all filters and later entries name open sockets if and only if the registered events were cached and, if none were, no later entry names the socket |
| Repolling.IntendedMovable | src/core/poll.c:190-193 | with uncrossed bits only the second half of that condition is left |
| Dispatch.SettleWritable | src/core/poll.c:301-308 | after on_writable an open socket stops polling for writable exactly if no write failed or it was shut down |
| Dispatch.DispatchWritable | src/core/poll.c:288-309 | the failure mark is cleared, on_writable gets control in that state, and the socket it returns is settled |
| Dispatch.DispatchReadable | src/core/poll.c:311-349 | what `ignore_data` and `recv` say leads to the state in which the callback gets control, or to nothing |
| Outcomes.ReadableOutcome | src/core/poll.c:311-349 | by the result of `recv`: data calls on_data; the peer's first FIN on_end; a FIN after our own, and an error other than having to wait, close the socket at once, call on_close and queue it to be freed; ignored data and having to wait change nothing; each if and only if |
| Dispatch.DispatchSocket | src/core/poll.c:275-351 | error closes; else writable comes first, and readable only if the socket is still open |
| Outcomes.ErrorCloses | src/core/poll.c:281-285 | an entry with an error or hang-up, on either filter and whatever is polled for, closes a proper socket at once, calls on_close and queues it to be freed |
| Outcomes.WritableOutcome | src/core/poll.c:288-309 | on_writable is called first; afterwards the socket stops polling for writable if and only if it is open and no write on any socket fell short meanwhile, or it is shut down |
| Dispatch.DispatchConnect | src/core/poll.c:221-231 | the socket becomes a proper one, and on_open gets control |
| Outcomes.ConnectOutcome | src/core/poll.c:216-231 | an entry of a connecting socket, also one for an error, calls on_open first, and from then on it is a proper socket |
| Dispatch.AcceptOne | src/core/poll.c:247-261 | one accepted descriptor is one new socket, created before on_open; the listener stays in live memory |
| Dispatch.DispatchListen | src/core/poll.c:234-271 | the turns of the accept loop follow one another, each from an open listener with a connection waiting, until `accept` fails or on_open closed the listener |
| Outcomes.AcceptOutcome | src/core/poll.c:234-271 | each connection that leaves the queue is one turn: one socket in the listener's context, and its on_open; in the end the listener is closed, or the queue is empty, or `accept` failed although it was not |
| Outcomes.TimerOutcome | src/core/poll.c:211-216 | an entry of a callback poll gives its callback control before anything else |
| Dispatch.DispatchPoll | src/core/poll.c:207-354 | each type has its own transition |
| Run.DispatchEntry | src/core/loop.c:32-53 | a blank entry does nothing; a poll is dispatched only while open, and only on what it polls for or on an error |
| Run.DispatchBatch | src/core/loop.c:28-54 | the entries are handled one after the other, each from a good state, to the end of the batch |
| Turns.EachEntryOnce | src/core/loop.c:28-30 | a batch takes as many steps as it has entries, whatever callbacks do to it |
| Run.DoRound | src/core/loop.c:22-56 | one round: the pre callback gets control, a batch is worked off entirely, exactly the closed sockets are freed, the post callback gets control |
| Answering.RoundCalls | src/core/loop.c:230-244 | in a round the pre callback is called once, before anything else, and the post callback once, after the last closed socket was freed |
| Answering.RunCalls | src/core/loop.c:20-57 | a run of `n` rounds calls each of them `n` times; and every callback of a socket that its journal says is called gets control, right then and once |
| Run.RunLoop | src/core/loop.c:15-58 | a run is a chain of such rounds, each begun with polls left; the loop ends by itself exactly when no socket is in memory and no other poll counts |
| Guarantees.CountSplits | src/core/poll.c:12-20 | the count is the sockets in all lists, plus those closed but not freed, plus the other polls that count |
| Run.CountIsZero | src/core/loop.c:20 | the count in memory is zero exactly when no socket is in memory and no other poll counts |
| Http.StreamHolds | examples/http_server.c:46-65 | over any run and any mix of sends, the bytes taken are the first `offset` of the response, and an open unfinished stream is owed a writable event |
| Http.UnfinishedIsHeard | examples/http_server.c:57-65 | the loop hears when such a stream is writable, always with uncrossed bits, and as written if and only if its socket is short and not deaf |
| Http.StreamStays | examples/http_server.c:46-65 | whatever happens to other sockets leaves the stream where it is |
| Http.OnOpen | examples/http_server.c:26-38 | the offset starts at 0, the idle timeout is 8 sweeps, and the handler is a step that callbacks may make |
| Http.OnData | examples/http_server.c:46-55 | the response is sent from its start; the offset is what the journal says |
| Http.OnWritable | examples/http_server.c:57-65 | the rest is sent; the offset is what the journal says |
| HttpRuns.ServedIsHandling | examples/http_server.c:46-72 | an event answered by the server's handlers is the handling of a batch entry by the loop |
| HttpRuns.ServedIsHandled | examples/http_server.c:46-72 | one such event on any client keeps, for every client, that only the handlers send, once each, all that is left |
| HttpRuns.ServerStreams | examples/http_server.c:46-72 | in every run of the loop with these handlers, at every entry it comes to, for every client: the bytes taken are the first `offset` of the response, and an unfinished stream is heard of when writable, always with uncrossed bits, and as written exactly if short and not deaf |

## Left out

- EventLoop.Loop.Adopt: requires that an open socket may be moved (`MayMove`), because `asock_poll_resize` repairs nothing when the cached interest is empty (`src/core/poll.c:193`); `Repolling.MoveIsSafeExactly` shows that the condition is exact. A block that `realloc` hands out is not one that the entry being dispatched still names. It also requires that the socket is not a listener whose own entry is being dispatched: the accept loop goes on with a pointer to it (`src/core/poll.c:239-268`, `Examples.MovedListenerIsGone`). That a listener's block is larger than what `realloc` is asked for is not modelled.
- `accept` fails on a descriptor that does not listen: that is the kernel's behaviour, and a part of the model (`listens`).
- EventLoop.Loop.Timeout: for more than 262141 seconds the conversion to the field is undefined in C; the model then stores an unknown value that fits.
- EventLoop.Loop.constructor: `num_ready_polls` and `current_ready_poll` are never initialised (`src/core/loop.c:64-75`); the model takes them as 0. `last_write_failed` is not initialised either; there the model takes any value.
- EventLoop.Loop.Create: the kernel gives out no descriptor that an open socket has, and always registers what it is asked to add.
- Callbacks.AnyCall: callbacks call the library within the conditions above, on one loop, and start no nested sweep or loop; the nesting of on_close in closing calls is finite, by an arbitrary `depth`.
- Dispatch.DispatchListen: connections come in while the loop waits, and not during an accept loop, so that it ends; `accept` may fail although one is waiting.
- Run.RunLoop: runs for at most an arbitrary number of rounds, as a run need not end.
- Timer, async and other callback polls are opaque: their creation counts one poll, but setting and closing them (`src/core/timer.c:34-60`) are not modelled, so they are never freed here. `asock_timer_close` frees a poll without repairing the batch.
- `ignore_data` answers yes or no and has no effect on the loop.
- Loop and context teardown: `asock_poll_free` counts down also for fallthrough polls (`src/core/poll.c:67-71`), so the conservation of the count is stated for the running loop.
- `send`, `recv`, `accept`, `kevent` and `realloc` give any results; socket options, addresses, the receive buffer, loop iteration numbers and the cross-thread wakeup are not part of this model.
- The extension area is one number that tells sockets apart and moves with them; pointer arithmetic, alignment and the 28-bit descriptor field are not modelled.
- The inner loops of sweep, accept and close are methods of their own, which are loops or parts of one function in the source.
- HttpRuns.ServerStreams: of steps that serve no client, and of the pre and post callbacks, it is required that they send nothing; the server's on_open, on_timeout and on_close do not. on_end and on_timeout only shut down and close, and have no methods of their own.
- The HTTP request parser, the echo server's buffering, SSL, and the epoll, libuv and GCD back ends.

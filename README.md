# Design-pattern demos, modelled in Dafny

This project models the parts of the ghesio/design-pattern Java demos that
hold checkable behaviour, one Dafny file per pattern, and proves what each
one promises:

- `observer.dfy`: a store that broadcasts posted messages to its registered
  customers. Each woken customer pulls the current message from every store
  in its own list.
- `iterator.dfy`: a podcast collection and its topic-filtered cursor.
- `memento.dfy`: a text editor with cursor arithmetic and a wrapping
  `toString`. Snapshots capture its state, and a LIFO stack of them gives
  undo.
- `state.dfy`: an audio player whose ready, playing and locked states
  handle four buttons.
- `chain.dfy`: a cash dispenser built from 100/50/20/10-euro handlers.
- `mediator.dfy`: a button, a fan and a power supply that talk only
  through a cooling-system mediator.
- `builder.dfy`: a house, its fluent builder and a director that shares
  one builder.
- `prototype.dfy`: a person whose clone is flagged as cloned.
- `flyweight.dfy`: circles handed out one per colour by a memoising
  factory.
- `proxy.dfy`: a command executor proxy that refuses `rm` to everyone but
  the administrator.
- `common.dfy`: Java's nullable references, `List.remove(Object)`, and the
  decimal rendering of `int` and `boolean` inside string concatenation.

Everything is sequential. Console output becomes a returned trace, either
the exact lines as `seq<string>` or a sequence of events. Classes whose
fields the Java code updates in place are Dafny classes with `modifies`
clauses. Code that only computes is written as functions over datatypes.
Each `*Scenarios` module replays the repository's demo `main` with concrete
values, plus a few edge cases the code implies.

Some behaviours follow from the code and are easy to miss:

- Unlocking the player always lands in Ready, never back in Playing. The
  locked state asks the player for its state's name, and that name is its
  own, `"locked"`.
- A customer's store list and a store's registrations are independent of
  each other.
- `addSubject` keeps duplicates.
- `Editor.type` never wraps the column back.
- `Editor.toString` breaks after the characters at index 20, 40, ... So
  its first line holds 21 characters and the later lines 20.

## Model

All paths are relative to the repository root: `src/io/ghes/…`.

| member | source | states |
|---|---|---|
| Common.RemoveFirst | src/io/ghes/design_patterns/behavioural/observer/Store.java:31 | List.remove(Object): an absent element leaves the list as it is; otherwise the list is one shorter. Which element goes, and the order of the rest, is stated by RemoveFirstSplit |
| Common.RemoveFirstMultiset | src/io/ghes/design_patterns/behavioural/iterator/PodcastCollectionList.java:22 | remove takes away exactly one occurrence of the element and keeps every other element |
| Common.RemoveFirstSplit | src/io/ghes/design_patterns/behavioural/iterator/PodcastCollectionList.java:20-24 | it is the first equal element that goes: for any list a + [x] + b with x not in a, remove gives a + b, so everything before and after keeps its order |
| Common.RemoveFirstNoDup | src/io/ghes/design_patterns/behavioural/observer/Store.java:31 | on a duplicate-free list, remove drops the element entirely, keeps everything else and stays duplicate-free |
| Common.IntToStringRoundTrip | src/io/ghes/design_patterns/creational/prototype/Person.java:25 | the decimal rendering of an int used in string concatenation parses back to the same int |
| Common.IntToStringInjective | src/io/ghes/design_patterns/creational/builder/House.java:38-39 | two different ints never render alike |
| Observer.Registered | src/io/ghes/design_patterns/behavioural/observer/Store.java:22-24 | register's contains/add: the customer ends up in the list; the old list is kept as a prefix; the list grows by one exactly when the customer was absent |
| Observer.RegisterKeepsNoDup | src/io/ghes/design_patterns/behavioural/observer/Store.java:20-26 | registration never creates a duplicate; a present customer leaves the list unchanged; an absent one is appended at the end |
| Observer.UnregisterUndoesRegister | src/io/ghes/design_patterns/behavioural/observer/Store.java:28-33 | unregistering a newly registered customer restores the list exactly |
| Observer.ReportsAt | src/io/ghes/design_patterns/behavioural/observer/Customer.java:19-27 | update prints one line per entry of the customer's own store list, in list order: the message, or "has no new message from <id>" for null |
| Observer.ReportsPending | src/io/ghes/design_patterns/behavioural/observer/Store.java:52-61 | getUpdate answers with the store's message slot, which postMessage sets to m just before notifying: the update lines computed from a slot holding m are exactly those computed with the store marked as posting m |
| Observer.BroadcastPending | src/io/ghes/design_patterns/behavioural/observer/Store.java:57-63 | the same holds for a whole broadcast: the lines printed while a store posts m are those computed with that store pending m |
| Observer.BroadcastSnoc | src/io/ghes/design_patterns/behavioural/observer/Store.java:47-49 | the lines of a broadcast are those of the earlier customers followed by those of the last customer |
| Observer.BroadcastPrefix | src/io/ghes/design_patterns/behavioural/observer/Store.java:47-49 | the same step, read on prefixes of one snapshot |
| Observer.UpdateAll | src/io/ghes/design_patterns/behavioural/observer/Store.java:47-49 | the loop over the snapshot updates every customer once, in order, and prints exactly the broadcast of that snapshot |
| Observer.UpdateNext | src/io/ghes/design_patterns/behavioural/observer/Store.java:48 | one loop turn appends the lines of the next customer |
| Observer.Store.constructor | src/io/ghes/design_patterns/behavioural/observer/Store.java:14-17 | a new store has the given name (what getId returns), no customers, a null message and the flag down |
| Observer.Store.Register | src/io/ghes/design_patterns/behavioural/observer/Store.java:19-26 | the list becomes Registered(old list, customer) and stays duplicate-free; the message and the flag are untouched |
| Observer.Store.Unregister | src/io/ghes/design_patterns/behavioural/observer/Store.java:28-33 | the first occurrence goes, which removes the customer entirely; everyone else stays; it is a no-op when the customer is absent |
| Observer.Store.NotifyObservers | src/io/ghes/design_patterns/behavioural/observer/Store.java:35-50 | with the flag down nothing is printed; otherwise the flag is cleared and exactly the snapshot is woken, once each, in list order |
| Observer.Store.PostMessage | src/io/ghes/design_patterns/behavioural/observer/Store.java:57-63 | prints the posted line, then the broadcast in which every customer reads msg from this store; afterwards the slot is null and the flag down |
| Observer.Customer.constructor | src/io/ghes/design_patterns/behavioural/observer/Customer.java:14-16 | a new customer has its name and a null store list |
| Observer.Customer.Update | src/io/ghes/design_patterns/behavioural/observer/Customer.java:18-28 | the loop prints the lines for every store of the customer's own list, whichever store woke it |
| Observer.Customer.AddSubject | src/io/ghes/design_patterns/behavioural/observer/Customer.java:30-36 | creates the list on first use, then appends, duplicates included |
| Observer.PostedLine | src/io/ghes/design_patterns/behavioural/observer/Store.java:58 | no contract of its own: the "-> store posted msg" line; Store.PostMessage states that it comes first, before every report |
| Observer.ReportLine | src/io/ghes/design_patterns/behavioural/observer/Customer.java:22-26 | no contract of its own: the text update prints for one store; ReportsAt states which line each store yields and in what order |
| ObserverScenarios.BroadcastOneOne | src/io/ghes/design_patterns/behavioural/observer/Customer.java:20-26 | a customer watching one store prints one line for it |
| ObserverScenarios.WireDemo | src/io/ghes/design_patterns/behavioural/observer/Application.java:7-26 | the demo's registrations and the customers' store lists, made by separate calls |
| ObserverScenarios.MarcoReports | src/io/ghes/design_patterns/behavioural/observer/Customer.java:20-26 | Marco reports the Apple store and then the Android store |
| ObserverScenarios.AppleBroadcast | src/io/ghes/design_patterns/behavioural/observer/Application.java:32 | the Apple post: Marco also reports "no new message" from the Android store |
| ObserverScenarios.FirstHalf | src/io/ghes/design_patterns/behavioural/observer/Application.java:29-32 | Marco's first update finds both stores empty, then the Apple post |
| ObserverScenarios.ApplePosts | src/io/ghes/design_patterns/behavioural/observer/Application.java:32 | the Apple store's post and the four report lines, leaving the store idle |
| ObserverScenarios.ApplicationRun | src/io/ghes/design_patterns/behavioural/observer/Application.java:29-37 | the demo's complete output trace, separators included |
| ObserverScenarios.Watching | src/io/ghes/design_patterns/behavioural/observer/Customer.java:30-36 | a customer can watch a store without being registered with it |
| ObserverScenarios.RegisterTwiceWakesOnce | src/io/ghes/design_patterns/behavioural/observer/Store.java:20-26 | registering twice still wakes the customer once per post |
| ObserverScenarios.RegisterTwo | src/io/ghes/design_patterns/behavioural/observer/Store.java:19-26 | two registrations are kept in call order |
| ObserverScenarios.UnregisteredIsNotWoken | src/io/ghes/design_patterns/behavioural/observer/Store.java:28-33 | an unregistered customer is not woken; the remaining one is |
| ObserverScenarios.WatchingIsNotRegistering | src/io/ghes/design_patterns/behavioural/observer/Customer.java:30-36 | watching without registering: the post wakes nobody, and a later update finds the slot null again |
| ObserverScenarios.AddSubjectTwiceReportsTwice | src/io/ghes/design_patterns/behavioural/observer/Customer.java:31-36 | a store added twice is reported twice per update |
| ObserverScenarios.BroadcastOneTwice | src/io/ghes/design_patterns/behavioural/observer/Customer.java:20-26 | a list holding one store twice gives two identical lines |
| Iterator.Podcast.constructor | src/io/ghes/design_patterns/behavioural/iterator/Podcast.java:11-14 | a podcast carries the given author and topic |
| Iterator.Matches | src/io/ghes/design_patterns/behavioural/iterator/PodcastCollectionList.java:46 | an ALL cursor matches everything; a podcast tagged ALL is matched only by an ALL cursor |
| Iterator.Filter | src/io/ghes/design_patterns/behavioural/iterator/PodcastCollectionList.java:43-59 | the reference answer: never longer than the list, and the whole list for ALL |
| Iterator.FilterMembers | src/io/ghes/design_patterns/behavioural/iterator/PodcastCollectionList.java:46 | Filter keeps exactly the podcasts of the list that match |
| Iterator.NextMatch | src/io/ghes/design_patterns/behavioural/iterator/PodcastCollectionList.java:44-50 | hasNext's loop stops at the first matching position at or after the start, skipping only non-matching podcasts, and never goes past the end |
| Iterator.NoMatchIff | src/io/ghes/design_patterns/behavioural/iterator/PodcastCollectionList.java:44-51 | hasNext is false exactly when nothing from the position on matches, and the position is then the list size |
| Iterator.NextMatchIdempotent | src/io/ghes/design_patterns/behavioural/iterator/PodcastCollectionList.java:44-50 | two hasNext calls in a row move the position only once |
| Iterator.RemainingStep | src/io/ghes/design_patterns/behavioural/iterator/PodcastCollectionList.java:45-49 | what is left from a position is its podcast, if it matches, followed by what is left after it |
| Iterator.SkipLosesNothing | src/io/ghes/design_patterns/behavioural/iterator/PodcastCollectionList.java:44-50 | skipping non-matching podcasts loses nothing of what is left |
| Iterator.DrainStep | src/io/ghes/design_patterns/behavioural/iterator/PodcastCollectionList.java:55-59 | next hands out a matching podcast; what the following hasNext finds is exactly the rest |
| Iterator.PodcastCollectionList.constructor | src/io/ghes/design_patterns/behavioural/iterator/PodcastCollectionList.java:10-12 | a new collection is empty |
| Iterator.PodcastCollectionList.AddPodcast | src/io/ghes/design_patterns/behavioural/iterator/PodcastCollectionList.java:14-18 | appends at the end |
| Iterator.PodcastCollectionList.RemovePodcast | src/io/ghes/design_patterns/behavioural/iterator/PodcastCollectionList.java:20-24 | removes the first equal podcast; an absent one changes nothing |
| Iterator.PodcastCollectionList.Iterator | src/io/ghes/design_patterns/behavioural/iterator/PodcastCollectionList.java:26-29 | a new cursor at position 0 over this very list, not a copy |
| Iterator.PodcastIterator.constructor | src/io/ghes/design_patterns/behavioural/iterator/PodcastCollectionList.java:37-40 | a cursor starts at position 0 with its topic and the shared list |
| Iterator.PodcastIterator.HasNext | src/io/ghes/design_patterns/behavioural/iterator/PodcastCollectionList.java:42-52 | the position moves to NextMatch, and the answer is whether it stopped inside the list |
| Iterator.PodcastIterator.Next | src/io/ghes/design_patterns/behavioural/iterator/PodcastCollectionList.java:54-59 | returns the podcast at the position, without a match check, and steps by one; past the end List.get throws and the position is unchanged |
| Iterator.PodcastIterator.Drain | src/io/ghes/design_patterns/behavioural/iterator/PodcastCollectionList.java:43-59 | the hasNext/next loop yields exactly the matching podcasts from the position on, in list order, and ends at the end of the list |
| Iterator.PodcastIterator.TakeOne | src/io/ghes/design_patterns/behavioural/iterator/PodcastCollectionList.java:55-58 | one next-then-hasNext turn keeps "handed out + left = all matching" and advances |
| IteratorScenarios.Application | src/io/ghes/design_patterns/behavioural/iterator/Application.java:6-30 | the demo: NATURE gives Rossi; TECH gives Verdi then Doe; ALL gives all four, Binted (tagged ALL) included |
| IteratorScenarios.DemoFilters | src/io/ghes/design_patterns/behavioural/iterator/Application.java:8-15 | the demo list filtered by NATURE and by TECH |
| IteratorScenarios.SharedList | src/io/ghes/design_patterns/behavioural/iterator/PodcastCollectionList.java:27-29 | a cursor made before an add sees the added podcast |
| IteratorScenarios.RemovedIsNotSeen | src/io/ghes/design_patterns/behavioural/iterator/PodcastCollectionList.java:20-24 | a podcast removed after the cursor was made is not handed out |
| Memento.AfterType | src/io/ghes/design_patterns/behavioural/memento/Editor.java:34-39 | type appends the text and moves the cursor offset (20 per line) by the length; the column grows by less than 20 and is never wrapped |
| Memento.BodyChars | src/io/ghes/design_patterns/behavioural/memento/Editor.java:49-55 | the rendering of n characters is n characters plus the breaks; character i sits at i + Breaks(i) |
| Memento.BodyBreaks | src/io/ghes/design_patterns/behavioural/memento/Editor.java:51-53 | a line break follows each character whose index is a positive multiple of 20 |
| Memento.RenderedLayout | src/io/ghes/design_patterns/behavioural/memento/Editor.java:45-57 | toString in full: the text's characters in order, a break after index 20, 40, ..., "_" last, and "_" for the empty text |
| Memento.ShortBody | src/io/ghes/design_patterns/behavioural/memento/Editor.java:49-55 | up to 20 characters are copied with no break |
| Memento.ShortRendered | src/io/ghes/design_patterns/behavioural/memento/Editor.java:45-57 | a text of at most 20 characters renders as itself followed by "_" |
| Memento.Editor.constructor | src/io/ghes/design_patterns/behavioural/memento/Editor.java:6-8 | a new editor has no text and the cursor at 0, 0 |
| Memento.Editor.SetText | src/io/ghes/design_patterns/behavioural/memento/Editor.java:14-16 | replaces the text and nothing else |
| Memento.Editor.SetCurX | src/io/ghes/design_patterns/behavioural/memento/Editor.java:22-24 | replaces the column and nothing else |
| Memento.Editor.SetCurY | src/io/ghes/design_patterns/behavioural/memento/Editor.java:30-32 | replaces the line and nothing else |
| Memento.Editor.Type | src/io/ghes/design_patterns/behavioural/memento/Editor.java:34-39 | the new state is AfterType of the old one |
| Memento.Editor.CreateSnapshot | src/io/ghes/design_patterns/behavioural/memento/Editor.java:41-43 | a new snapshot of the current state, bound to this editor; the editor is unchanged |
| Memento.Editor.ToString | src/io/ghes/design_patterns/behavioural/memento/Editor.java:45-57 | the StringBuilder loop produces Rendered(text), whose layout RenderedLayout states |
| Memento.Snapshot.constructor | src/io/ghes/design_patterns/behavioural/memento/Snapshot.java:10-15 | the captured text and cursor, which are final |
| Memento.Snapshot.Restore | src/io/ghes/design_patterns/behavioural/memento/Snapshot.java:17-21 | the editor's state becomes the captured one, whatever it was before |
| Memento.SnapshotHandler.constructor | src/io/ghes/design_patterns/behavioural/memento/SnapshotHandler.java:7 | the undo stack starts empty |
| Memento.SnapshotHandler.Backup | src/io/ghes/design_patterns/behavioural/memento/SnapshotHandler.java:9-11 | pushes the snapshot on top |
| Memento.SnapshotHandler.Undo | src/io/ghes/design_patterns/behavioural/memento/SnapshotHandler.java:13-19 | an empty stack changes nothing; otherwise the top is popped and its editor restored to it |
| MementoScenarios.TypeThenRestore | src/io/ghes/design_patterns/behavioural/memento/Snapshot.java:17-21 | restoring a snapshot undoes whatever was typed since it was taken |
| MementoScenarios.RestoreTwice | src/io/ghes/design_patterns/behavioural/memento/Snapshot.java:17-21 | restoring twice is restoring once |
| MementoScenarios.ColumnIsNotWrapped | src/io/ghes/design_patterns/behavioural/memento/Editor.java:37-38 | two 19-character inputs leave the column at 38 |
| MementoScenarios.BackupThenType | src/io/ghes/design_patterns/behavioural/memento/Application.java:8-10 | one backup-type-render step: the snapshot of the old state is pushed, then the typing is applied |
| MementoScenarios.BackupAndType | src/io/ghes/design_patterns/behavioural/memento/Application.java:8-13 | the first half of the demo renders "Hello,_" and "Hello, there!_" |
| MementoScenarios.Application | src/io/ghes/design_patterns/behavioural/memento/Application.java:6-17 | the demo renders "Hello,_", "Hello, there!_", "Hello,_", "_" and ends in the initial state |
| State.StateName | src/io/ghes/design_patterns/behavioural/state/PlayingState.java:38-41 | the names "ready", "playing", "locked" identify the three states |
| State.Click | src/io/ghes/design_patterns/behavioural/state/ReadyState.java:9-28 | the whole click table: play from Ready starts playback and goes to Playing, play from Playing stops and goes to Ready; next and previous give the next or previous song, or fast forward and rewind when kept pressed while playing, and never change the state; lock locks an unlocked player and unlocks to Ready; a locked player ignores every other button; at most one action per click |
| State.LockTwiceEndsReady | src/io/ghes/design_patterns/behavioural/state/LockedState.java:10-17 | lock, lock from Ready or Playing ends in Ready with no action |
| State.LockedIgnoresAll | src/io/ghes/design_patterns/behavioural/state/LockedState.java:21-35 | while locked, any clicks without lock do nothing at all |
| State.StartsOnlyByPlay | src/io/ghes/design_patterns/behavioural/state/PlayingState.java:14-18 | playback starts or stops only through the play button |
| State.AudioPlayer.constructor | src/io/ghes/design_patterns/behavioural/state/AudioPlayer.java:9-12 | a new player is ready |
| State.AudioPlayer.ChangeState | src/io/ghes/design_patterns/behavioural/state/AudioPlayer.java:14-16 | the state is replaced |
| State.AudioPlayer.GetState | src/io/ghes/design_patterns/behavioural/state/AudioPlayer.java:18-20 | no contract of its own: a plain read of the state field, which the constructor, ChangeState and the click methods pin down |
| State.AudioPlayer.ClickLock | src/io/ghes/design_patterns/behavioural/state/AudioPlayer.java:24-26 | the new state and actions are those of Click(old state, Lock) |
| State.AudioPlayer.ClickPlay | src/io/ghes/design_patterns/behavioural/state/AudioPlayer.java:28-30 | the new state and actions are those of Click(old state, Play) |
| State.AudioPlayer.ClickNext | src/io/ghes/design_patterns/behavioural/state/PlayingState.java:20-27 | the new state and actions are those of Click(old state, Next) |
| State.AudioPlayer.ClickPrevious | src/io/ghes/design_patterns/behavioural/state/PlayingState.java:29-36 | the new state and actions are those of Click(old state, Previous) |
| StateScenarios.Application | src/io/ghes/design_patterns/behavioural/state/Application.java:7-21 | the demo performs start, fast forward, next song, stop, and ends ready |
| Chain.Denomination | src/io/ghes/design_patterns/behavioural/chain_responsability/handlers/impl/HoundredEuroHandler.java:16-19 | every denomination is a positive multiple of 10 |
| Chain.Handle | src/io/ghes/design_patterns/behavioural/chain_responsability/handlers/impl/HoundredEuroHandler.java:15-26 | a forwarding handler prints a line exactly when one note fits; it passes nothing on exactly on a multiple; what it passes on is below its denomination; notes paid plus amount passed on equal the input; the ten handler always prints money / 10 notes |
| Chain.Dispense | src/io/ghes/design_patterns/behavioural/chain_responsability/handlers/impl/HoundredEuroHandler.java:20-24 | the ten-euro handler ends the chain by itself; whatever the wiring, and even when the chain breaks off on a missing handler, no more is paid out than was asked for. PaysAllButUnits and StandardChain state the rest |
| Chain.LineText | src/io/ghes/design_patterns/behavioural/chain_responsability/handlers/impl/HoundredEuroHandler.java:19 | no contract of its own: the "Dispensing n d€ bill(s)" line; ChainScenarios.Printed130 pins its text for the demo |
| Chain.SetNext | src/io/ghes/design_patterns/behavioural/chain_responsability/handlers/impl/FiftyEuroHandler.java:9-12 | forwarding handlers store the next handler; the ten handler ignores it |
| Chain.TerminatedNeverCrashes | src/io/ghes/design_patterns/behavioural/chain_responsability/handlers/impl/TwentyEuroHandler.java:20-25 | a chain whose forwarding handlers all have a next handler never dereferences null |
| Chain.StepKeepsUnits | src/io/ghes/design_patterns/behavioural/chain_responsability/handlers/impl/FiftyEuroHandler.java:16-25 | a forwarding handler pays a multiple of 10 and passes on an amount with the same units |
| Chain.PaysAllButUnits | src/io/ghes/design_patterns/behavioural/chain_responsability/handlers/impl/TenEuroHandler.java:13-16 | any chain that does not crash pays out exactly money - money % 10 |
| Chain.TwentyTenShape | src/io/ghes/design_patterns/behavioural/chain_responsability/handlers/impl/TwentyEuroHandler.java:16-25 | below 50, the 20 -> 10 tail pays at most two 20s and one 10, in that order |
| Chain.FiftyTailShape | src/io/ghes/design_patterns/behavioural/chain_responsability/handlers/impl/FiftyEuroHandler.java:16-25 | below 100, the 50 -> 20 -> 10 tail pays at most one 50, two 20s and one 10, in decreasing order |
| Chain.StandardChain | src/io/ghes/design_patterns/behavioural/chain_responsability/Application.java:11-17 | the demo's chain never crashes, pays all but the units, and prints decreasing denominations with at most 1/2/1 notes of 50/20/10 |
| Chain.StandardShape | src/io/ghes/design_patterns/behavioural/chain_responsability/handlers/impl/HoundredEuroHandler.java:16-25 | the demo chain prints strictly decreasing denominations, with at most one 50, two 20s and one 10 |
| ChainScenarios.Wiring | src/io/ghes/design_patterns/behavioural/chain_responsability/Application.java:15-17 | the setNextHandler calls build the 100 -> 50 -> 20 -> 10 chain |
| ChainScenarios.Dispense280 | src/io/ghes/design_patterns/behavioural/chain_responsability/Application.java:19 | 280 gives two 100s, one 50, one 20 and one 10 |
| ChainScenarios.Dispense130 | src/io/ghes/design_patterns/behavioural/chain_responsability/Application.java:21 | 130 gives one 100, one 20 and one 10; the 50 handler prints nothing |
| ChainScenarios.Printed130 | src/io/ghes/design_patterns/behavioural/chain_responsability/Application.java:21 | the demo prints "Dispensing 1 100€ bill(s)", "Dispensing 1 20€ bill(s)" and "Dispensing 1 10€ bill(s)" for 130 euro |
| ChainScenarios.DispenseZero | src/io/ghes/design_patterns/behavioural/chain_responsability/handlers/impl/TenEuroHandler.java:13-16 | 0 travels to the ten handler, which prints zero notes |
| ChainScenarios.UnwiredCrashes | src/io/ghes/design_patterns/behavioural/chain_responsability/handlers/impl/HoundredEuroHandler.java:20-22 | an unwired handler crashes on a remainder after printing its line, and not on an exact multiple |
| Mediator.PressesAlternate | src/io/ghes/design_patterns/behavioural/mediator/Application.java:16-19 | n presses print 2n lines, each press line followed by a power line; the power lines alternate, starting with off exactly when the fan starts on |
| Mediator.PressTwiceEvents | src/io/ghes/design_patterns/behavioural/mediator/CoolingSystemMediator.java:22-28 | two presses are the events of one press from each fan state |
| Mediator.Fan.constructor | src/io/ghes/design_patterns/behavioural/mediator/Fan.java:4-5 | a new fan is off and has no mediator |
| Mediator.Fan.SetMediator | src/io/ghes/design_patterns/behavioural/mediator/Fan.java:7-9 | stores the mediator and keeps the flag |
| Mediator.Fan.IsOn | src/io/ghes/design_patterns/behavioural/mediator/Fan.java:11-13 | no contract of its own: a plain read of the flag, which TurnOn, TurnOff and the presses pin down |
| Mediator.Fan.TurnOn | src/io/ghes/design_patterns/behavioural/mediator/Fan.java:15-18 | powers on through the mediator and ends on, even if it was already on |
| Mediator.Fan.TurnOff | src/io/ghes/design_patterns/behavioural/mediator/Fan.java:20-23 | ends off and powers off through the mediator, even if it was already off |
| Mediator.Button.constructor | src/io/ghes/design_patterns/behavioural/mediator/Button.java:6-7 | a new button has no mediator |
| Mediator.Button.SetMediator | src/io/ghes/design_patterns/behavioural/mediator/Button.java:14-16 | stores the mediator used by later presses |
| Mediator.Button.Press | src/io/ghes/design_patterns/behavioural/mediator/Button.java:9-12 | prints the press line, then the fan flips, with its power event |
| Mediator.CoolingSystemMediator.constructor | src/io/ghes/design_patterns/behavioural/mediator/CoolingSystemMediator.java:4-6 | a new mediator knows no component |
| Mediator.CoolingSystemMediator.SetButton | src/io/ghes/design_patterns/behavioural/mediator/CoolingSystemMediator.java:8-11 | stores the button and points it back here; the other fields are kept |
| Mediator.CoolingSystemMediator.SetFan | src/io/ghes/design_patterns/behavioural/mediator/CoolingSystemMediator.java:13-16 | stores the fan and points it back here, keeping its flag; the other fields are kept |
| Mediator.CoolingSystemMediator.SetPowerSupplier | src/io/ghes/design_patterns/behavioural/mediator/CoolingSystemMediator.java:18-20 | stores the supplier, with no back-pointer |
| Mediator.CoolingSystemMediator.Press | src/io/ghes/design_patterns/behavioural/mediator/CoolingSystemMediator.java:22-28 | turns an on fan off and an off fan on, with the matching power event |
| Mediator.CoolingSystemMediator.Start | src/io/ghes/design_patterns/behavioural/mediator/CoolingSystemMediator.java:30-32 | emits power-on through the supplier |
| Mediator.CoolingSystemMediator.Stop | src/io/ghes/design_patterns/behavioural/mediator/CoolingSystemMediator.java:34-36 | emits power-off through the supplier |
| MediatorScenarios.Wire | src/io/ghes/design_patterns/behavioural/mediator/Application.java:6-13 | the demo's wiring leaves everything ready, with the fan off |
| MediatorScenarios.PressTwice | src/io/ghes/design_patterns/behavioural/mediator/CoolingSystemMediator.java:22-28 | any two presses return the fan to its state |
| MediatorScenarios.Application | src/io/ghes/design_patterns/behavioural/mediator/Application.java:14-21 | the demo shows off, on, off, with press, power-on, press, power-off |
| Builder.DescribeInjective | src/io/ghes/design_patterns/creational/builder/House.java:37-40 | toString shows every field: two houses print alike only when all five fields agree |
| Builder.Describe | src/io/ghes/design_patterns/creational/builder/House.java:36-40 | no contract of its own: the text House.toString (House.ToString) returns for the current fields; DescribeInjective states that it shows every field |
| Builder.House.constructor | src/io/ghes/design_patterns/creational/builder/House.java:6-14 | 4 windows, 2 rooms, 1 door, no garage, no pool |
| Builder.House.SetNumberOfWindows | src/io/ghes/design_patterns/creational/builder/House.java:16-18 | overwrites the windows, unchecked, and nothing else |
| Builder.House.SetNumberOfRooms | src/io/ghes/design_patterns/creational/builder/House.java:20-22 | overwrites the rooms and nothing else |
| Builder.House.SetNumberOfDoors | src/io/ghes/design_patterns/creational/builder/House.java:24-26 | overwrites the doors and nothing else |
| Builder.House.SetHasGarage | src/io/ghes/design_patterns/creational/builder/House.java:28-30 | overwrites the garage flag and nothing else |
| Builder.House.SetHasPool | src/io/ghes/design_patterns/creational/builder/House.java:32-34 | overwrites the pool flag and nothing else |
| Builder.HouseBuilder.constructor | src/io/ghes/design_patterns/creational/builder/HouseBuilder.java:5 | a new builder starts on a new default house |
| Builder.HouseBuilder.BuildWindows | src/io/ghes/design_patterns/creational/builder/HouseBuilder.java:7-10 | sets the windows of the house in progress and returns the same builder |
| Builder.HouseBuilder.BuildRooms | src/io/ghes/design_patterns/creational/builder/HouseBuilder.java:12-15 | sets the rooms and returns the same builder |
| Builder.HouseBuilder.BuildDoors | src/io/ghes/design_patterns/creational/builder/HouseBuilder.java:17-20 | sets the doors and returns the same builder |
| Builder.HouseBuilder.BuildPool | src/io/ghes/design_patterns/creational/builder/HouseBuilder.java:22-25 | sets the pool flag to true, never false, and returns the same builder |
| Builder.HouseBuilder.BuildGarage | src/io/ghes/design_patterns/creational/builder/HouseBuilder.java:27-30 | sets the garage flag to true, never false, and returns the same builder |
| Builder.HouseBuilder.Reset | src/io/ghes/design_patterns/creational/builder/HouseBuilder.java:33-35 | discards the house in progress for a new default one |
| Builder.HouseBuilder.GetBuiltHouse | src/io/ghes/design_patterns/creational/builder/HouseBuilder.java:38-42 | returns the house in progress untouched and starts a new default one |
| Builder.HouseDirector.constructor | src/io/ghes/design_patterns/creational/builder/HouseDirector.java:5 | every director uses the one shared builder |
| Builder.HouseDirector.GetHouseWithAPool | src/io/ghes/design_patterns/creational/builder/HouseDirector.java:7-9 | returns the builder's house with a pool added, and leaves the shared builder on a new default house |
| BuilderScenarios.Application | src/io/ghes/design_patterns/creational/builder/Application.java:7-13 | the default house, then (8, 2, 10, garage), then (50, 20, 10, pool, no garage): nothing leaks between builds |
| BuilderScenarios.DirectorTwice | src/io/ghes/design_patterns/creational/builder/HouseDirector.java:7-9 | two directors give two distinct houses, each default but with a pool |
| Prototype.NewPerson | src/io/ghes/design_patterns/creational/prototype/Person.java:8-14 | a constructed person has the given fields and is not cloned |
| Prototype.Clone | src/io/ghes/design_patterns/creational/prototype/Person.java:16-21 | same id, name and surname, flagged cloned; as values, the copy has the same fields as the original exactly when the original was itself a clone |
| Prototype.CloneIdempotent | src/io/ghes/design_patterns/creational/prototype/Person.java:17-21 | cloning a clone gives the same fields again |
| Prototype.CloneDescribedApart | src/io/ghes/design_patterns/creational/prototype/Person.java:23-26 | toString of a person and of its clone agree up to the flag, "false]" against "true]", so they differ |
| Prototype.Describe | src/io/ghes/design_patterns/creational/prototype/Person.java:24-25 | no contract of its own: the Person.toString text; CloneDescribedApart states how a person's and its clone's lines compare |
| PrototypeScenarios.Application | src/io/ghes/design_patterns/creational/prototype/Application.java:8-11 | John Doe, id 1, and his clone |
| Flyweight.DrawingInjective | src/io/ghes/design_pattern/structural/flyweight/Circle.java:26-29 | for one colour, draw's line tells position and radius apart |
| Flyweight.Drawing | src/io/ghes/design_pattern/structural/flyweight/Circle.java:27-28 | no contract of its own: the line draw prints; DrawingInjective states that for one colour it shows position and radius faithfully |
| Flyweight.Circle.constructor | src/io/ghes/design_pattern/structural/flyweight/Circle.java:9-12 | the colour is fixed; x, y and radius start at 0 |
| Flyweight.Circle.SetX | src/io/ghes/design_pattern/structural/flyweight/Circle.java:14-16 | overwrites x and nothing else |
| Flyweight.Circle.SetY | src/io/ghes/design_pattern/structural/flyweight/Circle.java:18-20 | overwrites y and nothing else |
| Flyweight.Circle.SetRadius | src/io/ghes/design_pattern/structural/flyweight/Circle.java:22-24 | overwrites the radius and nothing else |
| Flyweight.Circle.Draw | src/io/ghes/design_pattern/structural/flyweight/Circle.java:26-29 | no contract of its own: Drawing of the circle's current fields; FlyweightScenarios.PlaceAndDraw states the line drawn after the setters |
| Flyweight.ShapeFactory.constructor | src/io/ghes/design_pattern/structural/flyweight/ShapeFactory.java:8 | the static map starts empty |
| Flyweight.ShapeFactory.GetCircle | src/io/ghes/design_pattern/structural/flyweight/ShapeFactory.java:10-12 | a cached colour returns its circle and changes nothing; otherwise a new circle of that colour is made once, filed under it and returned; entries are never removed |
| FlyweightScenarios.SharedCircle | src/io/ghes/design_patterns/structural/flyweight/ShapeFactory.java:10-12 | two requests for one colour get one circle, so moving it for one holder moves it for the other; another colour gets another circle |
| FlyweightScenarios.PlaceAndDraw | src/io/ghes/design_patterns/structural/flyweight/Application.java:22-26 | one round: the colour is cached and the line drawn shows the colour and the values just set |
| FlyweightScenarios.DrawNext | src/io/ghes/design_patterns/structural/flyweight/Application.java:21-27 | one loop turn adds the colour to the cache and appends its line |
| FlyweightScenarios.Application | src/io/ghes/design_patterns/structural/flyweight/Application.java:21-27 | over any colours and places: each line matches its request, and the cache holds one circle per distinct colour, each made once |
| FlyweightScenarios.NoDupCard | src/io/ghes/design_pattern/structural/flyweight/ShapeFactory.java:11 | as many circles are made as there are cached colours |
| Proxy.TrimStart | src/io/ghes/design_pattern/structural/proxy/CommandExecutorProxy.java:19 | cuts exactly the leading characters up to U+0020 |
| Proxy.TrimEnd | src/io/ghes/design_pattern/structural/proxy/CommandExecutorProxy.java:19 | cuts exactly the trailing characters up to U+0020 |
| Proxy.Trim | src/io/ghes/design_pattern/structural/proxy/CommandExecutorProxy.java:19 | no contract of its own: String.trim as the two cuts; TrimSlice states what it returns |
| Proxy.TrimSlice | src/io/ghes/design_pattern/structural/proxy/CommandExecutorProxy.java:19 | String.trim returns a stretch of the input that neither starts nor ends with a character up to U+0020, and everything cut off on either side is such a character |
| Proxy.TrimIdempotent | src/io/ghes/design_pattern/structural/proxy/CommandExecutorProxy.java:19 | trimming twice is trimming once |
| Proxy.TrimmedRm | src/io/ghes/design_pattern/structural/proxy/CommandExecutorProxy.java:19 | the trimmed command starts with "rm" exactly when "rm" follows the leading blanks |
| Proxy.TrimmedRmLeads | src/io/ghes/design_pattern/structural/proxy/CommandExecutorProxy.java:19 | the first direction of TrimmedRm |
| Proxy.LeadingRmTrimmed | src/io/ghes/design_pattern/structural/proxy/CommandExecutorProxy.java:19 | the second direction of TrimmedRm |
| Proxy.NewProxy | src/io/ghes/design_pattern/structural/proxy/CommandExecutorProxy.java:8-13 | administrator exactly for user "admin" with password "a5)9=514dfm-", settled at construction |
| Proxy.RunCommand | src/io/ghes/design_pattern/structural/proxy/CommandExecutorProxy.java:16-24 | an executed command is run untrimmed; a refusal carries the rm message; the administrator is never refused |
| Proxy.RefusedIff | src/io/ghes/design_pattern/structural/proxy/CommandExecutorProxy.java:16-24 | a command is refused exactly when the user is not the administrator and "rm" follows its leading blanks |
| ProxyScenarios.Application | src/io/ghes/design_pattern/structural/proxy/Application.java:6-9 | with "admin_pwd", "ls -halt" runs and " rm -rf /" is refused |
| ProxyScenarios.PrefixOnly | src/io/ghes/design_pattern/structural/proxy/CommandExecutorProxy.java:17-22 | "rmdir" is refused, "ls; rm x" runs, and the administrator runs " rm -rf /" |

## Left out

- Thread safety: the `mutex` and `synchronized` blocks of `Store` are not modelled. Each block is one atomic step of a single-threaded model.
- Console output: lines are a returned trace. The model keeps the exact text only for the observer reports, the editor, the house, the person and the circle.
- Other lines become events or are dropped: "*user is typing*", the CTRL+Z line, "Starting up the player" and "Creating circle of color" (kept as the factory's `created` list).
- Observer.Customer.Update: a customer whose list is still null makes Java throw. This is a precondition here, not a modelled error.
- Observer.Store.GetId and Observer.Store.GetUpdate have no contract of their own. GetUpdate is described by `Seen` and the constructor fixes what GetId returns.
- Mediator.Button.Press: pressing without a wired mediator, fan and power supplier is a null dereference in Java. It is a precondition here.
- Mediator.Fan.TurnOn and Mediator.Fan.TurnOff: a fan without a mediator that has a power supplier dereferences null in Java. It is a precondition here.
- Mediator.CoolingSystemMediator.Start and Mediator.CoolingSystemMediator.Stop: a mediator without a power supplier dereferences null in Java. It is a precondition here.
- Mediator.CoolingSystemMediator.Press: pressing before a fan is set, or while the fan's mediator has no power supplier, dereferences null in Java. It is a precondition here.
- Chain.Dispense: amounts are `nat`. A negative `int` amount, which would reach the ten-euro handler and be truncated toward zero, is not modelled.
- Chain.Handle: handlers are values. Rewiring a chain after use and cyclic chains are not modelled.
- The topic enum of the iterator demo is not part of this model. Its three values NATURE, TECH and ALL are taken from the callers.
- The setters and getters of `Podcast`: the model fixes author and topic at construction.
- Builder.House: `Integer` and `Boolean` fields are modelled as unbounded `int` and `bool`. Null arguments and 32-bit wrap-around are not modelled.
- Builder.Describe: the literal rendering of the default house is not stated. DescribeInjective states that every field is shown.
- Memento.Editor: `Integer` cursor fields are unbounded, with no 32-bit wrap-around.
- Memento.Editor.Type and Memento.AfterType: Java's `String.length()` counts UTF-16 code units and Dafny's `string` counts Unicode scalar values. The model assumes text inside the Basic Multilingual Plane. A character outside it moves Java's cursor by 2 and the model's by 1.
- Memento.Editor.ToString and Memento.Rendered: for the same reason the model assumes text inside the Basic Multilingual Plane. Outside it, Java's `charAt` loop breaks lines at other places and can split a surrogate pair.
- Static fields are explicit shared objects: the director's builder and the factory's circle map. The caller passes them in.
- Flyweight: the demo's random colours and positions are parameters. Its first loop, which creates a circle per draw without the factory, is not modelled.
- The twin `design_patterns/structural/flyweight/Circle.java` is not part of this model. Both factories are modelled by one class, because they are textually identical.
- Prototype.Clone: the `CloneNotSupportedException` path never occurs and is not modelled. Person is a value because cloning never changes the original.
- Proxy.RunCommand: `CommandExecutorImpl` only prints the command. That is the `Executed` outcome, and the thrown exception is the `Refused` outcome.
- Singletons, composite, adapter, decorator, bridge, visitor, command, strategy, template method, facade and the factories are not modelled. They rely on concurrency, floating point or classes that are not shown, or they only route calls to the console.

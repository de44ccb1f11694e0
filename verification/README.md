# A verified model of the bot

This project models the parts of the Go IRC bot that carry state over time, and proves
what they keep. Each class has the fields of the Go type it stands for, and each method is
proved against a function on values; what the bot promises is then proved about those
functions, for every input and over every run.

- `Basics`: options, bytes, blanks and turning a sequence round, shared by the rest.
- `MarkovTrie`, `MarkovWords`, `MarkovCompact`, `MarkovStorage`, `MarkovRefinement`,
  `MarkovReverse`, `MarkovTalk` (with `Totals`): the word chains. A dictionary is seen as
  a table from paths to counts; the compact and the storage nodes are proved against it.
  The centre is `ReverseIsExact`: the reverse dictionary derived from the forward trie
  alone is what learning every line reversed would have built. `MarkovReverse` and
  `MarkovTalk.TalkMessage` carry it from ids to words and on to what the bot says.
- `KeeperBuffers`, `Keeper`, `KeeperRuns`: the connection keeper. Every section under its
  lock is one step; the loops and the shutdown are interleaved freely. A write to a socket
  succeeds, or fails after a prefix, after which the socket takes nothing more. Reads are
  allowed even from a connection that shutdown has closed, so the runs include every real
  one. The system value also records what was read off each connection and what each core
  was given; nothing in the steps depends on those records.
- `TimerHeap`, `Sched`, `SchedRuns`: the timer heap, written out, and the scheduler on it.
  A callback is the list of what it does to the scheduler; since the claims hold for every
  list, they hold whatever callbacks decide as they run. A panic cuts the list short.
- `Saver`, `SaverRuns`: write-behind saving. A stored value is known by the time it was
  serialised. The shutdown flush is the end of a run.
- `Flood`, `FloodRuns`: the outbound queue. The clock is in nanoseconds, read anew for
  each event of a line; strings are bytes.
- `Bus`: re-entrant dispatch. A handler is the list of what it does to the bus and how it
  ends, and may itself register further handlers.
- `Session`, `SessionRuns`, `SessionLaws`: membership tracking, simulated against a server
  that knows who is where, and the reconnect ladder. A NAMES burst is one happening; what a server shows
  the bot is derived from who shares a channel with it. Case folding is that of ASCII.
- `ShortIds`, `Rss`, `RssRuns`: feeds. A guid is known by its rank; whether a title passes
  the feed's pattern is part of the fetched entry.
- `WheelGame`, `WheelAnswers`, `WheelRuns`, `WheelTurns`, `WheelWorlds`: the wheel game,
  whose turn it is, and its turn timers. Strings are ASCII.
- `Framing`, `Utf8`, `Messages`, `MessageForms`: cutting the byte stream into lines, and
  lines into parts. The regular expressions are written as recognisers with the same
  matches; `MessageForms` and `Utf8` say by how the pieces go together what they match.
- `Levenshtein`: the two-row edit distance.

## Where a promise does not hold

- Outbound isolation in the keeper: when a write to a core failed, its later bytes stay
  queued after it leaves, and another core's bytes join them. `KeeperRuns.OutboundMixes`
  gives such a run; `DetachForgets` says exactly when a leaving core's bytes stay, and
  `DeliveredOneCore` exactly when a connection is given the bytes of one core only.
- The rate limit between whole seconds: the wait is cut to whole seconds, so less than a
  second is no wait. `FloodRuns.BurstsBetweenSeconds` gives the runs, `AllowedExactly` the
  exact moment a line may leave, and `RateBound` holds on a whole-second clock.
- A colon inside a middle parameter: section 2.3.1 of RFC 1459 allows it, the splitter
  takes it as the start of the trailing text. `Messages.SplitShown` says exactly when
  printed parameters read back.
- The shutdown flush of the saver does not recover a failed write whose completion was
  never delivered. `SaverRuns.FinalExact` says exactly which keys that leaves out, and
  `LostAtShutdown` is a run that loses one.
- Deriving the reverse dictionary twice gives the original back exactly for tries whose
  nodes count at least one and at least their children together
  (`MarkovTrie.ReverseTwiceRestores`). A stored node may count nothing
  (`MarkovStorage.ZeroNodeMirrors`), and then it does not (`MarkovTrie.ZeroCountLost`).
- Sending an item twice: an item that leaves the feed long enough to be pruned is new when
  it comes back. `RssRuns.SentTwice` is such a run, `MarkedStays` says exactly when a mark
  goes, `SentAgainExactly` exactly when an item is sent again, and `AtMostOnce` holds for
  items that stay in the feed.
- A spin while a letter is owed: a joker would leave the amount pending with no letter
  owed (`WheelGame.SpinSound`, `JokerWhileOwing`). The module never spins then.
- Short ids run out: with every number in use the search for a free id has no end
  (`ShortIds.NeverEnds`), and that is a set of at most 32768 ids (`RunsOut`).

## Model

| member | source | states |
|---|---|---|
| `MarkovTrie.SlideWindows` | modules/markov/markov.go:469-488 | the sliding loop yields every run of order+1 consecutive tokens, or the whole line when it is not longer than the order |
| `MarkovTrie.WindowShape` | modules/markov/markov.go:466-488 | an n-token line yields max(1, n - order) windows, the i-th starting at token i |
| `MarkovTrie.LearnIsTrieOf` | modules/markov/markov.go:492-513 | learning windows one by one, in any starting trie learned from windows, gives the table of how many windows start with each path |
| `MarkovTrie.CountMeaning` | modules/markov/markov.go:466-513 | after any lines the count at a path is the number of learned windows that have it as a prefix, and only such paths exist |
| `MarkovTrie.ExcessIsMultiplicity` | modules/markov/markov.go:264-287 | a node's count minus its children's sum is how many windows ended exactly there |
| `MarkovTrie.HealthyIsLearned` | modules/markov/markov.go:264-269 | a trie comes from some list of windows exactly if no node counts zero or less than its children together |
| `MarkovTrie.UnlearnLearned` | modules/markov/markov.go:274-291 | the walk over a learned trie recovers the multiset of its windows |
| `MarkovTrie.WindowsReversed` | modules/markov/markov.go:264-269 | the windows of a reversed line are the reversed windows of the line, as multisets |
| `MarkovTrie.ReverseIsExact` | modules/markov/markov.go:264-291 | for any lines and order, deriving the reverse trie from the forward trie alone gives what learning every line reversed would give |
| `MarkovTrie.ReverseTwiceRestores` | modules/markov/markov.go:264-318 | deriving twice gives back the trie exactly if it is healthy |
| `MarkovTrie.ZeroCountLost` | modules/markov/markov.go:264-291 | a trie with a node that counts nothing is no such trie: deriving loses the node |
| `MarkovTrie.TriePermuted` | modules/markov/markov.go:466-513 | the trie does not depend on the order in which windows are learned |
| `MarkovWords.Interner.Id` | modules/markov/compact.go:37-45 | the id of a word, the table only growing at its end and staying a bijection |
| `MarkovWords.Interner.Lookup` | modules/markov/compact.go:49-52 | read-only lookup: found exactly if the word was interned |
| `MarkovWords.SpellInjective` | modules/markov/compact.go:16-54 | different id paths spell different word paths |
| `MarkovWords.SpelledBump` | modules/markov/compact.go:85-103 | counting up an id path and counting up the words it stands for are the same |
| `MarkovCompact.Search` | modules/markov/compact.go:69-84 | binary search in the sorted children finds the id, or the place where it belongs, exactly |
| `MarkovCompact.Dict.ChildAt` | modules/markov/compact.go:68-83 | a node has a child for an id exactly if the extended path exists, and it leads there |
| `MarkovCompact.Dict.EnsureChild` | modules/markov/compact.go:85-103 | inserts an empty child in id order if absent; every other path and count is untouched, children stay strictly sorted |
| `MarkovCompact.Dict.EnsureTop` | modules/markov/markov.go:526-531 | the same for a top-level word |
| `MarkovCompact.Dict.LearnWindow` | modules/markov/markov.go:525-537 | one window counted up along its path |
| `MarkovCompact.Dict.LearnTokens` | modules/markov/markov.go:523-542 | learning a line changes the spelled trie by exactly the windows of the line |
| `MarkovCompact.Dict.InsertReversed` | modules/markov/markov.go:304-318 | a path inserted backwards with a count is that count added to every suffix of the path, read backwards |
| `MarkovCompact.Dict.Walk` | modules/markov/markov.go:275-287 | the recursive walk inserts every window ending below a node, reversed, as often as it was learned |
| `MarkovCompact.Dict.DeriveReverse` | modules/markov/markov.go:270-291 | run in place over the nodes it computes the derived reverse trie, once, and only into an empty dictionary from a non-empty one |
| `MarkovReverse.SpelledUnlearn` | modules/markov/markov.go:274-291 | the windows recovered from the trie read in words are those recovered from the trie over ids, spelled out |
| `MarkovReverse.SpelledReverse` | modules/markov/markov.go:270-291 | deriving over ids and then spelling is spelling and then deriving, for any trie, healthy or not |
| `MarkovReverse.LearnsLine` | modules/markov/markov.go:523-542 | learning one more line into the trie of some lines gives the trie of all of them |
| `MarkovReverse.Bootstrap` | modules/markov/markov.go:253-301 | from a dictionary that holds some lines, deriving fills an empty reverse dictionary with what learning every one of them backwards would have left, and keeps one that already holds that |
| `MarkovReverse.Hear` | modules/markov/markov.go:419-420 | a line heard goes into both dictionaries, forwards and backwards, and they go on holding the same lines |
| `MarkovStorage.BumpNodeMirrors` | modules/markov/markov.go:492-513 | counting along a window in the nested storage nodes is counting along it in the flat table |
| `MarkovStorage.AddWordsMirrors` | modules/markov/markov.go:492-513 | the same for whole storage chains |
| `MarkovStorage.LearnLineMirrors` | modules/markov/markov.go:459-464 | learning a line into storage chains is learning its windows |
| `MarkovStorage.MirrorsUnique` | modules/markov/markov.go:459-513 | storage chains are determined by the counts of their paths |
| `MarkovStorage.ToCompact` | modules/markov/compact.go:118-137 | builds a compact subtree that images the storage subtree: same counts, children strictly sorted by id |
| `MarkovStorage.FromCompact` | modules/markov/compact.go:141-151 | reads back exactly the storage subtree that a compact subtree images |
| `MarkovStorage.RoundTrip` | modules/markov/compact.go:117-151 | fromCompact(toCompact(n)) is n |
| `MarkovStorage.ZeroNodeMirrors` | modules/markov/markov.go:244-248 | a stored node may count nothing |
| `MarkovRefinement.ImagesMirrors` | modules/markov/compact.go:117-151 | a compact node images a storage subtree exactly if the flat table mirrors it |
| `MarkovRefinement.StoredMirrors` | modules/markov/compact.go:117-151 | the same for whole dictionaries |
| `MarkovRefinement.ToStorage` | modules/markov/compact.go:139-151 | every dictionary converts to storage chains |
| `MarkovRefinement.LearnRefines` | modules/markov/markov.go:453-542 | converting back after learning a line into the compact dictionary gives what learning the line into the converted chains gives |
| `MarkovTalk.PathIsRun` | modules/markov/markov.go:466-513 | every path of a learned trie is a run of consecutive tokens of some learned line |
| `MarkovTalk.ForwardIsLearned` | modules/markov/markov.go:734-788 | a word picked forward stands right after the last words of the context in some learned line |
| `MarkovTalk.BackwardIsLearned` | modules/markov/markov.go:264-318 | a word picked from the derived reverse dictionary stands right before the first words of the context in some learned line |
| `MarkovTalk.WalkChain` | modules/markov/markov.go:736-756 | following a run of words down the nodes succeeds exactly if the run is a path |
| `MarkovTalk.FindMaxOrderChain` | modules/markov/markov.go:734-765 | the longest run of last words that is a chain, unless the variety roll skipped the longer ones |
| `MarkovTalk.SortedKids` | modules/markov/compact.go:109-115 | the children sorted alphabetically, nothing lost |
| `MarkovTalk.BeforeIs` | modules/markov/compact.go:109-115 | a word comes before another if it is the start of it or less at the first difference |
| `MarkovTalk.WeightedPick` | modules/markov/markov.go:770-788 | a draw returns a word exactly if there are children; it is the first whose running total reaches the scaled roll, and a real child |
| `MarkovTalk.DrawnIs` | modules/markov/markov.go:770-788 | the roll is scaled to the counts of all the children and rounded down, and the child drawn is the one whose count takes those before it that far |
| `MarkovTalk.PickNext` | modules/markov/markov.go:675-684 | goes on along the longest chain the roll did not skip, and stops exactly if every chain was skipped or that one has no children; it never jumps |
| `MarkovTalk.StuckExactly` | modules/markov/markov.go:675-684 | a step is stuck exactly if no word can be picked |
| `MarkovTalk.RandomWord` | modules/markov/markov.go:703-729 | jumps at a dead end: no last word, one that starts no chain, or a step that is stuck; otherwise the word goes on from the chosen chain, unless the empty word was drawn |
| `MarkovTalk.RandomMessageFrom` | modules/markov/markov.go:619-646 | each word is picked from the chosen chain, or jumped to at a dead end, or a filler in their place; the walk stops at a learned end, at the first word that ends a sentence, or after 42 words |
| `MarkovTalk.EolIs` | modules/markov/markov.go:580-585 | a word ends a sentence exactly if it is empty, ends in a sign, or has a smiley in it |
| `MarkovTalk.MiddleOut` | modules/markov/markov.go:651-670 | at most 15 words in front of the seed, each picked from the reverse dictionary; the walk back stops after 15, at a sentence start, at a word it does not take, or where it is stuck, and nowhere else; then a forward walk |
| `MarkovTalk.BackwardPart` | modules/markov/markov.go:648-670 | in a middle-out message every word put in front was found just before the words that follow it in a learned line |
| `MarkovTalk.ForwardPart` | modules/markov/markov.go:619-646 | every word after the seed was found just after the words before it in a learned line, or was jumped to at a dead end, or is a filler |
| `MarkovTalk.EndPart` | modules/markov/markov.go:622-627 | a message that stops without a sign or a filler stops where a learned line stopped |
| `MarkovTalk.NoEmptyWord` | modules/markov/markov.go:703-720 | with no empty words in the lines a jump comes exactly at a dead end |
| `MarkovTalk.TalkMessage` | modules/markov/markov.go:590-605 | one word that the reverse dictionary knows is extended both ways, anything else forward; with both dictionaries holding the same lines every word in front precedes its successors in one of them, and every later one follows its predecessors, is a jump from a dead end, or a filler |
| `KeeperBuffers.LastIndexByte` | internal/keeper/keeper.go:383 | the last position of a byte, or -1 |
| `KeeperBuffers.HeldIsLongest` | internal/keeper/keeper.go:372-393 | an outbound stream of up to 16 KiB is held whole, a longer one as its longest prefix of whole lines within that |
| `KeeperBuffers.InboundAnyChunking` | internal/keeper/keeper.go:261-274 | however the stream is cut into reads no longer than the cap, the inbound buffer is its newest 4 MiB |
| `KeeperBuffers.OutboundAnyChunking` | internal/keeper/keeper.go:372-393 | however the stream is cut into writes, the outbound buffer is all of it if it fits, else its longest whole-line prefix |
| `Keeper.Keeper.BufferLocked` | internal/keeper/keeper.go:261-274 | keeps the newest bytes |
| `Keeper.Keeper.DeliverToCore` | internal/keeper/keeper.go:248-259 | bytes go to the core, or to the buffer, and all of them to the buffer when the write fails |
| `Keeper.Keeper.PumpOnce` | internal/keeper/keeper.go:198-232 | one turn of the read loop: forward, probe after the first silence, give up after the second, on a broken read, or when the probe is not taken |
| `Keeper.Keeper.BufferOutLocked` | internal/keeper/keeper.go:372-393 | appends, or cuts back to whole lines and drops from then on |
| `Keeper.Keeper.RouteToIRC` | internal/keeper/keeper.go:358-370 | bytes are held exactly while there is no connection |
| `Keeper.Keeper.InstallIRC` | internal/keeper/keeper.go:276-295 | a dialled connection is installed and flushed to, or closed when shutting down |
| `Keeper.Keeper.ClearIRC` | internal/keeper/keeper.go:276-295 | the dead connection and the held bytes go |
| `Keeper.Keeper.AttachCore` | internal/keeper/keeper.go:312-324 | the newest core is attached and given the whole buffer |
| `Keeper.Keeper.DetachCore` | internal/keeper/keeper.go:326-338 | held bytes go only if the core is still the attached one |
| `Keeper.Keeper.DropSession` | internal/keeper/keeper.go:237-245 | the inbound buffer is emptied and the attached core named for closing |
| `Keeper.Keeper.MarkClosed` | internal/keeper/keeper.go:144-155 | marks the keeper closed and names what to close |
| `Keeper.Watchdog` | internal/keeper/keeper.go:191-232 | over any turns a connection is given up exactly if some turn was a broken read, a silence whose probe its socket did not take, or the second silence in a row |
| `Keeper.ProbeSent` | internal/keeper/keeper.go:221-229 | the first silence, and only that, writes the probe line to the socket |
| `KeeperRuns.PumpKeeps` | internal/keeper/keeper.go:198-274 | a pump turn keeps the invariant of the system |
| `KeeperRuns.DialKeeps` | internal/keeper/keeper.go:159-173 | a dial that comes back keeps it |
| `KeeperRuns.AcceptKeeps` | internal/keeper/keeper.go:299-324 | an accepted core keeps it |
| `KeeperRuns.CoreGoneKeeps` | internal/keeper/keeper.go:326-338 | a core that leaves keeps it |
| `KeeperRuns.RunKeeps` | internal/keeper/keeper.go:159-393 | every interleaving keeps it |
| `KeeperRuns.SessionIsolation` | internal/keeper/keeper.go:159-189 | in every run each core has been written one contiguous stretch of what was read off one IRC connection; only the cap may have cut its front |
| `KeeperRuns.NoGap` | internal/keeper/keeper.go:247-324 | a core starts at the first byte of the session or no later than where an earlier core stopped, unless that one failed to take the buffer |
| `KeeperRuns.InboundHeld` | internal/keeper/keeper.go:247-274 | with no core in a session the buffer is the newest bytes since the last core stopped; otherwise it is empty |
| `KeeperRuns.OneCore` | internal/keeper/keeper.go:299-318 | no core is attached when the next is accepted |
| `KeeperRuns.OutboundHeld` | internal/keeper/keeper.go:276-295 | the outbound buffer is what the queued chunks leave, and a successful dial delivers just that |
| `KeeperRuns.Relays` | internal/keeper/keeper.go:342-370 | while an IRC connection is up whatever the core sends reaches it whole and in order, and reaches nothing else |
| `KeeperRuns.PumpGoesOn` | internal/keeper/keeper.go:198-232 | in every run a pump turn goes on, with a probe out or not, exactly unless the read broke, the probe was not taken, or the silence was the second |
| `KeeperRuns.Redials` | internal/keeper/keeper.go:176-189 | a lost connection and the core attached then are closed, nothing of the session is kept, and the next thing is a dial |
| `KeeperRuns.ShutsDown` | internal/keeper/keeper.go:139-173 | shutting down marks the keeper closed and closes both connections, and the dial loop stops where it next looks |
| `KeeperRuns.CoreLeaves` | internal/keeper/keeper.go:299-338 | a core that leaves is closed, and the next can come |
| `KeeperRuns.OutboundOwners` | internal/keeper/keeper.go:326-370 | queued bytes come from the core being served or from one that a write had failed to |
| `KeeperRuns.ServedFailed` | internal/keeper/keeper.go:248-338 | in every run a served core is no longer the attached one exactly if a write to it failed |
| `KeeperRuns.DetachForgets` | internal/keeper/keeper.go:326-338 | in every run the bytes held when a core leaves stay exactly if a write to it had failed |
| `KeeperRuns.DeliveredOneCore` | internal/keeper/keeper.go:276-370 | in every run a dialled connection is given the bytes of one core exactly if no core that a write had failed to left bytes in the queue, or nothing beyond those is held |
| `KeeperRuns.OutboundMixes` | internal/keeper/keeper.go:247-338 | a run in which one IRC connection is given the bytes of two cores |
| `KeeperRuns.ShutdownClosesAll` | internal/keeper/keeper.go:139-155 | after shutdown no IRC connection takes writes, however late its dial came back |
| `TimerHeap.FirstIsLeast` | internal/sched/sched.go:22-31 | the first entry of an ordered heap is the earliest |
| `TimerHeap.Heap.Up` | internal/sched/sched.go:32 | sifting up restores the order and loses nothing |
| `TimerHeap.Heap.Down` | internal/sched/sched.go:33-40 | sifting down restores the order below n, loses nothing and leaves the rest alone |
| `TimerHeap.Heap.Push` | internal/sched/sched.go:32 | adds an entry |
| `TimerHeap.Heap.Pop` | internal/sched/sched.go:33-40 | removes the first entry |
| `Sched.Sched.Schedule` | internal/sched/sched.go:61-67 | a live timer with the next tag |
| `Sched.Sched.Unschedule` | internal/sched/sched.go:71-79 | true exactly for a live timer, which is then live no more; the heap entry stays |
| `Sched.Sched.NextIn` | internal/sched/sched.go:84-90 | none exactly if nothing is live, else the time until the earliest live timer, at least 0 |
| `Sched.Sched.DropCancelled` | internal/sched/sched.go:126-130 | the first entry is a live timer or there is none |
| `Sched.Sched.Collect` | internal/sched/sched.go:96-105 | takes off exactly the live timers due now, in (time, tag) order |
| `Sched.Sched.RunCallback` | internal/sched/sched.go:112-119 | one callback runs and is recorded |
| `Sched.Sched.RunDue` | internal/sched/sched.go:95-110 | fires the due timers in order with everything due taken off first |
| `Sched.DueUnique` | internal/sched/sched.go:92-110 | the order of firing is determined by what is live |
| `SchedRuns.PassFires` | internal/sched/sched.go:92-110 | a pass fires exactly what was due at the call, whatever callbacks schedule or cancel; what is still due then was scheduled during it |
| `SchedRuns.AddAndRemove` | internal/sched/sched.go:61-79 | a timer added is live under a new tag with its callback, one removed is live no more, and removing another does nothing |
| `SchedRuns.FireIs` | internal/sched/sched.go:112-119 | a callback does what its script says, step by step, as if each step had come by itself |
| `SchedRuns.PassIs` | internal/sched/sched.go:95-110 | a pass takes everything due off at once and fires it in order |
| `SchedRuns.EndsOnce` | internal/sched/sched.go:61-119 | over any run each timer fires once or is cancelled once, never both; until then it is live |
| `SchedRuns.TooLateToCancel` | internal/sched/sched.go:69-110 | a timer already taken off fires even if a callback cancels it, and the cancel finds nothing |
| `Saver.Saver.Mark` | internal/storage/saver.go:47-49 | the key reads its value at the next flush |
| `Saver.Saver.Serialize` | internal/storage/saver.go:102-119 | every dirty entry that marshals, and no longer dirty |
| `Saver.SerialIs` | internal/storage/saver.go:67-119 | bytes serialised before go out again whatever the value says now; anything else exactly if it marshals |
| `Saver.Saver.Flush` | internal/storage/saver.go:57-81 | starts a write exactly if none is out and something is dirty |
| `Saver.Saver.Complete` | internal/storage/saver.go:67-79 | what failed is dirty again unless marked meanwhile |
| `Saver.Saver.Write` | internal/storage/saver.go:124-133 | each namespace lands whole or is reported failed |
| `Saver.Saver.FlushSync` | internal/storage/saver.go:86-97 | writes what is dirty now and reports an error exactly if a namespace of it failed |
| `SaverRuns.RunGood` | internal/storage/saver.go:47-133 | every run keeps the account of each key |
| `SaverRuns.NothingLost` | internal/storage/saver.go:47-81 | in every run a marked key that marshals is dirty, being written or about to be requeued, or stored as of after its last mark |
| `SaverRuns.RefusedIs` | internal/storage/saver.go:99-119 | a key counts as refused exactly from a flush that found its value dirty and unable to marshal until it is marked again |
| `SaverRuns.FlushIs` | internal/storage/saver.go:57-81 | a flush with nothing under way takes every dirty entry that marshals into the write and leaves nothing dirty |
| `SaverRuns.WriteIs` | internal/storage/saver.go:121-133 | a namespace lands whole, or fails and is remembered; nothing else of the store changes |
| `SaverRuns.RetriedAsWritten` | internal/storage/saver.go:67-79 | a failed write is dirty again with the bytes it had, unless marked meanwhile, and goes out as they are with the next flush |
| `SaverRuns.NeverReverts` | internal/storage/saver.go:57-133 | a stored value is never replaced by an earlier serialisation |
| `SaverRuns.FinalExact` | internal/storage/saver.go:83-97 | an error-free shutdown saves a marked key that marshals exactly if no failed write of it was still waiting for its completion without a new mark |
| `SaverRuns.LostAtShutdown` | internal/storage/saver.go:57-97 | a run, of one failed write whose completion never comes, that loses a marked key without an error |
| `SaverRuns.FinalPartly` | internal/storage/saver.go:83-97 | with errors a dirty key is saved exactly if its namespace was written |
| `Flood.BucketOf` | internal/irc/flood/flood.go:28-51 | the target of a PRIVMSG up to the first blank and colon, or the shared bucket |
| `Flood.BucketUnique` | internal/irc/flood/flood.go:28-51 | every line has one bucket |
| `Flood.BucketIs` | internal/irc/flood/flood.go:28-51 | a message goes to the bucket of its target, the shortest there can be, and any other line to the shared bucket |
| `Flood.Queue.Push` | internal/irc/flood/flood.go:47-56 | the line goes to the end of its bucket, and a new bucket to the end of the rotation |
| `Flood.Queue.TakeSlot` | internal/irc/flood/flood.go:111-125 | the wait in whole seconds, at most 3; going ahead drops the oldest event |
| `Flood.Queue.PopRoundRobin` | internal/irc/flood/flood.go:94-106 | the first line of the first bucket; the bucket moves to the back or leaves |
| `Flood.Queue.Record` | internal/irc/flood/flood.go:81-87 | one event, and one more for every 80 bytes of a long line, rounded |
| `Flood.Queue.Next` | internal/irc/flood/flood.go:68-89 | a line, a positive wait, or nothing, each in exactly its case |
| `Flood.PopRotates` | internal/irc/flood/flood.go:91-106 | the rotation names each bucket with lines once |
| `FloodRuns.FirstInFirstOut` | internal/irc/flood/flood.go:47-106 | in every run, for each bucket and the high queue, what was sent followed by what is queued is what was pushed, in that order |
| `FloodRuns.PutsAre` | internal/irc/flood/flood.go:47-61 | what was pushed is what the pushes of the run say |
| `FloodRuns.Fairness` | internal/irc/flood/flood.go:91-106 | while a bucket has lines no other is served twice, and it is served after exactly as many others as stood before it |
| `FloodRuns.AllowedExactly` | internal/irc/flood/flood.go:111-125 | a line may leave exactly when all but one of the window's seconds have more than passed; on whole seconds, when all have |
| `FloodRuns.WaitIs` | internal/irc/flood/flood.go:108-125 | a wait asked for is what is missing, cut to whole seconds, and never more than three |
| `FloodRuns.RateBound` | internal/irc/flood/flood.go:68-125 | on a whole-second clock line i after the first leaves at least i seconds after it, for any mix of lines |
| `FloodRuns.LineCosts` | internal/irc/flood/flood.go:81-87 | a line that leaves drops the oldest event and adds 1 + n at the next clock readings, n being 0 up to 80 bytes and its length in units of 80, rounded, above |
| `FloodRuns.LongWait` | internal/irc/flood/flood.go:68-125 | on a whole-second clock the line after one that leaves an empty window leaves at least 1 + n seconds later |
| `FloodRuns.BurstsBetweenSeconds` | internal/irc/flood/flood.go:116 | between whole seconds the bound fails: any number of short lines leave at any rising times, a nanosecond apart if so asked |
| `Bus.Bus.RegisterHook` | internal/bus/bus.go:129-142 | replaces the module's hook in place or adds one; refused exactly for an undeclared event |
| `Bus.RegisteredIs` | internal/bus/bus.go:129-142 | a registered hook is in the table, the only one of its module for the event, and every other hook stays |
| `Bus.DeclaredIs` | internal/bus/bus.go:119-125 | a declared event is in the table, without hooks if it is new |
| `Bus.Bus.UnregisterModule` | internal/bus/bus.go:145-151 | the module's hooks go from every event, the others keep their order |
| `Bus.WithoutIs` | internal/bus/bus.go:145-151 | what stays is exactly the hooks of other modules |
| `Bus.Bus.SubmitEvent` | internal/bus/bus.go:170-190 | calls exactly the hooks of the table at the call that are not on the chain, up to one that stops, whatever handlers do meanwhile, even a hook that an earlier handler has taken out of the table; collects their payloads; restores the chain; ends |
| `Bus.Bus.CallHook` | internal/bus/bus.go:193-211 | one call on the chain, and whether its hook was still in the table; after a panic the module has no hooks; the chain is restored |
| `Bus.Bus.Perform` | internal/bus/bus.go:193-211 | the nested effects of a handler keep the chain and the table sound, and a module it unregisters last has no hooks then |
| `Bus.CalledExactly` | internal/bus/bus.go:170-190 | a hook is called exactly if its pair is off the chain and no called hook before it stops |
| `Bus.PayloadsExactly` | internal/bus/bus.go:179-190 | a dispatch collects one value for each called hook that returns one, in call order, and nothing for the others |
| `Bus.PayloadsAll` | internal/bus/bus.go:179-190 | if every called hook returns a value those are what is collected |
| `Bus.DepthBound` | internal/bus/bus.go:174-177 | calls one inside the other are of different pairs, none of them on the chain, so they nest no deeper than there are pairs off it |
| `Bus.TimesAre` | internal/bus/bus.go:193-211 | a pair is counted once for every call of it, at any depth |
| `Bus.TablePairs` | internal/bus/bus.go:129-142 | every table keeps to a finite set of pairs, whatever its handlers register |
| `Bus.UnloadedStillCalled` | internal/bus/bus.go:172-173 | which hooks are called, and what they yield, is the same whatever their handlers do to the table |
| `Session.FieldsSpaced` | internal/irc/session.go:437 | names printed with blanks read back |
| `Session.FieldsGapped` | internal/irc/session.go:437 | words with any blanks around them read back |
| `Session.NoName` | internal/irc/session.go:436-442 | a name that is nothing but status marks is passed over |
| `Session.SameFolded` | internal/irc/session.go:413-417 | two nicks fold alike exactly if they differ in nothing but the case of ASCII letters |
| `Session.Session.JoinChannels` | internal/irc/session.go:90-102 | asks for each channel and its names, and marks it as joined |
| `Session.Session.AddNames` | internal/irc/session.go:424-443 | adds the bare names of a NAMES line to the pending ones |
| `Session.Session.OnJoin` | internal/irc/session.go:263-279 | a member more, or a fresh channel for the bot itself |
| `Session.Session.OnPart` | internal/irc/session.go:284-297 | a member less, or no channel for the bot itself |
| `Session.Session.OnKick` | internal/irc/session.go:303-321 | the victim goes; the bot's own kick changes nothing |
| `Session.Session.QuitAll` | internal/irc/session.go:355-358 | the member goes from every channel |
| `Session.Session.OnNick` | internal/irc/session.go:365-381 | the member is renamed wherever tracked, and the bot with it |
| `Session.Session.OnEndOfNames` | internal/irc/session.go:447-456 | the pending names become the members |
| `Session.Session.HandleLine` | internal/irc/session.go:105-192 | each command goes to its handler; a line without a prefix has the last sender |
| `Session.Backoff.Next` | internal/irc/session.go:523-536 | the next rung of the ladder, from the bottom after more than five quiet minutes |
| `Session.Climbs` | internal/irc/session.go:508-536 | with no quiet period the delays are 3, 60, 180, 300, 300 and so on, a period being quiet when more than five minutes follow the delay |
| `Session.StartsOver` | internal/irc/session.go:518-526 | the ladder starts over exactly after a quiet period |
| `SessionRuns.BurstAdds` | internal/irc/session.go:424-443 | the lines of a NAMES burst add just their names |
| `SessionRuns.ListsAll` | internal/irc/session.go:447-456 | a burst that names the members gives the members |
| `SessionRuns.NamesFollows` | internal/irc/session.go:420-456 | after a whole burst the tracked members are the server's |
| `SessionRuns.JoinFollows` | internal/irc/session.go:263-279 | a join keeps them so |
| `SessionRuns.PartFollows` | internal/irc/session.go:284-297 | a part keeps them so |
| `SessionRuns.KickFollows` | internal/irc/session.go:303-321 | a kick keeps them so |
| `SessionRuns.QuitFollows` | internal/irc/session.go:355-358 | a quit keeps them so |
| `SessionRuns.NickFollows` | internal/irc/session.go:365-381 | a change of nick keeps them so |
| `SessionRuns.MembersAreTheServers` | internal/irc/session.go:263-456 | in every run the members of each settled channel are those of the server's room, the bot among them |
| `SessionRuns.StaysSettled` | internal/irc/session.go:263-321 | one step settles a channel exactly by a whole burst while the bot is in it and tracks it, and unsettles it exactly by an own join, part or kick |
| `SessionRuns.SettledExactly` | internal/irc/session.go:263-456 | over any run a channel is settled in the end exactly if some whole burst was followed by no own join, part or kick |
| `SessionRuns.MembersAfterBurst` | internal/irc/session.go:263-456 | in every run, from such a burst on the tracked members stay the server's whatever else happens |
| `SessionLaws.BareIs` | internal/irc/session.go:438 | status marks in front of a nick go, and nothing else does |
| `SessionLaws.MarkedIs` | internal/irc/session.go:90-102 | every channel asked for is tracked, with no members if it was not before |
| `SessionLaws.RequestsAre` | internal/irc/session.go:90-102 | each channel asked for costs a JOIN and a NAMES |
| `SessionLaws.Registering` | internal/irc/session.go:105-192 | a nick in use gets an underscore and is asked for again; a welcome or an already-registered answer counts as welcomed |
| `SessionLaws.OwnLines` | internal/irc/session.go:263-321 | the bot's own join starts the channel afresh, its part forgets it, its kick changes nothing |
| `SessionLaws.OthersLines` | internal/irc/session.go:263-358 | another's join, part, kick and quit add and take one member |
| `SessionLaws.NickLines` | internal/irc/session.go:365-381 | a change of nick moves the member wherever tracked, and the bot with it |
| `SessionLaws.TopicLines` | internal/irc/session.go:383-411 | a topic, set or told, is the channel's from then on |
| `SessionLaws.Unprefixed` | internal/irc/session.go:105-120 | a line without a prefix is from whoever sent the last one |
| `SessionLaws.OtherLines` | internal/irc/session.go:105-192 | any other line, or one cut short, leaves everything but the sender alone |
| `SessionLaws.TwoOthers` | internal/irc/session.go:263-456 | a run in which two others join, a burst names all three and one leaves: the session has the server's members |
| `ShortIds.EncodeId` | modules/rss/ids.go:46-60 | digits from the last up, turned round, are the base-32 id |
| `ShortIds.TurnRound` | modules/rss/ids.go:55-58 | swapping the ends inwards turns the text round |
| `ShortIds.EncodeInjective` | modules/rss/ids.go:46-60 | different numbers have different ids |
| `ShortIds.EncodeIs` | modules/rss/ids.go:46-60 | the id of a number is the one text that stands for it in base 32, by the alphabet |
| `ShortIds.AfterIs` | modules/rss/ids.go:33-37 | the counter goes up one by one and starts over at 1, short of 32768 |
| `ShortIds.EncodeShort` | modules/rss/ids.go:46-60 | ids below 32768 have at most three characters |
| `ShortIds.EncodeUpper` | modules/rss/ids.go:9-14 | no id is a command word |
| `ShortIds.IdAlloc.Next` | modules/rss/ids.go:31-44 | the first id from the counter on that is not in use, the counter going round; it ends exactly if there is one |
| `ShortIds.SomeFree` | modules/rss/ids.go:31-44 | fewer live ids than numbers leave one free |
| `ShortIds.NeverEnds` | modules/rss/ids.go:31-44 | if none can be found every number ever tried is in use |
| `ShortIds.RunsOut` | modules/rss/ids.go:31-44 | that can happen: a set of used ids, of at most 32768, that leaves none |
| `Rss.Rss.MergeItems` | modules/rss/rss.go:425-447 | what passes is in history, known items are marked as seen again, the rest is untouched; new items get the time of their first entry and unused ids, and all live ids stay distinct |
| `Rss.Rss.MergeEntry` | modules/rss/rss.go:431-445 | one entry: passed over, marked as seen again, or added under the next free id |
| `Rss.Rss.FeedGuids` | modules/rss/rss.go:485-497 | all guids, newest first |
| `Rss.Rss.Broadcast` | modules/rss/rss.go:451-481 | every subscription is served |
| `Rss.Rss.RemoveOldItems` | modules/rss/rss.go:501-516 | above 10 items those not seen for a day go, and their marks |
| `Rss.Rss.FetchDone` | modules/rss/rss.go:381-421 | a failure, garbage or a page does to its feed what it should and nothing to others |
| `Rss.Rss.PageDone` | modules/rss/rss.go:399-421 | a parsed page merges, and only if it brought something new is delivered and the feed pruned |
| `Rss.Rss.AddFeed` | modules/rss/rss.go:281-301 | a subscription starts unmarked, once per target |
| `Rss.Rss.DelFeed` | modules/rss/rss.go:308-337 | the last subscription to go takes the feed along |
| `Rss.Rss.FindItem` | modules/rss/rss.go:560-574 | finds an id exactly if it is live, and the one item that has it |
| `Rss.ServedMarks` | modules/rss/rss.go:455-474 | after a delivery a subscription is marked with exactly the items in history |
| `RssRuns.DueIs` | modules/rss/rss.go:456-478 | a delivery is of unseen items only, the newest there are, oldest first: all of them up to 25, or up to 5 to an unmarked subscription |
| `RssRuns.PageExactly` | modules/rss/rss.go:399-516 | what a page does to a subscription, from the page and the feed before it: which items stay, what is sent, and what is marked |
| `RssRuns.SentExactly` | modules/rss/rss.go:381-516 | one step sends an item, once, exactly if it is a page with news, the item is there and unmarked, and the cap leaves room for it |
| `RssRuns.MarkedStays` | modules/rss/rss.go:455-516 | a marked item is not sent, and stays marked exactly unless a page with news finds more than ten items and this one not seen for a day |
| `RssRuns.SentAgainExactly` | modules/rss/rss.go:381-516 | over any run a marked item is sent again exactly if some page drops it and a later page sends it |
| `RssRuns.SentTwice` | modules/rss/rss.go:381-516 | a run in which an item is sent twice to one subscription |
| `RssRuns.AtMostOnce` | modules/rss/rss.go:381-516 | an item in every parsed page since it first showed up is sent at most once to each subscription, over any run |
| `RssRuns.Retries` | modules/rss/rss.go:388-396 | of repeated failures every fourth waits an hour, the others a minute |
| `RssRuns.GarbageStops` | modules/rss/rss.go:399-410 | pages in a row that do not parse are counted and fetched again a refresh later, until with the hundred and first there is no next fetch |
| `RssRuns.PageResets` | modules/rss/rss.go:399-421 | a page that parses starts both counts over, and the next fetch is a refresh away |
| `RssRuns.ComeAndGo` | modules/rss/rss.go:281-337 | the first subscription starts the feed, another for the same target changes nothing, the last to go takes the feed along |
| `WheelGame.Game.Spin` | modules/rvf/game.go:153-170 | money leaves a letter owed, the other wedges resolve at once |
| `WheelGame.Game.CallLetter` | modules/rvf/game.go:178-197 | a hit pays the pending amount per occurrence, a miss or a repeat costs the turn or the joker |
| `WheelGame.Game.BuyVowel` | modules/rvf/game.go:201-216 | a vowel costs money, and the turn too when absent |
| `WheelGame.Game.Solve` | modules/rvf/game.go:240-247 | right ends the game, wrong passes the turn |
| `WheelGame.Game.DropCurrent` | modules/rvf/game.go:254-265 | the current player leaves and the next is up |
| `WheelGame.Game.LoseTheTurn` | modules/rvf/game.go:140-149 | a joker is spent instead of the turn |
| `WheelGame.Game.Occurrences` | modules/rvf/game.go:173-175 | how often a letter occurs |
| `WheelGame.Game.Board` | modules/rvf/game.go:291-301 | exactly the letters nobody called are covered |
| `WheelGame.Game.WrongGuesses` | modules/rvf/game.go:278-287 | exactly the called letters that are not there, sorted |
| `WheelGame.Normalize` | modules/rvf/game.go:220-236 | the builder with its flag computes the upper-case words joined by single blanks |
| `WheelGame.Uncovers` | modules/rvf/game.go:291-301 | a new letter uncovers as many positions as it is counted |
| `WheelAnswers.CountIs` | modules/rvf/game.go:173-175 | a letter is counted once for each place it stands at |
| `WheelAnswers.CoveredIs` | modules/rvf/game.go:289-301 | the places covered are those of letters nobody called |
| `WheelAnswers.RevealedIs` | modules/rvf/game.go:178-197 | the consonants revealed are those of called letters, place by place |
| `WheelAnswers.UpperIs` | modules/rvf/game.go:101-111 | small ASCII letters become capitals and nothing else changes |
| `WheelAnswers.AnyLetter` | modules/rvf/game.go:178-183 | a letter may come in either case with blanks around it |
| `WheelAnswers.SolutionIs` | modules/rvf/game.go:218-247 | an attempt is right exactly if its words are those of the puzzle, up to case and to what stands between them |
| `WheelAnswers.EveryText` | modules/rvf/game.go:218-236 | every text is words of letters with other things around them |
| `WheelGame.SpinSound` | modules/rvf/game.go:153-170 | a spin keeps the game sound except exactly a joker spun while a letter is owed |
| `WheelGame.JokerWhileOwing` | modules/rvf/game.go:153-170 | such a spin |
| `WheelGame.CallSound` | modules/rvf/game.go:178-197 | a letter keeps it sound: the money won is covered by the consonants revealed |
| `WheelGame.BuySound` | modules/rvf/game.go:201-216 | a vowel keeps it sound |
| `WheelGame.DropSound` | modules/rvf/game.go:254-265 | a dropped player keeps it sound |
| `WheelRuns.Rvf.HandleMove` | modules/rvf/rvf.go:523-636 | only a letter counts while one is owed and no letter does otherwise; a move out of place is answered and changes nothing, chatter is passed on; a move rearms the clock, a solution ends the game |
| `WheelRuns.Rvf.ArmTimer` | modules/rvf/rvf.go:428-438 | a new generation, so older timers do nothing |
| `WheelRuns.Rvf.TurnTimeout` | modules/rvf/rvf.go:445-475 | a turn slept through is passed, or its player dropped, or the game ended |
| `WheelRuns.Rvf.Fire` | modules/rvf/rvf.go:432-437 | a timer of an older generation does nothing |
| `WheelRuns.EveryGameSound` | modules/rvf/rvf.go:428-649 | in every run each game has its turn in range, an amount pending exactly when a letter is owed, nobody in debt, at most 1000 a revealed consonant paid out, and a timer that counts |
| `WheelRuns.StepOrderly` | modules/rvf/rvf.go:397-438 | exactly the running games have a timer that counts |
| `WheelRuns.SleepEnds` | modules/rvf/rvf.go:440-475 | with nobody awake the game ends after exactly as many timeouts as its players have left, at most players times the limit |
| `WheelTurns.PassPasses` | modules/rvf/game.go:249-250 | a pass puts the next player round the table up |
| `WheelTurns.SolutionTurns` | modules/rvf/game.go:238-247 | a wrong solution passes the turn even with a joker, a right one ends the game |
| `WheelTurns.SpinTurns` | modules/rvf/game.go:138-170 | each wedge by its number: what it pays, takes or gives, and who is up then |
| `WheelTurns.LetterTurns` | modules/rvf/game.go:176-197 | a letter that was called or is not there costs the turn or the joker, one that is there pays for each place, a vowel costs nothing |
| `WheelTurns.NoLetter` | modules/rvf/game.go:176-182 | anything but one letter is no call |
| `WheelTurns.VowelTurns` | modules/rvf/game.go:199-216 | a vowel that is not there costs its price and the turn |
| `WheelTurns.LetterTold` | modules/rvf/game.go:176-197 | a letter is answered by its count and pay, or by whether it was called before and a joker saved the turn |
| `WheelTurns.VowelTold` | modules/rvf/game.go:199-216 | a vowel is answered the same way, or refused for want of money |
| `WheelTurns.SleepTurns` | modules/rvf/rvf.go:440-475 | a turn slept through below the limit passes on; at the limit the player is out and the one after them is up |
| `WheelTurns.GoesRound` | modules/rvf/game.go:131-136 | after k passes and turns slept through, in any mix, the turn is (turn + k) mod n |
| `WheelWorlds.StartAndStop` | modules/rvf/rvf.go:294-376 | a game starts only where none runs, with everyone at the table and a timer set, and can be stopped any time |
| `WheelWorlds.SayIs` | modules/rvf/rvf.go:523-649 | what the player says is a move in their game and rearms its clock, or ends it, or changes nothing |
| `WheelWorlds.OutOfPlace` | modules/rvf/rvf.go:529-535 | a move out of place is answered and changes nothing; chatter is not answered |
| `WheelWorlds.FireIs` | modules/rvf/rvf.go:428-475 | a timer set anew since fires for nothing; the one that counts is the turn slept through |
| `WheelWorlds.SleepsOver` | modules/rvf/rvf.go:440-475 | with nobody awake the timers of a game fire one after another until its players have used up what they have left, and then it is over |
| `Framing.LineBuffer.Feed` | internal/irc/parse.go:88-106 | gives every line complete so far and keeps the rest |
| `Framing.AnySplit` | internal/irc/parse.go:79-106 | any split of a stream into reads gives the lines and the remainder of the whole |
| `Framing.NoBreaks` | internal/irc/parse.go:79-106 | lines and remainder hold no line break, and lines are well-formed UTF-8 |
| `Framing.CleanedWell` | internal/irc/parse.go:104 | what cleaning leaves is well formed, and well-formed text is left alone |
| `Utf8.RuneIs` | internal/irc/parse.go:104 | what is taken for a character is exactly an encoded code point, as section 3 of RFC 3629 encodes it |
| `Utf8.WellFormedIs` | internal/irc/parse.go:104 | well-formed text is exactly what encoding some characters gives |
| `Utf8.CleaningIs` | internal/irc/parse.go:104 | a character at the front is kept and a byte that starts none is dropped |
| `Utf8.ReadBack` | internal/irc/parse.go:79-106 | well-formed lines sent with line breaks, with or without carriage returns, read back as sent |
| `Messages.SplitParams` | internal/irc/parse.go:63-77 | the loop over a shrinking text gives the middles and the trailing text |
| `Messages.SplitShown` | internal/irc/parse.go:60-77 | printed parameters read back as they were exactly if no middle that something follows contains a colon |
| `Messages.ColonSwallows` | internal/irc/parse.go:60-77 | a middle with a colon in it swallows what follows |
| `Messages.ReadsBack` | internal/irc/parse.go:31-48 | a printed message reads back as its prefix, its command and its parameters |
| `Messages.SenderReadsBack` | internal/irc/parse.go:52-58 | a nick with or without user and host reads back |
| `MessageForms.ParseIs` | internal/irc/parse.go:31-48 | a text is read as a line exactly if it goes together as prefix, command and parameters |
| `MessageForms.SplitIs` | internal/irc/parse.go:60-77 | splitting takes middles off the front as long as there is one, and what is left is the last parameter without its colon |
| `MessageForms.SenderIs` | internal/irc/parse.go:52-58 | a sender is the text taken apart with the shortest nick there can be, and then the shortest user |
| `Levenshtein.Levenshtein` | internal/irc/cmd/cmd.go:267-286 | the two swapped rows compute the recursive edit distance |
| `Levenshtein.EditsAre` | internal/irc/cmd/cmd.go:266-286 | the edits counted are those that are not just keeping a letter |
| `Levenshtein.Attained` | internal/irc/cmd/cmd.go:266-286 | some list of that many edits turns one word into the other |
| `Levenshtein.Least` | internal/irc/cmd/cmd.go:266-286 | no list of edits does it with fewer |

## Left out

- Pointers between compact nodes: a node is an index into its dictionary's pool, and nodes
  are never shared between dictionaries.
- In-place update of the storage nodes: a storage subtree is a value, so learning a line
  into storage chains gives new chains; aliasing is not captured.
- Hanging loaded subtrees into a dictionary at start-up: a converted subtree is proved to
  image its storage form, but the load loop over the store is not modelled.
- 32-bit overflow of trie counts: counts are natural numbers.
- The window slice handed to the insert callback is reused by the Go code; here each
  window is a value, and the inserters do not keep it.
- Turning a chat line into tokens, and a list of words into the text sent (punctuation,
  capitals, dropping sentinels): lines are arbitrary token lists, messages lists of words.
- MarkovTalk.WeightedPick: does not say the draw is proportional to the counts, because the
  comparison is off by one and the draw only nearly is.
- MarkovTalk.FindMaxOrderChain: the variety roll is an arbitrary choice per order, because
  its probability is a floating-point expression.
- Sockets, deadlines and dialling as such: their outcomes are parameters of the steps.
- The QUIT the keeper sends as it shuts down, and its backoff between dials.
- Closing the previous IRC connection happens after the lock is released; it is part of
  the same step here.
- Timers as pointers with a callback field: the callbacks are a table by tag, and a
  cancelled timer is one without a callback.
- ShortIds.IdAlloc.Next: asks for a free id to exist, because the Go loop does not end
  otherwise (`ShortIds.NeverEnds`).
- Rss.Rss.MergeItems: asks for as many free ids as the page has new entries, because the
  search for an id would not end otherwise.
- Rss.Rss.FetchDone: asks the same for a page.
- The texts of feed items, the nested maps of subscriptions by server and channel (a target
  stands for both), the help and list commands, and paging of descriptions.
- Bus timings: calls are counted; minimum, maximum and total times are not. The panic
  callback only observes.
- Publishing to the bus from other goroutines and its queue.
- Events the session emits, PING, PRIVMSG, modes and the message of the day: they do not
  touch membership.
- Numeric names of commands in parsing: the session works on names, the parser on codes.
- ParseLine on text with a line break in it: lines from the buffer have none.
- Wheel games as objects in the module's map: the map holds values; a game is also given
  as an object of its own.
- Recognising moves in chat, reply texts, starting a game with a list of nicks, the puzzle
  pool and the high scores.
- The order of suggestions for an unknown command, and default command handlers.
- Persistence, JSON, HTTP, the database, conf and all other modules.

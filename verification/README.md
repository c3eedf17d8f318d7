# Concurrent and distributed protocols of the laboratory programs

Seven of the C programs in this repository hold a real protocol between processes, threads or
machines.  This project models each of them in Dafny and proves what the protocol keeps in every
reachable state, for every schedule and every number of processes, shelves, cards, chunks, blocks, packets and
reports.  The constants of the source that do not change with the input (4096 bytes in a channel, 568 in a chunk, 16
reports on the stack) are kept as they are.

Each program is a labelled transition system: a program counter per process, the shared state, a
function `Next` giving the step of one process (`None` when it is blocked), and `Run`, which folds a
schedule of turns.  `rand()`, signals, which sleeper a condition variable wakes, and what the network
does are choices in the turn.  A pipe is a bounded queue with sets of readers and writers; a robust
mutex behaves as the entries `pthread_mutexattr_getrobust` and `pthread_mutex_consistent` of
POSIX.1-2017, System Interfaces, chapter 3, say.  The loops over arrays and buffers, and the code of the
processes themselves, are methods that update arrays and fields in place; their postconditions equate
the new memory with the step function, so what is proved of the steps is proved of that code.

| Program | Files |
|---|---|
| Night shift in the shop: workers sort shelves under robust mutexes, and may die (`lab06/bitronka`) | `Shop*.dfy`, `Permutations.dfy` |
| Stop-and-wait file transfer over UDP (`lab08/lab`) | `Transfer*.dfy` |
| Card ring over pipes (`lab05/sop-ship`) | `Ring*.dfy` |
| Card game over four semaphores (`lab06/sop-cards`) | `Game*.dfy` |
| One-block channel and the doubling processor (`lab06/channel`) | `Channel*.dfy`, `Doubler.dfy`, `Pipeline*.dfy` |
| Source-routed packets over a process graph (`lab05/generated_harder`) | `Router*.dfy` |
| Report stack and adjutant threads (`lab08/napoleon`) | `Adjutant*.dfy` |

`Counting.dfy` holds counting and summing lemmas.  `dafny verify dfyconfig.toml` verifies everything.

## Where the code does less than one would expect

Each of these is a property that fails, with the exact condition under which it holds.

- A chunk can be printed twice even on a link that keeps the order: the server frees the slot on the last chunk, and
  a resent last chunk that is also the first opens a new lifetime.  For a server that knows nothing of the address yet,
  at-most-once holds exactly for files of at least 568 bytes, or without a table, whether or not the link also
  duplicates (`TransferFifo.AtMostOnceExactly`, `TransferFifo.LongFilesOnly`).
- Once datagrams can overtake one another it holds for no file, even if nothing is delivered twice, unless the
  server has no table (`TransferReorder.NeverAtMostOnce`).
- A delivered file need not be acknowledged (`TransferFifo.DeliveredButGivenUp`).  Once all of it is printed, the
  client can still end acknowledged exactly while an echo of the last chunk is on its way or, for a file of one chunk,
  a datagram is on its way or a try is left (`TransferEcho.LostLastEcho`).
- Before that, a lost echo costs the client a try and nothing else: it can get on from its chunk exactly while an echo
  of it is on its way or, the server having a table, a datagram of it is on its way or a try is left
  (`TransferEcho.NextChunkExactly`).
- A printed file of two or more chunks can leave an entry in the table that its client never frees.  Over a link that
  keeps the order it does exactly if a datagram of it arrives after the last chunk has been printed and while an entry
  is free (`TransferLeftover.LeftoverExactly`).  As many transfers with one resend each as the table has entries fill it (`TransferReplay.ResendsFillTable`); another
  address is then served exactly if the whole file of one of those clients comes again, in order
  (`TransferLeftover.ServedAfterResend`; for any senders `TransferLeftover.ServedAgainExactly`).
- The printed text is the file exactly when the file has no NUL byte (`TransferFile.ChunkRoundTrip`).
- Declaring a channel depleted while a block is in it loses that block, and only that
  (`ChannelStream.LossExactly`, `ChannelWakeups.DepletionLoses`).
- It also leaves producers asleep.  Without a spurious wakeup they can be woken if and only if some process is awake,
  and exactly by schedules with a new call of `channel_produce` (`ChannelWakeups.WokenByProducers`).
- The processor need not end although its input is over: with nobody to take from the second channel it can only put
  one block (`PipelineEnd.FinishesExactly`).
- The router loses packets exactly if some route names a province twice in a row: a province closes the read end of the
  pipe to itself (`RouterLoss.NothingLostExactly`).
- The shutdown cascade of the router can end exactly on a graph of provinces without a cycle through two or more of
  them (`RouterEnding.CascadeEndsExactly`).
- The night shift can still end with the shelves sorted exactly while some worker lives (`ShopSorting.SortsExactly`).

Where the code and its documentation differ the model follows the code: `channel.h` says that `channel_produce`
returns 1 for a block that is too big, but the code never looks at the length, so the bound is the caller's duty.

## Model

| member | source | states |
|---|---|---|
| Permutations.Shuffle | lab06/bitronka/sop-shop.c:63-70 | in place, the array becomes the shuffle of its old contents by the drawn numbers, and keeps its elements |
| Permutations.ShuffleRearranges | lab06/bitronka/sop-shop.c:63-70 | whatever is drawn, the result is a rearrangement |
| Permutations.ShuffleReaches | lab05/sop-ship/sop-ship.c:83-89 | every rearrangement is the outcome of some draws |
| Permutations.SwapLowersInversions | lab06/bitronka/sop-shop.c:126-145 | swapping any inverted pair, adjacent or not, strictly lowers the number of inversions |
| Permutations.InversionsBound | lab06/bitronka/sop-shop.c:126-145 | there are at most N(N-1)/2 inversions |
| Permutations.Unsorted | lab06/bitronka/sop-shop.c:95-108 | a permutation other than the identity has a pair whose choice makes a worker swap |
| ShopProgress.DeadlockFree | lab06/bitronka/sop-shop.c:87-206 | in every reachable state all processes have finished or one can move, without having to die, although workers hold two shelf locks, the manager up to N, either may take mxDead on top, and owners die |
| ShopProgress.SomeoneMoves | lab06/bitronka/sop-shop.c:101-125 | from any unfinished process the chain of who waits for whom ends in a process that can move |
| ShopProgress.NoLockLost | lab06/bitronka/sop-shop.c:109-124 | no mutex ever becomes unrecoverable, and only shelf mutexes are left by the dead |
| ShopDeaths.DeathsCountedTwice | lab06/bitronka/sop-shop.c:109-142 | dead, plus owner-dead mutexes, plus recoveries not yet counted, is twice the deaths |
| ShopDeaths.AllDeadExactly | lab06/bitronka/sop-shop.c:190-197 | the manager's test holds exactly when all workers are dead and every death is fully counted |
| ShopDeaths.OnlyAllDeadQuits | lab06/bitronka/sop-shop.c:190-199 | and the exit it leads to is taken only if they have all died |
| ShopDeaths.AllDeadSweepQuits | lab06/bitronka/sop-shop.c:164-197 | if all are dead when a sweep starts, that sweep takes the "all workers died" exit |
| ShopDeaths.FinalSweepQuits | lab06/bitronka/sop-shop.c:164-197 | such a sweep needs at most its own remaining steps, wherever it stands |
| ShopShelves.SwapStep | lab06/bitronka/sop-shop.c:126-146 | every step leaves the swap count plus the inversions within its bound: a swap costs an inversion |
| ShopShelves.SwapBound | lab06/bitronka/sop-shop.c:126-148 | any schedule performs at most N(N-1)/2 swaps, whoever dies |
| ShopShelves.ManagerSeesPermutation | lab06/bitronka/sop-shop.c:165-184 | while the manager holds every shelf the array it reads is a permutation, although a swap is two writes |
| ShopShelves.QuietIsPermutation | lab06/bitronka/sop-shop.c:127-133 | no death lands between the two writes: once nobody is inside a swap nothing is lost |
| ShopShelves.SortedIsStable | lab06/bitronka/sop-shop.c:178-206 | once the flag is up the array is the identity and stays so, and the flag stays up |
| ShopEnding.EveryoneGoesHome | lab06/bitronka/sop-shop.c:87-93 | after the flag at most 18 M + 1 moves remain, and when nobody can move but by dying all have finished over sorted shelves |
| ShopSorting.SomeRunSorts | lab06/bitronka/sop-shop.c:87-206 | from any reachable state in which some worker lives, whoever else has died and wherever everybody stands, some continuation ends with the shelves sorted and the flag up |
| ShopSorting.SortsExactly | lab06/bitronka/sop-shop.c:87-206 | in any run, the night can still end with the flag up if and only if it is up or some worker lives |
| ShopOrder.LeavesPairInOrder | lab06/bitronka/sop-shop.c:126-147 | in every run a worker about to unlock its pair leaves the lower-numbered shelf no greater than the higher one, whichever index it drew first |
| ShopOrder.DiesExactly | lab06/bitronka/sop-shop.c:126-145 | comparing, a worker dies exactly if the pair is out of order, by index, and the pallet is fatal |
| ShopOrder.ExchangesPair | lab06/bitronka/sop-shop.c:126-145 | a pair out of order that is not fatal is exchanged by the worker's own next three turns, again in either order of drawing |
| ShopFloor.Floor.constructor | lab06/bitronka/sop-shop.c:244-271 | the memory set up by main is a start state, its shelves a shuffle of 0..N-1 |
| ShopFloor.Number | lab06/bitronka/sop-shop.c:244-246 | the loop numbers the shelves |
| ShopFloor.Floor.SwapTurn | lab06/bitronka/sop-shop.c:132 | each of the two writes of a swap does to memory what the step says |
| ShopFloor.Floor.LockMutex | lab06/bitronka/sop-shop.c:109-118 | locking gives EOWNERDEAD to the first taker after a death and blocks on a held mutex |
| ShopFloor.Floor.RepairTurn | lab06/bitronka/sop-shop.c:110-117 | dead++ under mxDead, read and write apart, then consistent |
| ShopFloor.Floor.TripAndDie | lab06/bitronka/sop-shop.c:128-131 | abort leaves both shelf mutexes owner-dead |
| ShopFloor.Floor.TakeTurn | lab06/bitronka/sop-shop.c:87-207 | every turn of worker or manager, in place, is exactly one step of the protocol or none |
| ShopFloor.Floor.Night | lab06/bitronka/sop-shop.c:274-277 | a whole schedule, in place, ends in the state the protocol gives |
| TransferServer.Connections.FindIndex | lab08/lab/l8-1_server.c:42-63 | the loop finds the live entry of the address or takes the last free one |
| TransferServer.Connections.Receive | lab08/lab/l8-1_server.c:73-110 | one pass of the receive loop, in place, is the accept, re-ack or drop rule |
| TransferServer.HandleKeeps | lab08/lab/l8-1_server.c:82-103 | whatever arrives from whomever, addresses stay distinct, each lifetime prints 1, 2, 3, ... and at most one lifetime grows, by this datagram |
| TransferServer.EchoMeansPrinted | lab08/lab/l8-1_server.c:85-103 | an echo of chunk k means that a lifetime of that address has printed k chunks |
| TransferServer.PrintedMeansEcho | lab08/lab/l8-1_server.c:85-103 | what is not echoed is not printed |
| TransferServer.ReAcks | lab08/lab/l8-1_server.c:85-103 | a chunk that the address's lifetime has printed already is echoed again, and the server stays as it is |
| TransferServer.TakesNext | lab08/lab/l8-1_server.c:89-103 | the chunk after those printed is printed and echoed, and frees the entry exactly if it is flagged last; nothing else changes |
| TransferServer.DropsAhead | lab08/lab/l8-1_server.c:85-88 | a chunk further ahead is dropped in silence |
| TransferServer.OthersUntouched | lab08/lab/l8-1_server.c:42-63 | traffic of one address never touches the live entry of another |
| TransferFile.Reader.BulkRead | lab08/lab/l8_common.h:95-111 | however short the reads, count bytes or all that is left land in the buffer |
| TransferFile.PlanShape | lab08/lab/l8-1_client.c:45-69 | L bytes make L/568 + 1 datagrams, numbered in order, exactly the final one flagged |
| TransferFile.PlanPayload | lab08/lab/l8-1_client.c:47-57 | datagram i carries the i-th 568-byte stretch, zero-filled |
| TransferFile.ChunkRoundTrip | lab08/lab/l8-1_server.c:79-98 | the texts printed for the chunks give back the file if and only if it holds no NUL |
| TransferFile.PrintedIsFile | lab08/lab/l8-1_server.c:91-99 | the same from any starting number, and the text is never longer than the file |
| TransferClient.FillBuffer | lab08/lab/l8-1_client.c:47-57 | the buffer becomes the chunkNo-th datagram of the file, short exactly for the last |
| TransferClient.SendChunk | lab08/lab/l8-1_client.c:60-64 | one to six sends, ending on the echo or after the sixth |
| TransferClient.DoClient | lab08/lab/l8-1_client.c:37-70 | what is sent, and how it ends, is the client machine's behaviour for these replies |
| TransferClient.ChunksInOrder | lab08/lab/l8-1_client.c:52-69 | the client moves on by one chunk and only on the echo of the current one |
| TransferClient.SixSendsAtMost | lab08/lab/l8-1_client.c:58-64 | no chunk is sent more than six times |
| TransferClient.EndsAcked | lab08/lab/l8-1_client.c:66-69 | an acknowledged end means that the last datagram was the last chunk and was echoed |
| TransferClient.EndsGivingUp | lab08/lab/l8-1_client.c:66-67 | giving up means six sends of one chunk without its echo at the sixth |
| TransferNet.LifetimePrintsPrefix | lab08/lab/l8-1_server.c:82-103 | under loss, duplication and reordering each lifetime has printed exactly chunks 1..n of its address's file |
| TransferNet.AckedMeansDelivered | lab08/lab/l8-1_client.c:66-69 | a client that ends acknowledged has had its whole file printed by one lifetime |
| TransferNet.FileDelivered | lab08/lab/l8-1_client.c:37-70 | and, for a NUL-free file, byte for byte |
| TransferNet.GivesUpAfterSix | lab08/lab/l8-1_client.c:60-67 | in the network too, a client gives up only after six tries |
| TransferNet.FilesMakePlans | lab08/lab/l8-1_client.c:45-69 | the datagrams the code makes of a file are a transfer in the network's sense |
| TransferReorder.LateChunkReprints | lab08/lab/l8-1_server.c:55-61 | on a link that reorders and delivers nothing twice, for every file some run prints it whole and then its chunk 1 again |
| TransferReorder.NeverAtMostOnce | lab08/lab/l8-1_server.c:55-101 | so there no file is printed at most once, if and only if the server has a table |
| TransferReplay.LeavesEntry | lab08/lab/l8-1_server.c:55-88 | a transfer of two or more chunks whose last chunk is resent ends acknowledged and leaves an entry expecting chunk 1 |
| TransferReplay.ResendsFillTable | lab08/lab/l8-1_server.c:42-63 | as many such transfers as the table has entries all succeed and leave a table that serves no other address |
| TransferReplay.FullForGood | lab08/lab/l8-1_server.c:85-88 | with no chunk 1 from a held address such a server does not change at all |
| TransferLeftover.LeftoverExactly | lab08/lab/l8-1_server.c:55-101 | in any run over a link that keeps the order, once a file of two or more chunks is printed its address has an entry if and only if a datagram of it has arrived since while an entry was free |
| TransferLeftover.ServedAgainExactly | lab08/lab/l8-1_server.c:42-101 | from a table of leftovers, in any run, an address that holds none is served at some time if and only if some holder's chunks 1, 2, 3, ... have come in order up to one flagged last |
| TransferLeftover.ServedAfterResend | lab08/lab/l8-1_server.c:42-101 | where the holders are clients, if and only if the whole file of one of them has come again in order |
| TransferFifo.AtMostOnceExactly | lab08/lab/l8-1_server.c:55-101 | over a link that loses and duplicates but keeps the order, against a server in any state that knows nothing of the address yet, no chunk is printed twice if and only if the file makes two or more chunks or there is no table |
| TransferFifo.LongFilesOnly | lab08/lab/l8-1_client.c:53-57 | in bytes, exactly the files of at least 568, or a server without a table |
| TransferFifo.OneChunkTwice | lab08/lab/l8-1_server.c:91-101 | some run prints a one-chunk file twice, even from a full table, which other traffic can free |
| TransferEcho.LostLastEcho | lab08/lab/l8-1_server.c:85-95 | in any run, once the file is printed and while the client still tries: some continuation ends acknowledged if and only if an echo of the last chunk is on its way or, for a file of one chunk, a datagram is on its way or a try is left |
| TransferEcho.OneChunkLearns | lab08/lab/l8-1_client.c:58-67 | a file of one chunk, printed or not: some continuation ends acknowledged if and only if an echo is on its way or the server has a table and a datagram is on its way or a try is left |
| TransferEcho.NextChunkExactly | lab08/lab/l8-1_client.c:58-69 | in any run of two or more chunks, before the file is all printed: the client can still get on from its current chunk if and only if an echo of it is on its way or, the server having a table, a datagram of it is on its way or a try is left, so a lost echo costs a try and no more |
| TransferFifo.DeliveredButGivenUp | lab08/lab/l8-1_client.c:60-67 | every file can be printed whole, once, by a run in which the client gives up |
| TransferFifo.SomeRunDelivers | lab08/lab/l8-1_client.c:45-69 | every file can get through exactly once with an acknowledged end |
| RingFlow.SkewBound | lab05/sop-ship/sop-ship.c:151-191 | completed rounds of any two players differ by at most n - 1 |
| RingFlow.DownstreamLead | lab05/sop-ship/sop-ship.c:165-188 | a player d places downstream is at most d rounds ahead |
| RingFlow.PipeBound | lab05/sop-ship/sop-ship.c:165-182 | no ring pipe ever holds more than n cards |
| RingFlow.WriteNeverBlocks | lab05/sop-ship/sop-ship.c:165-173 | with capacity n or more no write ever blocks |
| RingFlow.DeadlockFree | lab05/sop-ship/sop-ship.c:230-309 | in every reachable state all have ended or some process can move, without any signal |
| RingCards.CardsConserved | lab05/sop-ship/sop-ship.c:278-291 | hands, less the slot passed on and not yet refilled, with both kinds of pipes hold exactly the n m cards dealt |
| RingCards.NoCardTwice | lab05/sop-ship/sop-ship.c:213-215 | no card is ever in two places |
| RingCards.WinnerHasOneSuit | lab05/sop-ship/sop-ship.c:153-160 | the winner the parent prints holds m cards of one suit |
| RingCards.ExchangeKeepsBest | lab05/sop-ship/sop-ship.c:102-122 | passing a card by the rule and taking in any other never lowers the count of the best suit |
| RingCards.WinningMeansFull | lab05/sop-ship/sop-ship.c:93-100 | a suit counts the whole hand exactly when all cards are of it |
| RingCascade.CascadeBound | lab05/sop-ship/sop-ship.c:170-187 | a player d places downstream of one that is out completes at most d rounds beyond its count |
| RingCascade.CascadeMoves | lab05/sop-ship/sop-ship.c:255-263 | once one player is out at most (6 n + 2) n + n + 4 moves remain, whatever the schedule and the signals |
| RingCascade.CascadeEnds | lab05/sop-ship/sop-ship.c:293-309 | and when nobody can move all players and the parent have ended |
| RingWinner.SomebodyWins | lab05/sop-ship/sop-ship.c:151-191 | in every run without a signal the parent ends with a winner, and nobody leaves the ring before one has been announced |
| RingWinner.DealtOneSuitWins | lab05/sop-ship/sop-ship.c:153-160 | any player dealt cards of one suit can be the winner: some run without a signal ends for everybody with the parent naming it |
| RingWinner.WinnerIsFirst | lab05/sop-ship/sop-ship.c:293-302 | in every run the parent names the player that announced itself first, and the shared pipe holds the others, unread |
| RingWinner.ParentEndsLast | lab05/sop-ship/sop-ship.c:306-309 | in every run the parent has ended only if all players have |
| RingWinner.StopsAfterSignal | lab05/sop-ship/sop-ship.c:151-191 | a player that gets SIGINT finishes the exchange it is in, begins no other and announces nothing |
| RingWinner.PipesKeepOrder | lab05/sop-ship/sop-ship.c:165-182 | in every run the cards a player has taken in, with those in its pipe, are those its left neighbour has passed on, in order |
| RingWinner.PassesExactly | lab05/sop-ship/sop-ship.c:102-122 | a player without a winning hand can pass exactly the cards whose loss costs it none of its best suit, whatever comes in |
| RingPlayer.IsWinningHand | lab05/sop-ship/sop-ship.c:93-100 | the loop decides whether all cards are of one suit |
| RingPlayer.BestSuit | lab05/sop-ship/sop-ship.c:104-110 | the lowest-numbered among the most frequent suits |
| RingPlayer.ChooseDiscard | lab05/sop-ship/sop-ship.c:102-122 | the loops find a card outside the best suit if there is one, else any, the one the draw selects |
| RingPlayer.AnyDiscardMayCome | lab05/sop-ship/sop-ship.c:112-121 | and each such card is selected by some draw |
| RingPlayer.Process.TakeTurn | lab05/sop-ship/sop-ship.c:132-191 | any turn of a player, from its deal to its exit and with the announcement, in place on its hand and its four pipes, is exactly a step of the ring |
| RingPlayer.Process.LoopTurn | lab05/sop-ship/sop-ship.c:151-191 | the loop against the two ring pipes |
| RingPlayer.Process.EntryTurn | lab05/sop-ship/sop-ship.c:129-142 | closing the unused ends, and reading the deal into the hand |
| RingNet.ParentProcess.DealTurn | lab05/sop-ship/sop-ship.c:278-291 | dealing the next player its m cards from the deck |
| RingNet.ParentProcess.OtherTurn | lab05/sop-ship/sop-ship.c:268-309 | the rest of the parent, waiting for a winner and for its children |
| RingNet.Answer | lab05/sop-ship/sop-ship.c:241-248 | end of file and EPIPE, computed from what every process still holds |
| RingNet.Seat | lab05/sop-ship/sop-ship.c:217-266 | the pipes, players and parent set up are in a start state of the ring |
| RingNet.Play | lab05/sop-ship/sop-ship.c:230-309 | a whole schedule of the parent and the players, in place, ends in the state the steps give |
| GameCards.CreateCards | lab06/sop-cards/sop-cards-semaphores:72-74 | the deck is 1..m |
| GameCards.DrawCard | lab06/sop-cards/sop-cards-semaphores:61-70 | in place, the drawn card moves to position last, the rest keeps its order; an empty deck is the error |
| GameCards.DrawMoves | lab06/sop-cards/sop-cards-semaphores:61-70 | a draw takes one undrawn card, leaves the other undrawn ones and rearranges only |
| GameCards.DrawsAreDistinct | lab06/sop-cards/sop-cards-semaphores:61-70 | successive draws are distinct, and exactly the others stay undrawn |
| GameCards.ScoreRound | lab06/sop-cards/sop-cards-semaphores:147-171 | the two loops, in place, change player_data to what one scoring makes of it (entry by entry: `GamePoints.GainsDue`) |
| GameCards.WinningIsMax | lab06/sop-cards/sop-cards-semaphores:148-159 | the first loop finds the highest playing card and counts its holders |
| GameCards.RoundAwards | lab06/sop-cards/sop-cards-semaphores:164-171 | a round awards at most active points and more than active - winners |
| GamePoints.GainsDue | lab06/sop-cards/sop-cards-semaphores:148-171 | entry by entry: one that does not play, or that a playing card beats, gains nothing; the others gain active divided by the number of playing entries that show the same card; cards and playing flags stay |
| GamePoints.LeadersShare | lab06/sop-cards/sop-cards-semaphores:164-171 | all who show the highest playing card are due the same |
| GameRounds.RunInv | lab06/sop-cards/sop-cards-semaphores:84-178 | in every phase of the server the four semaphores balance the players' places in the round |
| GameRounds.CleanBoundary | lab06/sop-cards/sop-cards-semaphores:128-137 | no token of any semaphore survives a round, and active_players counts the waiting players |
| GameRounds.SameRound | lab06/sop-cards/sop-cards-semaphores:84-119 | every player is in the server's round, or waits for the next |
| GameRounds.NobodyWritesWhileScoring | lab06/sop-cards/sop-cards-semaphores:145-171 | while the server scores nobody can write player_data |
| GameScores.ActiveIsPlaying | lab06/sop-cards/sop-cards-semaphores:102-110 | at a round boundary active_players is the number of PLAYING entries |
| GameScores.PlayedCards | lab06/sop-cards/sop-cards-semaphores:88-90 | a player has put distinct cards of 1..m on the table, one per round, the newest showing |
| GameScores.ScoresBounded | lab06/sop-cards/sop-cards-semaphores:180-183 | the scores never add up to more than n m |
| GamePoints.ScoresAreEarned | lab06/sop-cards/sop-cards-semaphores:128-171 | in every run each player's score is the sum of what it is due for the tables the server has scored, one for each round played |
| GamePoints.PlaysAllRounds | lab06/sop-cards/sop-cards-semaphores:128-142 | the server goes to the summary only after m rounds or when all have resigned |
| GamePoints.ResignedExactly | lab06/sop-cards/sop-cards-semaphores:99-113 | in every run a player has resigned, and its entry does not play, if and only if it was asked and said yes |
| GamePoints.PlaysWholeDeck | lab06/sop-cards/sop-cards-semaphores:84-91 | a player that never says yes has put its whole deck on the table when the game ends |
| GamePoints.AnyCardMayCome | lab06/sop-cards/sop-cards-semaphores:61-70 | any card not drawn yet can be the next one on the table |
| GamePoints.UndrawnAscend | lab06/sop-cards/sop-cards-semaphores:61-70 | in every run the cards a player has not drawn lie in ascending order |
| GameScores.DeadlockFree | lab06/sop-cards/sop-cards-semaphores:84-178 | in every reachable state the game has ended or some process can move without anybody having to resign, whoever has resigned before |
| GameScores.GameEnds | lab06/sop-cards/sop-cards-semaphores:128-178 | a game has at most as many moves as its start state's rank |
| GameTable.SharedMemory.constructor | lab06/sop-cards/sop-cards-semaphores:199-216 | the shared memory as main sets it up |
| GameTable.PlayerProcess.constructor | lab06/sop-cards/sop-cards-semaphores:78-82 | a player starts with the deck 1..m |
| GameTable.PlayerProcess.TakeTurn | lab06/sop-cards/sop-cards-semaphores:84-119 | a player's turn, in place on its cards and the shared memory, is exactly a step of the game |
| GameTable.ServerProcess.TakeTurn | lab06/sop-cards/sop-cards-semaphores:128-178 | so is the server's |
| GameTable.Seat | lab06/sop-cards/sop-cards-semaphores:199-228 | memory, players and server set up together are in a start state of the game |
| GameTable.Play | lab06/sop-cards/sop-cards-semaphores:218-228 | a whole schedule of players and server, in place, ends in the state the game gives |
| ChannelStream.StreamCorrect | lab06/channel/channel.c:76-113 | blocks taken with the one in the slot are the blocks put, in order, if and only if none was lost, and at most one is lost per depletion |
| ChannelStream.LossExactly | lab06/channel/ops-double-processor.c:50-53 | a step loses a block exactly if it declares the channel depleted over a full slot |
| ChannelStream.BeforeDepletion | lab06/channel/channel.c:76-113 | before any depletion nothing is lost |
| ChannelStream.AfterDepletion | lab06/channel/channel.c:76-113 | in every reachable state the blocks taken, with the slot, are the blocks put less the lost ones; depleted once and not reopened, all or all but the last |
| ChannelWakeups.NoLostWakeup | lab06/channel/channel.c:78-110 | if somebody sleeps although the channel is ready for it, somebody awake inside will serve it, for any number of processes, single signals and spurious wakeups |
| ChannelWakeups.SomeoneMoves | lab06/channel/channel.c:76-113 | if some process is neither idle nor asleep, one of those can move |
| ChannelWakeups.StuckSides | lab06/channel/channel.c:79-97 | with everybody idle or asleep, sleeping consumers mean an empty channel, sleeping producers a full or depleted one, so never both |
| ChannelWakeups.ProducersStranded | lab06/channel/ops-double-processor.c:50-53 | a producer asleep on a depleted channel sleeps on in every schedule without a new producer or a spurious wakeup |
| ChannelWakeups.WokenByProducers | lab06/channel/channel.c:78-110 | it can be woken without a spurious wakeup if and only if some process is awake, and exactly by schedules with a new call of channel_produce |
| ChannelWakeups.DepletionLoses | lab06/channel/ops-double-processor.c:50-53 | with two processes some schedule ends with a block lost and a producer asleep for good |
| ChannelMemory.SharedChannel.constructor | lab06/channel/channel.c:45-61 | the struct as channel_open initialises it |
| ChannelMemory.SharedChannel.BodyTurn | lab06/channel/channel.c:79-108 | each statement under the mutex, on the buffer in place, is exactly a step |
| ChannelMemory.SharedChannel.SignalTurn | lab06/channel/channel.c:87 | a signal or broadcast wakes exactly the chosen sleepers |
| ChannelMemory.SharedChannel.TakeTurn | lab06/channel/channel.c:76-113 | so is any turn of any process |
| ChannelMemory.SharedChannel.Schedule | lab06/channel/channel.c:76-113 | and a whole schedule ends in the state the steps give |
| Doubler.DoubleBlock | lab06/channel/ops-double-processor.c:27-47 | the inner loop, on out_buf in place, puts the doubled bytes cut into full blocks and a rest |
| Doubler.PutByte | lab06/channel/ops-double-processor.c:30-35 | one byte goes into the buffer, which goes out when full |
| Doubler.Process | lab06/channel/ops-double-processor.c:26-48 | the bytes put are the bytes taken, each twice, in blocks of 1 to 4096 |
| Doubler.CutIsGreedy | lab06/channel/ops-double-processor.c:32-35 | filling blocks one after another and flushing the rest is cutting the whole |
| Doubler.OutputDoubles | lab06/channel/ops-double-processor.c:29-47 | the blocks put, joined, are the doubled joined blocks taken |
| Doubler.OutputSizes | lab06/channel/ops-double-processor.c:32-47 | no empty or oversized block is put, and at most two for one taken |
| PipelineStream.LedgerBalances | lab06/channel/ops-double-processor.c:26-48 | with the processor a process between two channels shared with any others: in every reachable state the blocks it has put and those pending are its output for the blocks it has taken |
| PipelineStream.EndFollowsEnd | lab06/channel/ops-double-processor.c:50-53 | the second channel is declared depleted at most once, by the processor, after the first |
| PipelineStream.PipelinePrefix | lab06/channel/ops-double-processor.c:26-53 | in every reachable state the bytes taken from the second channel are a prefix of the doubled bytes put into the first and not lost there |
| PipelineStream.PipelineDoubles | lab06/channel/ops-double-processor.c:26-53 | and all of them when nothing is pending and both channels are drained |
| PipelineStream.ProcessorGone | lab06/channel/ops-double-processor.c:50-58 | when the processor has exited it has put its whole output, and all of it or all but its last block comes out |
| PipelineEnd.Finishes | lab06/channel/ops-double-processor.c:26-58 | with somebody else at both channels, from every reachable state some continuation brings the processor to its exit |
| PipelineEnd.FinishesExactly | lab06/channel/ops-double-processor.c:26-58 | once no block is on its way into the first channel, some continuation does if and only if somebody else is there to deplete it and somebody else is at the second channel or the whole output for the blocks taken is one block at most |
| PipelineProcess.ProcessorProcess.constructor | lab06/channel/ops-double-processor.c:19-24 | two fresh channels and empty buffers |
| PipelineProcess.ProcessorProcess.FetchTurn | lab06/channel/ops-double-processor.c:26 | a step of channel_consume, and the loop's reaction to its return, in place |
| PipelineProcess.ProcessorProcess.StoreTurn | lab06/channel/ops-double-processor.c:29-45 | a store into out_buf and the test after it |
| PipelineProcess.ProcessorProcess.FlushTurn | lab06/channel/ops-double-processor.c:32-46 | a step of channel_produce; out_len is 0 after it |
| PipelineProcess.ProcessorProcess.CloseTurn | lab06/channel/ops-double-processor.c:50-53 | the depletion |
| PipelineProcess.ProcessorProcess.Schedule | lab06/channel/ops-double-processor.c:26-53 | a whole schedule of the processor and everybody at both channels, in place, ends in the state the steps give |
| RouterProcess.LoadMatrix | lab05/generated_harder/generated_harder.c:123-131 | the matrix holds exactly the pairs of consecutive nodes of the routes |
| RouterProcess.OpenPipes | lab05/generated_harder/generated_harder.c:160-171 | the boss's pipe, and exactly one for each pair of the matrix |
| RouterProcess.SetUp | lab05/generated_harder/generated_harder.c:148-171 | routes from province 0 give a network in which every hop has its pipe, acyclic if the routes are but for repeats |
| RouterProcess.ProvinceProcess.CollectInputs | lab05/generated_harder/generated_harder.c:188-211 | in_fds holds the read end of every pipe into k from others, once; that of a pipe from k to itself is closed |
| RouterProcess.ProvinceProcess.PollTurn | lab05/generated_harder/generated_harder.c:226-263 | one pass over an input, in place on in_fds and active_inputs, is exactly a step |
| RouterProcess.ProvinceProcess.CloseInput | lab05/generated_harder/generated_harder.c:258-263 | at end of file the input and the count go together |
| RouterProcess.ProvinceProcess.ForwardTurn | lab05/generated_harder/generated_harder.c:241-256 | forwarding is exactly a step |
| RouterProcess.ProvinceProcess.LeaveTurn | lab05/generated_harder/generated_harder.c:268-278 | so are the report and the exit |
| RouterNet.BossProcess.InjectTurn | lab05/generated_harder/generated_harder.c:311-318 | the boss's injection loop, in place |
| RouterNet.BossProcess.OtherTurn | lab05/generated_harder/generated_harder.c:305-338 | the FIFO and the collection of reports |
| RouterNet.Writers | lab05/generated_harder/generated_harder.c:258 | end of file, computed from what every process still holds |
| RouterNet.Readers | lab05/generated_harder/generated_harder.c:251 | EPIPE, computed likewise |
| RouterNet.ProvinceTurn | lab05/generated_harder/generated_harder.c:224-278 | any turn of a province, with the kernel's answers so computed, is exactly a step |
| RouterNet.Open | lab05/generated_harder/generated_harder.c:148-181 | a network set up is in a start state |
| RouterNet.Deliver | lab05/generated_harder/generated_harder.c:224-338 | a whole schedule of boss and provinces, in place, ends in the state the steps give |
| RouterSafety.EndsOnPath | lab05/generated_harder/generated_harder.c:236-256 | every ended packet has visited exactly its path, in order, up to the first province named twice in a row; it is finished if there is none, and has gone astray there otherwise |
| RouterSafety.NothingLost | lab05/generated_harder/generated_harder.c:241-256 | where no route names a province twice in a row no write meets a closed pipe or one nobody reads |
| RouterLoss.NothingLostExactly | lab05/generated_harder/generated_harder.c:190-256 | no run loses a packet if and only if no route names a province twice in a row |
| RouterSafety.SuccessorIsAlive | lab05/generated_harder/generated_harder.c:241-253 | the next node of a packet being forwarded has not left |
| RouterCounts.PacketsConserved | lab05/generated_harder/generated_harder.c:305-318 | every injected packet is in exactly one pipe, one province's hands, finished or refused, once |
| RouterLetters.EachRoutePerLetter | lab05/generated_harder/generated_harder.c:305-318 | in every run, whenever the boss is back at the FIFO or past it, it has sent all routes in order, once for each letter read, and nothing else |
| RouterLetters.OncePerLetter | lab05/generated_harder/generated_harder.c:311-318 | so each route exactly as often as letters were read |
| RouterCounts.RelaysAccounted | lab05/generated_harder/generated_harder.c:238-272 | for any set of provinces, what they reported, counted and still have coming is what the injected paths ask of them, each up to its first repeat |
| RouterEnding.DeadlockFree | lab05/generated_harder/generated_harder.c:224-338 | on a graph without a cycle through two or more provinces, in every reachable state that has not ended somebody can move, and only a quiet net waits for the FIFO |
| RouterEnding.CascadeEnds | lab05/generated_harder/generated_harder.c:322-338 | once the boss has closed its pipe a bounded number of steps remains, on any graph |
| RouterEnding.EndMeansAcyclic | lab05/generated_harder/generated_harder.c:224-264 | on a graph with a cycle through two or more provinces no run reaches the end |
| RouterEnding.CascadeEndsExactly | lab05/generated_harder/generated_harder.c:322-338 | some run ends if and only if the graph has no such cycle |
| RouterEnding.FinalCounts | lab05/generated_harder/generated_harder.c:328-333 | when the boss is done the printed counts of any set of provinces are the visits the injected paths ask of it, each up to its first repeat |
| RouterEnding.FinalTotal | lab05/generated_harder/generated_harder.c:328-333 | all printed counts add up to the total length of those paths, each province printed once |
| RouterEnding.AllDelivered | lab05/generated_harder/generated_harder.c:305-338 | and an injected packet has finished, exactly once, if and only if its route names no province twice in a row |
| AdjutantDrain.ReportsConserved | lab08/napoleon/napoleon.c:58-70 | each accepted report is on the stack, in an adjutant's hands or worked on, as often as it was accepted |
| AdjutantDrain.DatagramsAccounted | lab08/napoleon/napoleon.c:250-263 | each datagram received is accepted or turned away, exactly once |
| AdjutantPush.FirstSixteenAccepted | lab08/napoleon/napoleon.c:254-263 | in every run none of the first sixteen reports is turned away |
| AdjutantPush.RefusesOnlyWhenFull | lab08/napoleon/napoleon.c:255-263 | a step turns a report away only if it is main's and the stack holds sixteen |
| AdjutantPush.AcceptsWithRoom | lab08/napoleon/napoleon.c:254-258 | from every reachable state with room main's own next three turns accept the report it holds and put it on top |
| AdjutantPush.StackIsPile | lab08/napoleon/napoleon.c:58-70 | in every run the stack holds what a last-in first-out pile of the accepted reports less those handed out holds |
| AdjutantPush.NewestFirst | lab08/napoleon/napoleon.c:63-66 | and an adjutant gets the newest |
| AdjutantPush.ReceivesAll | lab08/napoleon/napoleon.c:237-252 | in every run main has received exactly the datagrams that came while it waited, in order, and stops working exactly once SIGINT has come |
| AdjutantDrain.Drained | lab08/napoleon/napoleon.c:268-273 | when main has joined the adjutants the stack is empty and exactly the accepted reports were worked on |
| AdjutantDrain.NoSleepOverReports | lab08/napoleon/napoleon.c:58-66 | while there is a report some adjutant is awake or about to be signalled, and nobody sleeps after the broadcast |
| AdjutantDrain.DeadlockFree | lab08/napoleon/napoleon.c:237-273 | without counting on spurious wakeups somebody can move, or main is done, or all wait for a datagram |
| AdjutantDrain.ShutdownEnds | lab08/napoleon/napoleon.c:268-274 | after SIGINT nothing more is accepted and a bounded number of steps remains |
| AdjutantStack.AppState.constructor | lab08/napoleon/napoleon.c:199-220 | the struct and the adjutants as main sets them up |
| AdjutantStack.AppState.AdjutantTurn | lab08/napoleon/napoleon.c:58-70 | an adjutant's turn, on the stack in place, is exactly a step |
| AdjutantStack.AppState.MainTurn | lab08/napoleon/napoleon.c:237-274 | so is main's |
| AdjutantStack.AppState.Wake | lab08/napoleon/napoleon.c:258-270 | a signal or broadcast wakes exactly the chosen sleepers |
| AdjutantStack.AppState.Schedule | lab08/napoleon/napoleon.c:237-274 | a whole schedule of main and the adjutants, in place, ends in the state the steps give |

## Left out

- Process and memory set-up, descriptors, printing, sleeping, argument parsing and the `ERR` exits of
  all programs; a read or write interrupted by a signal is repeated at once.
- Shop: the kernel marks both mutexes of a dead worker owner-dead in one step; the set-up before the
  forks is one step too; an unlock by a process that does not hold the mutex does nothing.
- Transfer: byte order and layout of the header, chunk numbers beyond 32 bits, and the server's EPIPE
  branch; a datagram is (number, last flag, payload); a reply is what one `recv` gives, so the time
  within the 0.5 s alarm is not modelled.
- Ring: the pid written to the shared pipe is the player's index; SIGINT may clear `keep_running` of
  any player at any time, but the parent's `ERR` on a failed deal is not modelled.
- RingPlayer.Process.EntryTurn: the reads of a deal that arrives in pieces are one, because the parent writes it in one.
- Game: `last_score` and the order of printing; `rand() % probability` is a free choice.
- Channel: `channel_open` racing with another opener, `munmap` and the shared-memory name.
- Router: parsing of the file's text; SIGINT; closing several descriptors is one step; the polling
  order is free instead of round-robin, and a read of an empty pipe is no step.  Routes start at province 0 and have
  nodes below n.
- RouterProcess.ProvinceProcess.PollTurn: the kernel's answer for an empty pipe is a parameter; `RouterNet` computes it.
- RouterProcess.ProvinceProcess.ForwardTurn: so is EPIPE.
- Adjutants: parsing of a report, the division names, the map of positions and Napoleon's thread; SIGINT
  is delivered only inside `epoll_pwait`, as the signal mask says.
- The other programs of the repository, whose invariants are simpler or are versions of these.

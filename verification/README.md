# Proofs about the systems-programming exercises

This project models the concurrent programs and the cryptographic code of the
repository and proves properties of the models. `dafny verify dfyconfig.toml`
(Dafny 4.11) covers all of it.

## What is modelled

**The vehicle service centre** (`garage-simulator/`). A creator, a manager, an aging
monitor, main and K cars share counting semaphores, one personal semaphore per car, a
sorted queue under a mutex, and two arrays that say which mechanic and which tester is
free. `GarageModel.dfy` is a labelled transition system: every `sem_wait`, `sem_post`,
worker-array access and mutex operation is one step, and any thread may step next. A scan
for a free worker goes slot by slot while the mutex is held, and the stores that release a
worker are steps outside the mutex, so they can fall between any two steps of somebody
else's scan. The constants of `garage.h` are parameters. The invariant needs nothing about them, and
progress only that they are positive; `TesterBranchReachableExactly` says for which the
tester station's error branch is dead (for 2 workers and 2 testers it is). The clock readings
and the VIP draw are part of the step labels, so every theorem holds for all of them.

- `GarageInvariants.dfy`: the invariant and its preservation by every step. It holds in
  every reachable state (`ReachableInv`), so a lemma that requires `Inv` speaks about all
  reachable states.
- `GarageSafety.dfy`: exclusive worker numbers, capacity, dead error branches, exact queue
  contents.
- `GarageProgress.dfy`: deadlock freedom, a bound on the length of runs, and how runs end.
- `GaragePromotion.dfy`: whom the monitor promotes, in a step and over runs.
- `GarageQueue.dfy`: the methods of the queue class as steps of the transition system.
- `GarageOrder.dfy`: when exactly a later arrival stands ahead of an earlier one.
- `GarageExtremes.dfy`: runs that exhaust what the queue's order allows.
- `GarageStaffing.dfy`: for which constants the tester station's error branch is dead.
- `GarageRuns.dfy`: building concrete runs.
- `GarageAging.dfy`: bounded overtaking of a car that waits as a VIP, and who may pass one
  that is still regular.
- `CarQueue.dfy` and `PriorityQueue.dfy`: the queue functions and the array of pointers that
  `queue.c` shifts in place. The methods are proved against the same `Insert`, `Sort` and
  `AgeAll` that the transition system uses.

**SHA-256** (`crypto and auth/sha256.c`). `Sha256Spec.dfy` is FIPS 180-4 on whole messages,
`Sha256Stream.dfy` the incremental interface on values and the streaming law, and
`Sha256.dfy` the context object with its buffer and loops. `Sha256Constants.dfy` derives the
constants from primes, and `Sha256Example.dfy` the standard's digest of "abc".

**ChaCha20 and the file format** (`chacha20.c`, `file_io.c`). `ChaCha20.dfy` defines a round
of RFC 8439 as all columns or all diagonals at once and proves the eight quarter rounds on
the flat array equal to it; `ChaCha20Example.dfy` derives the standard's example block;
`FileCrypt.dfy` has the chunk loop, the nonce framing and their
laws.

**Three smaller protocols** (`concurrent-systems/`). Dining philosophers on a ring of any
size, a bounded stack with any number of threads, and the A-B-C-C pipeline, each with one
step per statement.

## Modelling decisions

- Memory is sequentially consistent, and one C statement on shared data is one step. `pq_pop`
  and a monitor pass touch shared data only while they hold the queue's mutex, so each is one
  step; `pq_insert` is three, because it posts `queue_sem` before it unlocks.
- While a car is queued, its current priority is the one in its queue entry. Nothing but
  the queue functions and a printed word reads it.
- A mechanic or tester number is the C variable's value: slot index plus one, or -1.
- Printing, `print_mutex` and sleeping are omitted, except for the letters of the pipeline.
  Nobody waits for another resource while holding `print_mutex`.
- Philosophers start THINKING and have distinct indices, as intended. The code clears only N
  bytes of the state array (`dining-philosophers.c:105`) and hands all threads the address of
  one variable (lines 118-126), as its own comment says.
- `uint32_t` is `bv32` with wrap-around, bytes are `bv8`, `bit_count` is a number modulo 2^64,
  and the block counter a number modulo 2^32. Array indices, semaphore values and the
  pipeline's `flag` are unbounded.
- A file is a byte sequence, `fread` is short only at its end, and the nonce is an arbitrary
  input.

## Where the code differs from its comments

- `threads.c:19` says that exactly as many worker slots are busy as there are active holders
  of the semaphore. Between the `sem_wait` and the claim, and between the release store and
  the `sem_post`, that is false; `SlotCommentFails` reaches such a state for all positive
  constants, and `BusySlotsVersusHolders` shows that it is true exactly when no car is
  in one of those two places. The guarantee that a scan succeeds does not need it.
- `WAIT_THRESHOLD` is 0.4 seconds, but the clock is read in whole seconds. A regular car is
  promoted exactly when a second has begun since it joined; below a second the length of its
  wait decides nothing (`PromotionInElapsedTime`, `WaitBelowASecondDecidesNothing`).
- "FIFO within tier" (`queue.c:7`) holds for the entry times. Among equal entry times a later
  arrival stands ahead exactly if it was drawn a VIP while the other was still regular, and it
  keeps that place when the other is promoted (`ArrivalOrderExactly`, `LaterCarStandsAhead`).
- Aging protects a car from later VIPs only once it is promoted; until then all of them can
  pass it (`RegularCarsAreFairlyPassed`, `EveryLaterVipCanPass`).
- RFC 8439 wants a fresh counter for every block of a message. The code provides that up to
  2^38 bytes and then wraps silently (`CountersFreshUpToWrap`).
- The bounded stack can stop for good, whatever its size and the number of threads:
  `StuckBothWays` reaches both ways of stopping, and `StuckExactly` shows there is no third.
- A philosopher can be kept hungry for any number of steps if and only if there are four or
  more; with two or three the longest hunger is exactly 6 or 21 steps
  (`HungerIsUnboundedExactly`, `HungerLastsExactly`).

## Model

| member | source | states |
|---|---|---|
| `CarQueue.SortIsTheStableOrder` | garage-simulator/queue.c:22-34 | a queue is what the sort returns if and only if it is ordered by priority, then entry time, and every group of equal keys keeps the order it had in the input |
| `CarQueue.SortedWithSameTiersIsUnique` | garage-simulator/queue.c:18-21 | the two criteria and stability leave no choice: two sorted queues with the same groups are equal |
| `CarQueue.SortContents` | garage-simulator/queue.c:22-34 | sorting loses and invents no car |
| `CarQueue.SortKeepsOrder` | garage-simulator/queue.c:22-34 | a car stays ahead of every car without a strictly better key |
| `CarQueue.InsertIsStable` | garage-simulator/queue.c:51-59 | an arriving car goes behind its equals, and no group is reordered |
| `CarQueue.InsertKeepsSorted` | garage-simulator/queue.c:51-59 | inserting into a sorted queue gives a sorted queue |
| `PriorityQueueInPlace.PriorityQueue.MakeRoom` | garage-simulator/queue.c:51-57 | the loop moves up exactly the records at the back that the key beats and leaves the others and the rest of the array alone |
| `PriorityQueueInPlace.PriorityQueue.ShiftIn` | garage-simulator/queue.c:51-58 | loop and store leave the key behind the last record it does not beat, all others in order, and the rest of the array alone |
| `PriorityQueueInPlace.PriorityQueue.Add` | garage-simulator/queue.c:44-62 | on a full queue nothing changes; otherwise the view becomes the ordered insertion, the records gain exactly the new one, and `queue_sem` is posted once |
| `PriorityQueueInPlace.PriorityQueue.Pop` | garage-simulator/queue.c:69-81 | NULL and no change on an empty queue; otherwise the head, and the rest in the same order |
| `PriorityQueueInPlace.PriorityQueue.SortOneMore` | garage-simulator/queue.c:23-33 | one turn of the outer loop inserts record i into the sorted front |
| `PriorityQueueInPlace.PriorityQueue.InsertionSort` | garage-simulator/queue.c:22-34 | the array of pointers, sorted in place, shows the sort of what it showed, with the same records |
| `PriorityQueueInPlace.PriorityQueue.Promote` | garage-simulator/threads.c:88-102 | one monitor pass promotes exactly the regular cars past the threshold and restores the order |
| `GarageInvariants.InitHolds` | garage-simulator/main.c:17-36 | the invariant holds after main's initialization, for all constants |
| `GarageInvariants.StepKeepsInv` | garage-simulator/threads.c:33-250 | every step of every thread keeps it, for any constants: conservation of each resource, tickets, queue contents, mutex ownership, both worker arrays |
| `GarageInvariants.ReachableInv` | garage-simulator/threads.c:33-250 | so it holds in every reachable state |
| `GarageInvariants.PermitMeansFreeSlot` | garage-simulator/threads.c:139-153 | the semaphore guarantees a free slot when the scan begins, by counting permits against claims |
| `GarageInvariants.StationStepScans` | garage-simulator/threads.c:147-153 | and it stays so while another car's release store falls into the scan: a free slot always lies ahead, and a claim is made on a free slot |
| `GarageInvariants.PopFindsCar` | garage-simulator/threads.c:65-71 | when the manager calls `pq_pop` the queue is not empty |
| `GarageSafety.WorkersAreNeverShared` | garage-simulator/threads.c:144-163 | whatever the constants, no two cars ever hold the same mechanic or tester, and every number is within the staff, with release stores interleaved into scans |
| `GarageSafety.NobodyComesAwayEmptyHanded` | garage-simulator/threads.c:156-163 | no car is ever in a branch for "no worker despite the semaphore": at the mechanics for any constants, at the testers when they are enough |
| `GarageSafety.BusySlotsVersusHolders` | garage-simulator/threads.c:15-20 | busy slots never exceed the permits that are out; they are equal, as the comment says, if and only if no car is between its semaphore and its slot |
| `GarageSafety.SlotCommentFails` | garage-simulator/threads.c:144-147 | for any positive constants a reachable state violates the comment's equation |
| `GarageSafety.NeverOverCapacity` | garage-simulator/threads.c:52-72 | free places, the manager's place and the cars inside sum to the capacity in every reachable state, so at most N_CAPACITY are inside; likewise for each other resource |
| `GarageSafety.QueueBranchesUnreachable` | garage-simulator/threads.c:67-71 | the branch for a failed pop and the overflow branch of `pq_insert` are unreachable |
| `GarageSafety.QueueHoldsTheWaiting` | garage-simulator/threads.c:128-130 | the queue is sorted and duplicate-free, holds exactly the cars that joined and were not taken out, is as long as `queue_sem` plus the tickets in flight, and hands each car out at most once |
| `GarageSafety.PopTakesTheBest` | garage-simulator/queue.c:69-81 | the manager's pop hands out a car never handed out before, which no waiting car beats |
| `GarageProgress.StuckGarageIsEmpty` | garage-simulator/threads.c:144-250 | if no car can move and the mutexes are free, nobody is between admission and exit: the stations drain backwards along the acquisition order |
| `GarageProgress.CarsNeverDeadlock` | garage-simulator/threads.c:62-250 | in every reachable state with a created, unfinished car, a car or the manager can step, without help from the monitor |
| `GarageProgress.StepDecreases` | garage-simulator/threads.c:33-250 | a measure over all program counters drops with every step and is untouched by the monitor's |
| `GarageProgress.RunsAreBounded` | garage-simulator/threads.c:33-250 | no run makes more than K * (37 + MECHANIC + TESTER) steps besides the monitor's, whatever the schedule |
| `GarageProgress.QuietMeansClosed` | garage-simulator/main.c:58-62 | a run that only the monitor could continue has let main finish: K posts of `done_sem` used and none left, every resource and worker returned, the queue empty, and exactly the finished cars handed out |
| `GarageProgress.EveryRunCloses` | garage-simulator/main.c:58-62 | every run, failed thread creations included, extends to such an end within the bound |
| `GarageAging.StepKeepsShield` | garage-simulator/threads.c:84-105 | no insert, pop, promotion or other step puts a car in front of a waiting VIP unless it was ahead or entered strictly earlier, nor in front of any waiting car unless it may also be a VIP |
| `GarageAging.OnlyShieldedOvertake` | garage-simulator/threads.c:77-83 | hence over any run, whoever is popped before a waiting VIP was ahead of it or entered strictly earlier, and before a regular car, or else was popped as a VIP |
| `GarageAging.RegularCarsAreFairlyPassed` | garage-simulator/threads.c:77-83 | from any reachable state, whoever is popped before a waiting car, regular or not, was ahead of it, entered strictly earlier, or was a VIP when it was popped |
| `GarageAging.OvertakingIsBounded` | garage-simulator/threads.c:77-83 | from any reachable state, a VIP waiting at position k is overtaken at most k times plus once for each car that came into being with a strictly earlier reading and is neither out already nor among those k |
| `GarageAging.LaterCarsDoNotOvertake` | garage-simulator/threads.c:36-38 | with a clock that does not go backwards between the cars that came into being, no later car that was not ahead overtakes, and the bound is k plus the car's own number |
| `GarageExtremes.EveryEarlierCarCanOvertake` | garage-simulator/threads.c:88-102 | the bound is met for any number of cars and a threshold between 0 and 1 second: a VIP at the head of the queue is overtaken by all K - 1 earlier cars behind it, exactly the bound |
| `GarageExtremes.EveryLaterVipCanPass` | garage-simulator/threads.c:62-72 | for any positive constants, a regular car at the head of the queue is passed by all K - 1 later cars, who come as VIPs |
| `GarageOrder.OrderIsKept` | garage-simulator/queue.c:22-34 | two waiting cars with the same entry time never change places over any run, and are called in the order in which they stand |
| `GarageOrder.ArrivalOrderExactly` | garage-simulator/queue.c:51-59 | for two cars with the same entry time, the later arrival stands ahead, in every later state in which both wait, if and only if it was a VIP and the other still regular when it was inserted; whoever stands ahead is called first |
| `GarageExtremes.LaterCarStandsAhead` | garage-simulator/threads.c:88-102 | for at least two cars and a threshold between 0 and 1 second, a reachable queue in which both are VIPs with the same entry time and the later arrival is first |
| `GarageAging.PromotionNeedsALaterSecond` | garage-simulator/threads.c:89-93 | for a threshold between 0 and 1 second, a regular car is promoted if and only if the clock shows a later second than its entry |
| `GarageAging.PromotionInElapsedTime` | garage-simulator/threads.c:89-93 | for real instants a <= b read as whole seconds, the car is promoted if and only if floor(b) > floor(a), and always after a full second |
| `GarageAging.WaitBelowASecondDecidesNothing` | garage-simulator/threads.c:90-93 | for every wait shorter than a second there is a car that is promoted after it and one that is not |
| `GaragePromotion.PassPromotes` | garage-simulator/threads.c:88-102 | a monitor pass touches only the queue: a regular entry becomes a VIP exactly if its wait is up to the threshold, every other stays as it was, nobody comes or goes, and the result is sorted |
| `GaragePromotion.VipExactly` | garage-simulator/threads.c:77-83 | over any run, a waiting car stands as a VIP if and only if it was drawn one or some pass found it in the queue with its wait up to the threshold |
| `GarageQueue.PassStep` | garage-simulator/threads.c:88-102 | the pass on the array of pointers is the pass of the transition system |
| `GarageQueue.InsertStep` | garage-simulator/queue.c:44-62 | so is the insertion, with its full-queue branch and its post |
| `GarageQueue.PopStep` | garage-simulator/threads.c:67-71 | and the manager's pop, with its NULL branch and the car it hands out |
| `GarageStaffing.TesterBranchReachableExactly` | garage-simulator/threads.c:219-225 | with positive constants, a reachable state has a car in the branch for "no tester despite the semaphore" if and only if workers, cars and capacity all exceed the number of testers |
| `Words.LoadValue` | crypto and auth/sha256.c:40-46 | a big-endian load is the number that the four bytes stand for, a little-endian one the number they stand for backwards |
| `Words.StoreBEValue` | crypto and auth/sha256.c:113-119 | the four bytes of a big-endian store stand for the word's value |
| `Words.StoreLEValue` | crypto and auth/chacha20.c:59-64 | so do those of a little-endian store, backwards |
| `Words.RotlMovesBits` | crypto and auth/common.h:34-37 | for every amount, each bit comes from that many places below, around the end |
| `Words.RotrMovesBits` | crypto and auth/common.h:39-42 | or from that many places above |
| `Sha256Constants.TableIsTheFirstPrimes` | crypto and auth/sha256.c:11-12 | the 64 table entries are exactly the primes below 312 |
| `Sha256Constants.ConstantsAreCubeRoots` | crypto and auth/sha256.c:11-22 | every round constant is the first 32 bits of the fractional part of the cube root of its prime, as an inequality on third powers |
| `Sha256Constants.InitialValueIsSquareRoots` | crypto and auth/sha256.c:24-30 | the initial words are those of the square roots of the first eight primes |
| `Sha256Example.DigestOfAbc` | crypto and auth/sha256.c:37-128 | the digest of "abc" is the one that FIPS 180-4 gives, derived through all 64 words and rounds |
| `Sha256Stream.HashOneMore` | crypto and auth/sha256.c:72-75 | one more block is compressed into the value of all the blocks before it |
| `Sha256Spec.PadShape` | crypto and auth/sha256.c:96-111 | the padded message extends the message by 0x80, the least number of zeros that fills a block, and the 64-bit big-endian bit length |
| `Sha256Spec.PadIsInjective` | crypto and auth/sha256.c:96-111 | different messages below 2^64 bits have different paddings |
| `Sha256Spec.BigEndianByShift` | crypto and auth/sha256.c:107-110 | the bytes that shifting brings down are the big-endian digits of the number |
| `Sha256Stream.AbsorbHolds` | crypto and auth/sha256.c:82-93 | the update loop, from any fill of the buffer, compresses exactly the complete blocks of the message so far and keeps the rest |
| `Sha256Stream.UpdateExtends` | crypto and auth/sha256.c:80-94 | an update turns a context for m into one for m followed by the data, counter included |
| `Sha256Stream.FinalPads` | crypto and auth/sha256.c:98-120 | both branches of `sha256_final` produce the FIPS 180-4 digest of the message |
| `Sha256Stream.StreamingIsDigest` | crypto and auth/sha256.c:80-120 | for every list of pieces, init, one update per piece and final give the digest of the joined pieces |
| `Sha256.Context.constructor` | crypto and auth/sha256.c:26-33 | `sha256_init` sets the initial value of section 5.3.3 and an empty buffer |
| `Sha256.Context.Schedule` | crypto and auth/sha256.c:38-53 | the 64-word array equals the recurrence of section 6.2.2 |
| `Sha256.Context.Mix` | crypto and auth/sha256.c:56-70 | the eight rotating locals are the working variables after 64 rounds |
| `Sha256.Context.Transform` | crypto and auth/sha256.c:37-76 | one call compresses the buffer into the chaining value |
| `Sha256.Context.Update` | crypto and auth/sha256.c:80-94 | the loop over the partial-block buffer refines the update on values and leaves fewer than 64 bytes buffered |
| `Sha256.Context.AppendLength` | crypto and auth/sha256.c:108-110 | the shifting loop completes the block with the big-endian length |
| `Sha256.Context.Final` | crypto and auth/sha256.c:98-120 | padding loops, last compressions and serialization refine final on values |
| `Sha256.Hash256` | crypto and auth/sha256.c:123-128 | the one-shot wrapper returns the FIPS 180-4 digest of its input |
| `ChaCha20.QuarterRoundIsInvertible` | crypto and auth/chacha20.c:19-24 | the quarter round has an explicit inverse on both sides |
| `ChaCha20.RoundIsInvertible` | crypto and auth/chacha20.c:45-54 | so has a column round and a diagonal round |
| `ChaCha20.RoundsAreInvertible` | crypto and auth/chacha20.c:43-55 | and so any number of double rounds: the core is a permutation of the sixteen-word states |
| `ChaCha20.CoreSeparatesInputs` | crypto and auth/chacha20.c:31-55 | different keys, nonces or counters never meet after the rounds |
| `ChaCha20.QuarterRoundInPlace` | crypto and auth/chacha20.c:19-24 | the four in-place lines compute the quarter round of section 2.1 and touch nothing else |
| `ChaCha20.ColumnRound` | crypto and auth/chacha20.c:46-49 | four sequential quarter rounds equal the simultaneous round on all columns |
| `ChaCha20.DiagonalRound` | crypto and auth/chacha20.c:51-54 | likewise on all diagonals |
| `ChaCha20.PutWords` | crypto and auth/chacha20.c:59-64 | the serializing loop writes the words in order, low byte first |
| `ChaCha20.BlockInto` | crypto and auth/chacha20.c:26-65 | `chacha20_block` fills the buffer with the keystream block of section 2.3 |
| `ChaCha20.WordOfBlock` | crypto and auth/chacha20.c:57-64 | word i of the block is word i of the state after twenty rounds plus word i of the initial state |
| `ChaCha20.InitialSpells` | crypto and auth/chacha20.c:30-37 | the initial state is "expand 32-byte k", the key, the counter and the nonce as little-endian words |
| `ChaCha20Example.QuarterRoundExample` | crypto and auth/chacha20.c:19-24 | the quarter round of section 2.1.1 of RFC 8439 |
| `ChaCha20Example.BlockExample` | crypto and auth/chacha20.c:26-65 | the block of section 2.3.2, derived double round by double round |
| `FileCrypt.ZerosGiveTheBlocks` | crypto and auth/file_io.c:44-52 | encrypting zeros gives byte j of the block with counter m mod 2^32 at position 64 m + j, so the counter begins at 0 |
| `FileCrypt.XorStream` | crypto and auth/file_io.c:38-58 | for every length, byte i of the output is byte i of the input XOR byte i mod 64 of keystream block i/64 mod 2^32 |
| `FileCrypt.RoundTrip` | crypto and auth/file_io.c:83-115 | decrypting what encryption wrote returns the plaintext, for every key, nonce and length; the file is 12 bytes longer |
| `FileCrypt.DecryptedThenEncrypted` | crypto and auth/file_io.c:101-115 | decryption fails exactly on files shorter than a nonce; any other file is the encryption of its decryption |
| `FileCrypt.PrefixGivesPrefix` | crypto and auth/file_io.c:44-53 | encrypting a prefix gives a prefix of the file |
| `FileCrypt.ChangesCarryOver` | crypto and auth/file_io.c:44-53 | flipping bits of the data flips exactly the same bits of the result |
| `FileCrypt.CountersFreshUpToWrap` | crypto and auth/file_io.c:44-50 | all blocks of a message have different counters if and only if it has at most 2^38 bytes |
| `FileCrypt.EncryptFile` | crypto and auth/file_io.c:83-86 | the file is the nonce followed by the ciphertext |
| `FileCrypt.DecryptFile` | crypto and auth/file_io.c:101-115 | too-short files are reported, others are decrypted under their own nonce |
| `Words.StoreAfterLoadLE` | crypto and auth/common.h:27-32 | storing what `load32_le` loaded gives back the four bytes |
| `Philosophers.StepKeepsInv` | concurrent-systems/dining-philosophers/dining-philosophers.c:39-66 | every statement keeps: at most one philosopher in the critical section, moods that fit the program counters, no two neighbours eating, nobody hungry forgotten |
| `Philosophers.AtMostHalfEat` | concurrent-systems/dining-philosophers/dining-philosophers.c:38-66 | in every reachable state no two neighbours eat, between the two tests included, and at most n/2 (rounded down) philosophers eat |
| `Philosophers.NoLostWakeup` | concurrent-systems/dining-philosophers/dining-philosophers.c:50-66 | whenever the mutex is free every hungry philosopher has an eating neighbour; semaphores are 0 or 1; EATING means an unused post or a meal not yet put down |
| `Philosophers.HungerMeansProgress` | concurrent-systems/dining-philosophers/dining-philosophers.c:50-66 | whenever somebody is hungry, a philosopher who is not thinking can step, for every n >= 2 |
| `Philosophers.EveryoneIsServed` | concurrent-systems/dining-philosophers/dining-philosophers.c:69-77 | from every reachable state some schedule in which nobody stops thinking serves everyone who is inside |
| `Philosophers.ServiceTakesExactly` | concurrent-systems/dining-philosophers/dining-philosophers.c:69-77 | and any schedule of theirs spends the same number of steps, so service ends however it is scheduled |
| `Philosophers.StuckMeansServed` | concurrent-systems/dining-philosophers/dining-philosophers.c:69-77 | if nobody inside can step, nobody is inside |
| `Philosophers.HungerEnds` | concurrent-systems/dining-philosophers/dining-philosophers.c:59-66 | with two or three philosophers, no run from a reachable state in which one is HUNGRY in every state has more than 6 or 21 steps, however it is scheduled |
| `Philosophers.HemmedIsReachable` | concurrent-systems/dining-philosophers/dining-philosophers.c:51-57 | for every n >= 4, a table with 0 and 2 eating, 1 hungry between them and the rest thinking is reachable |
| `Philosophers.HungerCanLast` | concurrent-systems/dining-philosophers/dining-philosophers.c:60-66 | from there, for every n >= 4 and any number of laps, 0 and 2 go round once per lap, nobody else moves, and 1 is HUNGRY in every state of the run |
| `Philosophers.HungerIsUnboundedExactly` | concurrent-systems/dining-philosophers/dining-philosophers.c:50-66 | somebody can be HUNGRY throughout runs of every length if and only if n >= 4 |
| `LongestHunger.HungerLastsExactly` | concurrent-systems/dining-philosophers/dining-philosophers.c:50-66 | for every n >= 2 and k, a run of at least k steps with somebody HUNGRY in every state exists if and only if n >= 4, or n is 3 and k <= 21, or n is 2 and k <= 6 |
| `Philosophers.Table.TestOne` | concurrent-systems/dining-philosophers/dining-philosophers.c:39-48 | `test` on the shared arrays is the modelled test |
| `Philosophers.Table.TakeSection` | concurrent-systems/dining-philosophers/dining-philosophers.c:53-54 | the critical section of `take_sticks` is two model steps |
| `Philosophers.Table.PutSection` | concurrent-systems/dining-philosophers/dining-philosophers.c:62-64 | the critical section of `put_sticks` is three model steps |
| `BoundedStack.StepKeepsInv` | concurrent-systems/thread-safe-stack/Threads-safe_stack.c:55-76 | every step keeps the two accounting equations between `idx`, both semaphores and the threads in between, mutex ownership, and the legality of the history |
| `BoundedStack.RunsAreLinearizable` | concurrent-systems/thread-safe-stack/Threads-safe_stack.c:55-76 | in every run of any number of threads, the operations in mutex order are a legal history of one sequential bounded stack that ends in the stored contents, and every thread's calls returned exactly their part of it |
| `BoundedStack.EveryCallIsAnswered` | concurrent-systems/thread-safe-stack/Threads-safe_stack.c:55-76 | in every run, each thread's operations, finished, pending or about to happen, are those of its calls in call order, and every push has the value passed to it |
| `BoundedStack.LogOnlyGrows` | concurrent-systems/thread-safe-stack/Threads-safe_stack.c:55-76 | later operations come after earlier ones in that history |
| `BoundedStack.NeverOutOfRange` | concurrent-systems/thread-safe-stack/Threads-safe_stack.c:58-71 | `stk` is never indexed out of range |
| `BoundedStack.StuckExactly` | concurrent-systems/thread-safe-stack/Threads-safe_stack.c:39-49 | no thread can move if and only if all pop from an empty stack or all push onto a full one |
| `BoundedStack.StuckBothWays` | concurrent-systems/thread-safe-stack/Threads-safe_stack.c:39-49 | for every capacity and every positive number of threads, runs lead to a state with all threads stuck on an empty stack and to one with all stuck on a full one |
| `BoundedStack.Shared.PushSection` | concurrent-systems/thread-safe-stack/Threads-safe_stack.c:58-58 | the store and increment are the model's push |
| `BoundedStack.Shared.PopSection` | concurrent-systems/thread-safe-stack/Threads-safe_stack.c:71-71 | the decrement and load are the model's pop, and the value is the one the call will return |
| `Pipeline.StepKeepsInv` | concurrent-systems/semaphores/Semaphores.c:45-70 | every step keeps one round's worth of tokens among the semaphores, the program counters and the flag's parity, and the letters printed in phase with them |
| `Pipeline.EveryRunPrintsABCC` | concurrent-systems/semaphores/Semaphores.c:16-70 | every run prints a prefix of ABCC repeated for ever, and some thread can always step |
| `Pipeline.CPrintsBetweenThePosts` | concurrent-systems/semaphores/Semaphores.c:57-67 | a run in which C prints its first letter between B's two posts |
| `Pipeline.OutputGrows` | concurrent-systems/semaphores/Semaphores.c:45-70 | a run of n steps has printed at least n/4 - 1 letters, however it is scheduled |

## Left out

- The interleaved threads of `threads.c`, `main.c`, `Semaphores.c`, the philosophers and the
  stack are steps on values, because Dafny methods do not interleave. What that does not
  capture is update in place of the worker arrays and of `car_entry` by several threads.
- `garage-simulator/hw3.c`: the same program in one file.
- `print_log`, `is_vip`, `usleep` and random work times: labels or nothing.
- The fatal branches of `main` when the creator, monitor or manager thread cannot be created,
  and the end of the process under the running monitor and manager.
- Failures of `sem_init`, of `fopen`, `fread` and `fwrite`, and of the random source, and the
  wiping of buffers.
- `derive_key`, `verify_passcode`, `ct_memcmp` and the command line of the crypto tool: one
  short loop each.
- Cryptographic strength, timing and nonce uniqueness.
- The shells and the matrix, Fibonacci, binary-tree, cpu-runtime and file-encryptor labs.
- Weak memory, and overflow of the C `int` counters.
- Individual progress of four or more philosophers and deadlock freedom of the stack: false
  of the code, see `HungerIsUnboundedExactly` and `StuckBothWays`.
- Sha256Stream.StreamingIsDigest: FIPS 180-4 defines the digest for messages below 2^64 bits;
  beyond that the statement holds with the length field modulo 2^64.

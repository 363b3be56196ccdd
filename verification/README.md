# arc-swap: the debt protocol, verified

`arc-swap` keeps a reference-counted pointer in an atomic cell. Readers load it without touching the
count: they write the pointer into a debt slot. Writers exchange the pointer, then walk over all nodes,
help readers that are in the middle of a load, and pay the debts they find. This project models that
protocol as a machine with one step per atomic operation, for any number of threads, storages and
objects, and proves that counts are conserved, that nothing in use is freed, that loads are linearizable
and wait-free, that exchanges are atomic, that the hand-over between writers and readers never goes
astray, and that concurrent calls of `rcu` lose no update. Beside it stand the life of the nodes, the
lock-based strategy, the loops as one thread runs them, and the machine words behind generations and tags.

| file | content |
|---|---|
| `Ledger.dfy` | counts, debt slots, claims; every operation on them keeps the books balanced |
| `Machine.dfy` | the hybrid strategy as a step machine: load, helping, `pay_all`, `swap`, `compare_and_swap`, drop |
| `Ownership.dfy` | which program point holds which claim |
| `Protocol.dfy` | loads, control words and what a helper knows about the node it looks at |
| `Envelopes.dfy` | the exchange of handover envelopes |
| `Backing.dfy` | why an unpaid debt is safe |
| `History.dfy` | what returned calls say about the past of a storage |
| `Invariant.dfy` | all of it is kept by every step, hence holds in every run |
| `Safety.dfy`, `Linearizability.dfy`, `Handshake.dfy` | counts, loads and the hand-over in every run |
| `Exchanges.dfy` | `swap` and `compare_and_swap` in every run: one entry of their own, and who is to blame for a retry |
| `Handles.dfy` | what the program holds stays alive; the cache |
| `ReadCopyUpdate.dfy` | the loop of `rcu` on top of the machine |
| `Updates.dfy` | no update is lost |
| `Accounts.dfy` | what each step takes from the program and gives to it |
| `Delivery.dfy` | what whole calls of `load`, `swap`, `compare_and_swap`, `into_inner` and the destructor take, give and release |
| `RcuAccounts.dfy` | the same for `rcu` |
| `FastPath.dfy`, `Progress.dfy` | when a load falls back, what the fast path spares, and how writers come to an end |
| `Generations.dfy` | generations and tags as machine words of `w` bits |
| `Lifecycle.dfy` | the node list, the USED / COOLDOWN / UNUSED states and writers' reservations |
| `LockStrategy.dfy` | the lock-based strategy, refined to a sequential register |
| `Sequential.dfy` | the slot search and the walk of `pay_all` over arrays and linked nodes |
| `Register.dfy` | the code of `rcu` and of the cache as one thread runs it, on a register that others write to |

## How the proof goes

A *claim* is one Rust value that stands for a reference: the pointer in a storage, a handle, a guard, a
reader's unconfirmed debt, a writer's pre-paid count, a replacement in a control word. A live claim is
either paid, by one unit of the count, or owed, by the slot it has filled. Counts are the numbers of paid
claims, so *count + slots = claims* (`Ledger.Conservation`) whatever the interleaving, also when a guard
returns a debt that a later reader has placed in the same slot for the same object. That an owed claim
is safe to use is a separate argument: some storage still has the object, or a writer that took it out
has yet to come to that slot (`Safety.DebtsAreBacked`). For the fallback this needs the handshake: a
writer leaves `help` on a node only if no transaction on its storage published before its exchange is
still open there.

That nothing is lost takes both sides. The invariant says that storages, control words and threads have just
the claims they need. What the *program* has, its handles and guards, changes with each step by just what the
step should take or give (`Accounts.StepsAreAccounted`), and over a whole call by its argument and its result
(`Delivery.dfy`, `RcuAccounts.dfy`).

`rcu` and the cache only use the public operations, so each of their steps is a step of the machine and all
that holds in its runs holds for them. The function given to `rcu` is not modelled: it may return any
owned value. The machine records which value it returned for which, and a pure function is any `f` that
agrees with this record.

## Assumptions

- Atomic operations are sequentially consistent, including those the code makes weaker
  (src/debt/fast.rs:54, src/cache.rs:164, src/debt/list.rs:56, src/debt/list.rs:117, src/debt/list.rs:129-143).
- Identities of objects are never reused. The already-paid branch of `attempt`
  (src/strategy/hybrid.rs:63-66) relies on this; src/debt/mod.rs:57-63 says so.
- In the protocol machine thread `t` owns node `t` throughout, and generations are unbounded. What justifies
  the first is in `Lifecycle.dfy`, with the exact condition under which the code keeps it; the second is
  faithful until a counter has made 2^(w-2) transactions (`Generations.EncodingIsFaithful`).
- Guards and handles may be moved between threads, so cloning and dropping them are steps of no particular thread.
- Callbacks do not use the crate from the thread that is inside `rcu`.
- Taking a storage apart (`into_inner`, its destructor) needs exclusive access: no thread is inside an
  operation on it. Rust's borrow checker grants this.
- A null pointer is an object whose count nobody looks at.
- `USE_FAST` is a choice made for each storage.

## A property the code does not have

`check_cooldown` reads `in_use`, reads `active_writers` and exchanges `in_use` in three separate steps. A
thread that read the zero in one cooldown may do the exchange in a later one, under a reservation made
meanwhile; then that reservation spans two ownerships of the node (`Lifecycle.ReservationCanSpanTwoOwnerships`
gives the run; in `Lifecycle.GenerationCanBeReused` the second owner even opens a transaction with the same
generation as the first, so that a helper could not tell them apart). `Lifecycle.SpansTwoOwnershipsIff` says exactly when this happens: such a stale release
came after the reservation had met an owner, and the node was claimed again before the reservation ended.
`Lifecycle.ReservationSpansOneOwnership` and `Lifecycle.HelperFindsSameTransaction` are the promise in all
other cases.

## Model

| member | source | states |
|---|---|---|
| `Invariant.RunsInv` | src/strategy/hybrid.rs:42-237 | the whole invariant (balanced counts, held claims, control words, envelopes, backed debts and candidates, logs) holds in every state of every run |
| `Invariant.InitInv` | src/debt/list.rs:50 | it holds with no objects, no storages and an empty list |
| `Invariant.StepInv` | src/strategy/hybrid.rs:42-237 | every step of every thread, and of the program around, keeps it |
| `Invariant.LoadStepInv` | src/strategy/hybrid.rs:42-97 | every step of a load can be taken and keeps it, on the fast, fallback and helped paths |
| `Invariant.HelpStepInv` | src/debt/helping.rs:215-302 | every step of `help` keeps it |
| `Invariant.PayStepInv` | src/debt/mod.rs:81-114 | every step of `pay_all` keeps it |
| `Invariant.CasStepInv` | src/strategy/hybrid.rs:210-237 | every step of `compare_and_swap` after its load keeps it |
| `Invariant.CasFailInv` | src/strategy/hybrid.rs:223-225 | so does a spurious failure of the weak exchange |
| `Invariant.AttachInv` | src/debt/list.rs:168-193 | so does prepending a node, before an operation or, for `swap`, after its exchange, with spurious failures |
| `Invariant.BeginInv` | src/lib.rs:345-522 | so does the beginning of `load`, `swap`, `compare_and_swap`, `into_inner` and of the destructor |
| `Invariant.UserInv` | src/strategy/hybrid.rs:105-156 | so does what the program does with guards and handles |
| `Ledger.IncBalanced` | src/debt/mod.rs:89 | an increment with a new owner keeps every count equal to its paid claims |
| `Ledger.DecBalanced` | src/strategy/hybrid.rs:123 | giving an owned claim back does |
| `Ledger.PlaceBalanced` | src/debt/fast.rs:54-59 | so does writing a debt into an empty slot |
| `Ledger.PayOwnBalanced` | src/debt/mod.rs:57-78 | so does returning one's debt, even if the slot was paid and filled again by another claim on the same object |
| `Ledger.PayForBalanced` | src/debt/mod.rs:101-107 | so does paying with a pre-paid count: it passes to whoever filled the slot |
| `Ledger.Conservation` | src/debt/mod.rs:81-114 | in balanced books, the count plus the slots with an object equal the live claims on it |
| `Ownership.LoadStepOwned` | src/strategy/hybrid.rs:42-97 | after each step of a load every program point has the claims it relies on, and no live claim is forgotten |
| `Ownership.PayStepOwned` | src/debt/mod.rs:81-114 | the same for `pay_all` and `help` |
| `Ownership.CasStepOwned` | src/strategy/hybrid.rs:216-236 | the same for `compare_and_swap` |
| `Ownership.InstallOwned` | src/lib.rs:485-496 | an exchange moves one claim into the storage and one out to the writer |
| `Backing.RecheckBacked` | src/strategy/hybrid.rs:50-58 | a fast debt confirmed by the second read is backed by the storage |
| `Backing.CloseBacked` | src/debt/helping.rs:308-320 | a candidate confirmed by closing the transaction is backed by the storage or by a writer yet to come |
| `Backing.HelpStepKeeps` | src/debt/helping.rs:222-302 | a writer leaves `help` on a node only when no transaction on its storage is open there |
| `Backing.PayStepWatches` | src/debt/mod.rs:100-108 | a writer passes a slot only when it does not have the writer's object |
| `Envelopes.HandOver` | src/debt/helping.rs:258-289 | a successful hand-over exchanges the envelopes of two different nodes and leaves all others |
| `Envelopes.FillKeeps` | src/debt/helping.rs:268-272 | a helper writes into its own envelope only, never into one in flight |
| `Safety.NothingDangles` | src/strategy/hybrid.rs:42-97 | in every state of every run, what a storage has and what a full count or a confirmed debt refers to has a count of at least one |
| `Safety.DebtsAreBacked` | src/debt/mod.rs:81-114 | an unpaid confirmed debt is backed by a storage, or by a writer that has yet to come to that slot |
| `Safety.StepTouches` | src/debt/mod.rs:86-113 | no step changes the count of a freed object |
| `Safety.FreedStaysFreed` | src/lib.rs:485-496 | an object whose count has come to zero is never brought back |
| `Safety.CountsAreClaims` | src/strategy/hybrid.rs:86-156 | at any time count plus slots equals the live claims, and claims and the points that hold them match one to one |
| `Safety.NothingLeaks` | src/strategy/hybrid.rs:105-156 | between operations count plus slots equals the storages with the object plus the guards and handles of the program |
| `Safety.PaymentsArePrepaid` | src/debt/mod.rs:87-107 | at each paying exchange the writer has a count for the debt besides its own, so the count is at least two |
| `Accounts.StepsAreAccounted` | src/strategy/hybrid.rs:105-156 | each step changes the live claims of the program by just what it should: a thread's step gives the result of the call that returns with it, or nothing; cloning, dropping, storing and allocating change it by their one handle, and counts and slots with it |
| `Accounts.GuardsAreDropped` | src/strategy/hybrid.rs:105-125 | the whole drop of a guard: the guard is spent, and either its slot is empty and no count has changed, or its debt had been paid and the count of its object is one less; the program's other claims stay |
| `Delivery.LoadHandsOver` | src/lib.rs:472-478 | over a whole call: the program gets one guard, with the return, on a live object that the storage had during the call |
| `Delivery.SwapHandsOver` | src/lib.rs:485-496 | over a whole call: the new value is taken with the first step, and with the last the program gets the very count the storage had on the old value, owned and alive, and nothing in between |
| `Delivery.IntoInnerHandsOver` | src/lib.rs:407-414 | over a whole call: the program gets the very count the storage had, and nothing before |
| `Delivery.DestructorReleases` | src/lib.rs:345-355 | over a whole call: the count the storage had is given back, and the program gets nothing |
| `Delivery.CompareAndSwapHandsOver` | src/strategy/hybrid.rs:210-237 | over a whole call: the program loses the new value and gains one guard on a live object; after an exchange the new value's count is in the storage and the old one's is given back, after a miss the new value's is |
| `Linearizability.LoadsAreLinearizable` | src/strategy/hybrid.rs:189-198 | a load returns what the storage had at a state after its call and before its return, on all paths, nested loads of helpers included |
| `Linearizability.ReadsDoNotGoBack` | src/strategy/hybrid.rs:42-97 | successive loads of one thread from one storage do not go back in its modification order |
| `Linearizability.InstalledOverExpected` | src/strategy/hybrid.rs:222-226 | what a compare-exchange installed stands directly behind what it expected |
| `Linearizability.WasContent` | src/lib.rs:485-496 | each entry of a storage's log was its content at some state of the run |
| `Handshake.AssertionsAlwaysHold` | src/debt/helping.rs:195-234 | the assertions on control words and slots hold, nobody helps itself, and outside of a fallback the control word is idle and the helping slot empty |
| `Handshake.HandOverReachesItsTransaction` | src/debt/helping.rs:236-290 | a successful exchange reaches the transaction the helper saw, on the helper's storage, with a replacement read after that transaction was published |
| `Handshake.HelpedReaderReadsItsReplacement` | src/debt/helping.rs:322-330 | a helped reader reads from the envelope the object whose count was handed over to it |
| `Handshake.NobodyIsLeftBehind` | src/debt/mod.rs:91-98 | after `help` on a node, a transaction open there on the writer's storage was published after the writer's exchange |
| `Handshake.EnvelopesInBijection` | src/debt/helping.rs:304-332 | envelopes and nodes are in bijection, those in flight included |
| `Handshake.NobodyWaits` | src/docs/performance.rs:7-11 | a thread inside any operation can always take its next step |
| `Handshake.LoadsAreWaitFree` | src/docs/performance.rs:7-9 | a load is through after at most 30 steps of its own thread, whatever the others do |
| `Handshake.HelpRoundsAreCharged` | src/debt/helping.rs:240-251 | each further round of `help` is for a younger transaction of that node |
| `Exchanges.CompareAndSwapIsAtomic` | src/strategy/hybrid.rs:210-237 | over a whole call: it returns `current` exactly if one step of its own between call and return has put the new value directly over `current`, and then no other step of its own stores; otherwise none does, and the result was the content of the storage in between |
| `Exchanges.SwapIsAtomic` | src/lib.rs:485-496 | over a whole call: the new value goes in with one step, and what it replaced there is returned |
| `Exchanges.IntoInnerIsAtomic` | src/lib.rs:407-414 | over a whole call: the last content is returned and nothing is stored |
| `Exchanges.ExchangesAreDistinct` | src/lib.rs:485-522 | in every state no two exchanges, returned or on their way, have replaced the same entry |
| `Exchanges.RetriesAreCharged` | src/strategy/hybrid.rs:216-236 | if the exchange of an attempt fails, not spuriously, another thread has replaced just what the attempt's own load had read, during the call |
| `Exchanges.RetriesReadLater` | src/strategy/hybrid.rs:216-236 | each later attempt of the call reads a later entry |
| `Handles.HandlesStay` | src/strategy/hybrid.rs:105-156 | what the program owns is unchanged, with its object alive, until a step names it |
| `Handles.CacheLoadIsFresh` | src/cache.rs:148-168 | over a whole call of `Cache::load`, with the reload as a load of the protocol: the result was the content of the storage during the call, and the object of the cached copy is alive throughout, so that an equal pointer means the same object |
| `ReadCopyUpdate.WorldRunsInv` | src/lib.rs:622-639 | the invariant of the loop, with its guards and the drops between its rounds, holds in every run with any number of concurrent `rcu` calls and other writers |
| `ReadCopyUpdate.RunsOfTheMachine` | src/lib.rs:622-639 | such a run is a run of the protocol machine |
| `ReadCopyUpdate.VerdictIsRight` | src/lib.rs:631-633 | the loop's comparison of `prev` and `cur` says exactly whether the exchange has stored the new value |
| `ReadCopyUpdate.FunctionSeesLiveObject` | src/lib.rs:628-630 | the object that the function looks at is alive while it runs |
| `ReadCopyUpdate.TailNeverBlocks` | src/lib.rs:633-637 | after `compare_and_swap` the loop can always take its next step |
| `RcuAccounts.ActAccounted` | src/lib.rs:622-639 | an action of `rcu` takes from the program what the function has returned and gives it the result with the end of the call, and nothing else |
| `RcuAccounts.RcuHandsOver` | src/lib.rs:622-639 | over a whole call: the program gets one claim, owned and on the live object that the exchange has replaced, and loses only what the function returned; each guard and count the call has had is spent when it lets go of it |
| `RcuAccounts.NextRoundIsNewer` | src/lib.rs:630-637 | after a miss the next round computes from just what `compare_and_swap` has returned, which is not what the last one has computed from |
| `Updates.EachRcuHasItsEntry` | src/lib.rs:622-639 | a returned `rcu` has an entry of its own: what the function returned, directly behind what it was given; no other `rcu`, returned or on its way, has the same |
| `Updates.NoUpdateIsLost` | src/lib.rs:622-639 | where only `rcu` is called to write, the content is the first content with the function applied once for each `rcu` that has returned or has stored its update |
| `Progress.WritersGoOn` | src/debt/mod.rs:91-111 | each step of a walk of `pay_all` makes a measure of nodes, slots and nested loads smaller, or begins another round of `help` |
| `Progress.AttemptsGoOn` | src/strategy/hybrid.rs:216-236 | each step of an attempt of `compare_and_swap` brings it closer to its exchange, its return or the end of the attempt |
| `FastPath.FallbackOnlyIfFull` | src/debt/fast.rs:43-65 | a load goes over to the fallback after its search only if it has found each of the eight fast slots of its node taken |
| `FastPath.UndisturbedLoadCountsNothing` | src/strategy/hybrid.rs:42-58 | a load that nobody interferes with, and that has a free slot, changes no count and returns a debt |
| `Generations.Counter.Advance` | src/debt/helping.rs:191-198 | the word has its tag and fits; the discard signal comes exactly with the end of a lap |
| `Generations.Laps` | src/debt/helping.rs:191-198 | the wrapping counter is four times the position in a lap of 2^(w-2) transactions |
| `Generations.PositionIsRemainder` | src/debt/helping.rs:191-198 | that position is the number of the transaction modulo the length of a lap |
| `Generations.GenerationsDiffer` | src/debt/helping.rs:191-213 | two transactions have the same word exactly if whole laps lie between them |
| `Generations.FirstDiscard` | src/docs/performance.rs:7-9 | the first discard comes with transaction 2^(w-2), which is `usize::MAX / 4` plus one |
| `Generations.TagsTell` | src/debt/helping.rs:117-120 | the two low bits tell idle, generation and replacement words apart |
| `Generations.EncodingIsFaithful` | src/debt/helping.rs:117-120 | within a lap, machine words are equal exactly if the control words are |
| `Generations.HelpersCompareExactly` | src/debt/helping.rs:240-290 | in a run without a wrap, a helper's comparisons on machine words are those of the protocol |
| `Lifecycle.RunsInv` | src/debt/list.rs:92-194 | the invariant of the node list holds in every state of every run |
| `Lifecycle.StepInv` | src/debt/list.rs:92-194 | every step of every thread and writer keeps it |
| `Lifecycle.OwnershipIsExclusive` | src/debt/list.rs:113-119 | `active_writers` is the number of live reservations; a node is USED exactly if a thread owns it, and that is one thread, so the assertion of `start_cooldown` holds |
| `Lifecycle.TraversalMeetsEveryNode` | src/debt/list.rs:92-110 | whoever has loaded the head meets every node linked by then, each once, and comes to the end, however late it follows the links |
| `Lifecycle.NewOnlyIfNoneUnused` | src/debt/list.rs:151-167 | `Node::get` makes a new node only after it has tried each node of the list and found none unused |
| `Lifecycle.IdleNodeIsTaken` | src/debt/list.rs:125-161 | a node in a cooldown with no writer there is released and taken by the search that comes to it, if nobody interferes |
| `Lifecycle.ListGrows` | src/debt/list.rs:168-193 | the list only ever grows at its front |
| `Lifecycle.ThreadsNeverBlock` | src/debt/list.rs:151-194 | a thread can always take its next step and follows links to existing nodes only |
| `Lifecycle.ReservationSpansOneOwnership` | src/debt/list.rs:113-145 | unless a stale release has caught the reservation, whenever its node is used it is by the same thread in the same ownership |
| `Lifecycle.HelperFindsSameTransaction` | src/debt/list.rs:54-58 | unless so caught, a helper that finds the generation it had read finds the same transaction, of the same owner and open throughout, although a later owner counts from zero again |
| `Lifecycle.GenerationCanBeReused` | src/debt/list.rs:125-139 | a run in which a stale release lets two owners open a transaction with one generation under one reservation |
| `Lifecycle.SpansTwoOwnershipsIff` | src/debt/list.rs:125-139 | exactly when a reservation spans two ownerships |
| `Lifecycle.ReservationCanSpanTwoOwnerships` | src/debt/list.rs:125-139 | a run of three threads and a writer in which one does |
| `LockStrategy.RunsInv` | src/strategy/rw_lock.rs:21-63 | the invariant of the lock-based strategy holds in every state of every run |
| `LockStrategy.StepBacked` | src/strategy/rw_lock.rs:23-35 | what is read and not yet counted stays in the storage, or with a writer that waits for the lock |
| `LockStrategy.LockedNothingDangles` | src/strategy/rw_lock.rs:23-35 | counts equal owners, and an object about to be counted has a count of at least one |
| `LockStrategy.LockedFreedStaysFreed` | src/strategy/rw_lock.rs:23-35 | an object whose count has come to zero is never counted again |
| `LockStrategy.LockStrategyIsLinearizable` | src/strategy/rw_lock.rs:21-63 | the operations refine a sequential register: each call has exactly one event between call and return, with its arguments and its result; it takes its new value with the first step, gives the result with the last, and nothing in between |
| `LockStrategy.CallersAccounted` | src/strategy/rw_lock.rs:9-19 | making, cloning and dropping a handle changes what callers have, and the counts, by just that handle |
| `LockStrategy.TraceGrows` | src/lib.rs:485-496 | events are never taken back |
| `Sequential.FastSlots.GetDebt` | src/debt/fast.rs:43-65 | the debt goes into the first free slot of the rotation, nothing else changes, and the next search starts behind it |
| `Sequential.SearchOrder` | src/debt/fast.rs:44-50 | the slot found is the first free one going up from the slot behind the last one taken, and round |
| `Sequential.RefusedIffFull` | src/debt/fast.rs:43-65 | a debt is refused exactly if all eight slots are taken |
| `Sequential.PayNode` | src/debt/mod.rs:100-108 | whatever others leave in the slots until their turn comes: all slots found with the object are emptied, no other, and the count grows by their number |
| `Sequential.PayAll` | src/debt/mod.rs:81-114 | over a linked list of any length, whatever others leave in the slots: all debts found on the object are paid, no other slot changes, and the count grows by the number of these slots |
| `Register.Rcu` | src/lib.rs:622-639 | the loop as one thread runs it: the value installed is the function of exactly the value it replaces, and all writes of others are kept before it |
| `Register.Cache.Load` | src/cache.rs:148-168 | the code as one thread runs it: the value returned was in the storage during the call; a reload happens exactly if the cached pointer is not the current one |

## Left out

- Weak memory orderings: all atomic operations are sequentially consistent here.
- Reuse of addresses by the allocator, and the internals of `RefCnt`, `Weak` and `AsRaw`: counts are integers, identities are fresh.
- The transaction that wraps the generation counter: `new_helping` gives the node up (src/debt/list.rs:282-287) while `confirm_helping` expects it (src/debt/list.rs:302), so it does not complete as written.
- Machine.DoAttach: always prepends a new node; the search for an unused one, cooldowns and `active_writers` are modelled in `Lifecycle.dfy`, not in the protocol machine.
- Lifecycle.ReservationSpansOneOwnership: not for all runs, because the code does not establish it; the exact condition is `Lifecycle.SpansTwoOwnershipsIff`.
- Register.Rcu: the loop of one thread on an atomic register with a scripted environment; `rcu` in the protocol, with counts and guards, is in `ReadCopyUpdate.dfy` and `Updates.dfy`.
- Register.Cache.Load: the code of one thread, with one atomic read as reload; the cache in the protocol, with the counted copy, is `Handles.CacheLoadIsFresh`.
- Sequential.PayAll: the loop of one thread, without `help`, and with others changing slots but not counts; `pay_all` in the protocol is in `Machine.dfy`.
- ReadCopyUpdate.WorldRunsInv: the function of `rcu` does not use the crate from its own thread.
- The destructor and `into_inner` of a storage with the lock-based strategy, and lock poisoning.
- Thread-local storage: a thread has a node, or gets one before its first operation; the temporary node during shutdown is not modelled.
- Panics in callbacks and user destructors that re-enter the crate.
- `Access`, `Map`, `MapCache`, `Guard` formatting, `serde` and the conversions: thin wrappers with easy properties only.

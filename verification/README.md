# Verified models of the repository's cores

This project models the hard parts of the repository in Dafny and proves what they are for: three concurrent sets and
containers with fine-grained locking or no locks at all, a queue with two mutexes, a work-sharing parallel sort, a
red-black tree with parent pointers, a message protocol between an ATM and a bank, and three smaller algorithms.
`dafny verify dfyconfig.toml` checks everything.

## How the cores are modelled

**Concurrent cores** (`LockFreeSet`, `LockFreeStack`, `LockedSet`, `TwoLockQueue`, `ParallelSort`) are step systems. A
state holds the shared memory and, for every thread, where it stands and which locals it still needs. One step is one
atomic access of the source: a load, a compare-and-set, a lock or unlock, a read or write of a shared node, an allocation
or a deletion. `Run(n, actions)` is the state after any sequence of actions of `n` threads, so a lemma about
`Run` speaks about every interleaving of any number of threads. Steps are sequentially consistent. Memory that the source frees
leaves the modelled heap, and its address may be handed out again at once. A step is only
defined where every pointer that it follows is allocated (`Safe`); `InvSafe` and `RunInv` show that this holds for every step of
every run. Fields that no branch reads, such as
the list of linked nodes or the record of calls, are bookkeeping and are named as such where they are declared.

`Linearizability.dfy` gives the usual definition, shared by all of them. The history of a run is what its callers see: which
thread called which operation, and what it got back, in order. `Records` says that the record of calls is that of the history; and
the calls take effect one after the other in
some order, at one step inside each call, with the results that the sequential object gives, and a call that returned before
another began comes first. Failing calls have to take effect too: a `false` of the lock-free set is justified by an instant
inside the call at which the key was present (`add`) or absent (`remove`).

**The red-black tree** is modelled in place: `Node` objects whose fields the methods assign, with the same case
methods as the source. A ghost tree and the path from a subtree up to the root (`Ctx`, a zipper) say what the
fields hold; `Focus(ctx, t)` is the predicate that ties the two together. Duplicate keys are allowed, so the abstract value is the
sorted sequence of pairs.

**The ATM and the bank** are classes whose handlers are proved against functions of one message, and a system of the two
machines, two queues and a user who presses any keys at any time.

**Words**: `PackedWords` covers the packing of mark and pointer, and of count and pointer, in 64 bits, and shows when
the unpacked pairs used by the step systems are faithful.

## What was found

- `UnblockingSafeSet::find` never restarts after a failed snip. A call that runs alone returns if and only if it is not in front
  of a marked node that its predecessor no longer points to (`SoloReturnsIffNotStuck`). With an idle thread to help, it can still
  return if and only if the predecessor is not marked and the marked node has not left the list (`CanReturnIffNotDoomed`);
  there is a run of fourteen steps after which a `remove` never returns whatever the other threads do (`CallThatNeverReturns`).
  Linearizability is not affected.
- The lock-free stack needs the external count beside a node to stay below 2^16, as a comment of the source suspects: the
  increment keeps the counts of the head node right if and only if it does not wrap (`WrapBreaksCounting`). Two threads are
  enough to get there: poppers that fail in turn drive the count up to any value (`EveryCountIsReached`, `WrapIsReachable`).
  The count beside a null head may wrap, and no result depends on it.
- `Iterator::Next` reads the uninitialised variable `grand` at a root without right child. A full walk ends where it should if
  the tree is empty or its root has a right child, as in every tree of three or more nodes; otherwise the iterator is left with
  what that variable held, which is null only by luck (`RedBlackIterator.Walk`, `WalkOfThreeOrMore`). A tree of one inserted pair
  shows it (`WalkOfOne`).
- A blocking pop of the queue goes to sleep only if the queue was empty when it looked (`SleepsOnlyOnEmpty`), and with the mutexes
  free and a value there it returns within fifteen steps (`TwoLockQueueProgress.SoloPerforms`).
- `Sorter` compares the number of its threads with their limit outside the lock. The limit can be passed, but no schedule starts
  more than `2 * limit - 1` threads (`ThreadsStarted`), which two threads do reach for a limit of two (`LimitIsPassed`).
- A withdrawal that is cancelled before the bank has read it is granted and debited all the same, and nothing is paid out
  (`CancelledSession`).
- The ATM does not say which request a reply belongs to. If of two different amounts on offer the bank could grant
  the smaller, there is a run with two cancels that pays out the larger amount and debits the smaller; otherwise no run overpays
  (`SafeIffUniform`). The program's own keyboard offers one amount only, for which the account is exact
  (`FixedAmountIsExact`). The bank answers before it debits, so in between money may be out that is not yet debited
  (`PaidBeforeDebited`).

## Model

| member | source | states |
|---|---|---|
| LockFreeSet.RunInv | common/safe_set.cpp:170-233 | In every state that any interleaving reaches, `next` words lead to linked nodes with larger keys, unmarked linked nodes are on the list, every thread's window is one it may act on, and the calls that took effect explain the unmarked keys. |
| LockFreeSet.InvSafe | common/safe_set.cpp:177-233 | In such a state no thread's next step follows a pointer to anything but a node. |
| LockFreeSet.SnipInv | common/safe_set.cpp:187-193 | The snip of a marked node, successful or not, is safe and keeps the invariant of `RunInv`, the set of unmarked keys included. |
| LockFreeSet.AddCasInv | common/safe_set.cpp:210-213 | The linking compare-and-set, where a success is recorded as `add` taking effect with `true`, is safe and keeps the invariant: the recorded call explains the new key. |
| LockFreeSet.RemoveMarkInv | common/safe_set.cpp:226-228 | The marking compare-and-set, where a success is recorded as `remove` taking effect with `true`, is safe and keeps the invariant: the recorded call explains the missing key. |
| LockFreeSet.FoundInv | common/safe_set.cpp:195-224 | The end of `find` at an unmarked node, where an `add` that meets its key is recorded with `false`, keeps the invariant. |
| LockFreeSet.ArriveInv | common/safe_set.cpp:181-199 | Moving on to the next node, where a `remove` that passes its key is recorded with `false`, keeps the invariant: between the two neighbours the key is absent. |
| LockFreeSet.StepFreezes | common/safe_set.cpp:177-233 | No step of any thread writes to a marked `next` word. |
| LockFreeSetTheorems.SetLinearizable | common/safe_set.cpp:177-233 | The history of every interleaving of any number of `add` and `remove` calls is linearizable to a mathematical set. |
| LockFreeSetTheorems.BegunCall | common/safe_set.cpp:203-233 | A call begun on an idle thread is that event of the history, and runs the operation and key it was begun with. |
| LockFreeSetTheorems.ListFromHead | common/safe_set.cpp:170-233 | In every reachable state the nodes from `head_` ascend strictly to the tail sentinel, contain every unmarked linked node, and their unmarked keys are exactly the abstract set. |
| LockFreeSetTheorems.MarkedNodesNeverChange | common/safe_set.cpp:177-233 | Once marked, a node keeps mark, successor and key through every further run. |
| LockFreeSetProgress.SoloReturnsIffNotStuck | common/safe_set.cpp:181-200 | From any reachable state, a call left to run alone returns if and only if it is not before a marked node that its predecessor no longer points to. |
| LockFreeSetProgress.DoomedCallNeverReturns | common/safe_set.cpp:185-198 | A call before a marked node that left the list, or behind a marked predecessor, never returns, whatever the other threads do. |
| LockFreeSetProgress.CallThatNeverReturns | common/safe_set.cpp:185-233 | Fourteen steps of two threads lead to such a call. |
| LockFreeSetRescue.Rescue | common/safe_set.cpp:181-232 | For a call before a marked node still on the list, behind an unmarked predecessor, an idle thread's removals clear everything between the two, without touching either. |
| LockFreeSetRescue.UndoomedCallCanReturn | common/safe_set.cpp:181-232 | From every reachable state with an idle thread, a call that is not doomed has a continuation of the run in which that same call reaches its `return`. |
| LockFreeSetRescue.CanReturnIffNotDoomed | common/safe_set.cpp:185-198 | With an idle thread to help, a call can still return, in some continuation of the run, if and only if it is not doomed. |
| PackedWords.PackRoundTrip | common/atomic_markable_pointer.h:17-48 | Pointer and mark can be read back from the packed word exactly when the pointer is even. |
| PackedWords.AtomicMarkablePointer.Get | common/atomic_markable_pointer.h:44-48 | Returns the even pointer and the mark that the word was packed from; every word has exactly one such pair. |
| PackedWords.AtomicMarkablePointer.GetReference | common/atomic_markable_pointer.h:34-37 | Returns the one even pointer that the word can have been packed from, with either mark. |
| PackedWords.AtomicMarkablePointer.CompareAndSet | common/atomic_markable_pointer.h:50-60 | Succeeds exactly when the mark loaded is the expected one and the word then found is that of the expected pointer and mark; a success stores the word of the new pointer and the new mark, a failure leaves what others have put there. |
| PackedWords.CompareAndSetIsAtomic | common/atomic_markable_pointer.h:50-60 | Whatever happens between its load and its compare-exchange, `compareAndSet` answers and acts as one atomic compare-and-set of pointer and mark, at one of the two. |
| PackedWords.AtomicCasOnPairs | common/atomic_markable_pointer.h:50-60 | The atomic operation on a word compares its pointer and its mark, and leaves the new pointer and mark or the old ones. |
| PackedWords.SetPtrRoundTrip | common/safe_stack.h:50-62 | The pointer can be read back exactly when it fits 48 bits. |
| PackedWords.SetCountRoundTrip | common/safe_stack.h:65-73 | Storing a count leaves the pointer, and the count can be read back exactly when it fits 16 bits. |
| PackedWords.StoreIsItsPair | common/safe_stack.h:46-74 | Two stores are equal exactly when pointer and count are, so one compare-exchange compares both. |
| PackedWords.IncrementWraps | common/safe_stack.h:88-99 | The increment of the largest count gives zero and leaves the pointer. |
| LockFreeStack.RunInv | common/safe_stack.h:88-142 | In every reachable state the nodes from the head form the stack, the two counts of each balance its holders, and every other node is private, being popped, left to its holders, or about to be deleted by one thread. |
| LockFreeStack.InvSafe | common/safe_stack.h:88-142 | In such a state no thread's next step touches a node that is not allocated. |
| LockFreeStack.PushEffectInv | common/safe_stack.h:106-115 | The linking compare-and-set, where `push` is recorded as taking effect, is safe and keeps the invariant: the new node is on top with external count one. |
| LockFreeStack.PopEffectInv | common/safe_stack.h:125-128 | The unlinking compare-and-set, where `pop` is recorded as taking effect with the top value, is safe and keeps the invariant. |
| LockFreeStack.CountNullInv | common/safe_stack.h:120-124 | Counting into a null head, where `pop` is recorded as finding the stack empty, is safe and keeps the invariant. |
| LockFreeStack.AddInv | common/safe_stack.h:130-136 | The popper's `fetch_add` is safe and keeps the invariant: the internal count is the number of holders left, and at zero the popper is the only deleter. |
| LockFreeStack.ReleaseInv | common/safe_stack.h:137-141 | A holder's `fetch_sub` is safe and keeps the invariant: it makes the holder the deleter only if nobody else is concerned with the node. |
| LockFreeStackTheorems.StackLinearizable | common/safe_stack.h:106-142 | The history of every interleaving of pushes and pops is linearizable to a sequential stack, also when freed addresses are reused at once. |
| LockFreeStackTheorems.BegunCall | common/safe_stack.h:106-142 | A call begun on an idle thread is that event of the history, and runs the operation and value it was begun with. |
| LockFreeStackTheorems.ValuesConserved | common/safe_stack.h:106-142 | The values pushed are the values popped together with those on the stack, with multiplicity. |
| LockFreeStackTheorems.CountsBalance | common/safe_stack.h:88-142 | For each node on the stack, external and internal count add up to one more than the number of threads holding it. |
| LockFreeStackTheorems.NoUseAfterFree | common/safe_stack.h:117-142 | The node that a thread holds or is about to touch is allocated. |
| LockFreeStackTheorems.DeleterIsAlone | common/safe_stack.h:132-140 | No other thread is concerned with a node that is about to be deleted. |
| LockFreeStackTheorems.NothingIsLeaked | common/safe_stack.h:117-142 | A node that is off the stack, settled by its popper and without holders, but still there, is about to be deleted. |
| LockFreeStackTheorems.EachNodeDeletedOnce | common/safe_stack.h:117-142 | No node is deleted twice, and no deleted node is still there. |
| LockFreeStackTheorems.NodeTally | common/safe_stack.h:106-142 | Nodes allocated are nodes there plus nodes deleted. |
| LockFreeStackTheorems.QuiescentStackHoldsNoGarbage | common/safe_stack.h:117-142 | With no call running, exactly the nodes on the stack are allocated. |
| LockFreeStackWidth.WrapBreaksCounting | common/safe_stack.h:65-73 | In every reachable state a popper's increment keeps the head node's counts right if and only if the count stays below 2^16. |
| LockFreeStackWidth.RunFits | common/safe_stack.h:46-74 | Every count in the head, a node or a local variable fits 16 bits in every reachable state. |
| LockFreeStackWidth.EveryCountIsReached | common/safe_stack.h:88-142 | For every count from 2 to 2^16 - 1 a run of two threads leads to it, with a popper about to count itself into the node at the head. |
| LockFreeStackWidth.WrapIsReachable | common/safe_stack.h:65-73 | A run of two threads leads to a state where the counts of the head node balance and the next increment loses the balance. |
| LockFreeStackProgress.SoloReturns | common/safe_stack.h:88-142 | From any reachable state a call left to run alone returns within eleven steps, unless the count beside a node at the head is at its largest. |
| RedBlackRotations.RotationKeepsOrder | common/red_black_tree.h:270-310 | A rotation keeps the in-order sequence and the nodes. |
| RedBlackRotations.TurnedFocus | common/red_black_tree.h:270-310 | The link changes of a rotation, in a tree seen from the rotated subtree, give the rotated tree, linked consistently with its parent. |
| RedBlackRotations.RotateLeft | common/red_black_tree.h:270-289 | Rotates in place and repairs all parent links, or does nothing without a right child. |
| RedBlackRotations.RotateRight | common/red_black_tree.h:291-310 | The mirror image. |
| RedBlackInsertion.Relatives | common/red_black_tree.h:208-244 | `parent`, `grandparent` and `uncle` find the relatives that the tree has, and the sides they hang on. |
| RedBlackInsertion.AdjustTree | common/red_black_tree.h:332-342 | From a tree that is red-black except that a red node may be under a red parent: ends with a linked red-black tree of the same pairs in the same order. |
| RedBlackInsertion.AdjustCase1 | common/red_black_tree.h:344-347 | The same at the root. |
| RedBlackInsertion.AdjustCase3 | common/red_black_tree.h:353-365 | The same with a red uncle; the red node moves two levels up, so the recursion ends. |
| RedBlackInsertion.AdjustCase4 | common/red_black_tree.h:367-391 | The same with a black uncle, after one or two rotations. |
| RedBlackInsertion.RedMovesUp | common/red_black_tree.h:353-365 | After recolouring, the grandparent is again a red node in an otherwise red-black tree. |
| RedBlackInsertion.SettledGood | common/red_black_tree.h:383-391 | After the last rotation and recolouring the whole tree is red-black, with the same pairs in the same order. |
| RedBlackInsertion.Straightened | common/red_black_tree.h:371-381 | The first rotation of the zig-zag case gives the straight case. |
| RedBlackDeletion.DeleteNodeComplex1 | common/red_black_tree.h:479-484 | From a subtree that is one black node short: ends with a linked red-black tree of the same pairs in the same order. At the root nothing is to be done. |
| RedBlackDeletion.DeleteNodeComplex2 | common/red_black_tree.h:487-499 | The same below any parent; a red sibling is rotated above it first. |
| RedBlackDeletion.DeleteNodeComplex3 | common/red_black_tree.h:502-512 | The same with a black sibling; if everything around is black, the shortage moves one level up, so the recursion ends. |
| RedBlackDeletion.DeleteNodeComplex4 | common/red_black_tree.h:515-525 | The same when not everything around is black; a red parent takes the missing black. |
| RedBlackDeletion.DeleteNodeComplex5 | common/red_black_tree.h:528-546 | The same when the sibling has a red child; if only the near one is red, it is rotated into the sibling's place. |
| RedBlackDeletion.DeleteNodeComplex6 | common/red_black_tree.h:548-560 | The same when the far child of the sibling is red: one rotation ends the repair. |
| RedBlackDeletion.Case2Good | common/red_black_tree.h:489-497 | After the rotation at a red sibling the subtree is still one black node short, now with a black sibling. |
| RedBlackDeletion.Case5Good | common/red_black_tree.h:531-543 | After the rotation at the sibling its far child is red. |
| RedBlackDeletion.Case6Good | common/red_black_tree.h:550-559 | The last rotation and its colours restore the black heights. |
| RedBlackDeletion.SiblingRedGood | common/red_black_tree.h:504-522 | A red sibling evens out the two sides below the parent. |
| RedBlack.InsertByKey | common/red_black_tree.h:312-330 | Hangs the new node, in place, below the lowest node on the path to its key, equal keys to the right. |
| RedBlackPaths.SlotOrder | common/red_black_tree.h:314-324 | That place has exactly the pairs with keys not larger before it, and the larger ones behind. |
| RedBlackPaths.InsertedSorted | common/red_black_tree.h:312-330 | Inserting behind every equal key keeps a sorted sequence sorted and adds exactly the new pair. |
| RedBlackPaths.FoundIffPresent | common/red_black_tree.h:413-424 | The walk of `search` ends at a pair with the key if and only if there is one. |
| RedBlack.Search | common/red_black_tree.h:413-424 | The recursion over links ends at the node where the walk over the tree ends. |
| RedBlack.VerifyColor | common/red_black_tree.h:393-411 | Returns -1 exactly when two red nodes meet or black heights differ, and otherwise the black height plus one. |
| RedBlack.MinNode | common/red_black_tree.h:426-433 | Returns the leftmost node, or null for null. |
| RedBlack.MaxNode | common/red_black_tree.h:435-442 | Returns the rightmost node, or null for null. |
| RedBlack.RedBlackTree.constructor | common/red_black_tree.h:98-98 | An empty tree is valid and has no pairs. |
| RedBlack.RedBlackTree.UpdateRoot | common/red_black_tree.h:246-252 | From any node of the tree the climb over parent links reaches its root. |
| RedBlack.RedBlackTree.UpdateMostLeft | common/red_black_tree.h:254-260 | The header's left link is the leftmost node. |
| RedBlack.RedBlackTree.UpdateMostRight | common/red_black_tree.h:262-268 | The header's right link is the rightmost node. |
| RedBlack.RedBlackTree.Insert | common/red_black_tree.h:108-115 | Keeps a valid red-black tree (colours, black heights, parent links, header links, key order); the pairs are the old ones with the new one behind every equal key. |
| RedBlack.RedBlackTree.ReplaceNode | common/red_black_tree.h:444-459 | The only child of a node takes its place, with consistent links, and the header follows at the root. |
| RedBlack.RedBlackTree.DeleteNodeWithOneChild | common/red_black_tree.h:461-477 | Unlinks a node with at most one child from a red-black tree: a red-black tree of the other pairs in the same order is left. |
| RedBlack.RedBlackTree.DeleteNeighbour | common/red_black_tree.h:144-146 | After the exchange of pairs, exactly the pair of the target is missing. |
| RedBlack.RedBlackTree.Delete | common/red_black_tree.h:135-154 | Keeps a valid red-black tree; of a present key exactly one pair is removed and the others keep their order; an absent key changes nothing. |
| RedBlack.RedBlackTree.Get | common/red_black_tree.h:126-133 | Finds a value exactly when the key is present, and then one stored with it. |
| RedBlack.RedBlackTree.Min | common/red_black_tree.h:156-158 | Returns the first pair; no key is smaller. |
| RedBlack.RedBlackTree.Max | common/red_black_tree.h:160-162 | Returns the last pair; no key is larger. |
| RedBlackShapes.PlugGood | common/red_black_tree.h:393-411 | A subtree that is fine, in a context that is fine for its black height, makes a red-black tree. |
| RedBlackShapes.UnplugGood | common/red_black_tree.h:393-411 | The converse, for every subtree of a red-black tree. |
| RedBlackIterator.NextOrder | common/red_black_tree.h:61-86 | The node that `Next` moves to is the next one in key order. |
| RedBlackIterator.Iterator.Next | common/red_black_tree.h:56-87 | Yields the pair at the current node and moves to the next one; at a root without right child it takes over whatever the uninitialised variable holds. |
| RedBlackIterator.Walk | common/red_black_tree.h:52-96 | As many calls as there are nodes each return true and yield the pairs in order. If the tree is empty or its root has a right child the next call returns false; otherwise the iterator holds what the uninitialised variable held. |
| RedBlackIterator.WalkOfThreeOrMore | common/red_black_tree.h:52-96 | For a tree of three or more nodes: true once per node with the pairs in order, then false. |
| RedBlackIterator.ThreeHaveRight | common/red_black_tree.h:393-411 | The root of a red-black tree of three or more nodes has a right child. |
| RedBlackIterator.WalkOfOne | common/red_black_tree.h:74-86 | In a tree of one inserted pair the iterator ends on whatever the uninitialised variable held. |
| LockedSet.RunInv | common/safe_set.cpp:82-136 | In every reachable state the list is strictly sorted, locks are held by the threads they name, `next` fields lead along the list except where an `add` is between its two writes, and the calls that took effect explain the keys. |
| LockedSet.InvSafe | common/safe_set.cpp:88-136 | In such a state no thread's next step locks or touches a node that is not allocated. |
| LockedSet.LockCurInv | common/safe_set.cpp:97-97 | Locking the next node hand over hand keeps the invariant of `RunInv`: the node is still the successor, whole and nobody's. |
| LockedSet.TestInv | common/safe_set.cpp:93-133 | The decision under both locks, where a call that fails is recorded with `false`, keeps the invariant. |
| LockedSet.AddLinkInv | common/safe_set.cpp:104-106 | The redirection of the predecessor, where `add` is recorded with `true`, keeps the invariant. |
| LockedSet.RemoveLinkInv | common/safe_set.cpp:125-125 | The redirection of the predecessor, where `remove` is recorded with `true`, keeps the invariant. |
| LockedSet.RemoveFreeInv | common/safe_set.cpp:126-128 | Freeing the removed node after its own lock was released keeps the invariant: no thread can reach it. |
| LockedSetTheorems.LockedSetLinearizable | common/safe_set.cpp:88-136 | The history of every interleaving is linearizable to a mathematical set, and the list holds that set. |
| LockedSetTheorems.BegunCall | common/safe_set.cpp:88-136 | A call begun on an idle thread is that event of the history, and runs the operation and key it was begun with. |
| LockedSetTheorems.NoUseAfterFree | common/safe_set.cpp:88-136 | No thread ever holds, waits for or touches a freed node, and no two threads hold the same node. |
| LockedSetTheorems.ListFromHead | common/safe_set.cpp:82-136 | The list from `head_` is strictly sorted and holds exactly the abstract set; a `next` field differs from it only at a node that an `add` with both neighbours locked is linking in. |
| LockedSetTheorems.DeadlockFree | common/safe_set.cpp:88-136 | Whenever a call is under way, some thread that is in a call can make its next step. |
| LockedSetProgress.SoloReturnsOrWaits | common/safe_set.cpp:88-136 | From any reachable state a call left to run alone returns, or comes to a lock that some thread has; with no lock in other hands it returns. |
| LockedSetProgress.SoloPerforms | common/safe_set.cpp:88-136 | With no lock in other hands, a call that has not taken effect yet returns what its operation gives on the set as it is, and leaves what that operation leaves. |
| LockedSetProgress.QuiescentSetHoldsNoGarbage | common/safe_set.cpp:126-128 | With no call running, exactly the nodes of the list are allocated, and no lock is held. |
| TwoLockQueue.RunInv | common/safe_queue.h:25-137 | In every reachable state the nodes from head to dummy are linked and carry the values of the abstract queue, mutexes are held by the threads they name, and every other node is new or taken off by one thread. |
| TwoLockQueue.InvSafe | common/safe_queue.h:25-137 | In such a state no thread's next step touches a node that is not allocated or reads data that is not there. |
| TwoLockQueue.PushTailInv | common/safe_queue.h:98-102 | The write of `tail_`, where `push` is recorded as taking effect, keeps the invariant of `RunInv`. |
| TwoLockQueue.TailReadInv | common/safe_queue.h:25-29 | The read of `tail_`, where a failing `try_pop` and `empty` are recorded with their results, keeps the invariant. |
| TwoLockQueue.SetHeadInv | common/safe_queue.h:31-36 | The write of `head_`, where a pop is recorded with the first value, keeps the invariant. |
| TwoLockQueueTheorems.QueueLinearizable | common/safe_queue.h:25-139 | The history of every interleaving is linearizable to a first-in first-out queue; a failing `try_pop` saw the queue empty during its call. |
| TwoLockQueueTheorems.BegunCall | common/safe_queue.h:92-139 | A call begun on an idle thread is that event of the history, and runs the operation and value it was begun with. |
| TwoLockQueueTheorems.PushedThenQueued | common/safe_queue.h:25-125 | The values pushed are the values popped, in the same order, followed by the data of the nodes from head to dummy. |
| TwoLockQueueTheorems.NoSharedTouch | common/safe_queue.h:31-103 | No two threads are ever about to read, write or free the same node. |
| TwoLockQueueTheorems.BlockingPopReturnsValue | common/safe_queue.h:38-56 | A blocking pop returns only with a value. |
| TwoLockQueueTheorems.MutexesMakeProgress | common/safe_queue.h:25-139 | As long as a call is under way that is not asleep, some call that is awake can make its next step. |
| TwoLockQueueProgress.SoloReturns | common/safe_queue.h:25-139 | From any reachable state with no mutex in other hands, a call left to run alone returns within fifteen steps; a blocking pop if there is a value. |
| TwoLockQueueProgress.SoloPerforms | common/safe_queue.h:25-139 | If it has not taken effect before, it returns what its operation gives on the queue as it is, the first value for every pop, and leaves what that operation leaves. |
| TwoLockQueueProgress.SleepsOnlyOnEmpty | common/safe_queue.h:38-43 | In every run a blocking pop goes to sleep only if the queue was empty at its last read of `tail_`, during that call. |
| TwoLockQueueProgress.QuiescentQueueHoldsNoGarbage | common/safe_queue.h:31-36 | With no call running, exactly the nodes of the queue are allocated: one for each value, and the dummy. |
| ParallelSort.RunInv | sort_algorithm/parallel_sort.h:52-104 | In every reachable state each unfinished frame is on its thread's stack and has an unfinished caller, each pushed chunk is queued, being sorted by one later frame, or sorted, and every value returned so far is its argument sorted. |
| ParallelSort.JoinedSorted | sort_algorithm/parallel_sort.h:64-91 | Lower half, pivot and upper half, each sorted, are the input sorted. |
| ParallelSort.LeaveInv | sort_algorithm/parallel_sort.h:59-97 | Returning a sorted result to the caller, or to the promise of the chunk, keeps the invariant of `RunInv`. |
| ParallelSort.TakeChunkInv | sort_algorithm/parallel_sort.h:52-57 | Taking the topmost chunk, or finding none, keeps the invariant. |
| ParallelSortTheorems.ResultIsSorted | sort_algorithm/parallel_sort.h:59-114 | Under every schedule, what the user's call returns is the input sorted. |
| ParallelSortTheorems.PromiseSetOnce | sort_algorithm/parallel_sort.h:94-97 | Under no schedule is `set_value` called twice on one promise; once a call has returned, the promise of the chunk that it pushed has been set exactly once. |
| ParallelSortTheorems.PromiseKeepsValue | sort_algorithm/parallel_sort.h:94-97 | A promise that is set keeps its value through every further run. |
| ParallelSortTheorems.QueuedChunksAreAwaited | sort_algorithm/parallel_sort.h:77-97 | Queued chunks belong to unfinished frames; when the user's call has returned, no chunk is queued and every thread is idle. |
| ParallelSortTheorems.NeverStuck | sort_algorithm/parallel_sort.h:52-104 | Until the user's call has returned, some thread has a step that changes something. |
| ParallelSortTheorems.MovesBounded | sort_algorithm/parallel_sort.h:52-104 | No run has more than 9n+1 steps that change something, for an input of n values. |
| ParallelSortTheorems.ChunkStartsBounded | sort_algorithm/parallel_sort.h:52-97 | No schedule starts more than n-1 chunks, for an input of n > 0 values. |
| ParallelSortThreads.ThreadsStarted | sort_algorithm/parallel_sort.h:78-82 | Under no schedule do more than 2 * limit - 1 threads start; those started and about to start are no fewer than the calls that have compared, or than the limit. |
| ParallelSortThreads.LimitIsPassed | sort_algorithm/parallel_sort.h:78-82 | With a limit of two, a run starts three threads. |
| ParallelSortThreads.LastPushedFirst | sort_algorithm/parallel_sort.h:52-77 | Of the chunks that one thread has pushed, every schedule takes the latest first. |
| AtmMachines.ATM.Dispatch | atm/atm.h:49-157 | The handlers of the current state update the object and send messages as the transition function says, or leave everything as it is. |
| AtmMachines.ATM.WaitAndDispatch | atm/template_dispatcher.h:55-70 | Messages without a handler are dropped until one is handled, which changes the object and sends as `Receive` says; the rest of the queue stays; with nothing left to read the machine still waits. |
| AtmMachines.ReceiveDropsUnhandled | atm/template_dispatcher.h:55-70 | A wait drops exactly the messages before the first that has a handler, handles that one, and leaves the rest. |
| AtmMachines.BankMachine.Dispatch | atm/bank_machine.h:25-50 | Every message is answered as the answer function says, and exactly a granted amount is taken off the balance. |
| AtmMachines.ReceiveIsSteps | atm/template_dispatcher.h:55-70 | One wait of the machine object is a run of ATM steps in the system, one for each message it reads. |
| AtmMachines.BankMachine.Run | atm/bank_machine.h:22-51 | Messages are taken in order until the queue is empty or closed, each answered and each granted amount taken off before the next is read. |
| AtmMachines.ServeReadsAll | atm/bank_machine.h:22-51 | The loop reads its whole queue, up to a closing message, and sends one answer for each request in it. |
| AtmMachines.ServeIsSteps | atm/bank_machine.h:22-51 | What the loop of the bank object makes of its queue is a run of bank steps in the system, and what the balance lost is what was granted. |
| AtmSystem.MoneyIsConserved | atm/bank_machine.h:25-50 | For all key presses and schedules: between messages of the bank, balance and grants add up to the initial balance, and every grant is paid out once, unread, or lost. |
| AtmSystem.ReactPays | atm/atm.h:49-158 | The ATM pays out exactly on reading an allowance while it waits for one, and then the amount pressed last. |
| AtmRuns.PinsAreChecked | atm/bank_machine.h:26-33 | In every run the bank has sent as many `PinVerified` as it has read right pins, and as many `PinIncorrect` as wrong ones. |
| AtmRuns.SessionsNeedRightPins | atm/atm.h:103-118 | In every run the sessions let in never outnumber the right pins that the bank has read, and before the first of them nothing may be asked for and nothing is paid. |
| AtmRuns.DisplayedBalances | atm/atm.h:70-81 | Every balance displayed in a run is the initial balance less the grants up to some moment of that run. |
| AtmRuns.GrantedIffCovered | atm/bank_machine.h:34-41 | In every run a withdrawal is granted if and only if it and all grants before it are covered by the initial balance; a denial changes nothing. |
| AtmRuns.RequestsNameTheCard | atm/atm.h:49-157 | In every run the bank is asked only about accounts whose cards were inserted, and only about pins of four digits. |
| AtmRuns.ReactAsksProperly | atm/atm.h:49-157 | What a message makes the ATM ask is on its own account and of the amount just pressed, or pressed last. |
| AtmSessions.WithdrawalSession | atm/atm.h:49-157 | From a quiet machine, a session with the right pin that asks for an amount shows its messages in order, pays and debits it exactly when the balance covers it, and ends quiet. |
| AtmSessions.WrongPinSession | atm/atm.h:103-157 | With any other pin the session ends with the message that says so, and nothing else happens. |
| AtmSessions.BalanceSession | atm/atm.h:70-101 | A session that asks for the balance is shown it, and may go on. |
| AtmSessions.CancelledSession | atm/atm.h:62-66 | A withdrawal cancelled before the bank has read it pays nothing, and a covered amount is debited all the same. |
| AtmSessions.DigitCleared | atm/atm.h:120-141 | A digit pressed and cleared leaves no trace. |
| AtmAmounts.UniformIsSafe | atm/atm.h:49-100 | With amounts of which none smaller than another can be granted, money paid, and money that unread allowances may still pay, never exceed the money debited. |
| AtmAmounts.FixedAmountIsExact | atm/main.cpp:48-48 | With one amount, balance, money paid out and the amounts of unread and lost allowances add up to the initial balance. |
| AtmAmounts.StaleRunOverpays | atm/atm.h:49-118 | For any two amounts of which the smaller can be granted, a run with two cancels pays out the larger and debits the smaller. |
| AtmAmounts.PaidBeforeDebited | atm/bank_machine.h:34-41 | Money may be paid out while the bank has answered but not yet debited. |
| AtmAmounts.SafeIffUniform | atm/atm.h:49-118 | No run overpays, if and only if of any two different amounts on offer the smaller exceeds the initial balance. |
| DigitOnes.WholeBlock | mess/problems.cpp:190-194 | A block of 10^(k+1) numbers holds (k+1) * 10^k digits 1. |
| DigitOnes.SplitAtFirst | mess/problems.cpp:189-195 | The count up to n splits at its first digit as the code computes it. |
| DigitOnes.NumberOf1 | mess/problems.cpp:177-196 | Returns how often the digit 1 occurs in the numbers 1 to n, and 0 for n below 1. |
| UglyNumbers.UglyIffProduct | mess/problems.cpp:203-222 | The numbers listed are exactly those of the form 2^a * 3^b * 5^c. |
| UglyNumbers.Advance | mess/problems.cpp:210-218 | Each of the three loops stops inside the list, at the first place whose multiple lies beyond it. |
| UglyNumbers.ListGrows | mess/problems.cpp:209-220 | The least of the three candidates is the next number of the form, and none is skipped. |
| UglyNumbers.GetUglyNumber | mess/problems.cpp:203-222 | Returns the number of the form that has exactly index - 1 smaller ones. |
| UglyNumbers.RankGrows | mess/problems.cpp:203-222 | There is only one such number for each index. |
| HeapSort.RootIsMax | sort_algorithm/heap_sort.cpp:37-52 | The root of a heap is its largest element. |
| HeapSort.AdjustHeap | sort_algorithm/heap_sort.cpp:37-52 | Sifts one element down in place: a heap from that place on, the same values, nothing else touched; false exactly for null or an empty range. |
| HeapSort.InitHeap | sort_algorithm/heap_sort.cpp:27-35 | Makes the range a heap of the same values. |
| HeapSort.HeapSort | sort_algorithm/heap_sort.cpp:14-25 | Sorts the range in place: sorted, the same values, nothing else touched. |
| HeapSort.SmallK | sort_algorithm/heap_sort.cpp:54-70 | The first k of `output` and the rest of `num` hold together the original values, and nothing left in `num` is smaller than anything in `output`; the error cases change nothing. |

## Left out

- The concurrent cores as methods: their loops and branches are the program counters of state machines on values, because Dafny's methods run alone. What one machine word does under them is in `PackedWords`, with its object updated in place.
- Weak memory orderings: all steps are sequentially consistent. Weak compare-and-set may fail spuriously, as in the source.
- Lock-freedom of `UnblockingSafeSet`, which its `find` does not have, and the memory it never frees; `print`, `contains` and the destructors of all sets, and `CoarseSafeSet`.
- `set`, `attemptMark`, `isMarked` and the copy operations of `AtomicMarkablePointer`: no modelled code calls them.
- WrapBreaksCounting: the step system of the stack does not run on once the count beside a node would reach 2^16, because the counting argument fails beyond (`WrapIsReachable`); what one more increment does is stated, the runs after it are not. Beside a null head the count wraps in the model as in the source.
- CanReturnIffNotDoomed: takes it that some thread is idle. When all the others are in calls of their own, the call can return if it is not stuck (`SoloReturnsIffNotStuck`) and cannot if it is doomed (`DoomedCallNeverReturns`); between the two it depends on those calls.
- `SafeStack`, which uses members that do not exist, and the destructor of `LockFreeStack`.
- BlockingPopReturnsValue: does not say that a blocked pop ever wakes, because `push` notifies without the head mutex; a wait may end at any time in the model.
- `SafeQueue::try_pop()` and `empty()` do not compile as declared; they are read as returning the old head's data or null, and as returning a truth value.
- InsertByKey: takes the root node instead of the address of a link, because Dafny has no pointers to fields; the empty tree is handled by its caller `Attach`.
- Freeing of the deleted tree node and the tree's destructor: the node leaves the tree's footprint, and nothing follows a pointer to it afterwards. Printing of the tree, and `sibling`, which nothing calls.
- Search: models the two recursive calls of `search` as returned; the source drops their results.
- ParallelSort.Run: a push or pop of the chunk stack is one step, because `LockFreeStackTheorems.StackLinearizable` covers its interior, polls of an empty stack included, as long as the counts beside a node fit their 16 bits; setting a promise is one step with the return that precedes it. `std::partition` may arrange its two halves in any way its contract allows.
- `end_of_data_` of `Sorter`, joining, yielding and printing are not modelled.
- `InterfaceMachine`, keyboard reading and program start of the ATM: their messages are any sequence of key presses. A message is handled in one step, except that the bank's answer and debit are two.
- NumberOf1: does not model 32-bit overflow near the largest `int`, nor rounding in the floating-point `pow`.
- GetUglyNumber: numbers are unbounded, and the vector is modelled by the part already filled.
- SmallK: the array lengths that a C caller has to guarantee are preconditions, for the calls that get past the source's own checks.
- The other sorting algorithms, `PLRU`, `MinStack`, `LRUHashMap`, list and tree builders, `split`, timing, sockets and the language experiments: easier than the cores above, or without a clear purpose.

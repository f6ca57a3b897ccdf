# IndexResearch: proofs about its index structures

The repository holds in-memory index structures: its own FB+-tree (`FBTree/`) and the indexes it is compared
with. This project models the parts in which correctness is hardest to see from the code and proves what they
are for. All integers are unbounded, memory is sequentially consistent and version counters do not wrap.

**FB+-tree, one operation at a time.** `Level`, `LevelEdits`: the inner nodes of one level, laid side by side,
are one list of separators and one list of children, and every branch of insert, split, remove, merge and
border redistribution is one edit of these lists and one edit for the level above. `Leaves`, `LeafEdits`: the
leaves side by side are one finite map. `Store`, `Routing`, `Climb`, `Steps`, `RemoveSteps`, `LeafSteps`,
`Tree`: a tree of any height in a heap, with the class `FBTree`, whose operations are proved against a plain
map. `Scan`: iterators. `Runs`: whole sequences of operations. `LeafSlots`, `LeafArrays`: a leaf in place, with its
bitmap, fingerprint tags and slots, against the leaf edits on maps.

**FB+-tree inner nodes, byte by byte.** `KeyOrder`, `Features`, `FeatureNode`: the prefix and the column-major
feature matrix, searched with bit masks, refine an ascending sequence of separators. `Encoding`: the encoding
of integer keys as bytes. `Strings`, `StringNode`: the same for strings of any length, of which the matrix holds
the next few bytes after the prefix, with a binary search on the anchors where these do not decide.

**FB+-tree, many threads.** `SlotProtocol` to `SlotRuns`: latch-free updates against latched upserts, splits,
removals, merges and sorts, one atomic access at a time; where each key-value pair is. `ReadProtocol` to
`ReadMisses`: lookups and updates that read a leaf without a latch among writers that change it, one field at a time;
when "absent" is right. `SplitCount` to `SplitCountMisled`: the split count of string leaves, which lets a thread skip
the comparison with the high key, among splits, merges and the edits of the parents that follow them.
`LatchOrder` to `LatchRoots`: who waits for whose latch, on all levels.

**Masstree.** `LeafLink` to `LeafLinkRuns`: concurrent `link_split` and `unlink` on the list of leaves.
`LimboQueue`, `Limbo`: the limbo list of a thread, a chain of groups of slots that are used again, against a queue
of retired pointers. `Digits`, `Permuter`: the permutation word of a leaf, edited by masks and shifts, and the searches
through it.

**ART.** `Art`, `ArtInsert`, `ArtRemove`, `ArtTree`: the radix tree with prefixes of any length, of which eleven
bytes are stored, against a map from keys to record identifiers. `ArtNodes`: the four node layouts, edited in
place, with growing and shrinking. `Epoch`, `EpochRuns`: epoch reclamation.

**BTreeOLC.** `Olc` to `OlcRuns`: optimistic lock coupling with eager splits, one atomic access at a time, against
a linearised map. `OlcNodes`: its pages, edited in place.

**GoogleBTree.** `BtreeNodes`, `BtreeEdits`, `BtreeMoves`: nodes as values, the order of their values, and what the
edits of neighbouring nodes do to it. `BtreeInsert`, `BtreeErase`, `BtreeWalk`, `BtreeTree`: making room with
rebalancing and splits, filling up with merges and rebalancing, iterators, and the tree with insertion and removal at an
iterator. `BtreePages`: the same node edits in place.

Five properties that the code is meant to have turned out not to hold in every interleaving. Each is stated
with the exact condition under which it holds and with runs in which it fails:

- A pair inserted into a new leaf by a split can be lost to a scan that sorts the new leaf meanwhile: the split
  links the new leaf before it stores the pair and sets the pair's bit, and does not hold the new leaf's latch
  (`SlotRuns.ScanLatchSafe`, `SlotRuns.InsertLost`).
- A lookup can report absent a key that is stored from its first step to its last: `to_sibling` compares the high
  key and then loads the sibling pointer without a check that the leaf is still the same. The lookup can be trusted
  after a hop if and only if the leaf it is sent to is deleted or about to be, or begins below the key and is not
  one that a split still fills, the key beyond it and its sibling mark not yet set (`ReadHops.HopTrustedIff`,
  `ReadRuns.AbsentIsRight`, `ReadMisses.LookupMisses`).
- A thread that finds the split count of a string leaf zero and the parent unchanged can be at a leaf whose high key
  is below its key. That is so if and only if the high key is the bound of a split counted at another leaf and not yet
  in the parents. A thread comes to such a leaf through a deleted leaf after a merge, or by a latch-free sibling load
  off a leaf that has changed since the reader began there; no other thread does (`SplitCountRuns.SkipIsRightIff`,
  `SplitCountRuns.SkipIsRight`, `SplitCountMisled.SkipIsWrong`, `SplitCountMisled.ReaderGoesAstray`).
- A thread can wait for its own latch: when the tree has lost a level and grown again, a thread that still has the old
  root on its path climbs to it and is sent down, to the node it holds. All waits go up ever after a step if and only
  if the step does not make a thread wait for a root that gave way, by a climb, by a hop or by giving way while the
  thread waits (`LatchRoots.StepSafeIff`, `LatchRuns.NoDeadlock`, `LatchRoots.WaitsForItself`).
- A leaf whose `unlink` has finished can still be on the forward chain of Masstree's leaf list: a split sets the
  prev pointer of its right neighbour before it links its new leaf (`LeafLinkRuns.ChainIsFinishedIff`,
  `LeafLinkRuns.UnlinkedStillFound`).

## Model

| member | source | states |
|---|---|---|
| LevelEdits.InsertRoomEdit | FBTree/inode.h:611-627 | an insert into an inner node with room adds exactly one separator and its right child to the level's lists and changes nothing for the level above |
| LevelEdits.SplitEdit | FBTree/inode.h:272-353 | in all three cases of a split the level's lists gain exactly the one separator and child, and the level above owes exactly the insertion of the returned mid and the new node |
| LevelEdits.RemoveInsideEdit | FBTree/inode.h:634-649 | removing a separator whose right child is in the node deletes exactly that separator and child |
| LevelEdits.MergeEdit | FBTree/inode.h:355-400 | a merge leaves the level's lists as they are and owes the level above exactly the deletion at the left node |
| LevelEdits.RemoveMergeEdit | FBTree/inode.h:634-650 | a removal followed by a merge is one deletion here and one deletion above |
| LevelEdits.BorderLastEdit | FBTree/inode.h:417-425 | a border removal in the last node deletes the last separator and child of the level |
| LevelEdits.BorderMergeEdit | FBTree/inode.h:427-460 | a border removal with merge deletes the separator between the two nodes and owes one deletion above |
| LevelEdits.BorderShiftEdit | FBTree/inode.h:461-472 | a border redistribution deletes one separator and its right child and lowers exactly the bound between the two nodes for the level above |
| LevelEdits.AnchorEdit | FBTree/inode.h:655-664 | an anchor update replaces one separator and goes on upwards exactly when it was the node's high key and the node has a sibling |
| LeafEdits.ReplaceEdit | FBTree/lnode.h:254-279 | writing a leaf's pairs within its range changes the map of all leaves by exactly that |
| LeafEdits.CutEdit | FBTree/lnode.h:295-346 | cutting a leaf in two, with a pair put into its half, makes the map of all leaves `m[k := v]` and inserts exactly one bound and one leaf |
| LeafEdits.SplitHalfHalves | FBTree/lnode.h:311-346 | the half split with the new pair on the side its key belongs to is such a cut of the leaf with the pair put in, with half of the keys on the left |
| LeafEdits.SplitTailHalves | FBTree/lnode.h:299-309 | so is the split at the right end |
| LeafEdits.JoinEdit | FBTree/lnode.h:89-135 | a leaf merge, with a key taken out of the left leaf, makes the map of all leaves `m - {k}` and deletes exactly the bound between the two leaves |
| Leaves.AscendingIs | FBTree/lnode.h:281-295 | the sort before a split lists the keys of the leaf in ascending order, each once |
| Routing.Route | FBTree/inode.h:507-566 | in a well-formed level the child that an inner node's search picks is the one whose range contains the key |
| Climb.WorkIndex | FBTree/fbtree.h:281-300 | the node on the path, or one to its right, is the one in which the pending edit belongs, at the index the code finds |
| Climb.Climbed | FBTree/fbtree.h:281-306 | when one level has absorbed the edit it owed, the tree is whole below and owes the one edit of the level above |
| Steps.StepNewRoot | FBTree/fbtree.h:262-289 | a new root over the two halves of the old one completes the tree |
| Steps.StepInsertRoom | FBTree/fbtree.h:300-305 | absorbing an insertion in a node with room completes the tree |
| Steps.StepSplit | FBTree/fbtree.h:300-305 | absorbing it by a split leaves exactly one insertion for the level above |
| Steps.Collapse | FBTree/inode.h:666-672 | taking away a root without separators leaves a whole tree whose root is the only child |
| RemoveSteps.StepRemoveMerge | FBTree/fbtree.h:342-395 | absorbing a deletion with a merge leaves exactly one deletion for the level above |
| RemoveSteps.StepBorderMerge | FBTree/fbtree.h:342-395 | so does a border merge |
| RemoveSteps.StepBorderShift | FBTree/fbtree.h:342-395 | a border redistribution leaves exactly one lowered bound for the level above |
| RemoveSteps.StepAnchorUpdate | FBTree/fbtree.h:367-386 | lowering a bound leaves the tree whole or the same bound to lower one level up |
| LeafSteps.LeafCut | FBTree/fbtree.h:254-262 | after a leaf split the tree is whole but for the one insertion owed to the lowest inner level |
| LeafSteps.LeafJoin | FBTree/fbtree.h:342-358 | after a leaf merge it is whole but for the one deletion owed |
| Tree.DescendStep | FBTree/fbtree.h:249-256 | each step of a descent in a whole tree goes to the node one level down whose range contains the key, never to a sibling |
| Tree.LeafStays | FBTree/lnode.h:189-204 | the leaf reached is the one the key belongs in |
| Tree.LeafFinds | FBTree/lnode.h:207-220 | what that leaf stores for the key is what the whole map has |
| Tree.FBTree.constructor | FBTree/fbtree.h:184-239 | a new tree is whole and empty |
| Tree.FBTree.Descend | FBTree/fbtree.h:244-260 | the descent ends at the leaf of the key and records the node above it on each level |
| Tree.FBTree.Lookup | FBTree/fbtree.h:441-462 | lookup answers as the map does, present or absent |
| Tree.FBTree.Update | FBTree/fbtree.h:401-420 | update replaces the value of a present key only and answers with the old one |
| Tree.FBTree.Upsert | FBTree/fbtree.h:244-309 | upsert on a tree of any height keeps the tree whole, sets the key and answers with the old value |
| Tree.FBTree.InsertUp | FBTree/fbtree.h:262-306 | the climb after a split, with splits on any number of levels and a new root if need be, ends in a whole tree with the same map |
| Tree.FBTree.Remove | FBTree/fbtree.h:326-397 | remove on a tree of any height keeps the tree whole, deletes the key and answers with the old value |
| Tree.FBTree.RemoveUp | FBTree/fbtree.h:342-395 | the climb after a merge, with merges, border moves, anchor updates and root collapse, ends in a whole tree with the same map |
| Scan.ChainIsAscending | FBTree/lnode.h:430-495 | the keys of all leaves in chain order, each leaf sorted, are the keys of the map in ascending order |
| Scan.Iterator.constructor | FBTree/fbtree.h:123-181 | the search in the key's own leaf and then, where it finds nothing, in the leaves to the right starts an iterator for lower_bound or upper_bound whose remaining keys are exactly the map's keys from the bound on, in ascending order |
| Scan.Iterator.Advance | FBTree/fbtree.h:63-90 | advance yields the next of them and skips no leaf |
| Runs.Run | FBTree/fbtree.h:244-462 | any sequence of upsert, update, remove and lookup on a fresh tree gives exactly the answers of a finite map, and ends with its contents |
| LeafArrays.LeafArray.Lookup | FBTree/lnode.h:206-219 | trying the slots whose tag is the key's hash one by one answers as the leaf's map does |
| LeafArrays.LeafArray.Update | FBTree/lnode.h:222-251 | with nothing concurrent, replaces the pair of a present key only |
| LeafArrays.LeafArray.Upsert | FBTree/lnode.h:254-358 | overwrites, fills a free slot or splits; bits, tags and distinct keys stay right, and the leaf or the two leaves are those of the leaf edit on maps |
| LeafArrays.LeafArray.Remove | FBTree/lnode.h:361-390 | clears the key's slot and merges with the right neighbour exactly when the counts allow; the leaf is that of the leaf edit on maps |
| LeafArrays.LeafArray.Absorb | FBTree/lnode.h:98-132 | the pairs of the right leaf, moved one by one into free slots, make up the union of the two leaves |
| LeafArrays.LeafArray.Sort | FBTree/lnode.h:395-428 | puts the same pairs into the first slots in ascending order of keys, each with its tag |
| LeafArrays.LeafArray.Bound | FBTree/lnode.h:430-468 | in a sorted leaf, the place and pair of the first key not below the key, or above it |
| FeatureNodes.FeatureNode.Search | FBTree/inode.h:507-566 | prefix comparison, mask narrowing and the final less-comparison return exactly the number of separators below the key |
| Features.FoundAfter | FBTree/inode.h:536-546 | when no column agrees in the next byte but some are less, the place is one past the highest of these |
| Features.FoundBefore | FBTree/inode.h:536-546 | when none is less either, the place is the lowest column that agreed so far |
| FeatureNodes.FeatureNode.Insert | FBTree/inode.h:188-219 | key_insert, with prefix reduction when the new key leaves the common prefix, puts the key in its place |
| FeatureNodes.FeatureNode.ReducePrefix | FBTree/inode.h:207-217 | cutting the prefix puts its bytes back into the matrix, for every column and for the new one |
| FeatureNodes.FeatureNode.Remove | FBTree/inode.h:221-242 | key_remove, with prefix extension, takes exactly the one separator out |
| FeatureNodes.FeatureNode.ExtendPrefix | FBTree/inode.h:402-415 | what first and last column share is what all columns share, and moves into the prefix |
| FeatureNodes.FeatureNode.DropLast | FBTree/inode.h:417-425 | dropping the last separator keeps the representation, with prefix length 0 when none is left |
| FeatureNodes.FeatureNode.Update | FBTree/inode.h:655-664 | anchor_update replaces one separator |
| FeatureNodes.FeatureNode.Absorb | FBTree/inode.h:371-384 | a merge or border merge appends the right node's separators to the first ones of the left node |
| FeatureNodes.FeatureNode.Split | FBTree/inode.h:272-353 | in all three cases the two nodes together hold the old separators with the new one in its place, cut where the code cuts, and the returned key is the last one on the left |
| Encoding.EncodeConvert | FBTree/constant.h:181-193 | the signed bytes, each plus 128, are the base-256 digits of the integer, moved up by half of the range if it is signed; against the bytes of any other word they compare as the integers do, and no other word has them |
| Encoding.EncodedOrder | FBTree/constant.h:160-193 | the encoding is an order isomorphism from the integers, signed or unsigned, of any width to byte sequences compared as signed bytes |
| Encoding.EncodeReconvert | FBTree/constant.h:195-205 | the way back: the one word whose encoding the bytes are |
| Encoding.EncodedRank | FBTree/inode.h:507-566 | so the count among encoded separators is the rank among the integers |
| StringNodes.StringNode.Search | FBTree/inode.h:1126-1191 | prefix comparison, mask narrowing over the padded bytes and the binary search on the rest of the anchors return exactly the number of strings before the key |
| StringNodes.StringNode.SuffixSearch | FBTree/inode.h:785-808 | the binary search among the anchors that agree so far finds the key's place in the whole node |
| StringNodes.StringNode.Insert | FBTree/inode.h:1247-1288 | the string goes to its place among the anchors, with one new column, or with a new prefix where it becomes the first or last |
| StringNodes.StringNode.Remove | FBTree/inode.h:1289-1322 | exactly one string is taken out, with a new prefix where it was the first or last |
| StringNodes.StringNode.Update | FBTree/inode.h:1324-1344 | anchor_update replaces one string |
| StringNodes.StringNode.Absorb | FBTree/inode.h:972-1021 | a merge puts the right node's strings behind those of the left |
| StringNodes.StringNode.Split | FBTree/inode.h:879-970 | in all three cases the two nodes together hold the old strings with the new one in its place, cut where the code cuts, and the returned string is the last one on the left |
| Strings.PadOrder | FBTree/inode.h:857-877 | padding with zeros to one width carries the order of strings without NUL bytes to that of byte sequences |
| SlotRuns.NothingLost | FBTree/lnode.h:222-428 | in every interleaving in which scans keep off leaves still being filled, each pair handed in is with its caller, in exactly one slot, in one worker's hand or returned to one caller, and a leaf nobody works on holds pairs exactly in the slots of its bitmap |
| SlotRuns.KeysByWorkerOnly | FBTree/lnode.h:222-251 | a slot's key appears, changes or vanishes only by the leaf's latch holder or the split that made the leaf, never by a latch-free update |
| SlotRuns.ScanLatchSafe | FBTree/fbtree.h:123-181 | from any reachable state, every continuation after a scan's latch keeps all pairs in bitmaps if and only if the leaf is not being filled |
| SlotRuns.InsertLost | FBTree/lnode.h:295-358 | for every leaf size a run of the code ends with a pair in a slot that no bitmap shows, in a leaf nobody works on |
| SlotSteps.SiblingSettled | FBTree/fbtree.h:256-262 | upsert and remove never latch a leaf that is being filled |
| SlotSteps.KeepUpdateSwap | FBTree/lnode.h:223-251 | a latch-free compare and swap keeps the invariant at any time |
| SlotSteps.KeepSortPut | FBTree/lnode.h:395-428 | storing the sorted pairs back never overwrites a pair |
| SlotSteps.KeepSplitLink | FBTree/lnode.h:311-346 | linking the new leaf keeps the invariant and makes the new leaf known to its left neighbour alone |
| SlotSteps.KeepMergeEnd | FBTree/lnode.h:106-132 | the end of a merge keeps the invariant: no leaf hands on a sibling still being filled |
| ReadRuns.AbsentIsRight | FBTree/fbtree.h:401-462 | in every run, a lookup or a latch-free update that reports absent after a successful end_read had its key absent at some moment of the call, if each leaf it was sent to was, when the pointer was loaded, one it may be sent to |
| ReadHops.HopTrustedIff | FBTree/lnode.h:189-204 | from any state about to load a sibling pointer, latched leaf or not: in no continuation does the lookup report the key absent while it is stored all the time, if and only if the leaf it is sent to is deleted or about to be, or begins below the key and is not being filled with the key beyond it and its sibling mark not yet set |
| ReadMisses.LookupMisses | FBTree/lnode.h:189-204 | for every leaf size of at least two a run and in it a lookup whose key is stored in every state from its first step on, at whose end it is about to report the key absent |
| ReadRuns.StoredChanges | FBTree/lnode.h:254-390 | only the step of an insertion or removal that adds or drops its key changes the set of stored keys, whatever splits and merges move |
| ReadSteps.QuietSettled | FBTree/control.h:62-104 | a leaf that nobody has begun to change has the high key and sibling of its range, latched or not |
| ReadSteps.KeepHop | FBTree/lnode.h:189-204 | a hop to a leaf the lookup may be sent to, off a leaf latched or not, leaves it at a leaf that begins below its key, or that is deleted or about to be and will send it on |
| ReadSteps.KeepSplitMove | FBTree/lnode.h:311-331 | low bounds never move and ranges stay disjoint through a split |
| ReadSteps.KeepMergeMove | FBTree/lnode.h:106-118 | and through a merge |
| ReadSteps.KeepMergeBury | FBTree/lnode.h:120-132 | nobody else has the leaf that is marked deleted for a right neighbour |
| SplitCountRuns.SkipIsRight | FBTree/lnode.h:655-682 | in every run, a thread that has read split count zero and then an unchanged parent version, under the latch or at a leaf unchanged since it began to read, is at a leaf whose high key is at least its key, if it came straight from the parent, by steps to the right under latches, or by latch-free steps each off a live leaf unchanged since the reader began there |
| SplitCountRuns.SkipIsRightIff | FBTree/lnode.h:655-682 | however it came there, the high key is at least its key if and only if no split counted at another leaf and not yet in the parents has this leaf's high key, below the key, for its bound |
| SplitCountRuns.ValidatedSkip | FBTree/fbtree.h:954-975 | for a reader without latch whose end_read succeeds later, both of the leaf at that later moment |
| SplitCountMisled.SkipIsWrong | FBTree/lnode.h:655-682 | for every bound m below every key k a run in which a thread with the latch, come by way of a deleted leaf, skips the comparison for k at a leaf whose high key is m |
| SplitCountMisled.ReaderGoesAstray | FBTree/lnode.h:655-682 | the same without any deleted leaf, for a latch-free reader that loads the sibling pointer of a leaf that has changed |
| SplitCountVisits.WrongIsForeign | FBTree/control.h:106-114 | where the skipped comparison would have sent the thread on, a split counted elsewhere is pending with this leaf's high key for its bound |
| SplitCountVisits.FirstNotForeign | FBTree/fbtree.h:707-770 | this does not happen to a thread that comes straight from the parent |
| SplitCountVisits.OnwardIsRight | FBTree/fbtree.h:954-975 | nor to a latch-free reader whose steps were all off live leaves unchanged since it began there |
| SplitCountSplits.KeepSplit | FBTree/lnode.h:778-830 | a leaf split, counted before the new leaf is linked, keeps the invariant |
| SplitCountMerges.KeepMerge | FBTree/lnode.h:556-593 | so does a leaf merge, whatever splits are pending on either leaf |
| SplitCountInserts.KeepInsert | FBTree/fbtree.h:747-770 | so does inserting the new leaf into the parent that was latched for it |
| SplitCountRemoves.KeepRemove | FBTree/fbtree.h:832-866 | and removing the separator of the merged leaf |
| LatchRuns.NoDeadlock | FBTree/fbtree.h:260-307 | in every run in which no thread comes to wait for a root that gave way to its only child, whatever a waiting thread holds is below what it waits for in one order of all nodes, and no threads wait for each other in a circle |
| LatchRuns.KeepMerge | FBTree/fbtree.h:342-395 | merging a node into its left neighbour keeps that order, also for the nodes merged into it before |
| LatchRuns.KeepCollapse | FBTree/inode.h:666-672 | so does a root that gives way to its child, if nobody waits for it |
| LatchRoots.StepSafeIff | FBTree/fbtree.h:260-395 | from any state of such a run and for every step, all waits go up ever after, as long as no further thread comes to wait for a root that gave way, if and only if the step is not a climb or a hop to such a root and does not make a root give way for which a thread waits |
| LatchRoots.ClimbSafeIff | FBTree/fbtree.h:352-367 | from any such state, all waits go up ever after a climb if and only if the climb is not to a root that gave way |
| LatchRoots.WaitsForItself | FBTree/fbtree.h:264-307 | a run in which a thread ends up waiting for the latch it holds |
| LeafLinkInvariant.ChainIsShown | MassTree/btree_leaflink.hh:39-96 | the forward chain, marks stripped, is the list of the operations with each not yet linked new node replaced by the nodes taken out behind it |
| LeafLinkRuns.ChainIsFinishedIff | MassTree/btree_leaflink.hh:39-96 | in every run the forward chain is the list given by the final stores if and only if no unlink has stored into a new node whose split is not linked |
| LeafLinkRuns.PrevOrMarked | MassTree/btree_leaflink.hh:60-96 | for adjacent nodes a, b: b.prev is a, or an unlink of a that has marked a.next or a split that makes a and has marked its node will set it |
| LeafLinkRuns.UnlinkedStillFound | MassTree/btree_leaflink.hh:60-96 | a run in which an unlink has finished and the chain still leads to its node |
| LeafLinkSteps.SwapHits | MassTree/btree_leaflink.hh:86-91 | a successful compare and swap of unlink marks the node right before its own, which no other operation has marked |
| LeafLinkSteps.KeepUnLink | MassTree/btree_leaflink.hh:92-95 | the final store of unlink keeps the invariant |
| LeafLinkSteps.KeepSplitLock | MassTree/btree_leaflink.hh:38-64 | so does the start of link_split |
| Limbo.Queue.constructor | MassTree/kvthread.cc:42-46 | a new limbo list is an empty queue |
| Limbo.Queue.Record | MassTree/kvthread.hh:339-344 | retiring a pointer puts it with its epoch at the end of the queue, whether it goes to the last group, to one used again or to a new one |
| Limbo.Queue.Quiesce | MassTree/kvthread.cc:108-141 | exactly the longest prefix of the queue with at most the allowed number of pointers and none retired after the bound is freed; the rest stays in order, and the emptied groups are kept for use again |
| Limbo.Group.PushBack | MassTree/kvthread.hh:62-73 | a group gains the pointer, with an epoch marker before it where it starts the group or an epoch |
| Limbo.Group.CleanUntil | MassTree/kvthread.cc:81-106 | a group loses what is freed from its front and still tells the epoch of each pointer left, also where the count runs out in the middle of an epoch |
| LimboQueue.TakeDoes | MassTree/kvthread.cc:108-141 | what is freed is a prefix, nothing in it is too young, and it stops only at the number, the end or a pointer that is |
| Permuters.Permuter.constructor | MassTree/kpermuter.hh:78-92 | make_sorted gives a permutation with the first n slots in use in order and the others free |
| Permuters.EmptyWord | MassTree/kpermuter.hh:52-57 | at width 15 the word of an empty permuter is initial_value |
| Permuters.FullWord | MassTree/kpermuter.hh:52-57 | and the word of the slots in order is full_value |
| Permuters.Permuter.InsertFromBack | MassTree/kpermuter.hh:118-146 | the word encodes a permutation again, in which the last free slot has moved to position i and those between have made room; it was not in use |
| Permuters.Permuter.InsertSelected | MassTree/kpermuter.hh:147-164 | the same for the free slot at a given position |
| Permuters.Permuter.Remove | MassTree/kpermuter.hh:165-196 | the slot at position i moves to the first free position |
| Permuters.Permuter.RemoveToBack | MassTree/kpermuter.hh:197-223 | the slot at position i moves to the last position |
| Permuters.Permuter.Exchange | MassTree/kpermuter.hh:247-251 | two positions change their slots |
| Permuters.Permuter.BinaryLowerBound | MassTree/ksearch.hh:63-81 | on keys ascending through the permutation, the key's place, and its slot or -1 |
| Permuters.Permuter.LinearLowerBound | MassTree/ksearch.hh:105-121 | the same |
| Permuters.Permuter.SearchesAgree | MassTree/ksearch.hh:63-121 | only one answer meets that contract, so the two searches agree |
| Permuters.Permuter.BinaryUpperBound | MassTree/ksearch.hh:38-55 | how many keys are at most the key |
| Permuters.Permuter.LinearUpperBound | MassTree/ksearch.hh:89-103 | the same |
| EpochRuns.Reclaimed | ARTOLC/Epoche.cpp:28-114 | in every run, for any number of threads, no node is freed while a thread that acquired it when linked is in its section, none is freed twice, and added = deleted + pending |
| EpochRuns.SweepSafe | ARTOLC/Epoche.cpp:91-104 | no thread in its section holds a node of a label older than the oldest epoch of the scan |
| EpochRuns.KeepRetireLoad | ARTOLC/Epoche.cpp:71-74 | the epoch loaded for a retired node is no earlier than that of any thread that may still touch the node |
| EpochRuns.ScanStep | ARTOLC/Epoche.cpp:82-88 | the scan, one thread at a time, bounds the oldest epoch by that of every thread that holds a node of the list |
| EpochRuns.AddFlat | ARTOLC/Epoche.cpp:39-61 | adding a node to the labels adds exactly that node |
| Art.LookupRight | ARTOLC/Tree.cpp:31-88 | a lookup, which compares only stored prefix bytes and skips the others, answers with exactly the record of the key, in both directions, for prefixes of any length |
| ArtInsert.InsertRight | ARTOLC/Tree.cpp:350-456 | insert keeps all stored prefixes, byte orders and node sizes right, sets exactly the key and changes no other |
| ArtInsert.SplitPrefixGood | ARTOLC/Tree.cpp:388-405 | a prefix split at any byte, stored or not, gives a node and a rest whose stored bytes are the first of their prefixes |
| ArtInsert.RestGood | ARTOLC/Tree.cpp:576-606 | the remaining prefix, taken from any leaf below where it was not stored, is the right one |
| ArtInsert.SplitLeafRight | ARTOLC/Tree.cpp:427-453 | a leaf that is in the way is replaced by a node of size 4 with both leaves under their longest common prefix |
| ArtInsert.AddChildSound | ARTOLC/N.cpp:92-124 | adding a child, with growth where the node is full, keeps the node right and in its occupancy band |
| ArtRemove.RemoveRight | ARTOLC/Tree.cpp:458-551 | remove keeps the tree right and takes out exactly the leaf asked for, if it is there |
| ArtRemove.JoinIs | ARTOLC/N.cpp:319-328 | addPrefixBefore leaves the first eleven bytes of the joined prefix, whatever the three lengths |
| ArtRemove.JoinGood | ARTOLC/Tree.cpp:511-541 | replacing a node with one remaining child by that child, prefixes joined, keeps the tree right |
| ArtTree.Index.constructor | ARTOLC/Tree.cpp:7-12 | a new tree is right and empty |
| ArtTree.Index.Lookup | ARTOLC/Tree.cpp:31-88 | the descent loop answers as the map does |
| ArtTree.Index.Insert | ARTOLC/Tree.cpp:350-456 | insert sets the key in the map and nothing else |
| ArtTree.Index.Remove | ARTOLC/Tree.cpp:458-551 | remove deletes the key if its record is the one asked for and nothing else |
| ArtNodes.SortedNode.Insert | ARTOLC/N16.cpp:16-27 | the shifted insert of N4 and N16, with sign-flipped bytes in N16, puts one entry into the byte map |
| ArtNodes.SortedNode.Remove | ARTOLC/N16.cpp:62-70 | the shifted remove takes one entry out |
| ArtNodes.SortedNode.GetChild | ARTOLC/N16.cpp:42-60 | the search finds the entry of a byte or null |
| ArtNodes.IndirectNode.Insert | ARTOLC/N48.cpp:15-24 | N48 finds a free place, also after removals, and puts one entry into the byte map |
| ArtNodes.IndirectNode.Remove | ARTOLC/N48.cpp:47-53 | and takes one out |
| ArtNodes.DirectNode.Insert | ARTOLC/N256.cpp:24-28 | N256 puts one entry in; its 8-bit count is the number of entries modulo 256 |
| ArtNodes.DirectNode.Remove | ARTOLC/N256.cpp:47-51 | and takes one out |
| ArtNodes.CopySorted | ARTOLC/N4.cpp:33-37 | growing N4 to N16 or shrinking back keeps the byte map |
| ArtNodes.GrowSorted | ARTOLC/N16.cpp:29-33 | growing N16 to N48 keeps the byte map |
| ArtNodes.GrowIndirect | ARTOLC/N48.cpp:26-32 | growing N48 to N256 keeps the byte map |
| ArtNodes.ShrinkIndirect | ARTOLC/N48.cpp:26-32 | shrinking N48 to N16 keeps the byte map |
| ArtNodes.ShrinkDirect | ARTOLC/N256.cpp:30-36 | shrinking N256 to N48 keeps the byte map |
| OlcRuns.Linearised | BTreeOLC/BTreeOLC.h:249-407 | in every interleaving of any number of inserts and lookups, with reads torn in any way, the answers are those of a map on which the operations act one at a time, and the leaves hold exactly that map |
| OlcRuns.OncePerCall | BTreeOLC/BTreeOLC.h:249-407 | every call takes effect exactly once, whatever its restarts |
| OlcRuns.WritesRightLeaf | BTreeOLC/BTreeOLC.h:341-356 | an insert writes, under the lock, to a leaf with room whose range contains the key |
| OlcRuns.AnswersRight | BTreeOLC/BTreeOLC.h:389-406 | a lookup that passes its last check has the answer of that moment |
| OlcRuns.RoomAbove | BTreeOLC/BTreeOLC.h:273-300 | the parent of a node that is split has room, because full nodes were split on the way down |
| OlcRuns.RestingTree | BTreeOLC/BTreeOLC.h:359-407 | after any run that leaves no lock held, a plain descent from the root finds exactly the pairs of the map |
| OlcMoves.KeepPass | BTreeOLC/BTreeOLC.h:303-308 | once the parent's word is checked, the node has the key in its range while its own word stays |
| OlcMoves.KeepCheckAbove | BTreeOLC/BTreeOLC.h:341-350 | checking the parent after the leaf is locked makes the leaf the right one |
| OlcSplits.KeepHalve | BTreeOLC/BTreeOLC.h:284-336 | halving a node under both locks keeps the ranges of each level apart and the contents of the leaves |
| OlcAttach.KeepAttachUnder | BTreeOLC/BTreeOLC.h:205-214 | inserting the separator and the new node into the parent makes every child fit its slot again |
| OlcAttach.KeepRaise | BTreeOLC/BTreeOLC.h:227-234 | so does a new root over the two halves of the old one |
| OlcEdits.PairGet | BTreeOLC/BTreeOLC.h:119-138 | a leaf insert changes what the leaf says of that key and of no other |
| OlcNodes.LowerBound | BTreeOLC/BTreeOLC.h:93-107 | the binary search returns the number of keys below the key; on an empty page 0 or 1 |
| OlcNodes.LeafPage.Insert | BTreeOLC/BTreeOLC.h:119-138 | the shifted arrays hold the old pairs with the new one put in or replaced |
| OlcNodes.LeafPage.Split | BTreeOLC/BTreeOLC.h:140-149 | the two pages are the halves, the separator the last key on the left |
| OlcNodes.LeafPage.Find | BTreeOLC/BTreeOLC.h:389-395 | the payload of the key or nothing, also on an empty page |
| OlcNodes.InnerPage.Insert | BTreeOLC/BTreeOLC.h:205-214 | shifting and swapping puts the separator in with the new child on its right |
| OlcNodes.InnerPage.Split | BTreeOLC/BTreeOLC.h:195-203 | the middle key goes up, the rest is halved, and no page is left without keys |
| BtreeInsert.RebalanceRight | GoogleBTree/btree.h:1985-2091 | wherever the full node is and however far up room has to be made: the values stay the same and in order, the spot stands for the same place among them, its node has room, leaves stay at one depth, and no other node is left without values |
| BtreeErase.RefillRight | GoogleBTree/btree.h:2107-2156 | each of the merges and rebalancings of a node that is too small keeps the values in order and the position of the iterator, and leaves no node without values but the parent after a merge |
| BtreeErase.NotEmpty | GoogleBTree/btree.h:2107-2156 | a node without values is never passed over |
| BtreeErase.RedirectLeads | GoogleBTree/btree.h:1885-1906 | an edit of an ancestor keeps the iterator's place in its leaf |
| BtreeTree.ShrinkRight | GoogleBTree/btree.h:2159-2183 | a root without values gives way to its only child with nothing else changed |
| BtreeTree.PullRight | GoogleBTree/btree.h:1861-1880 | erasing a value of an inner node: the value before it, from a leaf, takes its place |
| BtreeTree.Btree.FillUp | GoogleBTree/btree.h:1885-1906 | the loop of erase ends in a well-formed tree with the same values and the iterator at the same place |
| BtreeTree.Btree.InternalInsert | GoogleBTree/btree.h:2199-2225 | inserts exactly the value at the iterator's place in the order, on a tree of any height, and returns an iterator at it |
| BtreeTree.Btree.InsertUnique | GoogleBTree/btree.h:1741-1761 | a key goes to its place exactly if it is not there, and the iterator returned is at the key |
| BtreeTree.Btree.Erase | GoogleBTree/btree.h:1861-1920 | takes out exactly the value at the iterator and returns an iterator at the value after it, or the end |
| BtreeWalk.IncrementStands | GoogleBTree/btree.h:1663-1684 | the next iterator has exactly one more value before it |
| BtreeWalk.LocateIs | GoogleBTree/btree.h:2233-2244 | the position found for a key has exactly the smaller values before it |
| BtreePages.Page.TakeFromRight | GoogleBTree/btree.h:1457-1500 | the two nodes and the value between them hold the same values and children in order, cut n further right |
| BtreePages.Page.GiveToRight | GoogleBTree/btree.h:1504-1546 | or n further left |
| BtreePages.Page.Split | GoogleBTree/btree.h:1549-1587 | the two nodes are the parts before and after the value that goes to the parent, cut where the code cuts |
| BtreePages.Page.Merge | GoogleBTree/btree.h:1590-1619 | the left node holds both with the value between them, and the parent loses that value and the right child |

## Left out

- Tree.FBTree.Upsert: one operation at a time and integer keys; the heap is a map from addresses to nodes, a merged node is freed at once, and right moves never happen because nothing is concurrent.
- Tree.FBTree.Remove: as for Upsert.
- Scan.Iterator.constructor: upper_bound on a present last key is taken to return the end pair that FBTree/lnode.h:444 builds and does not return.
- SlotRuns.NothingLost: fingerprint tags are not part of the slot protocol; a key is looked for in any slot, which covers every outcome of the tags.
- ReadRuns.AbsentIsRight: the descent through inner nodes is taken to deliver a leaf that begins below the key; sorts keep off leaves still being filled, as SlotRuns.ScanLatchSafe asks.
- FeatureNodes.FeatureNode.Shrink: with no separators left the prefix length is 0; the code would read column -1.
- Encoding.EncodedOrder: floating-point keys are not encoded by the code and not modelled.
- StringNodes.StringNode.Insert: anchors are values; their allocation, the extent that holds them and its resizing are not modelled, and keys have no NUL bytes and at least one byte.
- SplitCountRuns.SkipIsRight: the one leaf of a tree without inner nodes, which is its own parent, roots that give way to their only child, and the hop through a null sibling pointer are not modelled.
- LatchRuns.NoDeadlock: latch-free readers, which wait for a latch to be free while they hold none, are not modelled.
- Limbo.Queue.Quiesce: epochs do not wrap around; which epoch is the oldest active one is a parameter.
- ArtTree.Index.Insert: keys have one length, `loadKey` is a function, a record's key is the one it is inserted under; the tree is a value whose nodes are replaced, so its version locks are not modelled.
- ArtTree.Index.Remove: as for Insert.
- OlcRuns.Linearised: `success` starts false; nodes become obsolete nowhere in insert and lookup, so the obsolete bit is not modelled; scan is not modelled.
- OlcNodes.InnerPage.Insert: separators are distinct, which `OlcAttach.SepBetween` shows for every separator that goes up.
- BtreeTree.Btree.InternalInsert: nodes are values and pointers to them paths, so parent pointers, the smaller first leaf root, the stored size and the rightmost pointer are not modelled; BtreePages has the node edits in place.
- BtreeTree.Btree.Erase: as for InternalInsert.
- Permuters.Permuter.constructor: for widths other than 15 the code's words also have digits above the width; the words modelled have none.
- Permuters.Permuter.InsertSelected: positions di beyond si, for which the masks overlap, are excluded; `rotate` and `exchange_values` are not modelled.
- LeafArrays.LeafArray.Upsert: one leaf at a time with nothing concurrent; the sort of the slots is an insertion sort.
- BLinkTree, HOT, FAST, STX, wormhole, OptiQL, benchmarks, SIMD intrinsics, prefetching, allocation.

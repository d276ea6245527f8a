# Verified models of five contest programs

Dafny models of the hardest parts of the repository, with machine-checked proofs of what those parts promise. The
models keep the branches, constants and error paths of the code; where the code changes state in place they are
classes and methods, where it computes they are functions, and where it is concurrent they are step systems over all
schedules.

**MD5 collisions (`05-miniclash`).** `Md5` is the compression function and the reverse step. `SearchCommon`, `Lanes`,
`Block0` and `Block1` are the five searches: state words first, message words backwards, then loops over neutral bits
of Q4, Q9 and Q10. The proofs show that every block that reaches a comparison is consistent with all recorded state
words, for all random draws; that the eight-lane scan with alive masks is the scalar filter, candidate by candidate;
that no loop gives up before its choices are spent; and that a returned block meets its exit condition. `Masks` says
which values the loops visit, and which of them twice, and `Conditions` spells out the bit conditions and the tables.
`Collision` joins both blocks through the Wang and the four Stevens conventions, `Files` adds padding, blocks, file
writing and MD5 itself, `Md5Known` two known answers, and `Driver` the lock-free driver in its three modes, from the
input files to two different files with one MD5; `DriverRuns` shows that its runs can end.

**Chart engine (`07-maimoe`).** `Text`, `Simai`, `SimaiFacts`, `SimaiParser`, `Maidata` and `MaidataWriter` are the
strict chart parser and printer, `NoteSyntax` says which texts are notes, `ChartFacts` what follows from them,
`States`, `Histories` and `Energies` the frame-by-frame state and its closed form, `Serializer` the fixed layout of a
state, `Render` the two drawing modes, `Sha256` the streaming hash with a known answer in `Sha256Known`, `Manifest`
the manifest codec, `ChartBounds` and `Records` the result record of a chart, and `Expected` the file of expected
records. `Types` holds their value types.

**The others.** `Pool` is the request pool of `11-llm` with cancellation, deadline, drain and seal, `PoolRuns` what
its runs come to; `Csr` the growable row-sparse matrix of `08-blackhole`; `Postcard` the codec and framing of
`06-rune`. `Common` holds what several of them use.

How to read the models:

- A word of a hash is a datatype around a bit vector. Sums and bit operations are named functions, so that a long
  proof sees them as terms; the small lemmas about them are decided bit by bit.
- `Thread.polls` in the searches is the number of polls of the abort flag before one sees it set. Every run that ends
  is a run for some number, so the results hold for whatever the flag does; they are partial correctness otherwise.
- Random draws are those of the generator from arbitrary seeds; no result depends on them.
- `Driver.Act` is one atomic step of one worker. A relaxed load of a winner flag may return an old 0, loads of
  `active` and `started` may return anything, and `next` in race mode may return an older value.
- In the chart parser a position in the body stands for the location of its character. `ChartFacts.PlacesAreOffsets`
  shows that positions and byte offsets compare alike, so a chart that reads back with the same positions has the
  same events in the same order whatever its line breaks.
- `std::sort`, `qsort` and `std::find_if` are functions with proved specifications.

Where the code and its own words disagree, the models follow the code:

- The comment at `05-miniclash/source_code/block0.cpp:194` speaks of four lanes; the vector type has eight.
- The 10 and the 11 search try every choice of Q9 and Q10 twice: one bit is already set in every drawn Q9, one bit of
  a mask is not in the table (`Masks.TurnsDiffer`).
- `is_explicitly_stored` in `08-blackhole/src/Jacobian.h:28-31` says false of one stored element: the first one put
  into the matrix since it was last empty, or, behind a sort, the least (`Csr.Jacobian.IsExplicitlyStored`). An element
  put first into a fresh matrix is never reported (`Csr.FirstIsMissed`).
- `insert_element` takes an element that is already stored a second time, and the old value goes on being found
  (`Csr.Jacobian.InsertElement`); `set_element` and `sum_into_element` never do this.
- `sort_each_row_into_column_order` reads the start of every row, also of those that are not there: each start must
  have been written once, and none may lie before the one above it (`Csr.Jacobian.SortEachRow` requires it).
- `write_file` asks the stream before its closing flush, so a success can leave a file without its end, which may fail
  the check (`Files.LostOutputFails`).
- A task whose three names are not all different reports success, but cannot pass the repository's own check, which
  opens the input again after the run. With two equal output names the outputs are one file; with the input as an
  output the check compares against what the task wrote (`Files.RunTask`, with the task line `a a b` in
  `Files.InputAsOutputFails`). In the driver this is exact for tasks whose files no other task writes
  (`Driver.RunTasks`); all tasks are such, and have three names, exactly if no output name is used twice or is an
  input name (`Driver.GoodNamesAre`).

`dafny verify dfyconfig.toml` checks the project.

## Model

| member | source | states |
|---|---|---|
| Md5.RotateBack | 05-miniclash/source_code/main.hpp:50-53 | RL undoes RR for every rotation that a reverse step uses |
| Md5.ReverseStep | 05-miniclash/source_code/main.hpp:55-60 | the word that the reverse step derives makes the forward step lead back to the given state word, for all register contents |
| Md5.Md5Compress | 05-miniclash/source_code/md5.cpp:3-79 | the 64 unrolled in-place updates and the final additions are the 64-row compression function of section 3.4 of RFC 1321 |
| Md5.FirstRound | 05-miniclash/source_code/md5.cpp:10-25 | the sixteen unrolled FF steps are rows 0 to 15 of the step table |
| Md5.SecondRound | 05-miniclash/source_code/md5.cpp:26-41 | the sixteen unrolled GG steps are rows 16 to 31 |
| Md5.ThirdRound | 05-miniclash/source_code/md5.cpp:42-57 | the sixteen unrolled HH steps are rows 32 to 47 |
| Md5.FourthRound | 05-miniclash/source_code/md5.cpp:58-73 | the sixteen unrolled II steps are rows 48 to 63 |
| Md5Known.FSelects | 05-miniclash/source_code/main.hpp:42-43 | F of section 3.4 of RFC 1321, written there with a select: each bit is that of the second word or of the third, as the first says |
| Md5Known.GSelects | 05-miniclash/source_code/main.hpp:44-45 | G of section 3.4 of RFC 1321, likewise, as the third word says |
| Md5Known.ISelects | 05-miniclash/source_code/main.hpp:48-49 | I bit by bit: the second word against the first where the third is set, the opposite of the second where it is clear |
| Md5Known.EmptyMd5 | 05-miniclash/source_code/md5.cpp:3-79 | the MD5 of the empty message is that of appendix A.5 of RFC 1321 |
| Md5Known.DigestMd5 | 05-miniclash/source_code/md5.cpp:3-79 | the MD5 of "message digest" is that of appendix A.5 of RFC 1321 |
| SearchCommon.SeedStaysLive | 05-miniclash/source_code/main.hpp:31-40 | the generator reaches the all-zero state only from the all-zero state |
| SearchCommon.Thread.Draws | 05-miniclash/source_code/main.hpp:33-40 | n draws are the n successive states of the generator, in order |
| SearchCommon.Reverse | 05-miniclash/source_code/main.hpp:58-60 | after a reverse step that step is consistent with the state words, and no other message word has changed |
| SearchCommon.FitsRun | 05-miniclash/source_code/block0.cpp:56-121 | if every single step is consistent, running them all from the first registers leads to the recorded later registers |
| SearchCommon.NeutralThird | 05-miniclash/source_code/block0.cpp:131-141 | a change of the third argument of FF in bits that the first has leaves FF alone |
| SearchCommon.NeutralSecond | 05-miniclash/source_code/block0.cpp:161-192 | a change of the second argument of FF in bits that the first lacks leaves FF alone |
| SearchCommon.PlaceQ4 | 05-miniclash/source_code/block0.cpp:139-150 | a value of Q4 is put in place with words 5, 3, 4 and 7 and q21 rederived; it passes exactly under the condition on q21, and then steps 3, 4, 5, 7 and 20 are consistent |
| SearchCommon.Forward | 05-miniclash/source_code/block0.cpp:171-185 | q22 to q24 are computed and accepted exactly under their four bit conditions |
| SearchCommon.ScalarFilter | 05-miniclash/source_code/block1stevens00.cpp:148-191 | the early-exit filter over steps 24 to 51 passes exactly if bit 15 in step 34 and the five sign comparisons hold, and then holds the state after step 51 |
| SearchCommon.Tail | 05-miniclash/source_code/block1stevens00.cpp:192-214 | the early-exit tail passes exactly if all sign comparisons of steps 52 to 62 hold, and then holds the state after step 63 |
| Lanes.VecFilter | 05-miniclash/source_code/block0.cpp:222-271 | each of the eight lanes ends alive exactly if the six scalar conditions hold for its candidate, with the state the scalar steps would give |
| Block0.TryLanes | 05-miniclash/source_code/block0.cpp:216-359 | one round of eight lanes compares exactly the surviving useful candidates, in order, and stops at the first success |
| Block0.ScanQ9 | 05-miniclash/source_code/block0.cpp:216-359 | the scan compares exactly the candidates among the 65536 that pass all filters and are useful, each once and in order, finds the first success, and gives up only when there is none |
| Block0.Step10 | 05-miniclash/source_code/block0.cpp:187-193 | word 10 stays consistent under every change of Q9 that the scan makes |
| Block0.Step11 | 05-miniclash/source_code/block0.cpp:161-193 | word 11 stays consistent under every change of Q9 and Q10 that both loops make |
| Block0.Step6 | 05-miniclash/source_code/block0.cpp:131-141 | word 6 stays consistent under every change of Q4 |
| Block0.CandidatePrepared | 05-miniclash/source_code/block0.cpp:161-221 | for every draw, every choice and every candidate, steps 0 to 23 over the finished block lead to the state the scan starts from |
| Block0.DotsHonest | 05-miniclash/source_code/block0.cpp:299-341 | every candidate that reaches the final comparison was predicted with the chaining words that the compression function returns, and suits a second search |
| Block0.TryChoice | 05-miniclash/source_code/block0.cpp:166-359 | one choice of Q9 and Q10 ends spent (a condition on q22 to q24 fails, or no candidate of its scan succeeds), found, or aborted |
| Block0.TryQ9Q10 | 05-miniclash/source_code/block0.cpp:166-359 | the loop gives up only when all eight choices are spent; steps 0 to 20 and word 11 stay consistent |
| Block0.TryQ4 | 05-miniclash/source_code/block0.cpp:131-359 | the loop gives up only when all sixteen values of Q4 are spent; steps 0 to 2, 6 and 14 to 19 stay consistent |
| Block0.DrawnBits | 05-miniclash/source_code/block0.cpp:67-68 | the drawn Q10 and Q11 have the bits that the neutral-bit arguments need, whatever was drawn |
| Block0.DrawAll | 05-miniclash/source_code/block0.cpp:59-73 | every drawn word meets its bit conditions: free bits are those of the draw, and every other bit is set, clear, as in an earlier word or its opposite |
| Block0.Steps16To19 | 05-miniclash/source_code/block0.cpp:82-121 | words and state words computed around a drawn q17 make steps 1 and 16 to 19 consistent |
| Block0.TryQ17 | 05-miniclash/source_code/block0.cpp:91-120 | an attempt at q17 succeeds exactly under the conditions on q18 to q20; steps 1 and 16 to 19 are then consistent, and otherwise nothing has changed |
| Block0.FindQ17 | 05-miniclash/source_code/block0.cpp:82-127 | a successful draw leaves steps 0 to 2, 6, 11 and 14 to 19 consistent |
| Block0.FindBlock0 | 05-miniclash/source_code/block0.cpp:34-361 | find_block0 returns only with a block whose two compressions differ by the wanted difference and whose chaining value suits a second search; every comparison on the way was honest; without a result the abort flag was seen |
| Block1.KeepStep10 | 05-miniclash/source_code/block1stevens00.cpp:143-150 | word 10 stays consistent under the inner loop over Q9, in all five searches |
| Block1.KeepStep11 | 05-miniclash/source_code/block1stevens00.cpp:117-150 | word 11 stays consistent under both loops over Q9 and Q10, in all five searches |
| Block1.ChoiceKeeps | 05-miniclash/source_code/block1stevens00.cpp:117-122 | part of an allowed change is an allowed change: real changes of Q10 fall where Q11 is clear, those of Q9 where it is set, and the inner loop keeps its bits |
| Block1.RoomWang | 05-miniclash/source_code/block1wang.cpp:36-41 | the drawn words of the Wang search leave room for its three loops, whatever was drawn |
| Block1.RoomS00 | 05-miniclash/source_code/block1stevens00.cpp:29-31 | the drawn words of the 00 search leave room for its two loops, and none of the bits that the loop over Q9 and Q10 sets is set in them |
| Block1.RoomS01 | 05-miniclash/source_code/block1stevens01.cpp:29-31 | the drawn words of the 01 search leave room for its two loops, and none of the bits that the loop over Q9 and Q10 sets is set in them |
| Block1.RoomS10 | 05-miniclash/source_code/block1stevens10.cpp:29-31 | the drawn words of the 10 search leave room for its two loops, and exactly one of the bits that the loop over Q9 and Q10 sets, one of Q9, is set in them |
| Block1.RoomS11 | 05-miniclash/source_code/block1stevens11.cpp:29-31 | the drawn words of the 11 search leave room for its two loops, and exactly one of the bits that the loop over Q9 and Q10 sets, one of Q10, is set in them |
| Block1.SeedWang | 05-miniclash/source_code/block1wang.cpp:32-46 | every word drawn by the Wang search meets its bit conditions, and the words leave room for the loops |
| Block1.SeedS00 | 05-miniclash/source_code/block1stevens00.cpp:22-36 | every word drawn by the 00 search meets its bit conditions, and the words leave room for the loops |
| Block1.SeedS01 | 05-miniclash/source_code/block1stevens01.cpp:22-36 | every word drawn by the 01 search meets its bit conditions, and the words leave room for the loops |
| Block1.SeedS10 | 05-miniclash/source_code/block1stevens10.cpp:22-36 | every word drawn by the 10 search meets its bit conditions, and the words leave room for the loops |
| Block1.SeedS11 | 05-miniclash/source_code/block1stevens11.cpp:22-36 | every word drawn by the 11 search meets its bit conditions, and the words leave room for the loops |
| Block1.InnerPrepared | 05-miniclash/source_code/block1stevens00.cpp:143-150 | for every candidate of the inner loop, steps 0 to 23 over the finished block lead to the state the filters start from |
| Block1.TryCandidate | 05-miniclash/source_code/block1stevens00.cpp:143-237 | one value of Q9 succeeds exactly if it passes every filter and both messages arrive at one chaining value |
| Block1.InnerScan | 05-miniclash/source_code/block1stevens00.cpp:143-237 | the inner loop gives up only if no value of Q9 succeeds |
| Block1.TryChoices | 05-miniclash/source_code/block1stevens00.cpp:117-238 | the loop over Q9 and Q10 gives up only when every choice is spent; steps 0 to 7 and 14 to 20 stay consistent |
| Block1.TryQ1 | 05-miniclash/source_code/block1stevens00.cpp:54-97 | an attempt at q1 succeeds exactly under the conditions on q17 to q20; steps 0, 1 and 16 to 19 are then consistent, and otherwise nothing has changed |
| Block1.FindQ1 | 05-miniclash/source_code/block1stevens00.cpp:51-104 | a successful draw leaves steps 0, 1, 5, 6, 11, 14 to 20 consistent |
| Block1.Complete | 05-miniclash/source_code/block1stevens00.cpp:105-116 | words 2, 3, 4 and 7 complete the stage before the loops, without disturbing the other steps |
| Block1.FindBlock1Stevens | 05-miniclash/source_code/block1stevens00.cpp:5-243 | a Stevens search returns only with a block that sends both chaining values of its variant to one value; every comparison was honest |
| Block1.FindQ1Wang | 05-miniclash/source_code/block1wang.cpp:58-114 | a successful draw of the Wang search leaves steps 0 to 2, 6, 11 and 14 to 19 consistent |
| Block1.TryQ4 | 05-miniclash/source_code/block1wang.cpp:116-263 | the Wang loop over Q4 gives up only when all 64 values are spent |
| Block1.FindBlock1Wang | 05-miniclash/source_code/block1wang.cpp:5-265 | the Wang search returns only with a block that sends both chaining values to one value; every comparison was honest |
| Block1.PerturbBack | 05-miniclash/source_code/block1.cpp:33-35 | the two message differences undo each other |
| Block1.OtherOfOther | 05-miniclash/source_code/block1.cpp:18-32 | a Stevens search that starts from the other message arrives back at the first message, through its own sign convention |
| Block1.AdjustedJoins | 05-miniclash/source_code/block1.cpp:12-39 | whichever search and sign convention was used, the block after the adjustment of words 4, 11 and 14 joins the two chaining values |
| Block1.OnlyOneIsReady | 05-miniclash/source_code/block0.cpp:328-336 | the Wang and the Stevens conditions exclude each other |
| Block1.VariantSuits | 05-miniclash/source_code/block1.cpp:12-39 | after a first block, the Wang search is chosen exactly if the Wang conditions hold |
| Block1.FindBlock1 | 05-miniclash/source_code/block1.cpp:12-39 | find_block1 returns only with a block that joins the chaining values of both messages |
| Masks.Q9Once | 05-miniclash/source_code/block0.cpp:50-54 | the 65536 entries of the table for Q9 are different |
| Masks.Q4Once | 05-miniclash/source_code/block0.cpp:38-42 | the 16 entries of the table for Q4 are different |
| Masks.WangQ4Once | 05-miniclash/source_code/block1wang.cpp:9-11 | the 64 entries of the Wang table for Q4 are different |
| Masks.ScanOnceWang | 05-miniclash/source_code/block1wang.cpp:21-23 | the 1024 entries of the Wang table for the inner loop are different |
| Masks.ScanOnceS00 | 05-miniclash/source_code/block1stevens00.cpp:13-15 | the 512 entries of the 00 table for the inner loop are different |
| Masks.ScanOnceS01 | 05-miniclash/source_code/block1stevens01.cpp:13-15 | the 512 entries of the 01 table for the inner loop are different |
| Masks.ScanOnceS10 | 05-miniclash/source_code/block1stevens10.cpp:13-15 | the 1024 entries of the 10 table for the inner loop are different |
| Masks.ScanOnceS11 | 05-miniclash/source_code/block1stevens11.cpp:13-15 | the 512 entries of the 11 table for the inner loop are different |
| Masks.ChoicesDiffer | 05-miniclash/source_code/block1stevens11.cpp:9-11 | for drawn words as they are, two choices give the same Q9 and Q10 exactly if they are equal or differ in the idle pattern of the variant: 8 for the 10 search, 13 for the 11 search, none for the others |
| Masks.TurnsDiffer | 05-miniclash/source_code/block1stevens11.cpp:117-122 | in every search that reaches its loop over Q9 and Q10, two turns of the loop place the same Q9 and Q10 exactly if their numbers are equal or differ in the idle pattern |
| Conditions.ConditionsOn17 | 05-miniclash/source_code/block1stevens00.cpp:65-66 | the test of q17, bit by bit, in all five searches: which bits are those of q16, which are flipped, which is clear |
| Conditions.ConditionsOn18 | 05-miniclash/source_code/block1stevens00.cpp:70 | the test of q18 against q17, bit by bit |
| Conditions.ConditionsOn19 | 05-miniclash/source_code/block1stevens00.cpp:74 | the test of q19, bit by bit |
| Conditions.ConditionsOn20 | 05-miniclash/source_code/block1stevens00.cpp:81 | the test of q20 against q19, bit by bit |
| Conditions.ConditionsOn21 | 05-miniclash/source_code/block1stevens00.cpp:95 | the test of q21 against q20, bit by bit |
| Conditions.WangConditions | 05-miniclash/source_code/block0.cpp:328-331 | the chaining values taken for the Wang search, bit by bit |
| Conditions.StevensConditions | 05-miniclash/source_code/block0.cpp:333-336 | the chaining values taken for the Stevens searches, bit by bit |
| Conditions.ChosenVariant | 05-miniclash/source_code/block1.cpp:14-38 | the Wang search is chosen exactly where the Stevens conditions fail; bits 6 and 0 of the second word name the Stevens search |
| Conditions.WangQ1 | 05-miniclash/source_code/block1wang.cpp:62-69 | q1 of the Wang search: free bits of the draw, set bits, and bits of q2 |
| Conditions.Q1Of00 | 05-miniclash/source_code/block1stevens00.cpp:51-58 | q1 of the 00 search: free bits of the draw, set bits, and bits equal or opposite to those of q0 |
| Conditions.Q1Of01 | 05-miniclash/source_code/block1stevens01.cpp:52-59 | q1 of the 01 search: free bits of the draw, set bits, and bits equal or opposite to those of q0 |
| Conditions.Q1Of10 | 05-miniclash/source_code/block1stevens10.cpp:52-59 | q1 of the 10 search: free bits of the draw, set bits, and bits equal or opposite to those of q0 |
| Conditions.Q1Of11 | 05-miniclash/source_code/block1stevens11.cpp:52-59 | q1 of the 11 search: free bits of the draw, set bits, and bits equal or opposite to those of q0 |
| Conditions.FirstQ17 | 05-miniclash/source_code/block0.cpp:94 | q17 of the first block: free bits of the draw, and bits equal or opposite to those of q16 |
| Conditions.Q4Table | 05-miniclash/source_code/block0.cpp:38-42 | the sixteen entries of the table for Q4, from the patterns of their index bits |
| Conditions.Q9Q10Table | 05-miniclash/source_code/block0.cpp:44-48 | the eight entries of the table for Q9 and Q10, likewise |
| Conditions.WangQ4Table | 05-miniclash/source_code/block1wang.cpp:9-11 | the 64 entries of the Wang table for Q4, likewise; they change exactly the bits that the room for Q4 allows |
| Conditions.ScanWang | 05-miniclash/source_code/block1wang.cpp:21-23 | the 1024 entries of the Wang table for the inner loop, likewise |
| Conditions.ScanS00 | 05-miniclash/source_code/block1stevens00.cpp:13-15 | the 512 entries of the 00 table for the inner loop, likewise |
| Conditions.ScanS01 | 05-miniclash/source_code/block1stevens01.cpp:13-15 | the 512 entries of the 01 table for the inner loop, likewise |
| Conditions.ScanS10 | 05-miniclash/source_code/block1stevens10.cpp:13-15 | the 1024 entries of the 10 table for the inner loop, likewise |
| Conditions.ScanS11 | 05-miniclash/source_code/block1stevens11.cpp:13-15 | the 512 entries of the 11 table for the inner loop, likewise |
| Conditions.ChoicesWang | 05-miniclash/source_code/block1wang.cpp:13-19 | the 32 choices of Q9 and of Q10 in the Wang search, likewise |
| Conditions.ChoicesS00 | 05-miniclash/source_code/block1stevens00.cpp:9-11 | the 8 choices of Q9 and of Q10 in the 00 search, likewise |
| Conditions.ChoicesS01 | 05-miniclash/source_code/block1stevens01.cpp:9-11 | the 32 choices of Q9 and of Q10 in the 01 search, likewise |
| Conditions.ChoicesS10 | 05-miniclash/source_code/block1stevens10.cpp:9-11 | the 16 choices of Q9 and of Q10 in the 10 search, likewise |
| Conditions.ChoicesS11 | 05-miniclash/source_code/block1stevens11.cpp:9-11 | the 32 choices of Q9 and of Q10 in the 11 search, likewise |
| Collision.PairsMeet | 05-miniclash/source_code/main.cpp:564-594 | a first pair and a second pair make two different messages with one chaining value |
| Collision.FindCollision | 05-miniclash/source_code/main.cpp:564-594 | whenever find_collision returns, the two messages differ in both blocks, lead from the given chaining value to one, and the first block suits the second search; otherwise the abort flag was seen |
| Files.BlockBack | 05-miniclash/source_code/tasks.cpp:93-98 | reading the bytes of a block as a block gives the block |
| Files.AppendBlock | 05-miniclash/source_code/tasks.cpp:93-98 | the bytes of a block are appended, lowest byte of each word first |
| Files.LoadCase | 05-miniclash/source_code/tasks.cpp:100-131 | the prefix is the input with fewer than 64 zeros up to whole blocks, and IV is the chaining value of section 3.4 of RFC 1321 behind it |
| Files.ChainOfMessage | 05-miniclash/source_code/tasks.cpp:150-165 | the chaining value of an output file is that of the prefix continued by the two blocks |
| Files.SameMd5 | 05-miniclash/utils/verify.py:20-24 | whole blocks with one chaining value have one MD5, in the sense of sections 3.1 to 3.5 of RFC 1321, whatever is appended to both |
| Files.MessagesVerified | 05-miniclash/utils/verify.py:6-24 | the two files differ, start with the input and have equal MD5, and keep equal MD5 under every common suffix |
| Files.CheckIsOfNames | 05-miniclash/utils/verify.py:6-24 | the check of a written task passes exactly if its three names differ, provided nobody else has changed its input |
| Files.InputAsOutputFails | 05-miniclash/utils/verify.py:6-24 | the task line "a a b" is written successfully, as a collision for the input that was read, and fails the check |
| Files.Disk.WriteFile | 05-miniclash/source_code/tasks.cpp:133-148 | a file holds all the data, or a beginning of it, or, where that is noticed, is as it was; success is reported also when the closing flush loses the end; no other file changes |
| Files.WriteCase | 05-miniclash/source_code/tasks.cpp:150-165 | both writes are attempted whatever becomes of the first; success is reported exactly if no failure of either is noticed |
| Files.RunTask | 05-miniclash/source_code/tasks.cpp:269-299 | a task that reports success, with no end lost at the closing flush, has files that pass the check, made over the disk as it is then, exactly if its three names differ; no file but the outputs changes |
| Files.LostOutputFails | 05-miniclash/source_code/tasks.cpp:133-148 | a file that lost its end at the closing flush, down to less than the input, is reported as a success and fails the check |
| Driver.EveryRunIsSafe | 05-miniclash/source_code/tasks.cpp:267-362 | in every interleaving and mode: active[i] counts the workers searching i, no task has two attempts to write it, a worker that left work or race mode has seen every task won, and in queue mode no task is in two hands |
| Driver.RunKeepsInv | 05-miniclash/source_code/tasks.cpp:267-362 | the invariant holds after every schedule of every number of workers |
| Driver.ExitedMeansDone | 05-miniclash/source_code/tasks.cpp:267-362 | when all workers have exited, every task is won, nobody searches it, and exactly one attempt to write it was made |
| Driver.NotWonElsewhere | 05-miniclash/source_code/tasks.cpp:319-333 | in queue mode nothing that a worker holds has been won by another |
| Driver.KeepsQueue | 05-miniclash/source_code/tasks.cpp:319-333 | in queue mode a task handed out is in one pair of hands, being written or finished |
| Driver.KeepsFiles | 05-miniclash/source_code/tasks.cpp:150-165 | what has been written as a whole stays as it was written, for every task whose files no other task writes |
| Driver.WrittenAre | 05-miniclash/source_code/tasks.cpp:133-148 | the disks that a write step of the driver can leave, with what is reported of it, are exactly those that write_file may leave |
| Driver.OthersStay | 05-miniclash/source_code/tasks.cpp:267-362 | no run changes a file that is not an output |
| Driver.RunTasks | 05-miniclash/source_code/tasks.cpp:199-366 | in every run of every mode in which all workers exit, each task has one attempt to write it, with a collision for its own chaining value; if it succeeded, no closing flush lost anything and no other task writes its files, the check at the end passes it exactly if its three names differ |
| Driver.GoodNamesAre | 05-miniclash/utils/verify.py:36-54 | no output name is used twice or is an input name exactly if every task has three different names and no other task writes any of them |
| Driver.SharedOutput | 05-miniclash/utils/verify.py:6-24 | two tasks that share an output never both pass, whatever is on the disk, unless one input is a beginning of the other |
| DriverRuns.ScanGoesOn | 05-miniclash/source_code/tasks.cpp:344-358 | a helper's scan goes through the tasks one by one, passes over a task only if it is won, and remembers the neediest seen: the one with the fewest searches, the oldest of these, or the oldest of all if that is asked for |
| DriverRuns.ScanChooses | 05-miniclash/source_code/tasks.cpp:341-361 | behind the scan it helps the first of the neediest, and exits exactly if all were seen won |
| DriverRuns.AloneMoves | 05-miniclash/source_code/tasks.cpp:267-362 | in every mode and state a worker that has not exited has a step that brings it nearer to its end, whatever the others do |
| DriverRuns.CanFinish | 05-miniclash/source_code/tasks.cpp:199-366 | if every chaining value has a collision, every run in every mode can go on until all workers have exited and every task is done |
| Render.Mixed | 07-maimoe/src/render.cpp:43-50 | a blended component is the nearest integer to the weighted mean of source and destination, between the two, and the one or the other at full and at no strength |
| Render.Strength | 07-maimoe/src/render.cpp:40-41 | the strength of a blend is the nearest integer to the product of the two opacities |
| Render.Surface.BlendAt | 07-maimoe/src/render.cpp:35-53 | exactly one surface pixel changes, to the blend, or none outside the surface |
| Render.Surface.Blend | 07-maimoe/src/render.cpp:55-68 | in both modes the surface shows the canvas with this one pixel blended |
| Render.Surface.Rectangle | 07-maimoe/src/render.cpp:70-94 | in both modes the surface shows the canvas with this clipped rectangle blended |
| Render.Surface.FillSampled | 07-maimoe/src/render.cpp:87-93 | the divided start index and the two loop conditions reach exactly the kept pixels inside the rectangle |
| Render.LaneX | 07-maimoe/src/render.cpp:96-106 | every lane of every state lies on the canvas |
| Render.LanesStand | 07-maimoe/src/render.cpp:96-99 | without rotation the lanes stand 32 pixels apart from pixel 16 on, in the opposite order if mirrored |
| Render.LanesTurn | 07-maimoe/src/render.cpp:96-106 | a rotation moves every lane alike around the canvas, a pixel for each full 256 units, in either direction |
| Render.VisibleIs | 07-maimoe/src/render.cpp:108-112 | the energy shown is energy times speed, rounded down, nothing for no or negative speed and at most 65535; at speed 1 it is the energy |
| Render.LengthsDoNotWrap | 07-maimoe/src/render.cpp:199-202 | bar heights and arm lengths do not wrap while no hold ends after the chart |
| Render.RenderImpl | 07-maimoe/src/render.cpp:128-305 | in either mode the buffer shows, pixel by pixel, the colours of the drawing plan of the state; wrong frame or size is refused and leaves the buffer alone |
| Render.SampleOutputFrame | 07-maimoe/src/render.cpp:343-360 | the sample holds the pixels (4x+2, 4y+2), and exactly a wrong size is refused |
| Render.DirectIsSampled | 07-maimoe/src/render.cpp:308-360 | for every chart id, state and frame, drawing at quarter size gives byte for byte the sample of the full canvas |
| Types.FrameTickGrows | 07-maimoe/src/state.cpp:187-192 | later frames have no earlier ticks |
| Types.FrameTick | 07-maimoe/src/state.cpp:187-192 | the tick of frame f is f ninths of the chart, rounded down |
| Types.RingA | 07-maimoe/src/state.cpp:14-20 | sensors A1 to A8 stand in a ring of radius 64 around the centre, clockwise from the top |
| Types.RingB | 07-maimoe/src/state.cpp:14-20 | sensors B1 to B8 stand in a ring of radius 48 |
| Types.RingD | 07-maimoe/src/state.cpp:14-20 | sensors D1 to D8 stand in a ring of radius 31 |
| Types.RingE | 07-maimoe/src/state.cpp:14-20 | sensors E1 to E8 stand in a ring of radius 17 |
| States.ApplyReached | 07-maimoe/src/state.cpp:110-114 | the loop applies, in order, exactly the events up to the first one that the tick does not reach |
| States.Decay | 07-maimoe/src/state.cpp:116-164 | the loops at the start of a frame compute every part from the state before it |
| States.EvolveStates | 07-maimoe/src/state.cpp:96-176 | the ten states are those of the frame-by-frame specification |
| States.EvolveEndpointStates | 07-maimoe/src/state.cpp:211-222 | the endpoint run gives the first and last of the ten states |
| States.AppliedWhenReached | 07-maimoe/src/state.cpp:168-172 | with sorted events, an event has been applied by a frame exactly if the tick of the frame reaches it |
| States.AllApplied | 07-maimoe/src/state.cpp:168-176 | after frame 9 no event is left |
| Histories.StateShowsHistory | 07-maimoe/src/state.cpp:44-176 | at every frame of every chart, holds, slides, touch holds, taps, touches and breaks are the closed form read off the events: the last writer, shown while it lasts or in the frame in whose interval it starts, with three frames of break flash |
| Histories.ShownMeansLasting | 07-maimoe/src/state.cpp:142-160 | a present hold, slide or touch hold ends after the frame tick or starts in the latest interval, and break_remaining is the longest flash over the lanes, at most 3 |
| Histories.ShownEnds | 07-maimoe/src/state.cpp:44-176 | in every frame, what is held or sliding ends no later than the latest end of an event |
| Energies.AllEvents | 07-maimoe/src/state.cpp:22-93 | any number of events adds the sum of their weights to the energy of a lane or sensor, capped at 65535 once: the strength of a tap, a quarter of that of a hold but at least 1, eight for each lane a slide touches, twice the strength of a break |
| Energies.EnergyAtStart | 07-maimoe/src/state.cpp:96-115 | in frame 0 every energy is the sum of the weights of the events at tick 0, capped |
| Energies.EnergyOfFrame | 07-maimoe/src/state.cpp:116-172 | in every later frame of every chart every energy is seven eighths of the one before, rounded down, and what holds and slides feed, and the weights of the events of the interval between the frames, capped |
| Energies.StartsFresh | 07-maimoe/include/maimoe/state.hpp:47-66 | evolution starts at speed 1, unrotated, opaque, with no energy |
| Energies.KnownFrames | 07-maimoe/src/state.cpp:96-172 | a chart of 120 beats per minute with one tap at tick 0 has energy 128 and then 112 on its lane, and the phases 0x7ddb3a31fcb4fcb2 and 0xf112e209e444d449 |
| Serializer.SerializeStateInto | 07-maimoe/src/state.cpp:231-307 | the buffer is filled exactly, with the fixed layout |
| Serializer.SameBytes | 07-maimoe/src/state.cpp:231-307 | two states have the same bytes exactly if they agree in everything but the payload of absent entries |
| Text.NumberBothWays | 07-maimoe/src/simai.cpp:84-98 | the number reader accepts exactly the printed numbers that fit |
| Text.BpmBothWays | 07-maimoe/src/simai.cpp:100-153 | the tempo reader accepts exactly the printed tempos that fit |
| Text.StrictLines | 07-maimoe/src/simai.cpp:490-523 | strict_lines returns the lines of the text if it has acceptable lines, and refuses exactly the texts that have none |
| Text.JoinOnce | 07-maimoe/src/simai.cpp:490-523 | a text has its lines in only one way |
| SimaiFacts.TableClash | 07-maimoe/src/simai.cpp:360-373 | the table entry of a source clashes with a later note exactly if one of its notes does |
| SimaiFacts.NotedKeeps | 07-maimoe/src/simai.cpp:286-383 | every note keeps the order of ticks and places, the bound max_tick, the exact table and the exactness of the clash errors |
| SimaiFacts.ParsedBodyKeeps | 07-maimoe/src/simai.cpp:546-633 | in every accepted body notes are in order of tick and place, max_tick bounds every tick and end tick, and a clash error is raised exactly if two notes clash |
| SimaiFacts.SourceCheckIsExact | 07-maimoe/src/simai.cpp:360-373 | neither DuplicateSource nor ActiveOverlap is raised exactly if any two notes of one source have different ticks and the earlier, if timed, ends no later than the later starts |
| NoteSyntax.DurationBothWays | 07-maimoe/src/simai.cpp:238-262 | a duration of t ticks is accepted exactly if it is the printed pair D:N of two positive numbers of 32 bits without a common factor, and t times D is 1536 times N |
| NoteSyntax.SensorBothWays | 07-maimoe/src/simai.cpp:155-195 | a sensor is read exactly from the name that is printed for it |
| NoteSyntax.NamesOfRings | 07-maimoe/src/simai.cpp:178-195 | the names are A, B, D or E and the place on the ring, and C |
| NoteSyntax.NoteBothWays | 07-maimoe/src/simai.cpp:286-352 | a note is accepted as a tap, break, hold, slide, touch or touch hold exactly if its text is that of one: the name of the lane or sensor, the sign of the kind, and the duration in brackets |
| NoteSyntax.KnownBody | 07-maimoe/src/simai.cpp:286-480 | the body "1h[4:1],E" is one hold on lane 1 from tick 0 to tick 384, with the canonical text "0 HOLD B1 384 128" and max_tick 384 |
| SimaiParser.CandidatesAreLeast | 07-maimoe/src/simai.cpp:33-45 | the kept errors are one for each code raised, with the least place and then detail |
| SimaiParser.CountsAddUp | 07-maimoe/src/simai.cpp:264-284 | the total is the sum of the five counts and the number of notes |
| SimaiParser.CountsByKind | 07-maimoe/src/simai.cpp:264-284 | each count is the number of notes of its kinds |
| SimaiParser.CanonicalEvent | 07-maimoe/src/simai.cpp:208-236 | the pieces written one by one make the canonical text of the note |
| SimaiParser.BodyParser.TakeNote | 07-maimoe/src/simai.cpp:286-383 | parse_note accepts exactly the notes of the specification and updates every field as it says |
| SimaiParser.BodyParser.TakeControls | 07-maimoe/src/simai.cpp:385-427 | parse_controls accepts exactly the controls of the specification, with their warnings and errors |
| SimaiParser.BodyParser.TakeCell | 07-maimoe/src/simai.cpp:429-480 | parse_cell accepts exactly the cells of the specification and updates every field as it says |
| SimaiParser.BodyParser.TakeBody | 07-maimoe/src/simai.cpp:598-616 | the loop over the body accepts exactly the bodies of the specification |
| Maidata.SortNotesSorts | 07-maimoe/src/simai.cpp:618-623 | sorting puts the same events in order of tick, type and place |
| Maidata.KindsInOrder | 07-maimoe/include/maimoe/types.hpp:78-85 | at one tick the events come in the order hold, slide, touch hold, tap, touch, break |
| Maidata.ErrorBeforeIsLess | 07-maimoe/src/simai.cpp:624-630 | errors are compared by place and then by the number of their code, as one number |
| Maidata.ParsesOnce | 07-maimoe/src/simai.cpp:546-633 | a text is one chart at most |
| Maidata.ParseMaidata | 07-maimoe/src/simai.cpp:546-633 | parse_maidata returns the chart that the text consists of, and refuses exactly the texts that are none |
| MaidataWriter.GreedyIsAhead | 07-maimoe/src/simai.cpp:655-668 | greedy wrapping of tokens uses no more lines than any other wrapping within the limit |
| MaidataWriter.FewestLines | 07-maimoe/src/simai.cpp:655-668 | rewrapping a body uses no more lines than it had |
| MaidataWriter.CellsAreTokens | 07-maimoe/src/simai.cpp:429-450 | the cells kept by the parser, with commas between them, are the body |
| MaidataWriter.WriteMaidata | 07-maimoe/src/simai.cpp:635-694 | write_maidata returns the wrapped text exactly if the chart is writable, every cell fits, the text is not too long and reading it back gives the same counts, max_tick, warnings and events, each with its canonical text |
| MaidataWriter.RoundTrip | 07-maimoe/src/simai.cpp:635-694 | for every accepted text without a semantic error the writer accepts the chart, keeps the seven metadata lines and the body in no more lines, and reading again gives the same chart with everything at the same place of the body |
| MaidataWriter.WriteParsed | 07-maimoe/src/simai.cpp:635-694 | writing what was read succeeds unless there is a semantic error, and what is written reads back as the same chart |
| ChartFacts.PlacesAreOffsets | 07-maimoe/src/simai.cpp:577-596 | the location of a body character names that character of the text, and places compare as byte offsets do |
| ChartFacts.SelectedIsLeast | 07-maimoe/src/simai.cpp:624-630 | the first candidate is the earliest of all errors raised, of the smallest code there and the smallest detail with it |
| ChartFacts.ParsedIsWellTimed | 07-maimoe/src/simai.cpp:618-623 | the events of an accepted chart are sorted by tick and within max_tick |
| ChartFacts.ParsedEndsWithin | 07-maimoe/src/simai.cpp:333 | no event of an accepted chart ends after max_tick |
| ChartFacts.EveryEventOnce | 07-maimoe/src/state.cpp:96-176 | every event of an accepted chart is applied in the first frame whose tick reaches it, and none is left after frame 9 |
| ChartBounds.ParsedBodyWithin | 07-maimoe/src/simai.cpp:546-633 | an accepted body has no more notes and no more warnings than characters and two, and every error is raised at one of its characters |
| ChartBounds.DrawnLengths | 07-maimoe/src/render.cpp:197-245 | in every frame of every accepted chart, the heights of holds and the arms of touch holds are drawn without wrapping, at most 144 and 7 pixels |
| Records.EncodeResultInto | 07-maimoe/src/MaiMoeEngine.cpp:211-249 | a record is encoded exactly if status, error fields and buffer fit together, in the fixed layout, and otherwise the buffer is left alone |
| Records.DecodeResult | 07-maimoe/src/MaiMoeEngine.cpp:271-318 | decode_result accepts exactly the bytes of sound records: counts that add up and no error, or no counts and an error |
| Records.SameRecord | 07-maimoe/src/MaiMoeEngine.cpp:211-249 | different records have different bytes |
| Records.EncodeAndDecode | 07-maimoe/src/MaiMoeEngine.cpp:211-318 | a sound record decodes to itself, an unsound one is refused |
| Records.ProducedIsAccepted | 07-maimoe/src/MaiMoeEngine.cpp:569-612 | every accepted text produces a record that decode_result accepts: the selected error can be encoded, or else the counts add up; no counter wraps and no location is cut |
| Records.FieldsSay | 07-maimoe/src/MaiMoeEngine.cpp:110-124 | the error fields determine the code, the line, the column and the detail of the error |
| Records.FieldsAre | 07-maimoe/src/MaiMoeEngine.cpp:110-124 | error fields exist exactly for a line and a column from 1 on that fit, and hold code, column, line, detail and zeros at fixed places |
| Expected.WriteExpected | 07-maimoe/src/MaiMoeEngine.cpp:657-681 | exactly the files of 1 to 16384 accepted records with increasing ids are written |
| Expected.ReadExpected | 07-maimoe/src/MaiMoeEngine.cpp:683-718 | exactly the bytes of such files are accepted |
| Expected.WriteAndRead | 07-maimoe/src/MaiMoeEngine.cpp:657-718 | reading what was written gives the file back |
| Expected.ReadAndWrite | 07-maimoe/src/MaiMoeEngine.cpp:657-718 | writing what was read gives the bytes back |
| Sha256.PlusOrder | 07-maimoe/src/sha256.cpp:83-89 | the schedule terms may be added in the source order instead of the order of section 6.2.2 of FIPS 180-4 |
| Sha256Known.ChSelects | 07-maimoe/src/sha256.cpp:101-103 | each bit of Ch of section 4.1.2 of FIPS 180-4 is that of the second word or of the third, as the first says |
| Sha256Known.MajDecides | 07-maimoe/src/sha256.cpp:104-106 | each bit of Maj is that of most of the three words |
| Sha256Known.AbcDigest | 07-maimoe/src/sha256.cpp:74-179 | the digest of "abc" is that of the example in FIPS 180-4 |
| Sha256.Words | 07-maimoe/src/sha256.cpp:78-90 | the 64 schedule words are those of section 6.2.2 of FIPS 180-4 |
| Sha256.Hasher.Transform | 07-maimoe/src/sha256.cpp:78-125 | transform is the compression of the buffer into the state |
| Sha256.Hasher.Update | 07-maimoe/src/sha256.cpp:127-147 | update appends to the message, refuses exactly a finished context or too large an input, and leaves fewer than 64 bytes buffered |
| Sha256.Hasher.Finish | 07-maimoe/src/sha256.cpp:154-179 | finish returns, once, the digest of the message padded as in section 5.1.1 of FIPS 180-4 |
| Sha256.HashChunks | 07-maimoe/src/sha256.cpp:127-179 | however a message is split into calls the digest is the same |
| Manifest.ParseHex | 07-maimoe/src/sha256.cpp:204-218 | the digest reader accepts exactly the printed digests |
| Manifest.ValidRelativePath | 07-maimoe/src/manifest.cpp:226-255 | a path is accepted exactly if it is short enough and every component is valid; the early checks refuse nothing more |
| Manifest.Validate | 07-maimoe/src/manifest.cpp:93-140 | exactly the valid manifests are accepted: ids increase, sizes add up within the quota, paths differ |
| Manifest.ParseRecord | 07-maimoe/src/manifest.cpp:142-166 | a chart line is accepted exactly if it is the line printed for the record |
| Manifest.WriteManifest | 07-maimoe/src/manifest.cpp:299-305 | exactly the valid manifests are written |
| Manifest.ParseManifest | 07-maimoe/src/manifest.cpp:257-297 | a text is accepted exactly if it is that of a valid manifest with the right end digest |
| Manifest.WriteAndRead | 07-maimoe/src/manifest.cpp:257-305 | reading what was written gives the manifest back with the end digest filled in |
| Manifest.ReadAndWrite | 07-maimoe/src/manifest.cpp:257-305 | writing what was read gives the text back byte for byte |
| Pool.StepKeeps | 11-llm/dpsk_benchmark.py:723-788 | in every step slots are handed out in order to one worker each, a slot runs exactly while its worker is busy with it until the seal, and active counts the busy workers |
| Pool.SealIsFinal | 11-llm/dpsk_benchmark.py:782-786 | after the seal no slot changes |
| Pool.SlotsMoveOn | 11-llm/dpsk_benchmark.py:731-757 | in every step no slot is handed back, a running one keeps its worker, and a finished one keeps its status |
| Pool.ClaimedOnceEver | 11-llm/dpsk_benchmark.py:723-788 | over any stretch of any run and all rounds, a slot once claimed is never claimed again, by its worker or another, and keeps its final status |
| Pool.StageKeeps | 11-llm/dpsk_benchmark.py:943-946 | the next round starts only when the pool has returned, with every slot ok |
| Pool.EveryRun | 11-llm/dpsk_benchmark.py:943-946 | in every run: never more than the given concurrency is active, a slot of a round leaves not_started only after all slots of earlier rounds are ok, none is running behind a seal, and a returned pool has every slot ok and no thread left (that good runs return: PoolRuns.EverySmoothRun) |
| PoolRuns.StatusWasCaused | 11-llm/dpsk_benchmark.py:731-757 | in every run and over all rounds, a slot is ok only by an ok reply to the request of the worker that sent it, and failed only by another reply to it or by a deadline past when it was handed out |
| PoolRuns.StopIsFinal | 11-llm/dpsk_benchmark.py:731-757 | a failed slot or a failed reply has stopped the pool; a stopped pool stays stopped, hands out no slot and does not return |
| PoolRuns.FailureStopsInRuns | 11-llm/dpsk_benchmark.py:731-757 | the same holds after every run, over the rounds |
| PoolRuns.StoppedForGood | 11-llm/dpsk_benchmark.py:731-788 | once it is stopped, by a signal, a failure or the deadline, no slot is handed out any more in any run, and run_pool does not return |
| PoolRuns.EverySmoothRun | 11-llm/dpsk_benchmark.py:723-788 | with at least one worker allowed, in every run of ok replies without lateness, exception or signal, over all rounds: no slot fails or is interrupted, run_pool does not raise, every slot is ok behind the seal, the next step of run_pool then returns, and until then some step brings the end nearer |
| PoolRuns.FewChanges | 11-llm/dpsk_benchmark.py:723-788 | however such a run goes on, only so many of its steps change anything before the round is over |
| PoolRuns.NobodyWorks | 11-llm/dpsk_benchmark.py:760-769 | with no worker allowed and a slot to do, no run returns |
| Csr.Jacobian.FindElement | 08-blackhole/src/Jacobian.C:98-113 | the position of the element, or -1 exactly if it is not stored |
| Csr.Jacobian.Element | 08-blackhole/src/Jacobian.C:65-70 | the value stored, or 0 |
| Csr.Jacobian.GrowArrays | 08-blackhole/src/Jacobian.C:153-168 | the arrays grow by half and a thousand and keep the positions in use |
| Csr.Jacobian.InsertElement | 08-blackhole/src/Jacobian.C:115-151 | an element is taken exactly in the last row or the one after it, at the returned position; a new one is then stored beside all others, one that is there already is doubled and its old value goes on being found; otherwise nothing changes |
| Csr.Jacobian.SetElement | 08-blackhole/src/Jacobian.C:80-87 | the matrix changes at this element only, or not at all where insertion is impossible |
| Csr.Jacobian.SumIntoElement | 08-blackhole/src/Jacobian.C:89-96 | the value is added to the element, 0 if it was not stored |
| Csr.Jacobian.ZeroMatrix | 08-blackhole/src/Jacobian.C:72-78 | no element is left |
| Csr.Jacobian.SortEachRow | 08-blackhole/src/Jacobian.C:178-221 | every row ends in order of column with the same elements; an element that was doubled keeps one of its values; rows that are not there are sorted without effect |
| Csr.Jacobian.IsExplicitlyStored | 08-blackhole/src/Jacobian.h:28-31 | true exactly for the stored elements other than the first one put into the matrix since it was last empty, or, behind a sort, the least one |
| Csr.FirstIsMissed | 08-blackhole/src/Jacobian.h:28-31 | the element put first into a fresh matrix has its value but is said not to be stored |
| Csr.InsertKeeps | 08-blackhole/src/Jacobian.C:131-150 | an insertion into the last row keeps the layout and stores the element if it is new, and otherwise changes nothing that is found |
| Csr.SortKeeps | 08-blackhole/src/Jacobian.C:193-217 | reordering the entries of a row without doubled elements keeps the layout and every element |
| Csr.SortFinds | 08-blackhole/src/Jacobian.C:193-217 | reordering a row with doubled elements keeps the layout and the set of elements found |
| Csr.SortOrders | 08-blackhole/src/Jacobian.C:170-176 | sorting puts the same entries, each as often as before, in order of column |
| Postcard.VarintBack | 06-rune/rune_scheduler/codec.py:130-143 | a number reads back from anywhere in a buffer |
| Postcard.VarintForth | 06-rune/rune_scheduler/codec.py:130-143 | a number that was read was written by this encoder exactly if its last byte is not a superfluous zero |
| Postcard.VarintIs | 06-rune/rune_scheduler/codec.py:188-198 | the bytes of a number have the high bit on all but the last, the number is the sum of their low seven bits times the powers of 128, and there are no more bytes than it needs |
| Postcard.VarintAtIs | 06-rune/rune_scheduler/codec.py:130-143 | what is read at a cursor is that sum over the chained bytes there, and nothing is read exactly if they do not end in the buffer |
| Postcard.ValueBack | 06-rune/rune_scheduler/codec.py:215-265 | every encodable value of every shape reads back as itself with the cursor behind it (the reader reads so: Postcard.Reader.ReadValue) |
| Postcard.RoundTrip | 06-rune/rune_scheduler/codec.py:123-265 | the same between any prefix and any suffix |
| Postcard.ReadConforms | 06-rune/rune_scheduler/codec.py:123-173 | whatever is read for a shape is a value of that shape |
| Postcard.Buffer.PutVarint | 06-rune/rune_scheduler/codec.py:188-198 | the loop appends the seven-bit groups of the number |
| Postcard.Buffer.Put | 06-rune/rune_scheduler/codec.py:215-265 | the encoding is appended, and exactly a discriminant over 127 is refused |
| Postcard.Reader.ReadVarint | 06-rune/rune_scheduler/codec.py:130-143 | the loop reads the number at the cursor, and moves the cursor only if it is complete |
| Postcard.Reader.ReadBytes | 06-rune/rune_scheduler/codec.py:158-165 | the bytes behind the length, or an error exactly if they overrun the buffer |
| Postcard.Reader.ReadValue | 06-rune/rune_scheduler/codec.py:123-173 | the cursor reader returns the value of the given shape that stands at the cursor and moves behind it, and fails exactly if there is none |
| Postcard.WriteAndRead | 06-rune/rune_scheduler/codec.py:123-265 | a value written by the encoder between any prefix and any suffix is read back by the cursor reader with the suffix left, exactly if the encoder takes it |
| Postcard.Socket.ReadExact | 06-rune/rune_scheduler/codec.py:34-43 | the next bytes under every schedule of short receives, or an error exactly if the connection closes before |
| Postcard.Socket.ReadFrame | 06-rune/rune_scheduler/codec.py:46-50 | the payload of the next frame under every schedule, exactly if it is whole and not over the limit |

## Left out

- The random loops around the searches: success probability, running time and termination.
- Block0.FindQ17: does not state when the 128 draws all fail; Block1.FindQ1 and Block1.FindQ1Wang likewise for 4096.
- Two names of one file: a name in the model is a file of its own.
- The timers, traces, thread affinity and progress output of the MD5 program, and the splitting of task lines into
  names.
- Driver.RunTasks: does not state that the workers exit, which needs fairness (that they can: DriverRuns.CanFinish), nor
  what becomes of a task whose files another task writes, which depends on the order of the writes (Driver.SharedOutput
  holds in every order). The loads that a helper chooses by are arbitrary. The counter `next` does not wrap.
- The seeds that `seed_search` derives from the attempt counter.
- Format errors carry no message and no location in the chart and manifest parsers.
- Integers in the chart parser are unbounded where the source has 64 bits; a text of 8 MiB cannot reach that bound.
- The state of a chart is a value that each frame replaces, as the copied structure of the source is; the arrays in
  it are sequences.
- Render.RenderImpl: coordinates are unbounded, where the source would overflow for arm lengths near 2^31; lengths are
  small for charts of the parser (ChartBounds.DrawnLengths).
- The grayscale rendering, the frame files and the combined buffer of `07-maimoe/src/MaiMoeEngine.cpp`, and the walk
  over dataset files: file handling. In a result record the digests are arbitrary.
- Records.ReadLe: reads within the buffer; every caller has checked the size before.
- Manifest.Validate: remembers the paths seen where the source sorts them and compares neighbours.
- The request itself in the pool: its outcome is arbitrary. Time is a choice at each clock reading.
- Pool.EveryRun: does not state that a run ends, which depends on the replies; PoolRuns.EverySmoothRun is about those
  that are ok. A worker that outlives the drain keeps running in the model too.
- Scores, summaries and reports of the benchmark, and the binding of slots to the dataset.
- Floating-point rounding in the matrix: values are real numbers. The linear solver is a foreign routine.
- Postcard floats, JSON payloads, the lookup of an enum variant by name, and the fixed-width reads `read_u32` and
  `read_i16`, which nothing calls and which do not notice the end of the buffer.
- Text in the codec is its UTF-8 bytes.

# Advent of Code 2019 in Dafny: the Intcode machine and the puzzle logic

This project models the Java solutions to Advent of Code 2019 in Dafny and proves properties
of the model. Each Java class `DayNN` becomes a module `DayNN` in `dfy/dayNN.dfy`. Two
shared modules sit beside them: `Wrappers` (Option) and `JavaMath` (Java's truncating `/`
and `%`, `Math.abs`, `Math.signum`, powers of two). `Euclid` holds the gcd and lcm of Days
10 and 12, and `Bitmask` holds the `|`, `&` and `<<` of Day 18.

**The Intcode machine** comes in three generations:

- Day 2 knows add, multiply and halt.
- Day 5 adds modes, input, output, jumps and comparisons.
- Day 9 adds relative mode and the relative base, in 10000 cells of memory.

Day 2 has no class: its static `execute`, `add` and `multiply` become `Interpret`, a pure
recursion over a sequence of memory, and `ExecuteInPlace`, a loop over the caller's
`array<int>` proved against `Interpret`. Days 5 and 9 are each a class over an `array<int>`
of memory, with the source's fields for the instruction pointer, the relative base and the
`halted` and `failed` flags. Each of their instruction handlers is a method, proved against a
pure step function on a value copy of the machine. Decoding, the addressing modes, jumps,
halting and failing are stated in those contracts.

**The embeddings** override the machine's two I/O hooks:

- the amplifiers (Day 7);
- the paint robot (Day 11);
- the arcade (Day 13);
- the repair droid (Day 15);
- the ASCII camera (Day 17);
- the network computers (Day 23).

Each embedding is a class that owns a machine and holds the hook state the Java subclass
keeps in fields. Its hooks are methods proved against pure hook functions. Its driver loop
runs the machine pass by pass, and is proved against a generic pure run of the machine with
those hooks. A hook may set the machine's `halted` flag, as Days 15 and 23 do.

**The puzzle logic** of Days 1, 3, 4, 6, 8, 10, 12, 14, 16, 18, 20, 22 and 24 follows the
form of its source:

- Loops over arrays, lists and maps become methods with loop invariants. Each is proved
  against a pure specification function.
- Objects whose fields the source updates become classes. These are the orbit nodes, the
  asteroids, the moons, the nanofactory and the portal maze.
- The properties of the specification functions are proved as lemmas. Examples are
  rearrangements, round trips, bounds, preserved sums and "nothing else changes".

On Day 9's program `5,0,0,99` the jump target is read in position mode through cell 2
(holding 0), so it is cell 0's value 5. The jump lands on a zero cell of the padding, opcode 0
is unknown, and the executor fails (`Day09.ExampleJumpToPadding`).

## Model

| member | source | states |
|---|---|---|
| Day01.Fuel | src/Day01.java:31-33 | a third of the mass truncated toward zero, minus 2; below the mass for a positive mass and not positive for a mass of at most 8 |
| Day01.FuelFrom | src/Day01.java:35-44 | the amounts added while positive: 0 when the first is not positive, otherwise at least the first |
| Day01.CalculateTotalFuel | src/Day01.java:35-44 | the loop returns the total fuel: the fuel, the fuel for that fuel, and so on while positive |
| Day01.TotalFuelRecurrence | src/Day01.java:38-43 | the total is 0 when the first fuel is not positive, else the fuel plus the total for that fuel; never below the plain fuel |
| Day01.FuelFromBound | src/Day01.java:39-42 | the added amounts sum to at most one and a half times the first |
| Day01.TotalFuelBound | src/Day01.java:35-44 | the total fuel of a positive mass is at most half the mass |
| Day01.SumFuelSplits | src/Day01.java:23-29 | the parallel sum splits over any division of the modules, so its order does not matter |
| Day01.TotalAtLeastPlain | src/Day01.java:15-29 | part 2's sum is never below part 1's and never negative |
| Day01.Examples | src/Day01.java:31-44 | the worked fuel values (12, 14, 1969, 100756) and truncation toward zero for a negative mass |
| Day02.InterpretKeepsSize | src/Day02.java:45-61 | running the gravity-assist program never changes the size of memory |
| Day02.InterpretResult | src/Day02.java:55-58 | a run completes exactly when it stops on a pointer inside memory whose opcode is neither add nor multiply; it returns cell 0 when that opcode is halt and -1 otherwise |
| Day02.ArithmeticStep | src/Day02.java:49-54 | one add or multiply writes exactly the target cell with the sum or product of the operand cells and moves four cells on |
| Day02.Example | src/Day02.java:40-62 | the worked program with noun 9 and verb 10 leaves 3500 in cell 0 |
| Day02.ExecuteInPlace | src/Day02.java:40-62 | the in-place `execute` leaves the array and returns exactly what the value-level run gives after writing noun and verb |
| Day02.CopyOf | src/Day02.java:72-74 | a fresh array with the same contents |
| Day02.Part02 | src/Day02.java:27-53 | the search ends at the first pair, nouns outer and verbs inner, that hits the target or whose run raises (no catch, so the exception ends the program); every pair tried before it runs to completion and misses; when it ends without either, every pair in 0..99 misses |
| Day02.Answer | src/Day02.java:33 | `100 * noun + verb` encodes the noun in the hundreds and the verb in the last two digits |
| Day03.Manhattan | src/Day03.java:81-83 | the Manhattan distance is 0 exactly at the origin |
| Day03.Segment | src/Day03.java:44-52 | one point per step of a move, none for a negative amount |
| Day03.ToPoints | src/Day03.java:32-55 | the nested loop builds exactly the traced wire |
| Day03.TraceShape | src/Day03.java:40-53 | one point per step; the k-th point has path length k; each point is one unit step from the one before, the first from the origin |
| Day03.ShiftStep | src/Day03.java:45-50 | consecutive points of a move are a unit step apart and the move leaves from where the wire stands |
| Day03.RetainAll | src/Day03.java:68-74 | keeps exactly the points of the first wire whose spot (coordinates only) the second wire reaches |
| Day03.IndexOf | src/Day03.java:26 | the first position of the second wire at the point's spot, or none when it never gets there |
| Day03.Min | src/Day03.java:18-21 | the least value, present exactly when there is a value |
| Day03.Part01Nearest | src/Day03.java:17-21 | part 1 has an answer exactly when the wires cross; it is the Manhattan distance of some crossing, and no crossing is nearer the origin |
| Day03.FirstVisitShortest | src/Day03.java:24-29 | the first visit of a spot on a traced wire has the shortest path length, so part 2 pairs each crossing with the second wire's shortest way there |
| Day03.Part02Least | src/Day03.java:24-29 | part 2 has an answer exactly when the wires cross; it is the combined length of some crossing and no crossing's is smaller |
| Day03.Part02Shortest | src/Day03.java:24-29 | against a traced second wire, no pair of visits to a common spot has a shorter combined path than part 2's answer |
| Day03.Example | src/Day03.java:44-52 | a small traced wire, and any letter other than R, L and U moves down |
| Day04.Digits | src/Day04.java:13 | the decimal text of a number has at least one digit |
| Day04.Insert | src/Day04.java:28 | inserting a character adds exactly that character to the multiset of characters |
| Day04.Sort | src/Day04.java:28 | the sorted characters are a rearrangement of the original ones |
| Day04.InsertSorted | src/Day04.java:28 | inserting into a non-decreasing sequence keeps it non-decreasing |
| Day04.SortSorted | src/Day04.java:28 | the sorted characters never decrease |
| Day04.SortKeepsSorted | src/Day04.java:28 | a non-decreasing sequence is its own sort |
| Day04.SortedIffNonDecreasing | src/Day04.java:31-32 | a value equals its sorted characters exactly when its characters never decrease |
| Day04.IsValidPasswordPart01 | src/Day04.java:26-40 | valid exactly when the value equals its sorted characters and two neighbours are equal |
| Day04.IsValidPasswordPart02 | src/Day04.java:42-64 | valid exactly when some maximal run of equal characters is exactly two long, the last run included |
| Day04.Part02HasDouble | src/Day04.java:14-18 | a run of exactly two is a pair of equal neighbours, so the part 2 rule implies part 1's double |
| Day04.CountPasswords | src/Day04.java:10-20 | the two counters count the numbers valid for part 1, and for part 1 and part 2, from the lower end up to the upper end excluded |
| Day04.Part02AtMostPart01 | src/Day04.java:14-18 | part 2's count never exceeds part 1's |
| Day04.UpperBoundExcluded | src/Day04.java:12 | the upper end of the range is not counted, the lower end is |
| Day04.ExamplesPart01 | src/Day04.java:26-40 | 111111 is valid; 223450 and 123789 are not |
| Day04.ExamplesPart02 | src/Day04.java:42-64 | 112233 and 111122 are valid for part 2; 111111 and 123444 are not |
| Intcode.DecodeDigits | src/Day05.java:133-137 | for a non-negative instruction the opcode is its last two digits and the modes of parameters 0, 1 and 2 are its hundreds, thousands and ten-thousands digits |
| Intcode.NegativeInstructionFails | src/Day05.java:52-65 | a negative instruction has a non-positive opcode (Java's `%` truncates), which falls to `fail` |
| Intcode.Mode | src/Day05.java:134-137 | the division loop yields the mode digit of the parameter |
| Day05.Load | src/Day05.java:37-39 | a fresh executor holds the program, starts at index 0 and is running |
| Day05.ReadModes | src/Day05.java:133-141 | mode 0 dereferences; any other mode digit reads immediately; only an index out of range makes a read fail |
| Day05.WriteTargetIgnoresMode | src/Day05.java:69-85 | add, multiply, less-than and equals write to the raw third parameter whatever its mode digit; memory keeps its size |
| Day05.AdjustRelativeBaseFails | src/Day05.java:55-66 | opcode 9 is unknown to this executor: it sets `failed` and changes nothing else |
| Day05.StepKeepsSize | src/Day05.java:44-48 | a step never changes the size of memory; an input wait or an exception leaves the state as it was |
| Day05.OutputMovesOn | src/Day05.java:92-95 | an output instruction only moves the instruction pointer past itself |
| Day05.RunKeepsSize | src/Day05.java:41-49 | memory keeps the program's length throughout a run |
| Day05.RunPreserves | src/Day05.java:41-49 | a property of the hook state that both hooks keep holds at the end of every run |
| Day05.ConsoleRunAppends | src/Day05.java:153-159 | through a run the default hooks take inputs from the front only, so the inputs left follow those read, and the output log only grows at its end |
| Day05.ExampleEcho | src/Day05.java:87-95 | `3,0,4,0,99` outputs its input and halts |
| Day05.ExampleImmediateMultiply | src/Day05.java:78-85 | `1002,4,3,4,33` writes 99 to cell 4 and then halts on it |
| Day05.IntcodeExecutor.constructor | src/Day05.java:37-39 | the executor's memory is a fresh copy of the program, at index 0, running |
| Day05.IntcodeExecutor.GetInput | src/Day05.java:133-141 | the in-place read returns the value-level read |
| Day05.IntcodeExecutor.ProcessArithmetic | src/Day05.java:69-85 | the array after add, multiply, less-than or equals is the value-level arithmetic step |
| Day05.IntcodeExecutor.ProcessJump | src/Day05.java:97-113 | the jumps move to the target or by 3, as the value-level jump |
| Day05.IntcodeExecutor.ProcessInstruction | src/Day05.java:51-67 | one pass of the loop body changes the executor exactly as the value-level step |
| Day05.IntcodeExecutor.StoreInput | src/Day05.java:87-90 | the accepted value is stored at the target cell and the pointer moves by 2 |
| Day05.IntcodeExecutor.Pass | src/Day05.java:44-48 | one pass with the default hooks matches one value-level pass, ending the run where it ends |
| Day05.IntcodeExecutor.Execute | src/Day05.java:41-49 | the outputs and the reason the run stopped are those of the value-level run over the input sequence |
| Day06.ChainFuel | src/Day06.java:75-78 | once the chain of parents has ended, more steps give the same chain |
| Day06.AncestorsStep | src/Day06.java:73-78 | the parent of a rooted body is rooted, and its ancestors are the parent followed by the parent's ancestors |
| Day06.Line | src/Day06.java:82-90 | a body's line starts with the body itself |
| Day06.LineLinks | src/Day06.java:85-89 | along a line each body's parent is the next one and the last has none; every tail of a line is a line |
| Day06.LineDistinct | src/Day06.java:75-78 | a chain of parents that ends never visits a body twice |
| Day06.DepthRecurrence | src/Day06.java:72-80 | a body without a parent orbits nothing; any other orbits one more than its parent |
| Day06.TotalOrbitsAny | src/Day06.java:22-28 | the total of part 1 does not depend on the order the nodes are summed in |
| Day06.FirstFlagged | src/Day06.java:92-97 | the child found is flagged; none is found only when no child is flagged |
| Day06.WalkDown | src/Day06.java:92-97 | from a flagged body on SAN's branch, following flagged children reaches the target in as many steps as the body is above it |
| Day06.WalkUp | src/Day06.java:39-40 | from unflagged bodies the walk climbs parents one transfer per body |
| Day06.Transfers | src/Day06.java:30-47 | the walk from YOU's parent climbs to the first body on SAN's branch and descends to SAN's parent: up-count plus down-count transfers |
| Day06.AttachKeepsLinks | src/Day06.java:49-55 | `addOrbit` appends the body to the centre's children, keeps every other list, and keeps parents and children consistent |
| Day06.Orbits.constructor | src/Day06.java:13 | an empty map of nodes |
| Day06.Orbits.AddOrbit | src/Day06.java:49-55 | both nodes exist afterwards, the body's parent is the centre and the body is appended to the centre's children |
| Day06.Orbits.CalculateOrbits | src/Day06.java:72-80 | the loop counts the body's ancestors |
| Day06.Orbits.Part01 | src/Day06.java:22-28 | the sum of every node's number of ancestors |
| Day06.Orbits.AddSanFlag | src/Day06.java:82-90 | flags exactly the body and its ancestors, changing nothing else |
| Day06.Orbits.Part02 | src/Day06.java:30-47 | a missing YOU or SAN (or parent) gives no answer; otherwise the transfer count is the walk's: up from YOU's parent to the first common body, down to SAN's parent |
| Day07.Swap | src/Day07.java:91-93 | the swap exchanges cells `i` and `j` and keeps the length |
| Day07.PermutationsCount | src/Day07.java:84-101 | `permuteStep` from `index` appends `(n - index)!` arrays |
| Day07.BranchesCount | src/Day07.java:90-100 | the loop iterations from `i` on append `(n - i)` times `(n - index - 1)!` arrays |
| Day07.PermutationsArePermutations | src/Day07.java:84-101 | every appended array rearranges the input and keeps the cells before `index` |
| Day07.BranchesArePermutations | src/Day07.java:90-100 | an array appended by iteration `i` or later holds, at `index`, a value from cell `i` or later |
| Day07.PermutationsDistinct | src/Day07.java:84-101 | with distinct values no arrangement is appended twice |
| Day07.BranchesDistinct | src/Day07.java:90-100 | the iterations' arrangements are pairwise distinct |
| Day07.SwapCells | src/Day07.java:91-93 | the three assignments through `temp` swap the two cells |
| Day07.SwapTwice | src/Day07.java:97-99 | the second swap undoes the first |
| Day07.PermuteStep | src/Day07.java:84-101 | the array is left as it was and the list grows by exactly the arrangements from `index` |
| Day07.NextBranch | src/Day07.java:90-100 | one loop iteration moves one branch of arrangements into the list |
| Day07.Permute | src/Day07.java:80-82 | all arrangements of the array, which is left unchanged |
| Day07.FivePhaseSettings | src/Day07.java:18-24 | five distinct settings give 120 distinct arrangements, each a rearrangement of the settings |
| Day07.BoundedQueue.constructor | src/Day07.java:104-105 | a new queue is empty |
| Day07.BoundedQueue.Add | src/Day07.java:111-113 | appends the value, or raises (false) when 100 values are queued |
| Day07.BoundedQueue.Put | src/Day07.java:133-139 | appends the value, or would wait (false) when the queue is full |
| Day07.BoundedQueue.Take | src/Day07.java:115-130 | removes and returns the head, or would wait (none) on an empty queue |
| Day07.PipesRun | src/Day07.java:123-139 | through a run the input queue is only taken from at its front and the output queue only grows at its end, never past its capacity of 100 |
| Day07.Amplifier.constructor | src/Day07.java:103-109 | a fresh Day05 executor over the program, with two fresh empty queues |
| Day07.Amplifier.PushInput | src/Day07.java:111-113 | `add` on the input queue |
| Day07.Amplifier.GetOutput | src/Day07.java:115-121 | `take` on the output queue |
| Day07.Amplifier.Pass | src/Day05.java:44-48 | one pass with the queue hooks matches one value-level pass |
| Day07.Amplifier.Execute | src/Day07.java:103-139 | the executor and both queues end as the value-level run with the queue hooks says |
| Day07.ChainAppend | src/Day07.java:32-42 | the chain of `s + t` is the chain of `s` feeding its signal to `t` |
| Day07.Part01Step | src/Day07.java:32-42 | a fresh amplifier per setting, fed the setting and the previous signal, starting from 0; the result is the chain's signal |
| Day07.Maximum | src/Day07.java:26-29 | the largest signal is one of the signals and no signal exceeds it |
| Day07.Signals | src/Day07.java:26-27 | one signal per arrangement, each the chain's signal for it |
| Day07.BestChainIsBest | src/Day07.java:22-30 | the printed signal is reached by some arrangement of the settings and no arrangement beats it |
| Day07.RingSignals | src/Day07.java:26-27 | one ring signal per arrangement, each the ring's signal for it |
| Day07.BestRingIsBest | src/Day07.java:19-29 | part 2's printed signal is the ring signal of some arrangement of the settings 5 to 9, and no arrangement's ring beats it |
| Day07.Successor | src/Day07.java:53-57 | each amplifier puts into the next one's queue, the last into the first's |
| Day07.StartRing | src/Day07.java:49-65 | fresh executors, each input queue holding its phase setting, and amplifier 0's the kick-off 0 behind it |
| Day07.RunAmplifier | src/Day07.java:123-139 | a thread's run touches only its own machine, its own queue and its successor's; a thread that raised stays raised |
| Day07.Round | src/Day07.java:60-74 | one round of turns keeps the ring well formed |
| Day07.RoundRobin | src/Day07.java:60-74 | the scheduled rounds keep the ring well formed |
| Day07.Turn | src/Day07.java:103-139 | amplifier `k`'s `execute` leaves the objects holding the ring state after its turn, and it raised exactly when the turn says so |
| Day07.Spawn | src/Day07.java:45-51 | the first loop creates distinct amplifiers with fresh executors over the program and empty input queues |
| Day07.Connect | src/Day07.java:53-57 | each amplifier's output queue becomes its successor's input queue |
| Day07.PushSettings | src/Day07.java:60-65 | each input queue gets its phase setting, amplifier 0's the signal 0 behind it, and no executor changes |
| Day07.Setup | src/Day07.java:44-65 | the objects hold the ring's start state |
| Day07.RunRound | src/Day07.java:60-74 | a round over the objects leaves them holding the value-level round |
| Day07.Slot | src/Day07.java:60-74 | amplifier `k`'s place in a round is its value-level turn |
| Day07.Part02Step | src/Day07.java:44-78 | the result is the ring's signal: the last amplifier's first output once every thread has ended |
| Day07.Finish | src/Day07.java:76-77 | after the threads end, the head of amplifier 0's input queue, which the last amplifier feeds |
| Day07.Rounds | src/Day07.java:60-74 | the rounds over the objects follow the value-level schedule |
| Day07.Cycle | src/Day07.java:60-74 | one round of the loop over the objects is one value-level round |
| Day07.AllFinished | src/Day07.java:67-74 | every thread has ended exactly when every executor halted, failed or raised |
| Day08.Count | src/Day08.java:23-25 | the count of a character is at most the length, and 0 exactly when it does not occur |
| Day08.Layers | src/Day08.java:21-22 | the complete 150-pixel layers from the front; an incomplete tail is dropped |
| Day08.ScanLayer | src/Day08.java:22-38 | one pass of the loop consumes one layer and keeps the fewest zeros and their product |
| Day08.BestNext | src/Day08.java:27-36 | a later layer replaces the result only with strictly fewer zeros |
| Day08.ZeroCounts | src/Day08.java:23-25 | the number of zeros of each layer |
| Day08.Fewest | src/Day08.java:27 | the first position of the fewest zeros: none is smaller and every earlier one is larger |
| Day08.BestIsFewest | src/Day08.java:16-42 | the result is the product of the 1s and 2s of the first layer with the fewest zeros, and 0 with no complete layer |
| Day08.Part01 | src/Day08.java:16-42 | the loop's result is that product |
| Day08.Visible | src/Day08.java:47-57 | a pixel is the front-most non-transparent layer's pixel, or unset when every layer is transparent there |
| Day08.LayersFront | src/Day08.java:48-49 | cutting one layer off a layered string leaves its remaining layers |
| Day08.Part02 | src/Day08.java:44-57 | taking the layers from the back, each pixel ends as the visible one |
| Day08.Overlay | src/Day08.java:50-55 | one layer laid over the output turns each pixel into the one visible through that layer in front of those behind |
| Day08.VisibleFront | src/Day08.java:50-55 | a layer in front shows its pixel unless that pixel is transparent |
| Day08.Render | src/Day08.java:59-64 | six rows of 25 characters, '#' exactly where the pixel is '1' |
| Day08.Examples | src/Day08.java:47-57 | the worked 2x2 image decodes to `0110`, and an all-transparent pixel stays unset |
| Day09.Load | src/Day09.java:41-44 | memory is 10000 cells holding the program at offset 0 and zeros after it; pointer and relative base 0; running |
| Day09.AddressingModes | src/Day09.java:144-170 | position mode dereferences the parameter, immediate mode is the parameter (its own cell for a write), relative mode dereferences `relativeBase + parameter`, any other mode raises |
| Day09.PositionRelativeAgree | src/Day09.java:151-167 | a relative parameter `p - relativeBase` reads and writes what a position parameter `p` does |
| Day09.ArithmeticWritesOneCell | src/Day09.java:75-91 | add, multiply, less-than and equals write exactly the resolved target with the sum, product or 0/1 comparison, and advance by 4 |
| Day09.JumpTargets | src/Day09.java:103-119 | a taken jump lands exactly on its target, an untaken one advances by 3, memory is unchanged |
| Day09.AdjustRelativeBase | src/Day09.java:139-142 | opcode 9 adds its operand to the relative base, changes no memory and advances by 2 |
| Day09.HaltAndFail | src/Day09.java:172-180 | opcode 99 sets `halted`; an unknown opcode sets `failed` and leaves the pointer in place; neither changes memory or the relative base |
| Day09.FlagsOnlyFromHaltOrFail | src/Day09.java:172-180 | only a halt or an unknown opcode sets a flag, and no step clears one |
| Day09.InputOutput | src/Day09.java:93-101 | input waits for its value at the resolved target; output reports the value read |
| Day09.FeedWritesTarget | src/Day09.java:94-95 | the accepted value is written to exactly the target cell and the pointer moves past the input instruction |
| Day09.TrapChangesNothing | src/Day09.java:144-170 | a step that raises, or waits for input, leaves the machine as it was |
| Day09.RunEndsOnFlags | src/Day09.java:46-54 | the loop runs exactly while neither flag is set: a run ends Halted or Failed exactly when that flag is set |
| Day09.RunFuelIrrelevant | src/Day09.java:46-54 | more fuel does not change a run that ended for another reason |
| Day09.RunPreserves | src/Day09.java:182-188 | a property of the hooks' state that both hooks keep holds at the end of every run |
| Day09.ConsoleAdvance | src/Day09.java:93-101 | one pass reads at most one input and appends at most one output |
| Day09.ConsoleRunAppends | src/Day09.java:182-188 | a run only appends to the output log and consumes a prefix of the inputs |
| Day09.ExampleAdd | src/Day09.java:75-82 | `1,0,0,0,99` becomes `2,0,0,0,99` and halts |
| Day09.ExampleImmediateMultiply | src/Day09.java:84-91 | `1002,4,3,4,33` writes 99 to cell 4 and halts on it |
| Day09.ExampleEcho | src/Day09.java:93-101 | `3,0,4,0,99` outputs its input |
| Day09.ExampleJumpToPadding | src/Day09.java:103-110 | `5,0,0,99` jumps through its position-mode target to cell 5 of the zero padding and fails there |
| Day09.IntcodeExecutor.constructor | src/Day09.java:41-44 | the executor's memory is a fresh 10000-cell array loaded as `Load` says |
| Day09.IntcodeExecutor.GetInput | src/Day09.java:144-156 | the in-place read (with its division loop) returns the value-level read |
| Day09.IntcodeExecutor.GetOutput | src/Day09.java:158-170 | the in-place write-target computation returns the value-level target |
| Day09.IntcodeExecutor.ProcessArithmetic | src/Day09.java:75-91 | the array after add, multiply, less-than or equals is the value-level step |
| Day09.IntcodeExecutor.ProcessJump | src/Day09.java:103-119 | the jumps change the pointer as the value-level jump |
| Day09.IntcodeExecutor.ProcessInstruction | src/Day09.java:56-73 | one pass of the loop body changes the executor exactly as the value-level step |
| Day09.IntcodeExecutor.StoreInput | src/Day09.java:93-96 | the accepted value is stored at the target and the pointer moves by 2 |
| Day09.IntcodeExecutor.Pass | src/Day09.java:49-53 | one pass with the default hooks matches one value-level pass |
| Day09.IntcodeExecutor.Execute | src/Day09.java:46-54 | the outputs and the reason the run stopped are those of the value-level run over the input sequence |
| Euclid.GcdDivides | src/Day10.java:78-85 | the result of Euclid's loop divides both arguments |
| Euclid.GcdGreatest | src/Day10.java:78-85 | every common divisor divides the result |
| Euclid.GcdPositive | src/Day10.java:78-85 | the result is 0 only for two zero arguments and is at most any positive argument |
| Euclid.Bezout | src/Day12.java:85-92 | the result is an integer combination of the arguments |
| Euclid.LcmLeast | src/Day12.java:80-83 | `a * b / gcd(a, b)` is a positive common multiple that divides every common multiple |
| Euclid.LcmCofactors | src/Day12.java:81 | the pair formula is each argument times the other's cofactor of the gcd |
| Euclid.CofactorsCoprime | src/Day12.java:81 | the cofactors of the gcd have a Bezout combination equal to 1 |
| Day10.RowAsteroidsExactly | src/Day10.java:31-36 | a row's scan holds exactly that row's '#' cells among the columns scanned, left to right |
| Day10.AsteroidsExactly | src/Day10.java:29-37 | the scan holds exactly the '#' cells of the rows scanned, in reading order |
| Day10.ToAsteroids | src/Day10.java:26-40 | the nested loop returns the asteroids of the whole map in reading order |
| Day10.MaxX | src/Day10.java:94 | the largest column, reached by some asteroid |
| Day10.MaxY | src/Day10.java:95 | the largest row, reached by some asteroid |
| Day10.IterateLine | src/Day10.java:98-112 | the loop's answer is the line-of-sight walk from the first step: clear once out of bounds or at the goal, blocked at the first asteroid |
| Day10.Gcd | src/Day10.java:78-85 | Euclid's loop returns the greatest common divisor |
| Day10.ExactDiv | src/Day10.java:65-66 | dividing by a divisor of the magnitude is exact, commutes with negation, and keeps a non-zero value non-zero |
| Day10.DirectionReaches | src/Day10.java:48-67 | the reduced step is non-zero and reaches the second asteroid after a whole number of steps; the reverse step is its negation |
| Day10.StepsDiffer | src/Day10.java:108-109 | different numbers of steps along a non-zero step give different positions |
| Day10.ClearAlong | src/Day10.java:98-112 | inside the bounds, the walk is clear exactly when no asteroid sits at the steps before the goal |
| Day10.SeesMeaning | src/Day10.java:48-73 | an asteroid sees another exactly when no asteroid sits on a lattice point strictly between them |
| Day10.SeesSymmetric | src/Day10.java:44-75 | seeing is symmetric, so both orders of a pair decide alike |
| Day10.MirrorFree | src/Day10.java:98-112 | two walks meeting the same points in opposite orders are free of asteroids together |
| Day10.Asteroid.constructor | src/Day10.java:161-164 | an asteroid at (x, y) that sees nothing yet |
| Day10.Asteroid.AddVisible | src/Day10.java:166-170 | adds the other asteroid to the set, never the asteroid itself |
| Day10.Positions | src/Day10.java:94-95 | the positions of the asteroids in list order |
| Day10.FieldCovers | src/Day10.java:92-96 | every asteroid lies within the field's bounds |
| Day10.Distinct | src/Day10.java:46 | asteroids at different places of the list are different objects |
| Day10.TableSymmetric | src/Day10.java:60-72 | the who-sees-whom table is symmetric |
| Day10.AddedStep | src/Day10.java:59-73 | taking a pair adds each to the other's set when they see each other, and nothing else |
| Day10.AddedAll | src/Day10.java:44-75 | after every pair is taken each asteroid has gained exactly what it sees |
| Day10.LineOfSight | src/Day10.java:48-73 | the axis case steps by the sign, otherwise by the difference over the gcd, with a gcd of 1 seeing at once; the answer is the line-of-sight test |
| Day10.TakePair | src/Day10.java:45-74 | one pass of the inner loop adds exactly this pair's gains |
| Day10.TakeRow | src/Day10.java:44-75 | one pass of the outer loop pairs the asteroid with every asteroid |
| Day10.TakeRows | src/Day10.java:44-75 | the outer loop takes every row of pairs in list order |
| Day10.GainedStart | src/Day10.java:42-44 | before the first pair every asteroid holds what it held |
| Day10.GainedAll | src/Day10.java:44-75 | after the last row every asteroid holds what it held and what it sees |
| Day10.UpdateVisibility | src/Day10.java:42-76 | each asteroid's set grows by exactly the asteroids it sees |
| Day10.Station | src/Day10.java:13-17 | the first asteroid in list order of those that see the most |
| Day11.Turn | src/Day11.java:79-90 | 0 turns left and any other value right, wrapping around at both ends of the four directions |
| Day11.TurnBack | src/Day11.java:79-90 | a left turn then a right turn (or the reverse) faces the robot as before |
| Day11.FullCircle | src/Day11.java:79-90 | four turns the same way face the robot as before |
| Day11.ColourOfPainted | src/Day11.java:72-75 | a panel never painted reads black, and painting a panel changes what that panel reads and no other |
| Day11.CameraReadsPaint | src/Day11.java:72-97 | after a paint output the camera reads back the colour just painted, changing nothing |
| Day11.Produce | src/Day11.java:77-97 | outputs alternate between painting and turning; the robot never halts the machine |
| Day11.PaintStaysPut | src/Day11.java:93-96 | a paint output records the colour at the location and neither moves nor turns the robot; no other panel changes |
| Day11.TurnMovesOneStep | src/Day11.java:79-92 | a turn output leaves the map alone, turns, and moves exactly one unit along the new heading |
| Day11.PaintedOnlyGrows | src/Day11.java:94 | panels painted at the start of a run stay painted: the map only grows |
| Day11.Part02KeepsOrigin | src/Day11.java:28-33 | in part 2 the starting panel, painted white first, stays painted |
| Day11.ExampleFirstPair | src/Day11.java:72-97 | a program that reads, paints white and turns right paints the origin and moves the robot one step right |
| Day11.Part01Answers | src/Day11.java:20-26 | a count is printed exactly when the machine stopped on its halted or failed flag; a run that raises prints nothing |
| Day11.ExampleRaisingRun | src/Day11.java:20-26 | a program that paints, turns and then reads with the invalid mode 3 raises, so part 1 prints nothing |
| Day11.PaintRobot.constructor | src/Day11.java:62-70 | a Day09 executor over the program, and a robot at the origin facing up over the caller's map |
| Day11.PaintRobot.AcceptLong | src/Day11.java:72-75 | the object's input hook is the value-level one |
| Day11.PaintRobot.ProduceLong | src/Day11.java:77-97 | the object's output hook changes the fields as the value-level one |
| Day11.PaintRobot.Pass | src/Day09.java:49-53 | one pass with the robot's hooks matches one value-level pass |
| Day11.PaintRobot.Execute | src/Day11.java:23-24 | the executor and the robot end as the value-level run says |
| Day11.RunPart01 | src/Day11.java:20-26 | the printed number is the number of panels painted at least once, and nothing is printed when the run raises |
| Day12.PartialNone | src/Day12.java:94-122 | before `gravityStep`'s loops take any pair, no moon's speed has changed |
| Day12.PartialStep | src/Day12.java:97-119 | taking the pair (i, j) adds moon j's attraction to moon i and moon i's to moon j, and changes no other moon |
| Day12.PartialRows | src/Day12.java:95-97 | the end of row i of the pair loops is the start of row i + 1, and row i starts at column i + 1 |
| Day12.PartialAll | src/Day12.java:94-122 | once both loops have run, each moon's speed has changed by its whole pull: one unit towards every moon not level with it |
| Day12.AttractionOpposite | src/Day12.java:99-105 | what one moon of a pair gains on an axis the other loses |
| Day12.PullPush | src/Day12.java:99-105 | the pull a moon receives from a range of moons is the opposite of what it gives them |
| Day12.PullTotalColumn | src/Day12.java:94-122 | extending every moon's pull by one more moon adds that moon's column of attractions |
| Day12.PullTotalZero | src/Day12.java:94-122 | the pulls of all moons on an axis add up to 0 |
| Day12.Gravity | src/Day12.java:94-122 | gravity keeps the number of moons |
| Day12.Velocity | src/Day12.java:124-126 | moving keeps the number of moons |
| Day12.Stepped | src/Day12.java:71-72 | the first n moons after a tick are n moons |
| Day12.SteppedAt | src/Day12.java:71-72 | moon k after a tick is its speed plus its pull, then its position moved by that new speed |
| Day12.StepIsTick | src/Day12.java:71-72 | a tick is `gravityStep` followed by `velocityStep` |
| Day12.IterateInvariant | src/Day12.java:24-27 | a property each tick keeps holds after any number of ticks |
| Day12.IterateAdd | src/Day12.java:24-27 | u ticks followed by m ticks are u + m ticks |
| Day12.SimulateNext | src/Day12.java:44-75 | the state after t + 1 ticks is one tick after the state after t |
| Day12.SimulateLength | src/Day12.java:24-27 | no tick adds or removes a moon |
| Day12.GravityMomentum | src/Day12.java:94-122 | after gravity the sum of the speeds on an axis is the old sum plus all the pulls |
| Day12.GravityConserves | src/Day12.java:94-122 | gravity leaves the sum of the speeds on every axis unchanged |
| Day12.StepConserves | src/Day12.java:71-72 | a whole tick leaves the sum of the speeds on every axis unchanged |
| Day12.SimulateConserves | src/Day12.java:24-27 | no number of ticks changes the number of moons or the sum of their speeds on an axis |
| Day12.StepOnAxis | src/Day12.java:94-126 | two states that agree on one axis still agree on it after a tick: the axes move independently |
| Day12.VecEnergyZero | src/Day12.java:169-173 | a vector's energy (sum of absolute coordinates) is 0 exactly when it is the zero vector |
| Day12.EnergyZero | src/Day12.java:150-152 | a moon's energy is 0 exactly when it is at the origin or standing still |
| Day12.AxisState | src/Day12.java:45-56 | the list for one axis holds two entries per moon |
| Day12.AxisStateAt | src/Day12.java:49-56 | entry 2k of an axis list is moon k's position on it and entry 2k + 1 its speed |
| Day12.AxisStateSame | src/Day12.java:45-57 | two states have equal lists for an axis exactly when they agree on that axis |
| Day12.HistoryHas | src/Day12.java:57-69 | a list is in an axis's set exactly when the axis had that state at some earlier tick |
| Day12.HistoryNext | src/Day12.java:67-69 | looking at tick t adds its axis state to the set |
| Day12.RecordedFirst | src/Day12.java:57-65 | the tick recorded for an axis is the first tick whose state was seen before, and 0 means no tick looked at repeats |
| Day12.RecordedStep | src/Day12.java:57-65 | looking at one more tick keeps the recorded tick the first repeat |
| Day12.StepRepeats | src/Day12.java:94-126 | equal states on an axis stay equal after a tick |
| Day12.SimulateOnAxis | src/Day12.java:44-75 | equal states on an axis stay equal after any number of ticks |
| Day12.RepeatPersists | src/Day12.java:44-77 | once an axis state comes back, every later state comes back at the same distance, so each axis is periodic from its first repeat on |
| Day12.GreatestCommonDivisor | src/Day12.java:85-92 | Euclid's loop returns the greatest common divisor, which divides both arguments |
| Day12.LeastCommonMultiplier | src/Day12.java:80-83 | the pair formula applied twice is a positive common multiple of the three values that divides every other common multiple |
| Day12.Moon.constructor | src/Day12.java:137-142 | a new moon is at the parsed position and standing still |
| Day12.Moon.Move | src/Day12.java:144-148 | the position advances by the speed; the speed stays |
| Day12.Moon.GetEnergy | src/Day12.java:150-152 | potential energy times kinetic energy, which is 0 exactly when the moon is at the origin or at rest |
| Day12.Attract | src/Day12.java:98-119 | each moon of the pair gets one unit towards the other on every axis where they differ; positions stay |
| Day12.PartialVecStep | src/Day12.java:97-119 | on all three axes, taking the pair (i, j) changes the speeds of moons i and j by their attractions and no other |
| Day12.GravityPair | src/Day12.java:97-120 | one pass of the inner loop keeps every moon at its starting position with the pull of the pairs taken so far added |
| Day12.GravityRow | src/Day12.java:95-121 | one pass of the outer loop takes all pairs of row i |
| Day12.GravityStep | src/Day12.java:94-122 | the moons' new states are the old ones after gravity |
| Day12.VelocityStep | src/Day12.java:124-126 | the moons' new states are the old ones after moving |
| Day12.Tick | src/Day12.java:71-72 | the moons' new states are the old ones after one tick |
| Day12.Part01 | src/Day12.java:23-32 | the moons end at the state after 1000 ticks and the answer is their total energy |
| Day12.SumEnergy | src/Day12.java:28-30 | the sum of the moons' energies |
| Day12.Snapshot | src/Day12.java:45-56 | the three lists are the moons' axis states |
| Day12.Observe | src/Day12.java:57-69 | one axis's record and set advance by one looked-at tick |
| Day12.ObserveAll | src/Day12.java:57-69 | all three axes' records and sets advance by one looked-at tick |
| Day12.Look | src/Day12.java:45-74 | one pass of the loop: the axes are looked at, then the moons tick |
| Day12.Advance | src/Day12.java:71-74 | the tick counter and the moons advance together |
| Day12.Part02 | src/Day12.java:34-78 | each recorded tick is its axis's first repeat, and the answer is a positive common multiple of the three that divides every common multiple; with no answer, some axis did not repeat within the ticks looked at |
| Day12.PartialVecEnds | src/Day12.java:94-122 | on all three axes, the pair loops start from no change and end with each moon's whole pull |
| Day13.DrawLastWins | src/Day13.java:29-38 | the screen holds exactly the positions some output triple names, each showing the tile of the last triple that names it |
| Day13.DrawKeysStep | src/Day13.java:32-38 | one more triple adds its position to those on the screen |
| Day13.DrawValuesStep | src/Day13.java:32-38 | one more triple overwrites the tile at its position and leaves the others |
| Day13.DrawScreen | src/Day13.java:31-38 | the loop over the outputs draws the screen exactly when their number is a multiple of three, and fails otherwise |
| Day13.BlockCount | src/Day13.java:40-42 | the count is 0 exactly when no position shows a block |
| Day13.Part01Answers | src/Day13.java:25-45 | a count is printed exactly when the machine stopped on its halted or failed flag with the outputs in whole triples, and it is 0 exactly when no block is on the screen |
| Day13.Arcade.constructor | src/Day13.java:80-82 | the executor holds the loaded program and no outputs yet |
| Day13.Arcade.Execute | src/Day13.java:84-87 | running the program appends every output to the list, in order, as the console run produces them |
| Day13.RunPart01 | src/Day13.java:25-45 | running, drawing and counting on the objects gives the value-level answer, none when the run or the triple iterator raises |
| Day13.Accept | src/Day13.java:100-105 | the joystick is 0 until both ball and paddle are known, then the sign of the ball's x minus the paddle's |
| Day13.Produce | src/Day13.java:108-120 | outputs are buffered; fewer than three keep the buffer short and change nothing else |
| Day13.TripleEffects | src/Day13.java:110-119 | a complete triple clears the buffer and either records a score, moves the paddle, moves the ball, or does nothing |
| Day13.BufferBounded | src/Day13.java:108-120 | between outputs the buffer never holds a complete triple |
| Day13.KnownStaysKnown | src/Day13.java:108-120 | once the ball or the paddle is known it stays known, and scores are only appended |
| Day13.InteractiveArcade.constructor | src/Day13.java:95-97 | the executor holds the loaded program, an empty buffer and no ball or paddle |
| Day13.InteractiveArcade.AcceptLong | src/Day13.java:100-105 | returns the joystick value of the cabinet's state |
| Day13.InteractiveArcade.ProduceLong | src/Day13.java:108-120 | updates the cabinet's state as the value-level hook does |
| Day13.InteractiveArcade.Pass | src/Day13.java:90-121 | one pass of the executor's loop with the cabinet's hooks stays in step with the value-level run |
| Day13.InteractiveArcade.Execute | src/Day13.java:90-121 | the run on the objects ends where the value-level run does |
| Day13.Part02 | src/Day13.java:47-52 | cell 0 of the program is set to 2 and the scores are those the value-level game records |
| Day14.CeilDiv | src/Day14.java:54-55 | the least number of runs whose output covers the quantity: the remainder is non-negative and less than one run's output, and a non-positive need takes no runs |
| Day14.CostStocked | src/Day14.java:46-63 | a request leaves every leftover non-negative and below one run's output, and a non-negative request costs non-negative ore |
| Day14.CostsStocked | src/Day14.java:58-60 | asking for a reaction's inputs in order keeps the leftovers within bounds and costs non-negative ore for a non-negative multiplier |
| Day14.StockedUpdate | src/Day14.java:61 | storing a remainder below one run's output keeps the leftovers within bounds |
| Day14.LeftoverFirst | src/Day14.java:50-62 | asking for no more than a chemical's leftover costs no ore, takes the amount from that leftover and leaves every other leftover as it was |
| Day14.IdleInputs | src/Day14.java:58-60 | running a reaction zero times asks its inputs for nothing and changes no leftover |
| Day14.Nanofactory.constructor | src/Day14.java:17 | the factory starts with no leftovers |
| Day14.Nanofactory.Part01 | src/Day14.java:46-63 | the recursion on the shared leftover map returns the value-level ore and leaves the value-level leftovers |
| Day14.OreFor | src/Day14.java:25-41 | a request for fuel with fresh leftovers returns the value-level ore |
| Day14.OreNonNegative | src/Day14.java:46-63 | a non-negative amount of fuel never costs negative ore |
| Day14.Part02 | src/Day14.java:21-43 | the amount found is at least 1, costs less than the limit unless it is the unchecked starting amount, and one more unit of fuel costs at least the limit |
| Day15.FromPath | src/Day15.java:116-130 | the loop over the moves ends at the point the path leads to from the origin |
| Day15.PathPointSnoc | src/Day15.java:120-127 | one more move moves the end of the path by one step in its direction |
| Day15.PathsCompose | src/Day15.java:116-130 | a path followed by another ends at the sum of their displacements |
| Day15.OppositesCancel | src/Day15.java:121-126 | north undoes south and west undoes east, whatever came before |
| Day15.Adjacent | src/Day15.java:146-151 | the four candidates are exactly the points one unit away horizontally or vertically |
| Day15.KeepOpen | src/Day15.java:152 | the kept candidates are exactly those that are explored and not walls, never more than there were |
| Day15.Neighbours | src/Day15.java:145-154 | at most four points, exactly the adjacent ones that are explored and not walls |
| Day15.Produce | src/Day15.java:172-177 | the status is appended and the machine halts exactly when every move has been sent |
| Day15.LastOutputIsLatest | src/Day15.java:172-181 | after any output, the last output is that output |
| Day15.RemainingIsSuffix | src/Day15.java:158-169 | the moves still to send are always a suffix of the path |
| Day15.DryScriptRaises | src/Day15.java:166-169 | an input instruction met with the script used up ends the run with neither flag set, as `remove(0)` raises |
| Day15.ExampleScriptRunsDry | src/Day15.java:166-169 | a program that reads two moves, replayed on a one-move path, raises and gives no answer |
| Day15.IntcodeExecutor.constructor | src/Day15.java:161-164 | the executor holds the loaded program, a copy of the path and no outputs |
| Day15.IntcodeExecutor.AcceptLong | src/Day15.java:167-169 | takes the next move as the value-level hook does, and returns none, the raise of `remove(0)`, on an empty script, changing nothing |
| Day15.IntcodeExecutor.ProduceLong | src/Day15.java:172-177 | records the status and sets the halt flag as the value-level hook does, and nothing else |
| Day15.IntcodeExecutor.Pass | src/Day15.java:157-182 | one pass of the executor's loop stays in step with the value-level run |
| Day15.IntcodeExecutor.Execute | src/Day15.java:157-182 | the run on the objects ends where the value-level run does |
| Day15.IntcodeExecutor.LastOutput | src/Day15.java:179-181 | the last status, or none when nothing was output |
| Day15.ExtensionIsNew | src/Day15.java:98-104 | an extension by a direction is not among those queued for the directions before it |
| Day15.ExtensionsExactly | src/Day15.java:98-104 | the extension by a direction is queued exactly when its end is unexplored and it was not queued already |
| Day15.ExtensionsUnexplored | src/Day15.java:101 | every queued extension leads somewhere unexplored and was not queued already |
| Day15.ExtensionsDistinct | src/Day15.java:98-104 | no extension is queued twice |
| Day15.HandleMoved | src/Day15.java:97-105 | the queue gains exactly the qualifying extensions, in direction order, after what it held |
| Day15.HandleMovedKeepsDistinct | src/Day15.java:97-105 | a queue without duplicates stays without duplicates |
| Day15.ExploreStepKeepsOrigin | src/Day15.java:35-44 | one exploration turn keeps the origin explored and open, and queues no path back to it |
| Day15.ExploredKeepsOrigin | src/Day15.java:25-44 | however long the exploration runs, the open origin is never overwritten |
| Day15.ProbePath | src/Day15.java:37-39 | a fresh scripted executor on the path returns the value-level replay's last output, and none when the replay raised |
| Day15.ExploreTurn | src/Day15.java:36-43 | the body of the exploration loop is one value-level turn |
| Day15.Explore | src/Day15.java:25-44 | the exploration loop ends where the value-level exploration does, which has no result once a replay raised or gave no output |
| Day15.ExploredNext | src/Day15.java:35-44 | the turn after an empty queue changes nothing; otherwise it is one exploration turn |
| Day15.ExploredStaysNone | src/Day15.java:35-44 | once a replay has failed, the exploration stays failed |
| Day15.Unvisited | src/Day15.java:72 | the points kept are exactly those not yet visited |
| Day15.ReachNext | src/Day15.java:71-73 | a walk to a cell extends by one move to each open neighbour |
| Day15.Relax | src/Day15.java:73 | every newly reached neighbour gets the current distance plus one, no cell is dropped, and every recorded distance is the length of a walk from the origin |
| Day15.BreadthFirstSearch | src/Day15.java:51-77 | it fails exactly when there is no oxygen system, and a distance it prints is the length of a walk from the origin through open cells to the oxygen system |
| Day15.ToSpreadIsNeighbours | src/Day15.java:84-89 | the cells to spread to are exactly the open neighbours of oxygen cells that are not oxygen themselves |
| Day15.Spread | src/Day15.java:90 | one minute keeps the set of known cells |
| Day15.Fill | src/Day15.java:83-92 | any number of minutes keeps the set of known cells |
| Day15.SpreadEffect | src/Day15.java:84-90 | one minute keeps oxygen and walls, turns every open neighbour of oxygen into oxygen, and changes nothing else |
| Day15.SpreadKeepsOxygen | src/Day15.java:90 | a cell with oxygen keeps it for one more minute |
| Day15.OxygenStays | src/Day15.java:83-92 | oxygen never reverts |
| Day15.SpreadOxygen | src/Day15.java:90 | the in-place update of the map is one minute of spreading |
| Day15.FillOxygen | src/Day15.java:79-95 | the minutes counted are the first after which no open cell is left without oxygen |
| Day16.Digits | src/Day16.java:21-23 | one digit per character, each between 0 and 9 |
| Day16.Extended | src/Day16.java:31-38 | the pattern for output k is four times k + 1 long |
| Day16.ExtendedAt | src/Day16.java:34-38 | entry e(k + 1) + r of the stretched pattern is base element e |
| Day16.Coefficient | src/Day16.java:43 | every weight is -1, 0 or 1 |
| Day16.CoefficientBelow | src/Day16.java:43 | the digits before output k weigh nothing in its sum |
| Day16.CoefficientOne | src/Day16.java:43 | from output k on, the next k + 1 digits weigh one each |
| Day16.Digit | src/Day16.java:45 | the last digit of the absolute sum is between 0 and 9 |
| Day16.Phase | src/Day16.java:30-46 | a phase keeps the length of the signal and yields digits |
| Day16.Phases | src/Day16.java:29-47 | any number of phases keeps the length of the signal |
| Day16.RowSumFrom | src/Day16.java:42-44 | the sum for output k reads only the digits from k on |
| Day16.ExtendPattern | src/Day16.java:31-38 | the nested loops build the stretched pattern for output k |
| Day16.PatternSum | src/Day16.java:41-44 | the summation loop computes the weighted sum of the current list for output k |
| Day16.PhaseInPlace | src/Day16.java:30-46 | overwriting each digit in place before the later sums are taken still yields one whole phase of the old list |
| Day16.Part01 | src/Day16.java:20-52 | the first eight digits after a hundred phases, each a digit |
| Day16.Repeat | src/Day16.java:55 | the repeated signal is r times as long |
| Day16.RepeatInRange | src/Day16.java:58-60 | repeating digits yields digits |
| Day16.DecimalBound | src/Day16.java:62-66 | seven digits read as a decimal number are below ten million |
| Day16.Swept | src/Day16.java:69-72 | a backward loop keeps the length of the list |
| Day16.BackPasses | src/Day16.java:68-73 | any number of backward passes keeps the length of the list |
| Day16.SumNonNegative | src/Day16.java:69-72 | sums of digits are not negative |
| Day16.SumSame | src/Day16.java:69-72 | a sum reads only the cells it covers |
| Day16.LastDigitSum | src/Day16.java:70-71 | taking the last digit before adding does not change the last digit of the sum |
| Day16.SweptSums | src/Day16.java:69-72 | after a backward loop down to cell j, each cell from j on is the last digit of the sum of the cells from it to the end, and the cells before j are as they were |
| Day16.BackPass | src/Day16.java:69-72 | one backward loop in place is the value-level sweep down to offset - 1 |
| Day16.PhaseSecondHalf | src/Day16.java:29-47 | behind the middle of the signal, output k of a phase is the last digit of the sum from k to the end |
| Day16.RowSumTail | src/Day16.java:42-44 | for the first 2k + 1 digits the weighted sum for output k is the plain sum from k on |
| Day16.BackPassesArePhases | src/Day16.java:68-73 | when the offset lies in the second half, the backward passes agree with true phases from the offset on |
| Day16.ReadOffset | src/Day16.java:62-66 | the offset is the first seven digits read as a decimal number |
| Day16.RepeatSignal | src/Day16.java:55-60 | a new array holding the input ten thousand times over |
| Day16.RunBackPasses | src/Day16.java:68-73 | the hundred backward loops in place are the value-level backward passes |
| Day16.Part02 | src/Day16.java:54-78 | a message exists exactly when the offset is at least 1 and leaves eight digits; it is those digits after the backward passes, and behind the middle they are those of a hundred true phases |
| Day16.MessageAt | src/Day16.java:66-76 | as Part02, for the list already built and its offset |
| Day17.ToChar | src/Day17.java:89 | the narrowing cast keeps a value below 65536 and otherwise agrees with it modulo 65536 |
| Day17.ScriptEndRaises | src/Day17.java:82-84 | an input instruction met past the end of the script ends the run with neither flag set, as the array index raises |
| Day17.OutputsSplit | src/Day17.java:87-93 | the outputs are split between the two channels with none lost: the text gains exactly those below 127 as characters and the printed numbers exactly the rest, each in order; the script and index stay |
| Day17.RunReadsScriptInOrder | src/Day17.java:71-100 | through a whole run the script is read in order and never beyond its end, and the text and printed numbers only grow at their ends |
| Day17.IntcodeExecutor.constructor | src/Day17.java:76-79 | the executor holds the loaded program, the script unread and no text |
| Day17.IntcodeExecutor.AcceptLong | src/Day17.java:82-84 | reads the next character as the value-level hook does, and returns none, the raise of the array index, past the end, changing nothing |
| Day17.IntcodeExecutor.ProduceLong | src/Day17.java:87-93 | appends or prints as the value-level hook does |
| Day17.IntcodeExecutor.GetOutput | src/Day17.java:95-99 | returns the text so far and empties the buffer, changing nothing else |
| Day17.IntcodeExecutor.Pass | src/Day17.java:71-100 | one pass of the executor's loop stays in step with the value-level run |
| Day17.IntcodeExecutor.Execute | src/Day17.java:71-100 | the run on the objects ends where the value-level run does |
| Day17.Pieces | src/Day17.java:62 | cutting at the newlines gives at least one piece |
| Day17.PiecesJoin | src/Day17.java:62 | the pieces joined with newlines give back the text, and no piece holds a newline |
| Day17.StripTrailingEmpty | src/Day17.java:62 | only empty rows at the end are dropped, and the last row kept is not empty |
| Day17.LinesArePieces | src/Day17.java:62 | the rows are the newline-separated pieces in order with only trailing empty pieces dropped, and none holds a newline |
| Day17.ExampleLines | src/Day17.java:62 | trailing empty rows vanish and an empty text is one empty row |
| Day17.ToField | src/Day17.java:61-69 | one row of the field per row of the text, in order |
| Day17.RowAlignmentStops | src/Day17.java:51-56 | columns without intersections add nothing to a row's sum |
| Day17.IntersectionSum | src/Day17.java:45-59 | skipping the border gives the sum of the alignment parameters over the whole field, since border cells are never intersections |
| Day17.RowAlignmentPositive | src/Day17.java:51-56 | a row's sum is positive exactly when it has an intersection, and at least each intersection's parameter |
| Day17.RowAlignmentStep | src/Day17.java:51-56 | one more column adds its positive parameter exactly when it is an intersection |
| Day17.AlignmentPositive | src/Day17.java:45-59 | the answer is positive exactly when the field has an intersection, and at least the alignment parameter of each one |
| Day17.Part01Answers | src/Day17.java:26-33 | a sum is printed exactly when the machine stopped on its halted or failed flag, and it is positive exactly when the picture has an intersection |
| Day17.RunPart01 | src/Day17.java:26-33 | running, splitting and summing on the objects gives the value-level answer, none when the run raises |
| Day17.Part02 | src/Day17.java:35-43 | cell 0 of the program is set to 2 and the text and printed numbers are those of the value-level run |
| Day18.KeyBit | src/Day18.java:137 | the mask of a key has exactly the key's own bit set |
| Day18.DoorBit | src/Day18.java:96 | the mask of a door is the mask of its key |
| Day18.HasKeyIff | src/Day18.java:195-197 | a key is held exactly when its bit is set in the key chain |
| Day18.MissingIff | src/Day18.java:199-201 | a key's path is barred exactly when one of the doors on it has no key held for it |
| Day18.AddKey | src/Day18.java:140 | the new key chain holds the keys held before and the new one, and nothing else |
| Day18.OrTwice | src/Day18.java:95-97 | adding the same door's bit twice changes nothing |
| Day18.OrNothing | src/Day18.java:96 | adding no doors changes nothing |
| Day18.Surrounding | src/Day18.java:279-286 | four cells, each one step away across or down |
| Day18.IndexOf | src/Day18.java:65 | the first index of the character in the row, or -1 exactly when the row lacks it |
| Day18.PointFrom | src/Day18.java:63-69 | the first row from y on that holds the character, at its first column there, or nothing exactly when no such row exists |
| Day18.FindPoint | src/Day18.java:62-71 | the first occurrence of the character, row by row, and a failure exactly when no row holds it |
| Day18.RowKeys | src/Day18.java:21-24 | the keys of a row are exactly its lower-case letters |
| Day18.MapKeys | src/Day18.java:14-19 | the keys of the map are exactly the lower-case letters on some row |
| Day18.KeyPositions | src/Day18.java:151-154 | each listed key is mapped to where the search finds it, and nothing else is mapped |
| Day18.KeyPositionsFail | src/Day18.java:151-154 | building the map succeeds exactly when no key is listed twice and the map holds each |
| Day18.Surround | src/Day18.java:279-286 | four queued neighbours, one step further, with the same gates |
| Day18.TracksOn | src/Day18.java:89-97 | a walk to an open cell goes on to each neighbour, adding the cell's door to the gates |
| Day18.SearchedTail | src/Day18.java:80-81 | the cell taken from the queue is where a walk from the start leads |
| Day18.SearchedOn | src/Day18.java:89-97 | the neighbours queued after an open cell, with the gates they carry, are where walks lead |
| Day18.PassDoor | src/Day18.java:95-97 | each neighbour of a door takes the door cell's gates with the door's bit added |
| Day18.Unvisited | src/Day18.java:83-85 | visiting a new cell leaves fewer cells to visit |
| Day18.ListedVisit | src/Day18.java:85-87 | visiting a wall lists nothing |
| Day18.ListedOn | src/Day18.java:85-98 | expanding a new open cell lists it, and the key on it if there is one |
| Day18.FindReachableKeys | src/Day18.java:73-102 | every key listed stands where a walk from the start leads, at the walk's length and behind exactly the doors it crosses, and no cell's key is listed twice; the cells expanded (none twice, no wall) hold every listed key, include the start unless it is a wall, list every key among them, and take in every open neighbour of each |
| Day18.Visit | src/Day18.java:80-98 | one pass of the loop keeps the search's invariant and leaves fewer cells to visit or a shorter queue |
| Day18.WalkExpanded | src/Day18.java:73-102 | after the search, every open cell of a walk from the start has been expanded |
| Day18.KeysListed | src/Day18.java:73-102 | the key list is complete: a key that any walk from the start reaches is listed |
| Day18.OpensIff | src/Day18.java:137-138 | a key is taken exactly when it is not held and every door on its path has its key held |
| Day18.Moved | src/Day18.java:140-143 | only the moving robot changes place, the chain gains exactly the key's bit, and the steps grow by the key's distance |
| Day18.KeyMovesIff | src/Day18.java:136-144 | the states queued for one robot are exactly its moves to keys listed from where it stands that open |
| Day18.RobotMovesIff | src/Day18.java:135-145 | the states queued for the first n robots are exactly their moves |
| Day18.SuccessorsIff | src/Day18.java:135-145 | the states queued after a state are exactly its moves |
| Day18.SuccessorsPlaced | src/Day18.java:141-143 | after a move every robot still stands where a list of keys starts |
| Day18.AllReachablePop | src/Day18.java:120-121 | the state taken from a queue of reachable states is reachable |
| Day18.AllReachablePush | src/Day18.java:143 | adding a reachable state keeps every queued state reachable |
| Day18.ReachablePlaced | src/Day18.java:136 | in a reachable state every robot stands where a list of keys starts |
| Day18.ReachableOn | src/Day18.java:135-145 | the moves after a reachable state are reachable |
| Day18.CheapestOn | src/Day18.java:130-133 | examining one more state keeps the minimum the fewest steps of any complete state examined |
| Day18.PrunedOn | src/Day18.java:123-128 | a state is examined again only when it comes back in strictly fewer steps, and the visited map remembers the fewest |
| Day18.StartPositions | src/Day18.java:105 | each robot's position is where the search for it finds it |
| Day18.Expand | src/Day18.java:135-145 | the two inner loops queue exactly the successors, in order |
| Day18.FindBestWalk | src/Day18.java:104-149 | it fails exactly when a robot is missing from the map; otherwise every examined state is reachable from the start, states are re-examined only in fewer steps, and the result is the fewest steps of any complete state examined |
| Day18.SoundOn | src/Day18.java:36 | storing a search's findings keeps every stored list sound |
| Day18.LinkedFrom | src/Day18.java:136-142 | every key listed from a position has a position and a list of its own |
| Day18.CoversOn | src/Day18.java:34-37 | storing the list for one more key keeps the lists covering the keys so far |
| Day18.CoversMore | src/Day18.java:53-55 | storing another list keeps every key covered |
| Day18.KeyFound | src/Day18.java:14-19 | every key of the map is found on it |
| Day18.WalkedOn | src/Day18.java:26-41 | the pieces gathered along the way make up the promise of the two parts |
| Day18.Solve | src/Day18.java:26-60 | it fails exactly when a robot is missing from the map or a key is on it twice; otherwise the lists are the searches' findings and the result is the fewest steps of any complete state examined, all reachable from the start |
| Day18.Part01 | src/Day18.java:26-41 | the promise of Solve for one robot at '@' |
| Day18.Part02 | src/Day18.java:43-60 | the promise of Solve for four robots at '1' to '4' |
| Bitmask.BitOr | src/Day18.java:96 | a bit of the bitwise or of a and b is set exactly when it is set in a or in b |
| Bitmask.BitAnd | src/Day18.java:196 | a bit of the bitwise and of a and b is set exactly when it is set in both |
| Bitmask.BitShift | src/Day18.java:137 | `1 << i` has bit i set and no other |
| Bitmask.SameBits | src/Day18.java:196 | two masks with the same bits are the same number |
| Bitmask.SomeBit | src/Day18.java:200 | a mask other than zero has a bit set |
| Day20.KeepInBounds | src/Day20.java:164 | the kept points are exactly those inside the map, never more than there were |
| Day20.Surrounding | src/Day20.java:157-166 | at most four points, exactly the orthogonal neighbours inside the map |
| Day20.LoadedCell | src/Day20.java:100-107 | a blank becomes a wall and every other character is kept |
| Day20.FirstUpper | src/Day20.java:114-117 | the first neighbour holding an upper-case letter, or none exactly when no neighbour holds one |
| Day20.FirstOther | src/Day20.java:54-56 | the first entrance other than the current cell, or none exactly when every entrance is the current cell |
| Day20.Extended | src/Day20.java:77-79 | the routes to the next states are the route so far, one state longer |
| Day20.Walks | src/Day20.java:77-79 | the states queued by walking are exactly the open neighbours not yet visited at the current level, one step further at the same level |
| Day20.ProgressStep | src/Day20.java:113-135 | processing one more registered cell records it and leaves fewer to process |
| Day20.RegisterKeepsTables | src/Day20.java:127-134 | registering a portal's entrance keeps the name, entrance-list and inner-gate tables describing exactly the portals recorded |
| Day20.GateMap.constructor | src/Day20.java:23-28 | the dimensions are those of the input, the cells are loaded from it and the portal tables are empty |
| Day20.GateMap.LoadCharacters | src/Day20.java:96-110 | every cell is loaded from the input, and every label cell is registered or next to a registered one |
| Day20.GateMap.LoadRow | src/Day20.java:98-108 | one row is loaded from the input and the other rows are unchanged |
| Day20.GateMap.LoadCell | src/Day20.java:99-107 | one cell is loaded from the input and the other cells are unchanged |
| Day20.GateMap.CoveredNext | src/Day20.java:103-106 | after a label cell is handled, it is registered or next to a registered one |
| Day20.GateMap.TryFindPortals | src/Day20.java:138-145 | the cell is registered with its character exactly when none of its neighbours is registered already |
| Day20.GateMap.PortalShape | src/Day20.java:113-126 | a portal's name is the registered letter followed by its neighbouring letter, and its entrance is the open cell beyond that letter or otherwise the cell on the other side |
| Day20.GateMap.ProcessPortals | src/Day20.java:112-136 | either every registered cell yields a portal and the tables describe exactly those portals, or some registered cell yields none and the source raises |
| Day20.GateMap.ProcessOne | src/Day20.java:113-135 | one registered cell is processed exactly when it yields a portal, keeping the tables exact |
| Day20.GateMap.AddPortal | src/Day20.java:119-134 | the portal is added exactly when it exists, keeping the tables exact |
| Day20.GateMap.LeadsOn | src/Day20.java:47-80 | a route of moves extended by a move is a route from the same start |
| Day20.GateMap.QueuedTail | src/Day20.java:48 | the state taken from the queue is the end of a route of moves from the start |
| Day20.GateMap.QueuedAppend | src/Day20.java:70-79 | appending states that routes lead to keeps every queued state at the end of a route |
| Day20.GateMap.WalksLead | src/Day20.java:77-79 | every state queued by walking is at the end of a route from the start |
| Day20.GateMap.MoveLevels | src/Day20.java:58-63 | a move keeps the level without recursion, changes it by at most one with it, goes down only through an inner gate, and goes above level 0 only through AA or ZZ |
| Day20.GateMap.FindPath | src/Day20.java:42-82 | a state it returns is the exit ZZ at level 0, reached by a route of moves from the start |
| Day20.GateMap.FlatLevels | src/Day20.java:58-63 | without recursion every state of a route is on the starting level |
| Day20.GateMap.FlatDistance | src/Day20.java:67-79 | the distance of each state of a route is the start's plus the number of moves to it |
| Day20.GateMap.Part | src/Day20.java:32-40 | without an AA entrance it raises; a result is ZZ at level 0, reached by a route of moves from AA whose length is the distance printed |
| Day20.GateMap.Register | src/Day20.java:127-134 | the entrance gets the portal's name, is appended to the portal's entrances, and is marked inner exactly when it lies more than three cells inside every edge |
| Day20.NewGateMap | src/Day20.java:23-30 | a map it builds is loaded from the input and its tables describe exactly the portals at the registered cells |
| Day22.DigitsRoundTrip | src/Day22.java:77 | the decimal digits of a natural number read back as that number |
| Day22.ParseIntRoundTrip | src/Day22.java:77 | `Integer.parseInt` of the decimal text of any int gives that int back |
| Day22.TrimTrailingSpaces | src/Day22.java:79 | `split(" ")` ignores trailing spaces: the trimmed text is a prefix that does not end in a space |
| Day22.AfterLastSpace | src/Day22.java:79-80 | the last token of a split holds no space |
| Day22.AfterLastSpaceOf | src/Day22.java:79-80 | the last token after a space-terminated prefix is exactly the text that follows it |
| Day22.ReadCut | src/Day22.java:76-77 | both readers turn the text of a cut back into that cut |
| Day22.NoSpaceInNumber | src/Day22.java:79-80 | the decimal text of a number has no space |
| Day22.ReadIncrement | src/Day22.java:78-81 | both readers turn the text of a deal with increment back into that deal |
| Day22.ReadText | src/Day22.java:56-83 | both readers give back the technique of every well-formed instruction line |
| Day22.ReverseArray | src/Day22.java:85-91 | a fresh array holding the deck in reverse order |
| Day22.ArrayCopy | src/Day22.java:98-99 | `System.arraycopy` writes the block into the destination and leaves every other cell as it was |
| Day22.CutArray | src/Day22.java:93-106 | a cut of 0 returns the same array; any other cut returns a fresh array holding the cut deck |
| Day22.DealWithIncrement | src/Day22.java:108-115 | a fresh array in which card i is written to position i times the increment modulo the deck size, later writes winning |
| Day22.Apply | src/Day22.java:73-83 | the instruction's technique applied to the deck |
| Day22.InjectionPermutes | src/Day22.java:85-115 | a deck that takes each card from a different position is a rearrangement of the original |
| Day22.ReverseTwice | src/Day22.java:85-91 | dealing into a new stack twice restores the deck and keeps its cards |
| Day22.CutRotates | src/Day22.java:93-106 | a cut rotates the deck by the amount (position x takes the card at x plus the amount, wrapping) and keeps its cards |
| Day22.Unscale | src/Day22.java:108-115 | multiplying a position by the increment and then by its inverse modulo n gives the position back |
| Day22.DealPrefixAt | src/Day22.java:110-113 | the card written last to a position is the one that stays there |
| Day22.DealPermutes | src/Day22.java:108-115 | with an invertible increment, card i lands at i times the increment, position x holds the card at x times the inverse, and no card is lost |
| Day22.DeckTechniques | src/Day22.java:25-27 | each instruction's technique, in order, each fitting the deck |
| Day22.Identity | src/Day22.java:20-23 | the factory-order deck holds card i at position i |
| Day22.IndexOf | src/Day22.java:29-34 | the first position holding the card, or none exactly when the card is absent |
| Day22.Part1 | src/Day22.java:19-35 | the position of card 2019 in the shuffled deck of 10007 cards |
| Day22.IndexOfFirst | src/Day22.java:29-34 | the search reports the first position holding the card |
| Day22.ModPow | src/Day22.java:46 | `modPow` lies between 0 and the modulus |
| Day22.Source | src/Day22.java:56-71 | the position a card came from lies in the deck |
| Day22.TechniqueMoves | src/Day22.java:73-115 | each technique puts at position x the card that was at its source position |
| Day22.TechniqueKeepsCards | src/Day22.java:73-115 | each technique keeps the deck's cards when its increment is invertible |
| Day22.ShuffleKeepsCards | src/Day22.java:25-27 | a whole shuffle keeps the deck's cards |
| Day22.Part1Finds | src/Day22.java:29-34 | with invertible increments, part 1 always finds card 2019 |
| Day22.Origin | src/Day22.java:39-45 | the original position of the card at x lies in the deck |
| Day22.OriginSnoc | src/Day22.java:39-45 | tracing back the last technique first and then the rest gives the original position |
| Day22.ShuffleMoves | src/Day22.java:25-27 | after the shuffle, position x holds the card from its original position |
| Day22.Reduce | src/Day22.java:42-44 | reduced factors lie between 0 and the deck size |
| Day22.ReduceKeepsMap | src/Day22.java:42-44 | reducing the factors does not change the map they stand for |
| Day22.StepComposes | src/Day22.java:56-71 | one update of the factors composes the technique's source position after their map |
| Day22.NewStackComposes | src/Day22.java:57-59 | negating both factors and subtracting one reverses the position |
| Day22.CutComposes | src/Day22.java:60-62 | adding the cut to the offset shifts the position by it |
| Day22.IncrementComposes | src/Day22.java:63-69 | scaling both factors by the Fermat inverse scales the position by it |
| Day22.ComposedIsOrigin | src/Day22.java:39-45 | the composed factors map a final position to the original position of its card |
| Day22.FactorsDescribeShuffle | src/Day22.java:37-45 | the factors of part 2 describe the deck of part 1: position p holds card scale times p plus offset modulo n |
| Day22.FactorTechniques | src/Day22.java:39-41 | each instruction's technique as part 2 reads it |
| Day22.ApplyFactors | src/Day22.java:56-71 | the factors are replaced by their update for the technique |
| Day22.Part2Factors | src/Day22.java:38-45 | the factors are those of the instructions composed last to first, reduced after each |
| Day22.GeometricSumTimes | src/Day22.java:48-51 | the geometric sum times scale minus one is the power minus one |
| Day22.RepeatClosedForm | src/Day22.java:46-52 | the map applied k times is the power times p plus the offset times the geometric sum |
| Day22.FormulaRepeats | src/Day22.java:46-52 | when scale minus one has its Fermat inverse the closed form is the map applied k times |
| Day22.FormulaIgnoresOffset | src/Day22.java:48-51 | as written, with scale 1 the closed form returns the position unchanged while the true card moves by k times the offset |
| Day22.CutOneFactors | src/Day22.java:38-45 | the instructions consisting of a single cut 1 give the factors (1, 1) |
| Day22.Part2Counterexample | src/Day22.java:46-52 | on the factors (1, 1) the formula gives 2020 where the card is 101741582078681 |
| Day22.CorrectedRepeats | src/Day22.java:46-52 | the corrected closed form is the map applied k times for reduced factors whenever scale is 1 or scale minus one is invertible |
| Day22.Part2 | src/Day22.java:37-54 | the closed form of the composed factors for 101741582076661 shuffles and position 2020, as written |
| Day22.Part2Fixed | src/Day22.java:37-54 | the corrected closed form, which is the card at position 2020 after the repeated shuffles whenever scale is 1 or scale minus one is invertible |
| Day22.CorrectedWhenInvertible | src/Day22.java:46-52 | the corrected closed form agrees with the repeated map for any composed factors |
| Day23.Produce | src/Day23.java:62-73 | every write marks the last I/O as an output and leaves the queue alone |
| Day23.PacketReadInTwo | src/Day23.java:46-59 | a queued packet is read as its x and then its y, and leaves the queue only with the y |
| Day23.ReadsInOrder | src/Day23.java:46-59 | reading a node's queue yields every pending value in order, each packet's x before its y, and then -1 |
| Day23.BootPacketIsAddress | src/Day23.java:27 | the boot packet is read in one input, as the computer's address |
| Day23.OutputsInThrees | src/Day23.java:62-73 | three writes from an empty slot hand over exactly one packet (destination, x, y) and empty the slot again |
| Day23.NoPacketBeforeThird | src/Day23.java:64-68 | the first two writes of a packet hand nothing over |
| Day23.Boot | src/Day23.java:19-31 | fifty computers on the program, computer i queued with the boot packet carrying i |
| Day23.HaltAll | src/Day23.java:103 | every machine halted and nothing else changed |
| Day23.Enqueue | src/Day23.java:107-109 | the packet is appended to the queue of the computer with its address, an unknown address drops it, and nothing else changes |
| Day23.Route01 | src/Day23.java:100-110 | a packet to 255 prints its y and halts every computer without being delivered; any other is delivered to its address |
| Day23.Route02 | src/Day23.java:125-134 | a packet to 255 replaces the NAT's packet without being delivered; any other is delivered to its address |
| Day23.RouteAll | src/Day23.java:70 | routing packets keeps the computers, their machines and the crashed ones |
| Day23.Tick | src/Day23.java:28-30 | one pass of a computer keeps the network well-formed and its size |
| Day23.Passes | src/Day23.java:28-30 | the passes of the computers in address order keep the network well-formed |
| Day23.CountIdle | src/Day23.java:139-144 | the idle count is at most the number of computers and equals it exactly when every computer is idle |
| Day23.Simulate | src/Day23.java:137-160 | the rounds keep the network well-formed |
| Day23.HaltedNetworkRests | src/Day23.java:101-104 | a network whose machines are all halted does nothing more in part 1 |
| Day23.Part01Stops | src/Day23.java:100-105 | once the first packet to 255 is routed every computer is halted and stays halted |
| Day23.NatWakesComputerZero | src/Day23.java:144-152 | with every computer idle the NAT's packet goes to computer 0 and its y becomes the last y sent |
| Day23.NatWaitsForIdle | src/Day23.java:144 | the NAT does nothing while some computer is busy |
| Day23.Computer.constructor | src/Day23.java:40-43 | a machine loaded with the program, an empty queue, no packet in the making |
| Day23.Computer.Offer | src/Day23.java:27 | the packet is appended to the input queue |
| Day23.Computer.AcceptLong | src/Day23.java:46-59 | the value read and the new hook state are those of `Accept` |
| Day23.Computer.ProduceLong | src/Day23.java:62-73 | the new hook state is that of `Produce` |
| Day23.Computer.Pass | src/Day23.java:28 | one pass of the executor's loop with the computer's hooks: the machine and hook state step as the pure machine does |
| Day23.HaltComputers | src/Day23.java:103 | every computer's machine is halted, and its memory, pointer, relative base and failed flag, and every computer's queue and packet state, are unchanged |
| Day23.Part01.constructor | src/Day23.java:95-97 | the consumer holds the computers and has printed nothing |
| Day23.Part01.Accept | src/Day23.java:100-110 | a packet to 255 prints y and halts every computer, changing no queue and no other machine state; any other is appended to its computer's queue, or dropped, and every other field of every computer and machine is unchanged |
| Day23.Part02.constructor | src/Day23.java:119-122 | no NAT packet, running, last y 0, nothing printed |
| Day23.Part02.Accept | src/Day23.java:125-134 | a packet to 255 becomes the NAT's packet and no queue changes; any other is appended to its computer's queue with every other computer field unchanged; no machine changes; the NAT's other state is kept |
| Day23.Part02.Look | src/Day23.java:138-158 | with every computer idle and a packet held, a repeated y is printed and every computer halted, and the packet is queued for computer 0 as the last y sent; otherwise nothing changes; no machine changes except for that halt, and no computer field except computer 0's queue |
| Day24.NextCell | src/Day24.java:225-241 | a bug survives exactly when one bug is next to it, an empty cell is infested exactly by one or two, and any other character is copied |
| Day24.Step | src/Day24.java:225-241 | a step keeps the shape of the grid |
| Day24.Rows | src/Day24.java:208-214 | the rows of an array hold exactly its cells |
| Day24.KeptBugs | src/Day24.java:244-247 | dropping the neighbours outside the grid drops no bug |
| Day24.CandidatesSum | src/Day24.java:244-247 | the four candidate cells hold exactly the bugs next to the cell |
| Day24.SurroundingBugs | src/Day24.java:244-254 | summing over the points inside the grid around a cell counts the bugs next to it |
| Day24.ShouldDie | src/Day24.java:243-248 | true exactly when the bugs next to the cell are not one |
| Day24.ShouldInfest | src/Day24.java:250-256 | true exactly when one or two bugs are next to the cell |
| Day24.UpdateStep | src/Day24.java:225-241 | a fresh grid of the same shape holding the step of every cell |
| Day24.UpdateRow | src/Day24.java:229-237 | row y of the result holds the step of each of its cells and no other row changes |
| Day24.UpdateCell | src/Day24.java:230-236 | the cell of the result holds its step and no other cell changes |
| Day24.CreateGrid | src/Day24.java:208-214 | the rows in order, each followed by a newline |
| Day24.RenderFlattens | src/Day24.java:200 | without its newlines a rendered layout is its cells in row-major order |
| Day24.CalculateBiodiversity | src/Day24.java:199-206 | the sum of 2 to the power i for each bug at position i of the layout without newlines |
| Day24.BiodiversityBound | src/Day24.java:199-206 | the rating of n cells stays below 2 to the power n |
| Day24.BiodiversityDetermines | src/Day24.java:199-206 | two layouts of the same size with the same rating have their bugs in the same places |
| Day24.SeenNext | src/Day24.java:22-26 | a new layout joins the seen ones without repeating an earlier one |
| Day24.SeenAgain | src/Day24.java:22-25 | a layout that was seen is the first repeat |
| Day24.Part01 | src/Day24.java:15-28 | an answer is the rating of the first layout after one or more steps that repeats an earlier one |
| Day24.EdgeSumsSkipCentre | src/Day24.java:134-136 | the edge columns and rows of a level never include its centre |
| Day24.CentreNeverRead | src/Day24.java:129-183 | no level's centre is read when counting the bugs next to another cell |
| Day24.AroundSources | src/Day24.java:129-183 | the level outside is read only from the edge and the level inside only next to the centre; any other cell counts its own level like the flat grid |
| Day24.RecursiveStep | src/Day24.java:51-70 | a stepped level is five by five and its centre is left unset |
| Day24.SpawnPrevious | src/Day24.java:82-99 | a spawned outer level is five by five |
| Day24.SpawnNext | src/Day24.java:101-123 | a spawned inner level is five by five |
| Day24.AroundPrevious | src/Day24.java:82-99 | on an empty level just outside, a cell sees exactly the bugs the outer spawn counts |
| Day24.AroundNext | src/Day24.java:101-123 | on an empty level just inside, a cell sees exactly the bugs the inner spawn counts |
| Day24.ClearedPreviousIsStep | src/Day24.java:72-75 | clearing a new outer level is the step of an empty level with nothing further out, apart from its centre |
| Day24.ClearedNextIsStep | src/Day24.java:76-79 | clearing a new inner level is the step of an empty level with nothing further in, apart from its centre |
| Day24.ValueOf | src/Day24.java:185-187 | 1 for a bug at the cell and 0 otherwise |
| Day24.SumColumn | src/Day24.java:134-136 | the bugs in a column of the level inside |
| Day24.SumRow | src/Day24.java:162-164 | the bugs in a row of the level inside |
| Day24.CalculateLeft | src/Day24.java:129-141 | the bugs left of the cell across the three levels |
| Day24.CalculateRight | src/Day24.java:143-155 | the bugs right of the cell across the three levels |
| Day24.CalculateTop | src/Day24.java:157-169 | the bugs above the cell across the three levels |
| Day24.CalculateBottom | src/Day24.java:171-183 | the bugs below the cell across the three levels |
| Day24.EmptyGrid | src/Day24.java:189-197 | a fresh five by five level of empty cells |
| Day24.Spawn | src/Day24.java:84-86 | a level with one spawn is still five by five |
| Day24.SpawnCell | src/Day24.java:84-86 | the level gains a bug at the cell exactly when it sees one or two and is otherwise unchanged |
| Day24.SpawnsPrevious | src/Day24.java:82-99 | the four spawns one after the other are the outer spawn |
| Day24.UpdateClearPrevious | src/Day24.java:82-99 | the outer level becomes its spawn from the current level |
| Day24.NextCountPartial | src/Day24.java:103-108 | the counts the first loop adds up are those the inner level sees and are zero off the edge |
| Day24.EdgeValues | src/Day24.java:104-107 | the four counts of a round are the cells next to the centre of the current level |
| Day24.AddEdges | src/Day24.java:103-108 | after round i every edge cell holds its count so far |
| Day24.SpawnEdges | src/Day24.java:109-122 | after round i the edge cells visited so far have spawned and the others are unchanged |
| Day24.UpdateClearNext | src/Day24.java:101-123 | the inner level becomes its spawn from the current level |
| Day24.StepCell | src/Day24.java:56-68 | the step of the cell from the bugs around it on three levels |
| Day24.StepRow | src/Day24.java:53-69 | row y of the output holds its steps apart from the centre and nothing else changes |
| Day24.StepLevel | src/Day24.java:51-70 | a fresh five by five level holding the step of the current level between its neighbours |
| Day24.Level | src/Day24.java:49-50 | a missing level reads as an empty five by five one |
| Day24.Beside | src/Day24.java:49-50 | the levels on either side, or fresh empty ones where none exist, never the same array |
| Day24.DoGridStep | src/Day24.java:48-80 | the stepped level is stored under its key, a fresh cleared level beside it where none existed, and nothing else changes |
| Day24.NextLevel | src/Day24.java:48-80 | a level after a round is five by five |
| Day24.StepLevels | src/Day24.java:37 | a round adds one level on each side and steps every level |
| Day24.Evolve | src/Day24.java:34-39 | after n rounds the levels are exactly those from minus n to n |
| Day24.BuiltAll | src/Day24.java:37 | once every level has had its turn the round has built the stepped levels |
| Day24.RoundStep | src/Day24.java:37 | one turn keeps the round's invariant with one level fewer to go |
| Day24.AnyKey | src/Day24.java:37 | the next key is one still to be visited |
| Day24.Round | src/Day24.java:35-38 | the new levels hold the stepped levels whatever the order of the keys |
| Day24.RenderedBugs | src/Day24.java:40-44 | rendering a level adds no bug |
| Day24.CountBugs | src/Day24.java:40-44 | the bugs counted over the renderings of every level |
| Day24.NextRound | src/Day24.java:34-39 | the levels after one more round |
| Day24.Part02 | src/Day24.java:30-46 | the bugs on every level after 200 rounds from the loaded grid as level 0 |
| Day24.NextLevelCentre | src/Day24.java:51-70 | a level made by a round never has a bug at its centre |
| Day24.EvolveCentre | src/Day24.java:34-39 | after any number of rounds no level has a bug at its centre |
| JavaMath.Abs | src/Day12.java:170-172 | `Math.abs` gives the value or its negation, never negative |
| JavaMath.Sign | src/Day10.java:52-54 | `(int) Math.signum` is 1, 0 or -1 exactly as the value is positive, zero or negative |
| JavaMath.DivRem | src/Day01.java:32 | Java's quotient and remainder recombine to the dividend; the quotient truncates toward zero and the remainder takes the dividend's sign |
| JavaMath.NonNegativeDivRem | src/Day01.java:32 | on non-negative operands Java's division agrees with Dafny's |

## Left out

- File and console input and output: reading the puzzle inputs, splitting them into lines or numbers, and every `System.out` call. The machines and the puzzles take their input as parameters. The console of the Day 5 and Day 9 executors is an input sequence and an output sequence.
- Parsing the Day 14 reactions (the `Reaction(String)` constructor and the `Element` strings). The model starts from the reaction map.
- The unused Day 14 helpers `hasNonOreAndSufficient` and `notOreAndSufficient`, which no code path calls.
- Rendering: Day 11's part 2 drawing and Day 8's printing of the image. Day 8 keeps the pixel mapping as `Day08.Render`.
- Threads. Day 7's part 2 threads, Day 13's game thread and Day 23's fifty computer threads and NAT thread are replaced by a fixed round-robin schedule, one pass of each machine per turn. Other interleavings are not covered. The NAT's `Thread.sleep` is dropped.
- Days 19, 21 and 25, which add no logic beyond a thread-backed machine oracle, two constant scripts and an interactive console.
- Day 10's `fireLasers` (part 2), which works with `atan2`, `hypot` and double-keyed queues.
- 32-bit and 64-bit wrap-around: all integers are unbounded. The puzzle inputs keep every value in range.
- Day 14's `Math.ceil(quantity / (float) count)` is modelled as exact ceiling division. The float can lose precision for large quantities.
- Runs that need not end are bounded by a `fuel` parameter, with an outcome for running out: the machine drivers, Day 6's transfer walk, Day 12's repeat search, Day 14's part 2 search, Day 15's exploration and searches, Day 18's best walk, Day 20's path search, Day 24's part 1 and the Day 7 and Day 23 rounds. The model says nothing about inputs that would need more fuel.
- Day15.BreadthFirstSearch: the distance is proved to be the length of a walk, not the shortest one. The source's test `current == target` compares object references and never holds, so the search never stops early; the model keeps that behaviour.
- Day18.FindReachableKeys: proves that each listed key is reachable by a walk with the listed distance and doors, and (with `Day18.KeysListed`) that every key a walk reaches is listed. That the listed distances are the shortest is not proved.
- Day18.FindBestWalk: proves that a reported answer is the cheapest among the complete states the loop examined, each reachable by key steps. Optimality over every possible walk is not proved.
- Day18.Solve: inherits the promise of FindBestWalk, the cheapest complete state examined. Optimality over every possible walk is not proved.
- Day18.Part01: the promise of Solve for one robot; optimality over every possible walk is not proved.
- Day18.Part02: the promise of Solve for four robots; optimality over every possible walk is not proved.
- Day20.GateMap.FindPath: proves that a found state stands on ZZ at level 0 and is reached by legal moves. That it is the shortest path is not proved.
- Day20.GateMap.Part: proves that a result is ZZ at level 0, reached from AA by a route of legal moves of the printed length. That no shorter route exists is not proved.
- Day18 keys and doors use `IsLower` and `IsUpper` on the ASCII letters only. Java's `Character.isLowerCase` also accepts other Unicode letters.
- Day 18's bit masks are non-negative naturals, since only bits 0 to 25 are ever set. `Bitmask` defines `|`, `&` and `<<` on them.
- Day 18's `PointSet` holds one to four robot positions, as in the puzzle. The model keeps them as a sequence.
- `HashMap` and `HashSet` iteration order is not modelled. Day 24's rounds take the levels in any order, and the proofs cover every order.
- Day22.DealPermutes: the Java condition that the increment and the deck size are coprime is stated as "the increment has an inverse modulo the deck size". The equivalence of the two is not proved.
- Day22.TechniqueKeepsCards: assumes that the increment's Fermat power is a true inverse (`Invertible`). This holds for the prime deck sizes of the puzzle, but primality is not proved.
- Day22.ShuffleMoves: makes the same assumption for every increment of the shuffle.
- Day 12's `Vec3` objects are values (`Vec`). Each belongs to exactly one moon, so no aliasing is lost.
- Day 14's recursion assumes the reactions can be ranked, each product above its inputs, which makes the recursion end. The puzzle input is such a tree.
- Day 16 reads each character as its digit value. Java's `Integer.parseInt` on a non-digit character raises; the model requires digits.
- Day 16's part 2 reads the message at an offset that Java does not check. When the offset is 0 or the message would run past the end of the list, Java raises; the model answers `None`.
- Day 20's exceptions are the outcome `Raises`: a map without an AA entrance, and a queue that empties before ZZ is found (Java throws `IllegalStateException`).
- Day06.Orbits.CalculateOrbits: requires `Rooted`, that the chain of parents from the body ends. On a cyclic orbit map (a body that orbits, directly or not, itself) Java's `while (parentBody != null)` in `calculateOrbits` never ends; the model does not cover that input.
- Day06.Orbits.Part01: requires `Forest`, that every body's chain of parents ends. On a cyclic orbit map `calculateOrbits` loops forever for the bodies on or below the cycle.
- Day06.Orbits.AddSanFlag: requires `Rooted` of the body. On a cyclic orbit map the parent loop of `addSanFlag` never ends.
- Day06.Orbits.Part02: requires `Forest`. On a cyclic orbit map above SAN the `addSanFlag` loop never ends; the model does not cover that input.
- Day08.Part02: requires an input whose length is a multiple of 150. On any other length Java's `substring` raises `StringIndexOutOfBoundsException` for the last, short layer; the model does not cover that input.
- Day09.Load: requires a program of at most 10000 cells. On a longer one Java's `System.arraycopy` raises `ArrayIndexOutOfBoundsException`; every embedding that loads a program (Days 11, 13, 15, 17 and 23) carries the same requirement.
- Day09.IntcodeExecutor.constructor: requires a program of at most 10000 cells, for the same `System.arraycopy` exception.
- Day10.UpdateVisibility: requires at least one asteroid. On an empty list the `Field` constructor's `orElseThrow` raises `NoSuchElementException`.
- Day10.Station: requires at least one asteroid. On an empty list `max(...).orElseThrow()` raises `NoSuchElementException`.
- Day13.Part02: requires a program of at least one cell. On an empty one `numbers[0] = 2` raises `ArrayIndexOutOfBoundsException`.
- Day16.Part01: requires at least 8 digits. On a shorter input the loop printing the first 8 digits raises `ArrayIndexOutOfBoundsException`.
- Day17.IntersectionSum: requires `Fits`, that every scaffold cell inside the border has the cells above and below it in the rows around it. On a ragged field whose neighbour row is too short, `field[i - 1][j]` or `field[i + 1][j]` raises `ArrayIndexOutOfBoundsException`.
- Day17.RunPart01: requires `Fits` of the camera image, for the same exception in `intersectionSum`.
- Day17.Part02: requires a program of at least one cell. On an empty one `numbers[0] = 2` raises `ArrayIndexOutOfBoundsException`.
- Day18.FindReachableKeys: requires `Enclosed`, that every open cell has its four neighbours on the map. On a map open to its edge `charAt` raises `StringIndexOutOfBoundsException`.
- Day18.Solve: requires `Enclosed`, for the same `charAt` exception.
- Day18.Part01: requires `Enclosed`, for the same `charAt` exception.
- Day18.Part02: requires `Enclosed`, for the same `charAt` exception.
- Day20.GateMap.constructor: requires at least one row and no row shorter than the first. On an empty input `input.get(0)` raises `IndexOutOfBoundsException`, and on a shorter row `charAt` raises `StringIndexOutOfBoundsException`.
- Day20.NewGateMap: requires at least one row and no row shorter than the first, for the same exceptions.
- Day20.IsUpper: accepts the ASCII letters A to Z only. Java's `Character.isUpperCase` also accepts other Unicode upper-case letters.
- Day22.IsDigit: accepts the ASCII digits 0 to 9 only, and so does `Day22.ParseInt`, which uses it. Java's `Integer.parseInt` and `new BigInteger` also accept other Unicode decimal digits (for example the Arabic-Indic ones). An instruction whose number is written with them is a technique in Java and is read as none here.
- Day22.CutArray: requires a cut of at most the deck size either way. A larger cut makes `System.arraycopy` raise `ArrayIndexOutOfBoundsException`.
- Day22.DealWithIncrement: requires a non-negative increment. A negative one makes `output[targetIndex]` raise `ArrayIndexOutOfBoundsException` at a negative index.
- Day22.Apply: requires `DeckReady`, that the instruction parses and its technique fits the deck. Otherwise Java raises: `parseInt` throws `NumberFormatException`, a cut beyond the deck makes `arraycopy` throw, and a negative increment indexes below 0.
- Day22.Part1: requires `DeckReady` of every instruction, for the same exceptions in `apply`.
- Day22.Part2Factors: requires every instruction to parse as a technique. Otherwise `substring` or `new BigInteger` raises.
- Day22.Part2: requires every instruction to parse as a technique, for the same exceptions.
- Day22.Part2Fixed: requires every instruction to parse as a technique, for the same exceptions.
- Day24.UpdateStep: requires at least one row, and takes an `array2<char>`, which cannot hold a ragged grid. On an empty grid `grid[0].length` raises `ArrayIndexOutOfBoundsException`. `loadGrid` builds a ragged `char[][]` from lines of unequal length; on it `updateStep` raises `ArrayIndexOutOfBoundsException` when a row is longer than row 0 (`result[y][x]`), or when a neighbour count in `shouldDie` or `shouldInfest` reads past the end of a shorter row (`grid[point.y][point.x]`). The model does not cover either input.
- Day24.Part01: requires at least one row and takes an `array2<char>`, so it covers neither the empty grid nor a ragged one from lines of unequal length; on both Java raises `ArrayIndexOutOfBoundsException` in `updateStep`.
- Day24.Part02: requires a 5 by 5 grid. Java raises on a smaller grid and silently uses the top-left 5 by 5 cells of a larger one.

## Findings

| source | as written | input that shows it | evidently intended | confidence | as-written member | corrected member |
|---|---|---|---|---|---|---|
| src/Day22.java:46-52 | the closed form divides by `scale - 1` through its Fermat inverse, which is 0 when the scale is 1, so the offset drops out and the answer is the position itself | the instructions consisting of the single line `cut 1` give the factors (1, 1); the formula answers 2020 where the card is 101741582078681 | with scale 1 the map is a pure shift, and k repeats move the position by k times the offset | high (proved; not executed) | Day22.Part2Counterexample | Day22.Part2Fixed |

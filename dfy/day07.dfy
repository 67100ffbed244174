/**
 * Day07: amplifiers are Day05 Intcode executors whose input and output hooks are bounded
 * blocking queues (`ArrayBlockingQueue` of capacity 100). `permuteStep` enumerates the
 * phase settings by swapping array cells around recursion. `part01Step` chains five
 * amplifiers, and `part02Step` wires them into a ring.
 *
 * A hook that would block (taking from an empty queue, putting into a full one) ends the
 * run with `InputBlocked` or `OutputBlocked`. The machine is then still before that
 * instruction, so running it again resumes where the Java thread would have waited.
 */
module Day07 {
  import opened Wrappers
  import opened Intcode
  import Day05

  const CAPACITY: nat := 100

  // ---------------------------------------------------------------------------------
  // Permutations

  function Fact(n: nat): (r: nat)
    ensures r >= 1
  {
    if n == 0 then 1 else n * Fact(n - 1)
  }

  /** The array after the swap of cells `i` and `j` in `permuteStep`. */
  function Swap(s: seq<int>, i: nat, j: nat): (r: seq<int>)
    requires i < |s| && j < |s|
    ensures |r| == |s| && r[i] == s[j] && r[j] == s[i]
  {
    s[i := s[j]][j := s[i]]
  }

  /**
   * What `permuteStep(array, index, …)` appends: one copy of the array when `index` has
   * reached the last cell, and otherwise, for each `i` from `index` up, everything the
   * recursion appends after swapping cells `index` and `i`.
   */
  function Permutations(s: seq<int>, index: nat): seq<seq<int>>
    requires index <= |s|
    decreases |s| - index, |s| - index + 1
  {
    if index + 1 >= |s| then [s] else Branches(s, index, index)
  }

  /** The iterations `i`, `i + 1`, … of the loop in `permuteStep`. */
  function Branches(s: seq<int>, index: nat, i: nat): seq<seq<int>>
    requires index + 1 < |s| && index <= i <= |s|
    decreases |s| - index, |s| - i
  {
    if i == |s| then [] else Permutations(Swap(s, index, i), index + 1) + Branches(s, index, i + 1)
  }

  /** `k * f` as `k` additions of `f`, so that counting arrays stays linear. */
  function Times(k: nat, f: nat): nat
  {
    if k == 0 then 0 else f + Times(k - 1, f)
  }

  lemma {:induction false} TimesIsProduct(k: nat, f: nat)
    ensures Times(k, f) == k * f
  {
    if k > 0 {
      TimesIsProduct(k - 1, f);
      assert k * f == f + (k - 1) * f;
    }
  }

  /** `permuteStep` from `index` appends `(n - index)!` arrays. */
  lemma {:induction false} PermutationsCount(s: seq<int>, index: nat)
    requires index <= |s|
    ensures |Permutations(s, index)| == Fact(|s| - index)
    decreases |s| - index, 1
  {
    if index + 1 < |s| {
      var n := |s| - index;
      BranchesCount(s, index, index);
      TimesIsProduct(n, Fact(n - 1));
    } else if index < |s| {
      assert Fact(1) == 1 * Fact(0);
    }
  }

  /** The iterations from `i` on append `|s| - i` times `(n - index - 1)!` arrays. */
  lemma {:induction false} BranchesCount(s: seq<int>, index: nat, i: nat)
    requires index + 1 < |s| && index <= i <= |s|
    ensures |Branches(s, index, i)| == Times(|s| - i, Fact(|s| - index - 1))
    decreases |s| - index, 0, |s| - i
  {
    if i < |s| {
      PermutationsCount(Swap(s, index, i), index + 1);
      BranchesCount(s, index, i + 1);
    }
  }

  /** `p` rearranges `s` and keeps its first `index` cells. */
  predicate Rearranges(p: seq<int>, s: seq<int>, index: nat)
  {
    |p| == |s| && index <= |s| && multiset(p) == multiset(s) && forall k :: 0 <= k < index ==> p[k] == s[k]
  }

  /** Every appended array is a rearrangement of the input that keeps the cells before `index`. */
  lemma {:induction false} PermutationsArePermutations(s: seq<int>, index: nat, p: seq<int>)
    requires index <= |s| && p in Permutations(s, index)
    ensures Rearranges(p, s, index)
    decreases |s| - index, 1
  {
    if index + 1 < |s| {
      var j := BranchesArePermutations(s, index, index, p);
    }
  }

  /** An array appended by the iterations from `i` on has, at `index`, a value from cell `i` or later. */
  lemma {:induction false} BranchesArePermutations(s: seq<int>, index: nat, i: nat, p: seq<int>) returns (j: nat)
    requires index + 1 < |s| && index <= i <= |s| && p in Branches(s, index, i)
    ensures Rearranges(p, s, index) && i <= j < |s| && p[index] == s[j]
    decreases |s| - index, 0, |s| - i
  {
    var t := Swap(s, index, i);
    if p in Permutations(t, index + 1) {
      PermutationsArePermutations(t, index + 1, p);
      forall k | 0 <= k < index ensures p[k] == s[k] {
        assert p[k] == t[k];
      }
      assert p[index] == t[index];
      j := i;
    } else {
      j := BranchesArePermutations(s, index, i + 1, p);
    }
  }

  predicate DistinctValues(s: seq<int>)
  {
    forall a, b :: 0 <= a < b < |s| ==> s[a] != s[b]
  }

  predicate DistinctArrays(xs: seq<seq<int>>)
  {
    forall a, b :: 0 <= a < b < |xs| ==> xs[a] != xs[b]
  }

  lemma DistinctConcat(xs: seq<seq<int>>, ys: seq<seq<int>>)
    requires DistinctArrays(xs) && DistinctArrays(ys)
    requires forall a, b :: 0 <= a < |xs| && 0 <= b < |ys| ==> xs[a] != ys[b]
    ensures DistinctArrays(xs + ys)
  {
    forall a, b | 0 <= a < b < |xs + ys|
      ensures (xs + ys)[a] != (xs + ys)[b]
    {
      if b < |xs| {
      } else if a >= |xs| {
        assert (xs + ys)[a] == ys[a - |xs|] && (xs + ys)[b] == ys[b - |xs|];
      } else {
        assert (xs + ys)[b] == ys[b - |xs|];
      }
    }
  }

  lemma SwapDistinct(s: seq<int>, index: nat, i: nat)
    requires index < |s| && i < |s| && DistinctValues(s)
    ensures DistinctValues(Swap(s, index, i))
  {
    var t := Swap(s, index, i);
    forall a, b | 0 <= a < b < |t| ensures t[a] != t[b] {
      var a' := if a == index then i else if a == i then index else a;
      var b' := if b == index then i else if b == i then index else b;
      assert t[a] == s[a'] && t[b] == s[b'] && a' != b';
    }
  }

  lemma DifferAt(p: seq<int>, q: seq<int>, k: nat)
    requires k < |p| && k < |q| && p[k] != q[k]
    ensures p != q
  {
  }

  /** Arrays that differ at `index` from every array of another list are apart from it. */
  lemma HeadsApart(s: seq<int>, index: nat, i: nat, xs: seq<seq<int>>, ys: seq<seq<int>>)
    requires index < |s| && i < |s| && DistinctValues(s)
    requires forall p :: p in xs ==> |p| == |s| && p[index] == s[i]
    requires forall q :: q in ys ==> |q| == |s| && exists j :: i < j < |s| && q[index] == s[j]
    ensures forall a, b :: 0 <= a < |xs| && 0 <= b < |ys| ==> xs[a] != ys[b]
  {
    forall a, b | 0 <= a < |xs| && 0 <= b < |ys|
      ensures xs[a] != ys[b]
    {
      var p, q := xs[a], ys[b];
      assert p in xs && q in ys;
      var j :| i < j < |s| && q[index] == s[j];
      DifferAt(p, q, index);
    }
  }

  /** The arrangements from swapping in `s[i]` hold `s[i]` at `index`. */
  lemma SwappedHeads(s: seq<int>, index: nat, i: nat)
    requires index + 1 < |s| && index <= i < |s|
    ensures forall p :: p in Permutations(Swap(s, index, i), index + 1) ==> |p| == |s| && p[index] == s[i]
  {
    var t := Swap(s, index, i);
    forall p | p in Permutations(t, index + 1)
      ensures |p| == |s| && p[index] == s[i]
    {
      PermutationsArePermutations(t, index + 1, p);
    }
  }

  /** The arrangements of the later iterations hold a later value at `index`. */
  lemma LaterHeads(s: seq<int>, index: nat, i: nat)
    requires index + 1 < |s| && index <= i < |s|
    ensures forall q :: q in Branches(s, index, i + 1) ==> |q| == |s| && exists j :: i < j < |s| && q[index] == s[j]
  {
    forall q | q in Branches(s, index, i + 1)
      ensures |q| == |s| && exists j :: i < j < |s| && q[index] == s[j]
    {
      var j := BranchesArePermutations(s, index, i + 1, q);
    }
  }

  /** With distinct values, no arrangement is produced twice. */
  lemma {:induction false} PermutationsDistinct(s: seq<int>, index: nat)
    requires index <= |s| && DistinctValues(s)
    ensures DistinctArrays(Permutations(s, index))
    decreases |s| - index, 1
  {
    if index + 1 < |s| {
      BranchesDistinct(s, index, index);
    }
  }

  lemma JoinBranches(s: seq<int>, index: nat, i: nat, xs: seq<seq<int>>, ys: seq<seq<int>>)
    requires index + 1 < |s| && index <= i < |s| && DistinctValues(s)
    requires xs == Permutations(Swap(s, index, i), index + 1) && ys == Branches(s, index, i + 1)
    requires DistinctArrays(xs) && DistinctArrays(ys)
    ensures DistinctArrays(Branches(s, index, i))
  {
    SwappedHeads(s, index, i);
    LaterHeads(s, index, i);
    HeadsApart(s, index, i, xs, ys);
    DistinctConcat(xs, ys);
    assert Branches(s, index, i) == xs + ys;
  }

  lemma {:induction false} BranchesDistinct(s: seq<int>, index: nat, i: nat)
    requires index + 1 < |s| && index <= i <= |s| && DistinctValues(s)
    ensures DistinctArrays(Branches(s, index, i))
    decreases |s| - index, 0, |s| - i
  {
    if i < |s| {
      var t := Swap(s, index, i);
      var xs, ys := Permutations(t, index + 1), Branches(s, index, i + 1);
      assert DistinctArrays(xs) by {
        SwapDistinct(s, index, i);
        PermutationsDistinct(t, index + 1);
      }
      assert DistinctArrays(ys) by {
        BranchesDistinct(s, index, i + 1);
      }
      JoinBranches(s, index, i, xs, ys);
    }
  }

  /** The three-assignment swap through `temp` in `permuteStep`. */
  method SwapCells(cells: array<int>, i: nat, j: nat)
    requires i < cells.Length && j < cells.Length
    modifies cells
    ensures cells[..] == Swap(old(cells[..]), i, j)
  {
    var temp := cells[i];
    cells[i] := cells[j];
    cells[j] := temp;
  }

  lemma SwapTwice(s: seq<int>, i: nat, j: nat)
    requires i < |s| && j < |s|
    ensures Swap(Swap(s, i, j), i, j) == s
  {
  }

  /**
   * `permuteStep`: swaps `cells[index]` with each later cell in turn, recurses, and swaps
   * back; at the last cell it appends a copy of the array (a sequence value here, so no
   * later swap can reach it).
   */
  method PermuteStep(cells: array<int>, index: nat, permutations: seq<seq<int>>) returns (result: seq<seq<int>>)
    requires index <= cells.Length
    modifies cells
    ensures cells[..] == old(cells[..])
    ensures result == permutations + Permutations(old(cells[..]), index)
    decreases cells.Length - index
  {
    if index + 1 >= cells.Length {
      return permutations + [cells[..]];
    }
    ghost var s := cells[..];
    result := permutations;
    for i := index to cells.Length
      invariant cells[..] == s
      invariant result + Branches(s, index, i) == permutations + Permutations(s, index)
    {
      ghost var before := result;
      SwapCells(cells, index, i);
      ghost var t := cells[..];
      result := PermuteStep(cells, index + 1, result);
      SwapCells(cells, index, i);
      SwapTwice(s, index, i);
      NextBranch(s, index, i, before, result);
    }
    assert Branches(s, index, cells.Length) == [];
  }

  /** One iteration of the loop in `permuteStep` moves one branch into the result. */
  lemma NextBranch(s: seq<int>, index: nat, i: nat, before: seq<seq<int>>, result: seq<seq<int>>)
    requires index + 1 < |s| && index <= i < |s|
    requires result == before + Permutations(Swap(s, index, i), index + 1)
    ensures result + Branches(s, index, i + 1) == before + Branches(s, index, i)
  {
  }

  /** `permute`: all arrangements of `array`, which is left as it was. */
  method Permute(cells: array<int>) returns (permutations: seq<seq<int>>)
    modifies cells
    ensures cells[..] == old(cells[..])
    ensures permutations == Permutations(cells[..], 0)
  {
    permutations := PermuteStep(cells, 0, []);
  }

  /**
   * For the five distinct phase settings, `permute` yields 120 distinct arrangements, each
   * a rearrangement of the settings.
   */
  lemma FivePhaseSettings(settings: seq<int>)
    requires |settings| == 5 && DistinctValues(settings)
    ensures |Permutations(settings, 0)| == 120 && DistinctArrays(Permutations(settings, 0))
    ensures forall p :: p in Permutations(settings, 0) ==> multiset(p) == multiset(settings)
  {
    PermutationsCount(settings, 0);
    PermutationsDistinct(settings, 0);
    forall p | p in Permutations(settings, 0) ensures multiset(p) == multiset(settings) {
      PermutationsArePermutations(settings, 0, p);
    }
  }

  // ---------------------------------------------------------------------------------
  // Queues and the amplifier

  /** `ArrayBlockingQueue<Integer>` of capacity 100. */
  class BoundedQueue {
    var items: seq<int>

    constructor ()
      ensures items == []
    {
      items := [];
    }

    /** `add`: appends, or raises when the queue is full (false). */
    method Add(value: int) returns (added: bool)
      modifies this
      ensures added <==> |old(items)| < CAPACITY
      ensures items == if added then old(items) + [value] else old(items)
    {
      added := |items| < CAPACITY;
      if added {
        items := items + [value];
      }
    }

    /** `put`: appends, or would wait for room (false) when the queue is full. */
    method Put(value: int) returns (put: bool)
      modifies this
      ensures put <==> |old(items)| < CAPACITY
      ensures items == if put then old(items) + [value] else old(items)
    {
      put := |items| < CAPACITY;
      if put {
        items := items + [value];
      }
    }

    /** `take`: removes the head, or would wait for a value (None) when the queue is empty. */
    method Take() returns (value: Option<int>)
      modifies this
      ensures old(items) == [] ==> value == None && items == []
      ensures old(items) != [] ==> value == Some(old(items)[0]) && items == old(items)[1..]
    {
      if items == [] {
        return None;
      }
      value := Some(items[0]);
      items := items[1..];
    }
  }

  /** The two queues an amplifier's hooks see: the one it takes from and the one it puts into. */
  datatype Pipes = Pipes(input: seq<int>, output: seq<int>)

  /** `acceptInt`: `inputQueue.take()`. */
  function QueueTake(p: Pipes): (a: Accepted<Pipes>)
    ensures a.Accepted? <==> p.input != []
    ensures a.Accepted? ==> a == Accepted(p.input[0], Pipes(p.input[1..], p.output))
  {
    if p.input == [] then Blocked else Accepted(p.input[0], p.(input := p.input[1..]))
  }

  /** `produceInt`: `outputQueue.put(value)`. */
  function QueuePut(p: Pipes, value: int): (d: Delivered<Pipes>)
    ensures d.Delivered? <==> |p.output| < CAPACITY
    ensures d.Delivered? ==> d == Delivered(Pipes(p.input, p.output + [value]), false)
  {
    if |p.output| < CAPACITY then Delivered(p.(output := p.output + [value]), false) else Refused
  }

  /**
   * The queues of a run are first in, first out and bounded: the input queue is only ever
   * taken from at its front, so what is left follows what was read; the output queue only
   * grows at its end and never beyond its capacity.
   */
  lemma PipesRun(m: Day05.Machine, p: Pipes, fuel: nat)
    requires |p.output| <= CAPACITY
    ensures var r := Day05.RunWith(m, p, QueueTake, QueuePut, fuel).port;
      && |r.input| <= |p.input| && r.input == p.input[|p.input| - |r.input|..]
      && p.output <= r.output && |r.output| <= CAPACITY
  {
    Day05.RunPreserves(m, p, QueueTake, QueuePut, fuel, (q: Pipes) =>
      |q.input| <= |p.input| && q.input == p.input[|p.input| - |q.input|..] && p.output <= q.output && |q.output| <= CAPACITY);
  }

  /** `Day07.IntcodeExecutor`: a Day05 executor whose hooks are two queues. */
  class Amplifier {
    const vm: Day05.IntcodeExecutor
    const inputQueue: BoundedQueue
    var outputQueue: BoundedQueue

    function Ports(): Pipes
      reads this, inputQueue, outputQueue
    {
      Pipes(inputQueue.items, outputQueue.items)
    }

    constructor (program: array<int>)
      ensures fresh(vm) && fresh(vm.numbers) && fresh(inputQueue) && fresh(outputQueue)
      ensures vm.State() == Day05.Load(program[..]) && inputQueue != outputQueue
      ensures inputQueue.items == [] && outputQueue.items == []
    {
      vm := new Day05.IntcodeExecutor(program);
      inputQueue := new BoundedQueue();
      outputQueue := new BoundedQueue();
    }

    /** `pushInput`: `inputQueue.add(value)`. */
    method PushInput(value: int) returns (added: bool)
      modifies inputQueue
      ensures added <==> |old(inputQueue.items)| < CAPACITY
      ensures inputQueue.items == if added then old(inputQueue.items) + [value] else old(inputQueue.items)
    {
      added := inputQueue.Add(value);
    }

    /** `getOutput`: `outputQueue.take()`. */
    method GetOutput() returns (value: Option<int>)
      modifies outputQueue
      ensures old(outputQueue.items) == [] ==> value == None && outputQueue.items == []
      ensures old(outputQueue.items) != [] ==> value == Some(old(outputQueue.items)[0]) && outputQueue.items == old(outputQueue.items)[1..]
    {
      value := outputQueue.Take();
    }

    /** One pass of `execute`'s loop with the queue hooks. */
    method Pass(ghost fuel: nat) returns (ended: Option<Stop>)
      requires vm.State().Running() && fuel > 0 && inputQueue != outputQueue
      modifies vm, vm.numbers, inputQueue, outputQueue
      ensures ended.Some? ==>
        vm.State() == old(vm.State()) && Day05.RunWith(old(vm.State()), old(Ports()), QueueTake, QueuePut, fuel) == Day05.Run(vm.State(), Ports(), ended.value)
      ensures ended.None? ==>
        Day05.RunWith(old(vm.State()), old(Ports()), QueueTake, QueuePut, fuel) == Day05.RunWith(vm.State(), Ports(), QueueTake, QueuePut, fuel - 1)
    {
      var e := vm.ProcessInstruction();
      ended := None;
      match e {
        case Continued =>
        case Trapped(t) =>
          ended := Some(Raised(t));
        case Produced(v) =>
          var put := outputQueue.Put(v);
          if !put {
            // `put` would wait: the output instruction has not completed yet
            Day05.OutputMovesOn(old(vm.State()));
            vm.currentIndex := vm.currentIndex - 2;
            ended := Some(OutputBlocked);
          }
        case AwaitingInput(target) =>
          var value := inputQueue.Take();
          if value.None? {
            ended := Some(InputBlocked);
          } else {
            var fed := vm.StoreInput(target, value.value);
            if fed.Trapped? {
              ended := Some(Raised(fed.trap));
            }
          }
      }
    }

    /** `execute` with the queue hooks, at most `fuel` instructions. */
    method Execute(fuel: nat) returns (stop: Stop)
      requires inputQueue != outputQueue
      modifies vm, vm.numbers, inputQueue, outputQueue
      ensures Day05.RunWith(old(vm.State()), old(Ports()), QueueTake, QueuePut, fuel) == Day05.Run(vm.State(), Ports(), stop)
    {
      var left := fuel;
      ghost var goal := Day05.RunWith(vm.State(), Ports(), QueueTake, QueuePut, fuel);
      while true
        invariant Day05.RunWith(vm.State(), Ports(), QueueTake, QueuePut, left) == goal
        decreases left
      {
        if vm.halted { stop := Halted; break; }
        if vm.failed { stop := Failed; break; }
        if left == 0 { stop := OutOfFuel; break; }
        var ended := Pass(left);
        if ended.Some? {
          stop := ended.value;
          break;
        }
        left := left - 1;
      }
    }
  }

  // ---------------------------------------------------------------------------------
  // Part 1: the amplifier chain

  /**
   * One amplifier of the chain: its queue holds the phase setting and then the input
   * signal; `execute` returns only once a flag is set, and `getOutput` then takes the
   * first value it put. Anything else (a hook that waits forever, an exception, running
   * out of fuel) yields no signal.
   */
  function AmplifierOutput(program: seq<int>, setting: int, input: int, fuel: nat): Option<int>
  {
    var r := Day05.RunWith(Day05.Load(program), Pipes([setting, input], []), QueueTake, QueuePut, fuel);
    if (r.stop == Halted || r.stop == Failed) && r.port.output != [] then Some(r.port.output[0]) else None
  }

  /** `part01Step` from signal `input`: each setting's amplifier gets the previous amplifier's output. */
  function Chain(program: seq<int>, settings: seq<int>, input: int, fuel: nat): Option<int>
    decreases |settings|
  {
    if settings == [] then Some(input)
    else
      match AmplifierOutput(program, settings[0], input, fuel)
      case None => None
      case Some(output) => Chain(program, settings[1..], output, fuel)
  }

  /** Running the chain of `s + t` is running `s` and feeding its signal to `t`. */
  lemma {:induction false} ChainAppend(program: seq<int>, s: seq<int>, t: seq<int>, input: int, fuel: nat)
    ensures Chain(program, s + t, input, fuel) ==
      match Chain(program, s, input, fuel)
      case None => None
      case Some(signal) => Chain(program, t, signal, fuel)
    decreases |s|
  {
    if s == [] {
      assert s + t == t;
    } else {
      assert (s + t)[0] == s[0] && (s + t)[1..] == s[1..] + t;
      match AmplifierOutput(program, s[0], input, fuel)
      case None =>
        assert Chain(program, s, input, fuel) == None;
        assert Chain(program, s + t, input, fuel) == None;
      case Some(output) =>
        assert Chain(program, s, input, fuel) == Chain(program, s[1..], output, fuel);
        assert Chain(program, s + t, input, fuel) == Chain(program, s[1..] + t, output, fuel);
        ChainAppend(program, s[1..], t, output, fuel);
    }
  }

  /** `part01Step`: a fresh amplifier per setting, starting from signal 0. */
  method Part01Step(instructions: array<int>, phaseSettings: seq<int>, fuel: nat) returns (signal: Option<int>)
    ensures signal == Chain(instructions[..], phaseSettings, 0, fuel)
  {
    var ampInput := 0;
    for k := 0 to |phaseSettings|
      invariant Chain(instructions[..], phaseSettings, 0, fuel) == Chain(instructions[..], phaseSettings[k..], ampInput, fuel)
    {
      assert phaseSettings[k..][1..] == phaseSettings[k + 1..];
      var amplifier := new Amplifier(instructions);
      var added := amplifier.PushInput(phaseSettings[k]);
      added := amplifier.PushInput(ampInput);
      assert amplifier.Ports() == Pipes([phaseSettings[k], ampInput], []);
      var stop := amplifier.Execute(fuel);
      if stop != Halted && stop != Failed {
        return None;
      }
      var output := amplifier.GetOutput();
      if output.None? {
        return None;
      }
      ampInput := output.value;
    }
    assert phaseSettings[|phaseSettings|..] == [];
    signal := Some(ampInput);
  }

  /** The largest of a non-empty list of signals. */
  function Maximum(xs: seq<int>): (m: int)
    requires xs != []
    ensures m in xs && forall x :: x in xs ==> x <= m
  {
    if |xs| == 1 then xs[0]
    else
      var rest := Maximum(xs[1..]);
      assert xs == [xs[0]] + xs[1..];
      if xs[0] >= rest then xs[0] else rest
  }

  /** The signals of all phase arrangements, when every chain produces one. */
  function Signals(program: seq<int>, arrangements: seq<seq<int>>, fuel: nat): (r: Option<seq<int>>)
    ensures r.Some? ==> |r.value| == |arrangements|
    ensures r.Some? ==> forall k :: 0 <= k < |arrangements| ==> Chain(program, arrangements[k], 0, fuel) == Some(r.value[k])
  {
    if arrangements == [] then Some([])
    else
      match Chain(program, arrangements[0], 0, fuel)
      case None => None
      case Some(first) =>
        match Signals(program, arrangements[1..], fuel)
        case None => None
        case Some(rest) => Some([first] + rest)
  }

  /**
   * `allPermutations(…, part01Step)`: the highest signal over all arrangements of the
   * settings, once every chain has produced one.
   */
  function BestChain(program: seq<int>, settings: seq<int>, fuel: nat): Option<int>
  {
    match Signals(program, Permutations(settings, 0), fuel)
    case None => None
    case Some(signals) => if signals == [] then None else Some(Maximum(signals))
  }

  /** The printed signal is reached by some arrangement and no arrangement beats it. */
  lemma BestChainIsBest(program: seq<int>, settings: seq<int>, fuel: nat)
    ensures var r := BestChain(program, settings, fuel);
      r.Some? ==> exists p :: p in Permutations(settings, 0) && Chain(program, p, 0, fuel) == r
    ensures var r := BestChain(program, settings, fuel);
      r.Some? ==> forall p :: p in Permutations(settings, 0) ==>
        Chain(program, p, 0, fuel).Some? && Chain(program, p, 0, fuel).value <= r.value
  {
    var arrangements := Permutations(settings, 0);
    var signals := Signals(program, arrangements, fuel);
    if signals.Some? && signals.value != [] {
      var best := Maximum(signals.value);
      var k :| 0 <= k < |signals.value| && signals.value[k] == best;
      assert arrangements[k] in arrangements;
      forall p | p in arrangements
        ensures Chain(program, p, 0, fuel).Some? && Chain(program, p, 0, fuel).value <= best
      {
        var j :| 0 <= j < |arrangements| && arrangements[j] == p;
        assert signals.value[j] in signals.value;
      }
    }
  }

  // ---------------------------------------------------------------------------------
  // Part 2: the ring

  /** The amplifier whose input queue amplifier `i` of `n` puts into. */
  function Successor(i: nat, n: nat): (j: nat)
    requires i < n
    ensures j < n && (j == i + 1 || (i == n - 1 && j == 0))
  {
    if i + 1 == n then 0 else i + 1
  }

  /**
   * The ring's state: amplifier `i`'s machine and input queue, and the amplifiers whose
   * thread ended with an exception. Amplifier `i` puts into the queue of `Successor(i, n)`.
   */
  datatype Ring = Ring(machines: seq<Day05.Machine>, queues: seq<seq<int>>, raised: set<nat>)
  {
    predicate WellFormed()
    {
      |machines| == |queues| >= 2
    }

    /** Every thread has ended: its executor halted or failed, or it raised. */
    predicate Finished()
    {
      forall i :: 0 <= i < |machines| ==> !machines[i].Running() || i in raised
    }
  }

  /**
   * `part02Step`'s set-up: fresh executors over the program, each input queue holding its
   * phase setting, and the kick-off signal 0 behind it in amplifier 0's queue.
   */
  function StartRing(program: seq<int>, settings: seq<int>): (r: Ring)
    requires |settings| >= 2
    ensures r.WellFormed() && |r.machines| == |settings| && r.raised == {}
    ensures forall i :: 0 <= i < |settings| ==> r.machines[i] == Day05.Load(program)
    ensures r.queues[0] == [settings[0], 0]
    ensures forall i :: 1 <= i < |settings| ==> r.queues[i] == [settings[i]]
  {
    Ring(seq(|settings|, _ => Day05.Load(program)),
         seq(|settings|, i requires 0 <= i < |settings| => if i == 0 then [settings[0], 0] else [settings[i]]),
         {})
  }

  /**
   * Amplifier `i`'s thread runs until it stops, waits on a queue, or uses up `fuel`
   * instructions; a thread that raised does not run again.
   */
  function RunAmplifier(r: Ring, i: nat, fuel: nat): (r': Ring)
    requires r.WellFormed() && i < |r.machines|
    ensures r'.WellFormed() && |r'.machines| == |r.machines| && r.raised <= r'.raised
    ensures forall j :: 0 <= j < |r.machines| && j != i ==> r'.machines[j] == r.machines[j]
    ensures forall j :: 0 <= j < |r.queues| && j != i && j != Successor(i, |r.queues|) ==> r'.queues[j] == r.queues[j]
  {
    if i in r.raised then r
    else
      var out := Successor(i, |r.queues|);
      var run := Day05.RunWith(r.machines[i], Pipes(r.queues[i], r.queues[out]), QueueTake, QueuePut, fuel);
      Ring(r.machines[i := run.machine], r.queues[i := run.port.input][out := run.port.output],
           if run.stop.Raised? then r.raised + {i} else r.raised)
  }

  /** One round: amplifiers `i`, `i + 1`, …, last, in turn. */
  function Round(r: Ring, i: nat, fuel: nat): (r': Ring)
    requires r.WellFormed() && i <= |r.machines|
    ensures r'.WellFormed() && |r'.machines| == |r.machines|
    decreases |r.machines| - i
  {
    if i == |r.machines| then r else Round(RunAmplifier(r, i, fuel), i + 1, fuel)
  }

  /**
   * The threads of `part02Step`, scheduled round-robin: rounds until every thread has
   * ended, or `rounds` is used up.
   */
  function RoundRobin(r: Ring, rounds: nat, fuel: nat): (r': Ring)
    requires r.WellFormed()
    ensures r'.WellFormed() && |r'.machines| == |r.machines|
    decreases rounds
  {
    if rounds == 0 then r
    else
      var before := RoundRobin(r, rounds - 1, fuel);
      if before.Finished() then before else Round(before, 0, fuel)
  }

  /**
   * The value of `part02Step`: once every thread has ended, the last amplifier's
   * `getOutput` takes the head of its output queue, which is amplifier 0's input queue;
   * None when a thread is still waiting or that queue is empty (the calls would block).
   */
  function RingSignal(program: seq<int>, settings: seq<int>, rounds: nat, fuel: nat): Option<int>
    requires |settings| >= 2
  {
    var r := RoundRobin(StartRing(program, settings), rounds, fuel);
    if r.Finished() && r.queues[0] != [] then Some(r.queues[0][0]) else None
  }

  /** The ring's signal for one arrangement; a ring needs at least two amplifiers. */
  function RingOf(program: seq<int>, arrangement: seq<int>, rounds: nat, fuel: nat): Option<int>
  {
    if |arrangement| >= 2 then RingSignal(program, arrangement, rounds, fuel) else None
  }

  /** The ring signals of all phase arrangements, when every ring produces one. */
  function RingSignals(program: seq<int>, arrangements: seq<seq<int>>, rounds: nat, fuel: nat): (r: Option<seq<int>>)
    ensures r.Some? ==> |r.value| == |arrangements|
    ensures r.Some? ==> forall k :: 0 <= k < |arrangements| ==> RingOf(program, arrangements[k], rounds, fuel) == Some(r.value[k])
  {
    if arrangements == [] then Some([])
    else
      match RingOf(program, arrangements[0], rounds, fuel)
      case None => None
      case Some(first) =>
        match RingSignals(program, arrangements[1..], rounds, fuel)
        case None => None
        case Some(rest) => Some([first] + rest)
  }

  /**
   * `allPermutations(…, part02Step)`: the highest ring signal over all arrangements of the
   * settings, once every ring has produced one.
   */
  function BestRing(program: seq<int>, settings: seq<int>, rounds: nat, fuel: nat): Option<int>
  {
    match RingSignals(program, Permutations(settings, 0), rounds, fuel)
    case None => None
    case Some(signals) => if signals == [] then None else Some(Maximum(signals))
  }

  /** The printed ring signal is reached by some arrangement and no arrangement beats it. */
  lemma BestRingIsBest(program: seq<int>, settings: seq<int>, rounds: nat, fuel: nat)
    ensures var r := BestRing(program, settings, rounds, fuel);
      r.Some? ==> exists p :: p in Permutations(settings, 0) && RingOf(program, p, rounds, fuel) == r
    ensures var r := BestRing(program, settings, rounds, fuel);
      r.Some? ==> forall p :: p in Permutations(settings, 0) ==>
        RingOf(program, p, rounds, fuel).Some? && RingOf(program, p, rounds, fuel).value <= r.value
  {
    var arrangements := Permutations(settings, 0);
    var signals := RingSignals(program, arrangements, rounds, fuel);
    if signals.Some? && signals.value != [] {
      var best := Maximum(signals.value);
      var k :| 0 <= k < |signals.value| && signals.value[k] == best;
      assert arrangements[k] in arrangements;
      forall p | p in arrangements
        ensures RingOf(program, p, rounds, fuel).Some? && RingOf(program, p, rounds, fuel).value <= best
      {
        var j :| 0 <= j < |arrangements| && arrangements[j] == p;
        assert signals.value[j] in signals.value;
      }
    }
  }

  // ---------------------------------------------------------------------------------
  // Part 2 over the executor objects

  /**
   * The wiring of `part02Step`: amplifier `k` puts into the input queue of its successor.
   * `owner` maps each amplifier's executor, memory and input queue to the amplifier's
   * index, so objects of different amplifiers are distinct.
   */
  predicate Wired(amps: seq<Amplifier>, owner: map<object, nat>)
    reads amps
  {
    && |amps| >= 2
    && forall k :: 0 <= k < |amps| ==>
         && amps[k] !in owner
         && amps[k].vm in owner && owner[amps[k].vm] == k
         && amps[k].vm.numbers in owner && owner[amps[k].vm.numbers] == k
         && amps[k].inputQueue in owner && owner[amps[k].inputQueue] == k
         && amps[k].outputQueue == amps[Successor(k, |amps|)].inputQueue
  }

  /** The executors and input queues hold the machines and queues of ring state `r`. */
  predicate Mirrors(amps: seq<Amplifier>, r: Ring)
    reads amps, set a | a in amps :: a.vm, set a | a in amps :: a.vm.numbers, set a | a in amps :: a.inputQueue
  {
    && |r.machines| == |r.queues| == |amps|
    && forall j :: 0 <= j < |amps| ==> r.machines[j] == amps[j].vm.State() && r.queues[j] == amps[j].inputQueue.items
  }

  /**
   * Amplifier `k`'s thread in the ring: its `execute` runs against its own input queue and
   * its successor's, and the objects then hold the ring state after `RunAmplifier`.
   */
  method Turn(amps: seq<Amplifier>, ghost owner: map<object, nat>, ghost r: Ring, k: nat, fuel: nat) returns (stop: Stop)
    requires Wired(amps, owner) && r.WellFormed() && Mirrors(amps, r) && k < |amps| && k !in r.raised
    modifies amps[k].vm, amps[k].vm.numbers, amps[k].inputQueue, amps[k].outputQueue
    ensures Mirrors(amps, RunAmplifier(r, k, fuel))
    ensures RunAmplifier(r, k, fuel).raised == if stop.Raised? then r.raised + {k} else r.raised
  {
    ghost var out := Successor(k, |amps|);
    ghost var run := Day05.RunWith(r.machines[k], Pipes(r.queues[k], r.queues[out]), QueueTake, QueuePut, fuel);
    stop := amps[k].Execute(fuel);
    assert run == Day05.Run(amps[k].vm.State(), Pipes(amps[k].inputQueue.items, amps[out].inputQueue.items), stop);
    forall j | 0 <= j < |amps| && j != k
      ensures amps[j].vm.State() == r.machines[j]
    {
      assert owner[amps[j].vm] != owner[amps[k].vm];
    }
    forall j | 0 <= j < |amps| && j != k && j != out
      ensures amps[j].inputQueue.items == r.queues[j]
    {
      assert owner[amps[j].inputQueue] != owner[amps[k].inputQueue];
      assert owner[amps[j].inputQueue] != owner[amps[out].inputQueue];
    }
  }

  /**
   * The first loop of `part02Step`, creating the amplifiers: each gets a fresh executor
   * over the program and an empty input queue.
   */
  method Spawn(instructions: array<int>, n: nat) returns (amps: seq<Amplifier>, ghost owner: map<object, nat>)
    ensures |amps| == n && fresh(owner.Keys) && forall k :: 0 <= k < n ==> fresh(amps[k])
    ensures forall j, k :: 0 <= j < k < n ==> amps[j] != amps[k]
    ensures forall k :: 0 <= k < n ==>
      && amps[k] !in owner
      && amps[k].vm in owner && owner[amps[k].vm] == k
      && amps[k].vm.numbers in owner && owner[amps[k].vm.numbers] == k
      && amps[k].inputQueue in owner && owner[amps[k].inputQueue] == k
    ensures forall k :: 0 <= k < n ==> amps[k].vm.State() == Day05.Load(instructions[..]) && amps[k].inputQueue.items == []
  {
    amps, owner := [], map[];
    for i := 0 to n
      invariant |amps| == i && fresh(owner.Keys) && forall k :: 0 <= k < i ==> fresh(amps[k])
      invariant forall j, k :: 0 <= j < k < i ==> amps[j] != amps[k]
      invariant forall k :: 0 <= k < i ==>
        && amps[k] !in owner
        && amps[k].vm in owner && owner[amps[k].vm] == k
        && amps[k].vm.numbers in owner && owner[amps[k].vm.numbers] == k
        && amps[k].inputQueue in owner && owner[amps[k].inputQueue] == k
      invariant forall k :: 0 <= k < i ==> amps[k].vm.State() == Day05.Load(instructions[..]) && amps[k].inputQueue.items == []
    {
      var amplifier := new Amplifier(instructions);
      amps := amps + [amplifier];
      owner := owner[amplifier.vm := i][amplifier.vm.numbers := i][amplifier.inputQueue := i];
    }
  }

  /**
   * The wiring in `part02Step`: each amplifier's output queue becomes the next one's input
   * queue, and the last one's the first one's.
   */
  method Connect(amps: seq<Amplifier>)
    requires |amps| >= 2 && forall j, k :: 0 <= j < k < |amps| ==> amps[j] != amps[k]
    modifies amps
    ensures forall k :: 0 <= k < |amps| ==> amps[k].outputQueue == amps[Successor(k, |amps|)].inputQueue
  {
    for i := 1 to |amps|
      invariant forall k :: 0 <= k < i - 1 ==> amps[k].outputQueue == amps[k + 1].inputQueue
    {
      amps[i - 1].outputQueue := amps[i].inputQueue;
    }
    amps[|amps| - 1].outputQueue := amps[0].inputQueue;
  }

  /**
   * The second loop of `part02Step` and the kick-off: every input queue gets its phase
   * setting, and amplifier 0's the signal 0 behind it.
   */
  method PushSettings(amps: seq<Amplifier>, ghost owner: map<object, nat>, phaseSettings: seq<int>)
    requires Wired(amps, owner) && |amps| == |phaseSettings|
    requires forall k :: 0 <= k < |amps| ==> amps[k].inputQueue.items == []
    modifies owner.Keys
    ensures Wired(amps, owner)
    ensures amps[0].inputQueue.items == [phaseSettings[0], 0]
    ensures forall k :: 1 <= k < |amps| ==> amps[k].inputQueue.items == [phaseSettings[k]]
    ensures forall k :: 0 <= k < |amps| ==> amps[k].vm.State() == old(amps[k].vm.State())
  {
    for i := 0 to |amps|
      invariant Wired(amps, owner)
      invariant forall k :: 0 <= k < |amps| ==> amps[k].inputQueue.items == if k < i then [phaseSettings[k]] else []
      invariant forall k :: 0 <= k < |amps| ==> amps[k].vm.State() == old(amps[k].vm.State())
    {
      var added := amps[i].PushInput(phaseSettings[i]);
    }
    var added := amps[0].PushInput(0);
  }

  /**
   * The set-up of `part02Step`: the amplifiers created, wired, and holding their phase
   * settings and the kick-off signal.
   */
  method Setup(instructions: array<int>, phaseSettings: seq<int>) returns (amps: seq<Amplifier>, ghost owner: map<object, nat>)
    requires |phaseSettings| >= 2
    ensures Wired(amps, owner) && |amps| == |phaseSettings| && fresh(owner.Keys)
    ensures Mirrors(amps, StartRing(instructions[..], phaseSettings))
  {
    amps, owner := Spawn(instructions, |phaseSettings|);
    Connect(amps);
    PushSettings(amps, owner, phaseSettings);
  }

  /** One round of the scheduler: each amplifier that has not raised takes its turn, in order. */
  method RunRound(amps: seq<Amplifier>, ghost owner: map<object, nat>, ghost ring: Ring, raised: set<nat>, fuel: nat)
    returns (raised': set<nat>)
    requires Wired(amps, owner) && ring.WellFormed() && ring.raised == raised && Mirrors(amps, ring)
    modifies owner.Keys
    ensures Wired(amps, owner) && Mirrors(amps, Round(ring, 0, fuel)) && raised' == Round(ring, 0, fuel).raised
  {
    raised' := raised;
    ghost var r := ring;
    for k := 0 to |amps|
      invariant Wired(amps, owner)
      invariant r.WellFormed() && r.raised == raised' && Mirrors(amps, r)
      invariant Round(r, k, fuel) == Round(ring, 0, fuel)
    {
      raised', r := Slot(amps, owner, r, raised', k, fuel);
    }
  }

  /** Amplifier `k`'s place in a round: it takes its turn unless it has raised. */
  method Slot(amps: seq<Amplifier>, ghost owner: map<object, nat>, ghost r: Ring, raised: set<nat>, k: nat, fuel: nat)
    returns (raised': set<nat>, ghost r': Ring)
    requires Wired(amps, owner) && r.WellFormed() && r.raised == raised && Mirrors(amps, r) && k < |amps|
    modifies owner.Keys
    ensures Wired(amps, owner) && r'.WellFormed() && r'.raised == raised' && Mirrors(amps, r')
    ensures r' == RunAmplifier(r, k, fuel)
  {
    raised' := raised;
    if k !in raised {
      var stop := Turn(amps, owner, r, k, fuel);
      if stop.Raised? {
        raised' := raised + {k};
      }
    }
    r' := RunAmplifier(r, k, fuel);
  }

  /**
   * `part02Step`: creates and wires the amplifiers, runs their threads (here round-robin,
   * `rounds` rounds of at most `fuel` instructions per turn) and takes the last amplifier's
   * first output.
   */
  method Part02Step(instructions: array<int>, phaseSettings: seq<int>, rounds: nat, fuel: nat) returns (signal: Option<int>)
    requires |phaseSettings| >= 2
    ensures signal == RingSignal(instructions[..], phaseSettings, rounds, fuel)
  {
    var amplifiers, owner := Setup(instructions, phaseSettings);
    ghost var start := StartRing(instructions[..], phaseSettings);
    var raised;
    ghost var ring;
    raised, ring := Rounds(amplifiers, owner, start, rounds, fuel);
    signal := Finish(amplifiers, owner, ring, raised);
  }

  /** After the rounds: the last amplifier's first output once every thread has ended. */
  method Finish(amps: seq<Amplifier>, ghost owner: map<object, nat>, ghost ring: Ring, raised: set<nat>)
    returns (signal: Option<int>)
    requires Wired(amps, owner) && ring.WellFormed() && ring.raised == raised && Mirrors(amps, ring)
    modifies owner.Keys
    ensures signal == if ring.Finished() && ring.queues[0] != [] then Some(ring.queues[0][0]) else None
  {
    var finished := AllFinished(amps, ring, raised);
    signal := None;
    if finished {
      signal := amps[|amps| - 1].GetOutput();
    }
  }

  /** The loop of `part02Step`: `rounds` rounds of the scheduler from the start of the ring. */
  method Rounds(amps: seq<Amplifier>, ghost owner: map<object, nat>, ghost start: Ring, rounds: nat, fuel: nat)
    returns (raised: set<nat>, ghost ring: Ring)
    requires Wired(amps, owner) && start.WellFormed() && start.raised == {} && Mirrors(amps, start)
    modifies owner.Keys
    ensures Wired(amps, owner) && ring.WellFormed() && ring.raised == raised && Mirrors(amps, ring)
    ensures ring == RoundRobin(start, rounds, fuel)
  {
    ring := start;
    raised := {};
    for round := 0 to rounds
      invariant Wired(amps, owner)
      invariant ring.WellFormed() && ring.raised == raised && Mirrors(amps, ring)
      invariant ring == RoundRobin(start, round, fuel)
    {
      raised, ring := Cycle(amps, owner, ring, raised, fuel, start, round, round + 1);
    }
  }

  /** One round of the `part02Step` loop: unless every thread has ended, each one takes a turn. */
  method Cycle(amps: seq<Amplifier>, ghost owner: map<object, nat>, ghost ring: Ring, raised: set<nat>, fuel: nat,
               ghost start: Ring, ghost round: nat, ghost next: nat)
    returns (raised': set<nat>, ghost ring': Ring)
    requires start.WellFormed() && ring == RoundRobin(start, round, fuel) && next == round + 1
    requires Wired(amps, owner) && ring.WellFormed() && ring.raised == raised && Mirrors(amps, ring)
    modifies owner.Keys
    ensures Wired(amps, owner) && ring'.WellFormed() && ring'.raised == raised' && Mirrors(amps, ring')
    ensures ring' == RoundRobin(start, next, fuel)
  {
    var finished := AllFinished(amps, ring, raised);
    raised', ring' := raised, ring;
    if !finished {
      raised' := RunRound(amps, owner, ring, raised, fuel);
      ring' := Round(ring, 0, fuel);
    }
  }

  /** Whether every thread has ended: the loop over the amplifiers that `join` stands for. */
  method AllFinished(amps: seq<Amplifier>, ghost ring: Ring, raised: set<nat>) returns (finished: bool)
    requires Mirrors(amps, ring) && ring.raised == raised
    ensures finished == ring.Finished()
  {
    finished := true;
    for k := 0 to |amps|
      invariant finished == forall j :: 0 <= j < k ==> !amps[j].vm.State().Running() || j in raised
    {
      if !amps[k].vm.halted && !amps[k].vm.failed && k !in raised {
        finished := false;
      }
    }
  }
}

/**
 * The nanofactory (`Day14`): the ore needed for an amount of a chemical, found by asking each
 * reaction for its inputs recursively while a shared stock of leftovers is used up first and
 * refilled with what each reaction over-produces; and the search for the most fuel a fixed
 * amount of ore buys.
 */
module Day14 {
  import opened Wrappers
  import JavaMath

  /** `Element`: an amount of a named chemical. */
  datatype Element = Element(name: string, count: int)

  /** `Reaction`: the inputs one run of a reaction consumes and the output it produces. */
  datatype Reaction = Reaction(inputs: seq<Element>, output: Element)

  /** The reactions by the name of what they produce (`Collectors.toMap`). */
  type Reactions = map<string, Reaction>

  /** The `remaining` map: the leftovers of each chemical. */
  type Stock = map<string, int>

  const ORE: string := "ORE"
  const FUEL: string := "FUEL"

  /** `remaining.getOrDefault(item, 0L)`. */
  function Leftover(stock: Stock, item: string): int
  {
    if item in stock then stock[item] else 0
  }

  /**
   * `(int) Math.ceil(quantity / (float) count)`, as the exact integer ceiling: the least
   * number of runs of a reaction producing `count` each that covers `quantity`.
   */
  function CeilDiv(quantity: int, count: int): (runs: int)
    requires count > 0
    ensures 0 <= runs * count - quantity < count
    ensures quantity <= 0 ==> runs <= 0
    ensures quantity > -count ==> runs >= 0
  {
    -((-quantity) / count)
  }

  /** The position of a chemical in the order in which the recursion reaches the reactions. */
  function Rank(rank: map<string, nat>, item: string): nat
  {
    if item in rank then rank[item] else 0
  }

  /**
   * What `part01` needs of the reactions to return at all: every chemical asked for is ore or
   * has a reaction (`reactions.get(item)` is not null), outputs and inputs are positive amounts,
   * and the inputs of a reaction come before its output in some order, so the recursion ends.
   */
  predicate Ranked(reactions: Reactions, rank: map<string, nat>)
  {
    forall item :: item in reactions ==>
      && item in rank
      && reactions[item].output.count > 0
      && forall input :: input in reactions[item].inputs ==>
        && input.count > 0
        && (input.name == ORE || (input.name in reactions && Rank(rank, input.name) < rank[item]))
  }

  /**
   * `part01` on values: the ore needed for `quantity` of `item` and the leftovers afterwards.
   * Ore is taken as it is; any other chemical first uses its leftover, runs its reaction the
   * least number of times that covers the rest, asks for each input in turn, and stores what
   * the runs over-produce.
   */
  function Cost(reactions: Reactions, rank: map<string, nat>, item: string, quantity: int, stock: Stock): (int, Stock)
    requires Ranked(reactions, rank) && (item == ORE || item in reactions)
    decreases if item == ORE then 0 else Rank(rank, item) + 1, 1, 0
  {
    if item == ORE then (quantity, stock)
    else
      var needed := quantity - Leftover(stock, item);
      var reaction := reactions[item];
      var multiplier := CeilDiv(needed, reaction.output.count);
      var (sum, after) := Costs(reactions, rank, item, multiplier, |reaction.inputs|, stock[item := 0]);
      (sum, after[item := multiplier * reaction.output.count - needed])
  }

  /** The ore for the first n inputs of `item`'s reaction run `multiplier` times, asked for in order. */
  function Costs(reactions: Reactions, rank: map<string, nat>, item: string, multiplier: int, n: nat, stock: Stock): (int, Stock)
    requires Ranked(reactions, rank) && item in reactions && n <= |reactions[item].inputs|
    decreases Rank(rank, item) + 1, 0, n
  {
    if n == 0 then (0, stock)
    else
      var (sum, before) := Costs(reactions, rank, item, multiplier, n - 1, stock);
      var input := reactions[item].inputs[n - 1];
      var (cost, after) := Cost(reactions, rank, input.name, input.count * multiplier, before);
      (sum + cost, after)
  }

  /** The ore `part01` charges for an amount of fuel, starting from no leftovers. */
  function Ore(reactions: Reactions, rank: map<string, nat>, amount: int): int
    requires Ranked(reactions, rank) && FUEL in reactions
  {
    Cost(reactions, rank, FUEL, amount, map[]).0
  }

  // ---------------------------------------------------------------------------------
  // Leftovers

  /** Only chemicals with a reaction are stocked, each with less than one run's output. */
  predicate Stocked(reactions: Reactions, stock: Stock)
  {
    forall item :: item in stock ==> item in reactions && 0 <= stock[item] < reactions[item].output.count
  }

  /** The two stocks hold the same leftover of every chemical other than `item`. */
  ghost predicate SameExcept(stock: Stock, other: Stock, item: string)
  {
    forall name :: name != item ==> Leftover(stock, name) == Leftover(other, name)
  }

  /**
   * The leftovers stay stocked: a request never leaves a negative leftover or a full run's
   * output unused; and no request of a non-negative amount costs negative ore.
   */
  lemma {:induction false} CostStocked(reactions: Reactions, rank: map<string, nat>, item: string, quantity: int, stock: Stock)
    requires Ranked(reactions, rank) && (item == ORE || item in reactions) && Stocked(reactions, stock)
    ensures Stocked(reactions, Cost(reactions, rank, item, quantity, stock).1)
    ensures quantity >= 0 ==> Cost(reactions, rank, item, quantity, stock).0 >= 0
    decreases if item == ORE then 0 else Rank(rank, item) + 1, 1, 0
  {
    if item != ORE {
      var count := reactions[item].output.count;
      var needed := quantity - Leftover(stock, item);
      var multiplier := CeilDiv(needed, count);
      var surplus := multiplier * count - needed;
      var cleared := stock[item := 0];
      assert Stocked(reactions, cleared) by {
        StockedUpdate(reactions, stock, item, 0);
      }
      CostsStocked(reactions, rank, item, multiplier, |reactions[item].inputs|, cleared);
      var p := Costs(reactions, rank, item, multiplier, |reactions[item].inputs|, cleared);
      CostProduct(reactions, rank, item, quantity, stock);
      assert Cost(reactions, rank, item, quantity, stock) == (p.0, p.1[item := surplus]);
      StockedUpdate(reactions, p.1, item, surplus);
      assert quantity >= 0 ==> multiplier >= 0 by {
        assert Leftover(stock, item) < count;
      }
    }
  }

  /** Setting a chemical's leftover to less than one run's output keeps the stock stocked. */
  lemma StockedUpdate(reactions: Reactions, stock: Stock, item: string, leftover: int)
    requires Stocked(reactions, stock) && item in reactions && 0 <= leftover < reactions[item].output.count
    ensures Stocked(reactions, stock[item := leftover])
  {
  }

  lemma {:induction false} CostsStocked(reactions: Reactions, rank: map<string, nat>, item: string, multiplier: int, n: nat, stock: Stock)
    requires Ranked(reactions, rank) && item in reactions && n <= |reactions[item].inputs| && Stocked(reactions, stock)
    ensures Stocked(reactions, Costs(reactions, rank, item, multiplier, n, stock).1)
    ensures multiplier >= 0 ==> Costs(reactions, rank, item, multiplier, n, stock).0 >= 0
    decreases Rank(rank, item) + 1, 0, n
  {
    if n > 0 {
      CostsStocked(reactions, rank, item, multiplier, n - 1, stock);
      var before := Costs(reactions, rank, item, multiplier, n - 1, stock).1;
      var input := reactions[item].inputs[n - 1];
      assert input in reactions[item].inputs;
      CostStocked(reactions, rank, input.name, input.count * multiplier, before);
      CostsNext(reactions, rank, item, multiplier, n, stock);
      if multiplier >= 0 {
        assert input.count * multiplier >= 0;
      }
    }
  }

  /**
   * Leftovers are used first: asking for no more than the leftover of a chemical costs no ore,
   * takes the amount from its leftover, and leaves every other leftover as it was.
   */
  lemma {:induction false} LeftoverFirst(reactions: Reactions, rank: map<string, nat>, item: string, quantity: int, stock: Stock)
    requires Ranked(reactions, rank) && item != ORE && item in reactions && Stocked(reactions, stock)
    requires 0 <= quantity <= Leftover(stock, item)
    ensures Cost(reactions, rank, item, quantity, stock).0 == 0
    ensures Leftover(Cost(reactions, rank, item, quantity, stock).1, item) == Leftover(stock, item) - quantity
    ensures SameExcept(Cost(reactions, rank, item, quantity, stock).1, stock, item)
    decreases Rank(rank, item) + 1, 1, 0
  {
    var count := reactions[item].output.count;
    var needed := quantity - Leftover(stock, item);
    assert CeilDiv(needed, count) == 0 by {
      assert Leftover(stock, item) < count;
    }
    var cleared := stock[item := 0];
    IdleInputs(reactions, rank, item, |reactions[item].inputs|, cleared);
    var p := Costs(reactions, rank, item, 0, |reactions[item].inputs|, cleared);
    var result := p.1[item := Leftover(stock, item) - quantity];
    CostProduct(reactions, rank, item, quantity, stock);
    forall other | other != item
      ensures Leftover(result, other) == Leftover(stock, other)
    {
      assert Leftover(p.1, other) == Leftover(cleared, other);
    }
    assert SameExcept(result, stock, item);
  }

  /** How `part01` answers for a chemical other than ore, spelled out step by step. */
  lemma CostProduct(reactions: Reactions, rank: map<string, nat>, item: string, quantity: int, stock: Stock)
    requires Ranked(reactions, rank) && item != ORE && item in reactions
    ensures
      var count := reactions[item].output.count;
      var needed := quantity - Leftover(stock, item);
      var multiplier := CeilDiv(needed, count);
      var p := Costs(reactions, rank, item, multiplier, |reactions[item].inputs|, stock[item := 0]);
      Cost(reactions, rank, item, quantity, stock) == (p.0, p.1[item := multiplier * count - needed])
  {
  }

  /** Asking for the n-th input after the first n - 1, spelled out. */
  lemma CostsNext(reactions: Reactions, rank: map<string, nat>, item: string, multiplier: int, n: nat, stock: Stock)
    requires Ranked(reactions, rank) && item in reactions && 0 < n <= |reactions[item].inputs|
    ensures
      var input := reactions[item].inputs[n - 1];
      var p := Costs(reactions, rank, item, multiplier, n - 1, stock);
      input in reactions[item].inputs &&
      Costs(reactions, rank, item, multiplier, n, stock) == (p.0 + Cost(reactions, rank, input.name, input.count * multiplier, p.1).0, Cost(reactions, rank, input.name, input.count * multiplier, p.1).1)
  {
  }

  /** Running a reaction zero times asks each input for nothing, which changes no leftover. */
  lemma {:induction false} IdleInputs(reactions: Reactions, rank: map<string, nat>, item: string, n: nat, stock: Stock)
    requires Ranked(reactions, rank) && item in reactions && n <= |reactions[item].inputs| && Stocked(reactions, stock)
    ensures Costs(reactions, rank, item, 0, n, stock).0 == 0
    ensures SameExcept(Costs(reactions, rank, item, 0, n, stock).1, stock, item)
    ensures Stocked(reactions, Costs(reactions, rank, item, 0, n, stock).1)
    decreases Rank(rank, item) + 1, 0, n
  {
    if n > 0 {
      IdleInputs(reactions, rank, item, n - 1, stock);
      var before := Costs(reactions, rank, item, 0, n - 1, stock).1;
      var input := reactions[item].inputs[n - 1];
      assert input in reactions[item].inputs;
      if input.name != ORE {
        assert Leftover(before, input.name) >= 0;
        LeftoverFirst(reactions, rank, input.name, 0, before);
        CostStocked(reactions, rank, input.name, 0, before);
      }
    }
  }

  // ---------------------------------------------------------------------------------
  // The recursion on the shared map

  /** The recursion of `part01` over the shared `remaining` map. */
  class Nanofactory {
    const reactions: Reactions
    ghost const rank: map<string, nat>
    var remaining: Stock

    /** A factory with no leftovers (`new HashMap<>()`). */
    constructor (reactions: Reactions, ghost rank: map<string, nat>)
      ensures this.reactions == reactions && this.rank == rank && remaining == map[]
    {
      this.reactions := reactions;
      this.rank := rank;
      remaining := map[];
    }

    /** `part01`: the ore for `quantity` of `item`, using and refilling the leftovers. */
    method Part01(item: string, quantity: int) returns (ore: int)
      requires Ranked(reactions, rank) && (item == ORE || item in reactions)
      modifies this
      ensures (ore, remaining) == Cost(reactions, rank, item, quantity, old(remaining))
      decreases if item == ORE then 0 else Rank(rank, item) + 1, 1
    {
      if item == ORE {
        return quantity;
      }
      var needed := quantity - Leftover(remaining, item);
      remaining := remaining[item := 0];
      var reaction := reactions[item];
      var multiplier := CeilDiv(needed, reaction.output.count);
      var remainder := multiplier * reaction.output.count - needed;
      var sum := 0;
      ghost var start := remaining;
      var i: nat := 0;
      while i < |reaction.inputs|
        invariant i <= |reaction.inputs|
        invariant (sum, remaining) == Costs(reactions, rank, item, multiplier, i, start)
      {
        var input := reaction.inputs[i];
        assert input in reaction.inputs;
        var cost := Part01(input.name, input.count * multiplier);
        sum := sum + cost;
        i := i + 1;
      }
      remaining := remaining[item := remainder];
      return sum;
    }
  }

  /** `part01(reactions, "FUEL", amount, new HashMap<>())`. */
  method OreFor(reactions: Reactions, ghost rank: map<string, nat>, amount: int) returns (ore: int)
    requires Ranked(reactions, rank) && FUEL in reactions
    ensures ore == Ore(reactions, rank, amount)
  {
    var factory := new Nanofactory(reactions, rank);
    ore := factory.Part01(FUEL, amount);
  }

  /** The ore for a non-negative amount of fuel is never negative. */
  lemma OreNonNegative(reactions: Reactions, rank: map<string, nat>, amount: int)
    requires Ranked(reactions, rank) && FUEL in reactions && amount >= 0
    ensures Ore(reactions, rank, amount) >= 0
  {
    CostStocked(reactions, rank, FUEL, amount, map[]);
  }

  // ---------------------------------------------------------------------------------
  // The search

  /**
   * `part02`: multiply the amount of fuel by ten while ten times as much still costs less than
   * the limit, then add decreasing powers of ten while the sum does. Java loops until then; here
   * at most `fuel` requests are made, and `None` says they were not enough. The amount found is
   * never one past which a single unit more still costs less than the limit, and it costs less
   * than the limit itself unless it is the starting amount 1, which is never checked.
   */
  method Part02(reactions: Reactions, ghost rank: map<string, nat>, limit: int, fuel: nat) returns (result: Option<int>)
    requires Ranked(reactions, rank) && FUEL in reactions
    ensures result.Some? ==> result.value >= 1
    ensures result.Some? ==> result.value == 1 || Ore(reactions, rank, result.value) < limit
    ensures result.Some? ==> Ore(reactions, rank, result.value + 1) >= limit
  {
    var amount := 1;
    var left := fuel;
    ghost var digits: nat := 0;
    while true
      invariant amount == JavaMath.Pow10(digits) && (amount == 1 || Ore(reactions, rank, amount) < limit)
      decreases left
    {
      if left == 0 {
        return None;
      }
      left := left - 1;
      var oreAmount := OreFor(reactions, rank, amount * 10);
      if oreAmount < limit {
        amount := amount * 10;
        digits := digits + 1;
      } else {
        break;
      }
    }
    var increment := amount;
    while increment != 0
      invariant amount >= 1 && (amount == 1 || Ore(reactions, rank, amount) < limit)
      invariant increment == 0 || increment == JavaMath.Pow10(digits)
      invariant increment == 0 ==> Ore(reactions, rank, amount + 1) >= limit
      decreases left
    {
      if left == 0 {
        return None;
      }
      left := left - 1;
      var oreAmount := OreFor(reactions, rank, amount + increment);
      if oreAmount < limit {
        amount := amount + increment;
      } else {
        increment := increment / 10;
        if digits > 0 {
          digits := digits - 1;
        }
      }
    }
    return Some(amount);
  }
}

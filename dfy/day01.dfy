/**
 * The fuel counter (`Day01`): the fuel for a module's mass, the fuel for that fuel and so on
 * while it is positive, and the sum over all modules.
 */
module Day01 {
  import JavaMath

  /** `calculateFuelForMass`: a third of the mass, truncated toward zero, minus 2. */
  function Fuel(mass: int): (f: int)
    ensures mass >= 0 ==> f == mass / 3 - 2
    ensures mass > 0 ==> f < mass
    ensures mass <= 8 ==> f <= 0
  {
    JavaMath.DivRem(mass, 3);
    JavaMath.Div(mass, 3) - 2
  }

  /** The amounts `calculateTotaFuelForMass` adds from a first amount on, while they are positive. */
  function FuelFrom(added: int): (total: nat)
    ensures added <= 0 ==> total == 0
    ensures added > 0 ==> total >= added
    decreases if added > 0 then added else 0
  {
    if added <= 0 then 0 else added + FuelFrom(Fuel(added))
  }

  /** The total fuel for a mass: its fuel, the fuel for that fuel, and so on. */
  function TotalFuel(mass: int): nat
  {
    FuelFrom(Fuel(mass))
  }

  /** `calculateTotaFuelForMass`: the loop adds each amount while it is positive. */
  method CalculateTotalFuel(mass: int) returns (requiredFuel: int)
    ensures requiredFuel == TotalFuel(mass)
  {
    requiredFuel := 0;
    var addedFuel := Fuel(mass);
    while addedFuel > 0
      invariant requiredFuel + FuelFrom(addedFuel) == TotalFuel(mass)
      decreases addedFuel
    {
      requiredFuel := requiredFuel + addedFuel;
      addedFuel := Fuel(addedFuel);
    }
  }

  /**
   * The total fuel is 0 when the first amount is not positive, and otherwise it is the fuel
   * plus the total fuel for that fuel; it is never below the plain fuel.
   */
  lemma TotalFuelRecurrence(mass: int)
    ensures Fuel(mass) <= 0 ==> TotalFuel(mass) == 0
    ensures Fuel(mass) > 0 ==> TotalFuel(mass) == Fuel(mass) + TotalFuel(Fuel(mass))
    ensures TotalFuel(mass) >= Fuel(mass)
  {
  }

  /** Each amount is at most a third of the one before, so the total is at most one and a half times the first. */
  lemma {:induction false} FuelFromBound(added: int)
    ensures 2 * FuelFrom(added) <= 3 * (if added > 0 then added else 0)
    decreases if added > 0 then added else 0
  {
    if added > 0 {
      FuelFromBound(Fuel(added));
    }
  }

  /** The total fuel for a positive mass is at most half the mass. */
  lemma TotalFuelBound(mass: int)
    requires mass > 0
    ensures 2 * TotalFuel(mass) <= mass
  {
    FuelFromBound(Fuel(mass));
  }

  /** `commonPart`: the sum of the mapped masses (the order of the parallel sum does not matter). */
  function SumFuel(masses: seq<int>, total: bool): int
  {
    if masses == [] then 0
    else SumFuel(masses[..|masses| - 1], total) + (if total then TotalFuel(masses[|masses| - 1]) else Fuel(masses[|masses| - 1]))
  }

  /** The sum splits over any division of the modules, so any order of summing gives it. */
  lemma {:induction false} SumFuelSplits(a: seq<int>, b: seq<int>, total: bool)
    ensures SumFuel(a + b, total) == SumFuel(a, total) + SumFuel(b, total)
    decreases |b|
  {
    if b != [] {
      SumFuelSplits(a, b[..|b| - 1], total);
      assert (a + b)[..|a + b| - 1] == a + b[..|b| - 1];
    } else {
      assert a + b == a;
    }
  }

  /** Part 2's answer is at least part 1's, and never negative. */
  lemma {:induction false} TotalAtLeastPlain(masses: seq<int>)
    ensures SumFuel(masses, true) >= SumFuel(masses, false)
    ensures SumFuel(masses, true) >= 0
    decreases |masses|
  {
    if masses != [] {
      TotalAtLeastPlain(masses[..|masses| - 1]);
      TotalFuelRecurrence(masses[|masses| - 1]);
    }
  }

  lemma Examples()
    ensures Fuel(12) == 2 && Fuel(14) == 2 && Fuel(1969) == 654 && Fuel(100756) == 33583
    ensures TotalFuel(14) == 2 && TotalFuel(1969) == 966
    ensures Fuel(-7) == -4
  {
    assert FuelFrom(2) == 2;
    assert FuelFrom(654) == 654 + 216 + 70 + 21 + 5;
  }
}

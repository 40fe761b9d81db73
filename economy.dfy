/** The value-level specification of services.py: the ledger state the resource manager
    keeps, the construction transaction, one production tick, and the two fixed tables
    (the factory's building profiles and the facade's blueprints). The classes in the
    Services module are proved to change their state exactly as these functions say. */
module Economy {

  import opened Wrappers
  import opened Text
  import opened Entities

  /** Resources the ledger creates on construction, each with capacity 100. */
  const DefaultNames: seq<string> :=
    ["wood", "stone", "food", "iron", "energy", "gold", "coal", "sand", "concrete", "people"]

  lemma DefaultNamesDistinct()
    ensures Distinct(DefaultNames)
  {
  }

  /** Capacity of a default resource and of a resource first created by an addition. */
  const DefaultCapacity: int := 100

  /** The resource store (keyed by name) together with the capacity table. */
  datatype Ledger = Ledger(stock: map<string, Resource>, capacity: map<string, int>)

  /** Every stored resource sits under its own name and has a capacity entry. */
  predicate Consistent(l: Ledger) {
    forall n :: n in l.stock ==> l.stock[n].name == n && n in l.capacity
  }

  /** `0 <= amount <= capacity` for every stored resource, and no capacity is negative. */
  predicate Bounded(l: Ledger) {
    && (forall n :: n in l.capacity ==> l.capacity[n] >= 0)
    && (forall n :: n in l.stock ==> n in l.capacity && 0 <= l.stock[n].amount <= l.capacity[n])
  }

  function Min(a: int, b: int): int {
    if a <= b then a else b
  }

  /** `get_amount`: an unknown resource reads as 0. */
  function AmountOf(l: Ledger, name: string): int {
    if name in l.stock then l.stock[name].amount else 0
  }

  /** `get_capacity`: an unknown resource reads as 0. */
  function CapacityOf(l: Ledger, name: string): int {
    if name in l.capacity then l.capacity[name] else 0
  }

  /** `add_resource`: creates an unknown resource at 0 (with capacity 100 unless a capacity
      is already recorded), then sets its amount to the clamped sum. */
  function Add(l: Ledger, name: string, amount: int): (r: Ledger)
    requires Consistent(l)
    ensures Consistent(r)
    ensures r.stock.Keys == l.stock.Keys + {name} && r.capacity.Keys == l.capacity.Keys + {name}
    ensures CapacityOf(r, name) == if name in l.capacity then l.capacity[name] else DefaultCapacity
    ensures AmountOf(r, name) == Min(AmountOf(l, name) + amount, CapacityOf(r, name))
  {
    var created :=
      if name in l.stock then l
      else Ledger(l.stock[name := Resource(name)],
                  if name in l.capacity then l.capacity else l.capacity[name := DefaultCapacity]);
    var res := created.stock[name];
    Ledger(created.stock[name := res.(amount := Min(res.amount + amount, created.capacity[name]))],
           created.capacity)
  }

  /** `consume_resource`: None (nothing changes) for an unknown name or a short stock;
      otherwise exactly `amount` is taken. */
  function Consume(l: Ledger, name: string, amount: int): (r: Option<Ledger>)
    ensures r.None? <==> name !in l.stock || AmountOf(l, name) < amount
    ensures r.Some? ==> && r.value.capacity == l.capacity
                        && r.value.stock.Keys == l.stock.Keys
                        && r.value.stock - {name} == l.stock - {name}
                        && r.value.stock[name].name == l.stock[name].name
                        && AmountOf(r.value, name) == AmountOf(l, name) - amount
  {
    if name !in l.stock || l.stock[name].amount < amount then None
    else
      var res := l.stock[name];
      Some(Ledger(l.stock[name := res.(amount := res.amount - amount)], l.capacity))
  }

  /** `increase_capacity`: adds to the recorded capacity (0 when none); amounts untouched. */
  function IncreaseCapacity(l: Ledger, name: string, amount: int): (r: Ledger)
    ensures r.stock == l.stock
    ensures CapacityOf(r, name) == CapacityOf(l, name) + amount
    ensures r.capacity.Keys == l.capacity.Keys + {name} && r.capacity - {name} == l.capacity - {name}
  {
    Ledger(l.stock, l.capacity[name := CapacityOf(l, name) + amount])
  }

  /** `add_resource` changes no other resource and no other capacity. */
  lemma AddFrame(l: Ledger, name: string, amount: int)
    requires Consistent(l)
    ensures Add(l, name, amount).stock - {name} == l.stock - {name}
    ensures Add(l, name, amount).capacity - {name} == l.capacity - {name}
  {
  }

  lemma AddPreservesBounded(l: Ledger, name: string, amount: int)
    requires Consistent(l) && Bounded(l) && amount >= 0
    ensures Bounded(Add(l, name, amount))
    ensures AmountOf(Add(l, name, amount), name) >= AmountOf(l, name)
  {
  }

  lemma ConsumePreservesBounded(l: Ledger, name: string, amount: int)
    requires Bounded(l) && amount >= 0 && Consume(l, name, amount).Some?
    ensures Bounded(Consume(l, name, amount).value)
  {
  }

  lemma IncreaseCapacityPreservesBounded(l: Ledger, name: string, amount: int)
    requires Bounded(l) && amount >= 0
    ensures Bounded(IncreaseCapacity(l, name, amount))
    ensures CapacityOf(IncreaseCapacity(l, name, amount), name) >= CapacityOf(l, name)
  {
  }

  /** Giving back what a successful consumption took restores the ledger exactly. */
  lemma ConsumeThenAddRestores(l: Ledger, name: string, amount: int)
    requires Consistent(l) && Bounded(l) && Consume(l, name, amount).Some?
    ensures Add(Consume(l, name, amount).value, name, amount) == l
  {
    var res := l.stock[name];
    var after := Add(Consume(l, name, amount).value, name, amount);
    assert after.stock[name] == res;
    assert after.stock == l.stock;
  }

  /** `can_build`: every listed cost is covered, an unknown resource counting as 0. */
  predicate Affordable(l: Ledger, blueprint: Dict) {
    forall i :: 0 <= i < |blueprint| ==> AmountOf(l, blueprint[i].0) >= blueprint[i].1
  }

  /** Where the deduction loop of `build` stopped: the ledger it left and whether every
      consumption succeeded. */
  datatype Deduction = Deduction(ledger: Ledger, ok: bool)

  /** The deduction loop of `build`: consume each cost in blueprint order and stop at the
      first refused consumption, keeping the deductions already made. */
  function Deduct(l: Ledger, blueprint: Dict): (d: Deduction)
    ensures d.ledger.capacity == l.capacity && d.ledger.stock.Keys == l.stock.Keys
    ensures Consistent(l) ==> Consistent(d.ledger)
    decreases |blueprint|
  {
    if blueprint == [] then Deduction(l, true)
    else
      var prev := Deduct(l, blueprint[..|blueprint| - 1]);
      if !prev.ok then prev
      else match Consume(prev.ledger, blueprint[|blueprint| - 1].0, blueprint[|blueprint| - 1].1)
        case None => Deduction(prev.ledger, false)
        case Some(next) => Deduction(next, true)
  }

  /** Each cost is positive or names a stored resource: no cost can pass `can_build` on
      an unrecorded resource. */
  predicate CostsResolvable(l: Ledger, blueprint: Dict) {
    forall i :: 0 <= i < |blueprint| ==> blueprint[i].1 > 0 || blueprint[i].0 in l.stock
  }

  /** When `can_build` holds and no cost names an unrecorded resource with a cost of 0 or
      less, the deduction completes and takes exactly the listed cost of each resource. */
  lemma {:induction false} DeductExact(l: Ledger, blueprint: Dict)
    requires DistinctKeys(blueprint) && Affordable(l, blueprint) && CostsResolvable(l, blueprint)
    ensures Deduct(l, blueprint).ok
    ensures forall n :: AmountOf(Deduct(l, blueprint).ledger, n) == AmountOf(l, n) - Total(blueprint, n)
  {
    if blueprint != [] {
      var init := blueprint[..|blueprint| - 1];
      var (name, cost) := blueprint[|blueprint| - 1];
      assert DistinctKeys(init) && Affordable(l, init) && CostsResolvable(l, init);
      DeductExact(l, init);
      var prev := Deduct(l, init);
      TotalOfAbsent(init, name);
      assert AmountOf(prev.ledger, name) == AmountOf(l, name) >= cost;
      assert name in prev.ledger.stock;
      var next := Consume(prev.ledger, name, cost).value;
      forall n ensures AmountOf(Deduct(l, blueprint).ledger, n) == AmountOf(l, n) - Total(blueprint, n) {
        if n != name {
          assert AmountOf(next, n) == AmountOf(prev.ledger, n);
        }
      }
    }
  }

  /** A blueprint that passes `can_build` and yet stops half way: a zero cost on a resource
      the store does not hold reads as affordable, then its consumption is refused, and the
      wood taken before it stays taken. */
  lemma ZeroCostOnUnknownAbortsMidway()
    ensures var l := Ledger(map["wood" := Resource("wood", 5)], map["wood" := 100]);
            var blueprint := [("wood", 5), ("tools", 0)];
            && Affordable(l, blueprint)
            && !Deduct(l, blueprint).ok
            && AmountOf(Deduct(l, blueprint).ledger, "wood") == 0
  {
    var l := Ledger(map["wood" := Resource("wood", 5)], map["wood" := 100]);
    var blueprint := [("wood", 5), ("tools", 0)];
    assert blueprint[..1] == [("wood", 5)];
    assert blueprint[..1][..0] == blueprint[..0];
  }

  /** Once a prefix of the blueprint has been refused, the rest is never attempted. */
  lemma {:induction false} DeductStopsAtRefusal(l: Ledger, blueprint: Dict, k: nat)
    requires k <= |blueprint| && !Deduct(l, blueprint[..k]).ok
    ensures Deduct(l, blueprint) == Deduct(l, blueprint[..k])
    decreases |blueprint| - k
  {
    if k < |blueprint| {
      var init := blueprint[..|blueprint| - 1];
      assert init[..k] == blueprint[..k];
      DeductStopsAtRefusal(l, init, k);
    } else {
      assert blueprint[..k] == blueprint;
    }
  }

  /** A resource the blueprint does not list is left as it was by the deduction. */
  lemma {:induction false} DeductLeavesUnlisted(l: Ledger, blueprint: Dict, n: string)
    requires forall i :: 0 <= i < |blueprint| ==> blueprint[i].0 != n
    ensures AmountOf(Deduct(l, blueprint).ledger, n) == AmountOf(l, n)
  {
    if blueprint != [] {
      var init := blueprint[..|blueprint| - 1];
      assert forall i :: 0 <= i < |init| ==> init[i] == blueprint[i];
      DeductLeavesUnlisted(l, init, n);
    }
  }

  /** A deduction that completes was affordable: each cost was covered by the amount the
      resource held before the loop, since no other cost touches it. */
  lemma {:induction false} DeductedWasAffordable(l: Ledger, blueprint: Dict)
    requires DistinctKeys(blueprint)
    ensures Deduct(l, blueprint).ok ==> Affordable(l, blueprint)
  {
    if blueprint != [] && Deduct(l, blueprint).ok {
      var init := blueprint[..|blueprint| - 1];
      var (name, cost) := blueprint[|blueprint| - 1];
      assert forall i :: 0 <= i < |init| ==> init[i] == blueprint[i];
      DeductedWasAffordable(l, init);
      DeductLeavesUnlisted(l, init, name);
      var prev := Deduct(l, init);
      assert Consume(prev.ledger, name, cost).Some?;
      assert AmountOf(l, name) >= cost;
    }
  }

  /** A completed deduction of positive costs keeps every amount within bounds. */
  lemma DeductPreservesBounded(l: Ledger, blueprint: Dict)
    requires Bounded(l) && DistinctKeys(blueprint) && Affordable(l, blueprint)
    requires forall i :: 0 <= i < |blueprint| ==> blueprint[i].1 > 0
    ensures Deduct(l, blueprint).ok && Bounded(Deduct(l, blueprint).ledger)
  {
    DeductExact(l, blueprint);
    var d := Deduct(l, blueprint).ledger;
    forall n | n in d.stock ensures 0 <= d.stock[n].amount <= d.capacity[n] {
      if i :| 0 <= i < |blueprint| && blueprint[i].0 == n {
        TotalOfDistinct(blueprint, i);
      } else {
        TotalOfAbsent(blueprint, n);
      }
    }
  }

  /** Names listed in a dict. */
  function KeysOf(d: Dict): set<string> {
    set i | 0 <= i < |d| :: d[i].0
  }

  /** The capacity loop of `build` for a storage building. */
  function ApplyCapacity(l: Ledger, adds: Dict): (r: Ledger)
    ensures r.stock == l.stock
    ensures r.capacity.Keys == l.capacity.Keys + KeysOf(adds)
    ensures forall n :: CapacityOf(r, n) == CapacityOf(l, n) + Total(adds, n)
    decreases |adds|
  {
    if adds == [] then l
    else
      var prev := ApplyCapacity(l, adds[..|adds| - 1]);
      assert KeysOf(adds) == KeysOf(adds[..|adds| - 1]) + {adds[|adds| - 1].0} by {
        assert forall i :: 0 <= i < |adds| - 1 ==> adds[..|adds| - 1][i] == adds[i];
      }
      IncreaseCapacity(prev, adds[|adds| - 1].0, adds[|adds| - 1].1)
  }

  lemma ApplyCapacityPreservesBounded(l: Ledger, adds: Dict)
    requires Bounded(l) && NonNegative(adds)
    ensures Bounded(ApplyCapacity(l, adds))
  {
    var r := ApplyCapacity(l, adds);
    forall n | n in r.capacity ensures r.capacity[n] >= 0 {
      TotalNonNegative(adds, n);
      assert CapacityOf(r, n) == CapacityOf(l, n) + Total(adds, n);
    }
    forall n | n in r.stock ensures n in r.capacity && r.stock[n].amount <= r.capacity[n] {
      TotalNonNegative(adds, n);
      assert CapacityOf(r, n) == CapacityOf(l, n) + Total(adds, n);
    }
  }

  /** What `build` does to the capacity table once the building exists: a storage building
      adds its `adds_capacity`, any other building changes nothing. */
  function ApplyStorage(l: Ledger, b: Building): Ledger {
    if b.Storage? then ApplyCapacity(l, b.addsCapacity) else l
  }

  /** The inner loop of `tick` for one producer: add each produced amount in order. */
  function ProduceOne(l: Ledger, produces: Dict): (r: Ledger)
    requires Consistent(l)
    ensures Consistent(r)
    decreases |produces|
  {
    if produces == [] then l
    else Add(ProduceOne(l, produces[..|produces| - 1]), produces[|produces| - 1].0, produces[|produces| - 1].1)
  }

  /** `tick`: every producer, in repository order, adds its `produces` map. */
  function Produce(l: Ledger, buildings: seq<Building>): (r: Ledger)
    requires Consistent(l)
    ensures Consistent(r)
    decreases |buildings|
  {
    if buildings == [] then l
    else
      var prev := Produce(l, buildings[..|buildings| - 1]);
      var b := buildings[|buildings| - 1];
      if b.Producer? then ProduceOne(prev, b.produces) else prev
  }

  /** Total amount of `name` the producers among `buildings` yield in one tick. */
  function Produced(buildings: seq<Building>, name: string): int {
    if buildings == [] then 0
    else
      var b := buildings[|buildings| - 1];
      Produced(buildings[..|buildings| - 1], name) + (if b.Producer? then Total(b.produces, name) else 0)
  }

  /** Producer outputs and storage contributions are never negative. */
  predicate NonNegativeOutput(b: Building) {
    && (b.Producer? ==> NonNegative(b.produces))
    && (b.Storage? ==> NonNegative(b.addsCapacity))
  }

  /** A producer yields only default resources. */
  predicate KnownOutputs(b: Building) {
    b.Producer? ==> forall i :: 0 <= i < |b.produces| ==> b.produces[i].0 in DefaultNames
  }

  /** Clamping to `c`, then adding a non-negative `y` and clamping again, is the same as
      adding `y` first and clamping once. */
  lemma ClampTwice(x: int, y: int, c: int)
    requires y >= 0
    ensures Min(Min(x, c) + y, c) == Min(x + y, c)
  {
  }

  /** One `add_resource` seen from a stored resource `n`: only an add of `n` itself
      changes it, by one clamped addition; its capacity stays. */
  lemma AddAt(l: Ledger, name: string, amount: int, n: string)
    requires Consistent(l) && n in l.stock
    ensures var r := Add(l, name, amount);
            && n in r.stock && n in r.capacity && r.capacity[n] == l.capacity[n]
            && AmountOf(r, n) == if name == n then Min(AmountOf(l, n) + amount, l.capacity[n]) else AmountOf(l, n)
  {
    var r := Add(l, name, amount);
    AddFrame(l, name, amount);
    if name != n {
      assert n in r.stock - {name} && n in r.capacity - {name};
      assert (r.stock - {name})[n] == (l.stock - {name})[n];
      assert (r.capacity - {name})[n] == (l.capacity - {name})[n];
    }
  }

  /** One more add on top of a clamped sum: the result is the clamped sum with the add
      included when it is for `n`. */
  lemma AddOnClamped(mid: Ledger, name: string, amount: int, n: string, x: int, c: int)
    requires Consistent(mid) && n in mid.stock && n in mid.capacity && mid.capacity[n] == c
    requires AmountOf(mid, n) == Min(x, c) && amount >= 0
    ensures var r := Add(mid, name, amount);
            && n in r.stock && n in r.capacity && r.capacity[n] == c
            && AmountOf(r, n) == Min(x + (if name == n then amount else 0), c)
  {
    AddAt(mid, name, amount, n);
    if name == n {
      ClampTwice(x, amount, c);
    }
  }

  lemma {:induction false} ProduceOneAt(l: Ledger, produces: Dict, n: string)
    requires Consistent(l) && NonNegative(produces) && n in l.stock && l.stock[n].amount <= l.capacity[n]
    ensures var r := ProduceOne(l, produces);
            && n in r.stock && n in r.capacity && r.capacity[n] == l.capacity[n]
            && AmountOf(r, n) == Min(AmountOf(l, n) + Total(produces, n), l.capacity[n])
  {
    if produces != [] {
      var init := produces[..|produces| - 1];
      var (name, amount) := produces[|produces| - 1];
      assert amount >= 0 && NonNegative(init);
      ProduceOneAt(l, init, n);
      AddOnClamped(ProduceOne(l, init), name, amount, n, AmountOf(l, n) + Total(init, n), l.capacity[n]);
    }
  }

  lemma {:induction false} ProduceOneKeepsCapacity(l: Ledger, produces: Dict, n: string)
    requires Consistent(l) && n in l.capacity
    ensures n in ProduceOne(l, produces).capacity && ProduceOne(l, produces).capacity[n] == l.capacity[n]
  {
    if produces != [] {
      ProduceOneKeepsCapacity(l, produces[..|produces| - 1], n);
    }
  }

  lemma {:induction false} ProduceOneBounded(l: Ledger, produces: Dict)
    requires Consistent(l) && Bounded(l) && NonNegative(produces)
    ensures Bounded(ProduceOne(l, produces))
  {
    if produces != [] {
      var init := produces[..|produces| - 1];
      ProduceOneBounded(l, init);
      AddPreservesBounded(ProduceOne(l, init), produces[|produces| - 1].0, produces[|produces| - 1].1);
    }
  }

  lemma {:induction false} ProduceAt(l: Ledger, buildings: seq<Building>, n: string)
    requires Consistent(l) && n in l.stock && l.stock[n].amount <= l.capacity[n]
    requires forall i :: 0 <= i < |buildings| ==> NonNegativeOutput(buildings[i])
    ensures var r := Produce(l, buildings);
            && n in r.stock && n in r.capacity && r.capacity[n] == l.capacity[n]
            && AmountOf(r, n) == Min(AmountOf(l, n) + Produced(buildings, n), l.capacity[n])
  {
    if buildings != [] {
      var init := buildings[..|buildings| - 1];
      var b := buildings[|buildings| - 1];
      ProduceAt(l, init, n);
      if b.Producer? {
        ProduceOneAt(Produce(l, init), b.produces, n);
        TotalNonNegative(b.produces, n);
        ClampTwice(AmountOf(l, n) + Produced(init, n), Total(b.produces, n), l.capacity[n]);
      }
    }
  }

  lemma {:induction false} ProduceKeepsCapacity(l: Ledger, buildings: seq<Building>, n: string)
    requires Consistent(l) && n in l.capacity
    ensures n in Produce(l, buildings).capacity && Produce(l, buildings).capacity[n] == l.capacity[n]
  {
    if buildings != [] {
      var init := buildings[..|buildings| - 1];
      var b := buildings[|buildings| - 1];
      ProduceKeepsCapacity(l, init, n);
      if b.Producer? {
        ProduceOneKeepsCapacity(Produce(l, init), b.produces, n);
      }
    }
  }

  lemma {:induction false} ProduceBounded(l: Ledger, buildings: seq<Building>)
    requires Consistent(l) && Bounded(l)
    requires forall i :: 0 <= i < |buildings| ==> NonNegativeOutput(buildings[i])
    ensures Bounded(Produce(l, buildings))
  {
    if buildings != [] {
      var init := buildings[..|buildings| - 1];
      var b := buildings[|buildings| - 1];
      ProduceBounded(l, init);
      if b.Producer? {
        ProduceOneBounded(Produce(l, init), b.produces);
      }
    }
  }

  /** One tick adds, to every stored resource, the clamped total of what the producers
      yield; it never lowers an amount, keeps every amount within its capacity and leaves
      every recorded capacity as it was. */
  lemma {:induction false} ProduceClamped(l: Ledger, buildings: seq<Building>)
    requires Consistent(l) && Bounded(l)
    requires forall i :: 0 <= i < |buildings| ==> NonNegativeOutput(buildings[i])
    ensures Bounded(Produce(l, buildings))
    ensures forall n :: n in l.capacity ==> n in Produce(l, buildings).capacity && Produce(l, buildings).capacity[n] == l.capacity[n]
    ensures forall n :: n in l.stock ==> AmountOf(Produce(l, buildings), n) == Min(AmountOf(l, n) + Produced(buildings, n), l.capacity[n])
    ensures forall n :: AmountOf(Produce(l, buildings), n) >= AmountOf(l, n)
  {
    var r := Produce(l, buildings);
    ProduceBounded(l, buildings);
    forall n | n in l.capacity ensures n in r.capacity && r.capacity[n] == l.capacity[n] {
      ProduceKeepsCapacity(l, buildings, n);
    }
    forall n | n in l.stock ensures AmountOf(r, n) == Min(AmountOf(l, n) + Produced(buildings, n), l.capacity[n]) {
      ProduceAt(l, buildings, n);
    }
    forall n ensures AmountOf(r, n) >= AmountOf(l, n) {
      if n in l.stock {
        ProducedNonNegative(buildings, n);
        assert AmountOf(r, n) == Min(AmountOf(l, n) + Produced(buildings, n), l.capacity[n]);
      } else {
        assert AmountOf(l, n) == 0;
        assert n in r.stock ==> r.stock[n].amount >= 0;
      }
    }
  }

  lemma {:induction false} ProducedNonNegative(buildings: seq<Building>, n: string)
    requires forall i :: 0 <= i < |buildings| ==> NonNegativeOutput(buildings[i])
    ensures Produced(buildings, n) >= 0
  {
    if buildings != [] {
      ProducedNonNegative(buildings[..|buildings| - 1], n);
      var b := buildings[|buildings| - 1];
      if b.Producer? {
        TotalNonNegative(b.produces, n);
      }
    }
  }

  /** The buildings of a list that are producers, in order. */
  function Producers(buildings: seq<Building>): (ps: seq<Building>)
    ensures forall i :: 0 <= i < |ps| ==> ps[i].Producer?
  {
    if buildings == [] then []
    else
      var b := buildings[|buildings| - 1];
      Producers(buildings[..|buildings| - 1]) + (if b.Producer? then [b] else [])
  }

  /** Plain and storage buildings contribute nothing to a tick. */
  lemma {:induction false} ProduceIgnoresNonProducers(l: Ledger, buildings: seq<Building>)
    requires Consistent(l)
    ensures Produce(l, buildings) == Produce(l, Producers(buildings))
  {
    if buildings != [] {
      var init := buildings[..|buildings| - 1];
      var b := buildings[|buildings| - 1];
      ProduceIgnoresNonProducers(l, init);
      var ps := Producers(buildings);
      if b.Producer? {
        assert ps[..|ps| - 1] == Producers(init);
      } else {
        assert ps == Producers(init);
      }
    }
  }

  /** Kinds the factory knows by name. */
  const KnownKinds: set<string> :=
    {"farm", "lumber_mill", "house", "quarry", "mine", "power_plant", "coal_mine",
     "apartament", "sand_quarry", "concrete_factory", "warehouse", "market"}

  /** `BuildingFactory.create` for a non-blank kind, once the id is drawn. */
  function Profile(kind: string, id: int): (b: Building)
    ensures b.id == id
    ensures b.kind == if kind in KnownKinds then kind else "small_" + kind
    ensures NonNegativeOutput(b) && KnownOutputs(b)
  {
    if kind == "farm" then Producer(id, "farm", [("food", 5)])
    else if kind == "lumber_mill" then Producer(id, "lumber_mill", [("wood", 4)])
    else if kind == "house" then House(id)
    else if kind == "quarry" then Producer(id, "quarry", [("stone", 3)])
    else if kind == "mine" then Producer(id, "mine", [("iron", 2)])
    else if kind == "power_plant" then Producer(id, "power_plant", [("energy", 10)])
    else if kind == "coal_mine" then CoalMine(id)
    else if kind == "apartament" then Apartament(id)
    else if kind == "sand_quarry" then Producer(id, "sand_quarry", [("sand", 5)])
    else if kind == "concrete_factory" then Producer(id, "concrete_factory", [("concrete", 2)])
    else if kind == "warehouse" then
      Storage(id, "warehouse", [("wood", 200), ("stone", 200), ("food", 200), ("iron", 100),
                                ("coal", 100), ("sand", 200), ("concrete", 100)])
    else if kind == "market" then Plain(id, "market")
    else Producer(id, "small_" + kind, [("food", 1)])
  }

  /** An unrecognised kind yields a `small_<kind>` producer of one food per tick. */
  lemma UnknownKindFallback(kind: string, id: int)
    requires kind !in KnownKinds
    ensures Profile(kind, id) == Producer(id, "small_" + kind, [("food", 1)])
  {
  }

  /** The farm and lumber mill the factory builds inline equal the entity profiles. */
  lemma FactoryMatchesEntityProfiles(id: int)
    ensures Profile("farm", id) == Farm(id) && Profile("lumber_mill", id) == LumberMill(id)
    ensures Profile("house", id) == House(id) && Profile("apartament", id) == Apartament(id)
    ensures Profile("coal_mine", id) == CoalMine(id)
  {
  }

  /** The warehouse raises seven capacities; every other known kind is no storage. */
  lemma WarehouseIsOnlyStorage(kind: string, id: int)
    ensures Profile(kind, id).Storage? <==> kind == "warehouse"
    ensures kind == "warehouse" ==>
              KeysOf(Profile(kind, id).addsCapacity) == {"wood", "stone", "food", "iron", "coal", "sand", "concrete"}
  {
    if kind == "warehouse" {
      var d := Profile(kind, id).addsCapacity;
      assert d[0].0 == "wood" && d[1].0 == "stone" && d[2].0 == "food" && d[3].0 == "iron";
      assert d[4].0 == "coal" && d[5].0 == "sand" && d[6].0 == "concrete";
    }
  }

  /** The blueprint table of `GameService.build`, with `{wood: 5, people: 1}` for any
      other kind. Every cost is positive and names a default resource. */
  function Blueprint(kind: string): (bp: Dict)
    ensures DistinctKeys(bp) && |bp| > 0
    ensures forall i :: 0 <= i < |bp| ==> bp[i].1 > 0 && bp[i].0 in DefaultNames
  {
    if kind == "farm" then [("wood", 10), ("stone", 5), ("people", 1)]
    else if kind == "lumber_mill" then [("wood", 5), ("stone", 5), ("people", 1)]
    else if kind == "quarry" then [("wood", 5), ("stone", 10), ("people", 2)]
    else if kind == "mine" then [("wood", 5), ("stone", 10), ("iron", 5), ("people", 3)]
    else if kind == "power_plant" then [("stone", 10), ("iron", 10), ("people", 5)]
    else if kind == "warehouse" then [("wood", 20), ("stone", 20), ("people", 1)]
    else if kind == "market" then [("wood", 10), ("stone", 10), ("people", 2)]
    else if kind == "coal_mine" then [("stone", 10), ("iron", 10), ("people", 3)]
    else if kind == "sand_quarry" then [("stone", 15), ("iron", 5), ("energy", 10), ("people", 2)]
    else if kind == "concrete_factory" then [("stone", 20), ("iron", 15), ("energy", 15), ("people", 3)]
    else if kind == "house" then [("wood", 5), ("stone", 2)]
    else if kind == "apartament" then [("wood", 15), ("stone", 10)]
    else [("wood", 5), ("people", 1)]
  }

  /** For every kind, affordability of its blueprint is exactly success of the deduction,
      which then takes each listed cost once and leaves the ledger within bounds. */
  lemma BlueprintAffordableIffDeducted(l: Ledger, kind: string)
    requires Consistent(l)
    ensures Affordable(l, Blueprint(kind)) <==> Deduct(l, Blueprint(kind)).ok
    ensures Affordable(l, Blueprint(kind)) ==>
              forall n :: AmountOf(Deduct(l, Blueprint(kind)).ledger, n) == AmountOf(l, n) - Total(Blueprint(kind), n)
    ensures Affordable(l, Blueprint(kind)) && Bounded(l) ==> Bounded(Deduct(l, Blueprint(kind)).ledger)
  {
    var bp := Blueprint(kind);
    DeductedWasAffordable(l, bp);
    if Affordable(l, bp) {
      DeductExact(l, bp);
      if Bounded(l) {
        DeductPreservesBounded(l, bp);
      }
    }
  }
}

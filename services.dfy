/** The services of the city builder: the resource ledger, the building factory, the
    construction and production services and the game facade. Each class holds the same
    state as its Python counterpart and each state change is tied to a function of the
    Economy module. */
module Services {

  import opened Wrappers
  import opened Text
  import opened Entities
  import opened Repositories
  import opened Economy

  /** The names of `names` that are neither in `present` nor repeated from earlier in
      `names`, in order of first occurrence: the keys a dict gains when each name is added. */
  function Unrecorded(names: seq<string>, present: set<string>): seq<string> {
    if names == [] then []
    else
      var init := names[..|names| - 1];
      var last := names[|names| - 1];
      Unrecorded(init, present) + (if last in present || last in init then [] else [last])
  }

  /** Distinct names none of which is present are all unrecorded, in their own order. */
  lemma {:induction false} UnrecordedAllNew(names: seq<string>, present: set<string>)
    requires Distinct(names) && forall n :: n in names ==> n !in present
    ensures Unrecorded(names, present) == names
  {
    if names != [] {
      var init := names[..|names| - 1];
      assert forall i :: 0 <= i < |init| ==> init[i] == names[i];
      UnrecordedAllNew(init, present);
      assert names == init + [names[|names| - 1]];
    }
  }

  /** Seeding a store that holds no default name records all ten default names, in their
      listed order. */
  lemma SeedNewOrder(present: set<string>)
    requires forall n :: n in DefaultNames ==> n !in present
    ensures Unrecorded(DefaultNames, present) == DefaultNames
  {
    DefaultNamesDistinct();
    UnrecordedAllNew(DefaultNames, present);
  }

  /** A store with an empty key order holds nothing, so seeding it yields exactly the ten
      default names in their listed order. */
  lemma SeedEmptyOrder(store: map<string, Resource>, order: seq<string>)
    requires forall n :: n in store <==> n in order
    ensures order == [] ==> order + Unrecorded(DefaultNames, store.Keys) == DefaultNames
  {
    if order == [] {
      SeedNewOrder(store.Keys);
    }
  }

  /** The store and key order after the first `k` steps of seeding `names`: each name not
      yet stored is added at amount 0 and appended to the key order. */
  function Seed(store: map<string, Resource>, order: seq<string>, names: seq<string>, k: nat)
    : (map<string, Resource>, seq<string>)
    requires k <= |names|
  {
    if k == 0 then (store, order)
    else
      var (s, o) := Seed(store, order, names, k - 1);
      var name := names[k - 1];
      if name in s then (s, o) else (s[name := Resource(name)], o + [name])
  }

  /** Seeding keeps every stored resource, stores every new name at 0, adds nothing else,
      and appends exactly the unrecorded names to the key order. */
  lemma {:induction false} SeedContents(store: map<string, Resource>, order: seq<string>, names: seq<string>, k: nat)
    requires k <= |names|
    ensures var s := Seed(store, order, names, k).0;
            && (forall n :: n in store ==> n in s && s[n] == store[n])
            && (forall n :: n in names[..k] && n !in store ==> n in s && s[n] == Resource(n))
            && (forall n :: n in s ==> n in store || n in names[..k])
    ensures Seed(store, order, names, k).1 == order + Unrecorded(names[..k], store.Keys)
  {
    if k > 0 {
      SeedContents(store, order, names, k - 1);
      assert names[..k] == names[..k - 1] + [names[k - 1]];
      assert names[..k][..k - 1] == names[..k - 1];
    }
  }

  /** One step of `ResourceManager.__init__`: store `names[i]` at amount 0 unless it is
      already stored. */
  method SeedOne(repo: ResourceRepository, ghost store: map<string, Resource>, ghost order: seq<string>,
                 names: seq<string>, i: nat)
    requires repo.Valid() && i < |names|
    requires (repo.store, repo.order) == Seed(store, order, names, i)
    modifies repo
    ensures repo.Valid()
    ensures (repo.store, repo.order) == Seed(store, order, names, i + 1)
  {
    var existing := repo.Get(names[i]);
    if existing == None {
      repo.Add(Resource(names[i]));
    }
  }

  /** The loop of `ResourceManager.__init__`: each name not yet stored is stored at 0, and
      every name gets capacity 100 in the returned table. */
  method SeedDefaults(repo: ResourceRepository, names: seq<string>) returns (cap: map<string, int>)
    requires repo.Valid()
    modifies repo
    ensures repo.Valid()
    ensures forall n :: n in cap <==> n in names
    ensures forall n :: n in cap ==> cap[n] == DefaultCapacity
    ensures (repo.store, repo.order) == Seed(old(repo.store), old(repo.order), names, |names|)
  {
    ghost var store := repo.store;
    ghost var order := repo.order;
    cap := map[];
    var i := 0;
    while i < |names|
      invariant 0 <= i <= |names|
      invariant repo.Valid()
      invariant forall n :: n in cap <==> n in names[..i]
      invariant forall n :: n in cap ==> cap[n] == DefaultCapacity
      invariant (repo.store, repo.order) == Seed(store, order, names, i)
    {
      SeedOne(repo, store, order, names, i);
      assert names[..i + 1] == names[..i] + [names[i]];
      cap := cap[names[i] := DefaultCapacity];
      i := i + 1;
    }
    assert names[..i] == names;
  }

  /** `ResourceManager`: the resource store plus a capacity table. */
  class ResourceManager {
    const repo: ResourceRepository
    var capacity: map<string, int>

    /** The ledger this manager stands for. */
    ghost function State(): Ledger
      reads this, repo
    {
      Ledger(repo.store, capacity)
    }

    ghost predicate Valid()
      reads this, repo
    {
      repo.Valid() && Consistent(State())
    }

    /** Creates each missing default resource at 0 and gives every default resource
        capacity 100. Resources already in the store keep their amounts; one whose name is
        not a default gets no capacity entry, which leaves the ledger inconsistent. */
    constructor (repo: ResourceRepository)
      requires repo.Valid()
      modifies repo
      ensures this.repo == repo && repo.Valid()
      ensures forall n :: n in capacity <==> n in DefaultNames
      ensures forall n :: n in capacity ==> capacity[n] == DefaultCapacity
      ensures forall n :: n in old(repo.store) ==> n in repo.store && repo.store[n] == old(repo.store[n])
      ensures forall n :: n in DefaultNames && n !in old(repo.store) ==> n in repo.store && repo.store[n] == Resource(n)
      ensures forall n :: n in repo.store ==> n in old(repo.store) || n in DefaultNames
      ensures repo.order == old(repo.order) + Unrecorded(DefaultNames, old(repo.store.Keys))
      ensures old(repo.order) == [] ==> repo.order == DefaultNames
      ensures Valid() <==> forall n :: n in old(repo.store) ==> n in DefaultNames
      ensures (forall n :: n in old(repo.store) ==> n in DefaultNames && 0 <= old(repo.store[n].amount) <= DefaultCapacity)
              ==> Bounded(State())
    {
      var cap := SeedDefaults(repo, DefaultNames);
      SeedContents(old(repo.store), old(repo.order), DefaultNames, |DefaultNames|);
      assert DefaultNames[..|DefaultNames|] == DefaultNames;
      SeedEmptyOrder(old(repo.store), old(repo.order));
      this.repo := repo;
      capacity := cap;
    }

    /** `add_resource`: see Economy.Add. A new name is appended to the store's key order. */
    method AddResource(name: string, amount: int)
      requires Valid()
      modifies this, repo
      ensures Valid()
      ensures State() == Add(old(State()), name, amount)
      ensures repo.order == if name in old(repo.store) then old(repo.order) else old(repo.order) + [name]
    {
      var found := repo.Get(name);
      var res: Resource;
      if found == None {
        res := Resource(name);
        repo.Add(res);
        if name !in capacity {
          capacity := capacity[name := DefaultCapacity];
        }
      } else {
        res := found.value;
      }
      var newAmount := Min(res.amount + amount, capacity[name]);
      repo.Add(res.(amount := newAmount));
    }

    /** `consume_resource`: all or nothing, see Economy.Consume. The capacity table is
        never touched. */
    method ConsumeResource(name: string, amount: int) returns (ok: bool)
      requires Valid()
      modifies repo
      ensures Valid() && repo.order == old(repo.order)
      ensures ok <==> Consume(old(State()), name, amount).Some?
      ensures State() == if ok then Consume(old(State()), name, amount).value else old(State())
    {
      var found := repo.Get(name);
      if found == None {
        return false;
      }
      var res := found.value;
      if res.amount < amount {
        return false;
      }
      repo.Add(res.(amount := res.amount - amount));
      ok := true;
    }

    /** `get_amount`: the stored amount, or 0 for an unknown name. */
    method GetAmount(name: string) returns (amount: int)
      requires Valid()
      ensures amount == AmountOf(State(), name)
      ensures name !in repo.store ==> amount == 0
    {
      var found := repo.Get(name);
      amount := if found.Some? then found.value.amount else 0;
    }

    /** `get_capacity`: the recorded capacity, or 0 for an unknown name. */
    method GetCapacity(name: string) returns (cap: int)
      requires Valid()
      ensures cap == CapacityOf(State(), name)
      ensures name !in capacity ==> cap == 0
    {
      cap := if name in capacity then capacity[name] else 0;
    }

    /** `increase_capacity`: adds to the capacity (from 0 when none is recorded); the
        store is not touched. */
    method IncreaseCapacity(name: string, amount: int)
      requires Valid()
      modifies this
      ensures Valid()
      ensures State() == Economy.IncreaseCapacity(old(State()), name, amount)
    {
      capacity := capacity[name := (if name in capacity then capacity[name] else 0) + amount];
    }
  }

  /** `BuildingFactory`: hands out ids 1, 2, 3, ... and builds a kind's fixed profile. */
  class BuildingFactory {
    var idCounter: nat

    constructor ()
      ensures idCounter == 0
    {
      idCounter := 0;
    }

    method NextId() returns (id: nat)
      modifies this
      ensures idCounter == old(idCounter) + 1 && id == idCounter
    {
      idCounter := idCounter + 1;
      id := idCounter;
    }

    /** `create(kind)`: a blank kind is an error raised before any id is drawn; any other
        kind draws the next id and gets its profile (Economy.Profile). */
    method Create(kind: string) returns (r: Result<Building>)
      modifies this
      ensures IsBlank(kind) ==> r == Err("building kind must be a non-empty string") && idCounter == old(idCounter)
      ensures !IsBlank(kind) ==> idCounter == old(idCounter) + 1 && r == Ok(Profile(kind, idCounter))
    {
      if |kind| == 0 || Strip(kind) == [] {
        return Err("building kind must be a non-empty string");
      }
      var id := NextId();
      return Ok(Profile(kind, id));
    }
  }

  /** `ConstructionService`: checks and applies a blueprint against the ledger. */
  class ConstructionService {
    const rm: ResourceManager
    const buildings: BuildingRepository

    constructor (rm: ResourceManager, buildings: BuildingRepository)
      ensures this.rm == rm && this.buildings == buildings
    {
      this.rm := rm;
      this.buildings := buildings;
    }

    /** `can_build`: reads only. */
    method CanBuild(blueprint: Dict) returns (ok: bool)
      requires rm.Valid()
      ensures ok <==> Affordable(rm.State(), blueprint)
    {
      var i := 0;
      while i < |blueprint|
        invariant 0 <= i <= |blueprint|
        invariant forall k :: 0 <= k < i ==> AmountOf(rm.State(), blueprint[k].0) >= blueprint[k].1
      {
        var have := rm.GetAmount(blueprint[i].0);
        if have < blueprint[i].1 {
          return false;
        }
        i := i + 1;
      }
      return true;
    }

    /** `build(blueprint, lambda: factory.create(kind))`. Unaffordable: nothing changes.
        Affordable: the costs are consumed in blueprint order (Economy.Deduct); if one is
        refused the build stops with the earlier deductions kept. Otherwise the factory
        makes the building, it is appended, and a storage building raises capacities. */
    method Build(blueprint: Dict, factory: BuildingFactory, kind: string) returns (r: Option<Building>)
      requires rm.Valid() && !IsBlank(kind)
      modifies rm, rm.repo, buildings, factory
      ensures rm.Valid() && rm.repo.order == old(rm.repo.order)
      ensures !Affordable(old(rm.State()), blueprint) ==>
                && r == None && rm.State() == old(rm.State())
                && buildings.store == old(buildings.store) && factory.idCounter == old(factory.idCounter)
      ensures Affordable(old(rm.State()), blueprint) && !Deduct(old(rm.State()), blueprint).ok ==>
                && r == None && rm.State() == Deduct(old(rm.State()), blueprint).ledger
                && buildings.store == old(buildings.store) && factory.idCounter == old(factory.idCounter)
      ensures Affordable(old(rm.State()), blueprint) && Deduct(old(rm.State()), blueprint).ok ==>
                var b := Profile(kind, old(factory.idCounter) + 1);
                && r == Some(b) && factory.idCounter == old(factory.idCounter) + 1
                && buildings.store == old(buildings.store) + [b]
                && rm.State() == ApplyStorage(Deduct(old(rm.State()), blueprint).ledger, b)
    {
      var affordable := CanBuild(blueprint);
      if !affordable {
        return None;
      }
      ghost var deducted := Deduct(rm.State(), blueprint).ledger;
      var consumed := ConsumeAll(blueprint);
      if !consumed {
        return None;
      }
      var created := factory.Create(kind);
      var b := created.value;
      buildings.Add(b);
      if b.Storage? {
        RaiseCapacities(b.addsCapacity);
      }
      assert rm.State() == ApplyStorage(deducted, b);
      r := Some(b);
    }

    /** The deduction loop of `build`: consumes each cost in order and stops at the first
        refusal, keeping what was already consumed. */
    method ConsumeAll(blueprint: Dict) returns (ok: bool)
      requires rm.Valid()
      modifies rm.repo
      ensures rm.Valid() && rm.repo.order == old(rm.repo.order)
      ensures ok == Deduct(old(rm.State()), blueprint).ok
      ensures rm.State() == Deduct(old(rm.State()), blueprint).ledger
    {
      ghost var start := rm.State();
      var i := 0;
      while i < |blueprint|
        invariant 0 <= i <= |blueprint|
        invariant rm.Valid() && rm.repo.order == old(rm.repo.order)
        invariant Deduct(start, blueprint[..i]).ok && rm.State() == Deduct(start, blueprint[..i]).ledger
      {
        assert blueprint[..i + 1][..i] == blueprint[..i];
        var consumed := rm.ConsumeResource(blueprint[i].0, blueprint[i].1);
        if !consumed {
          DeductStopsAtRefusal(start, blueprint, i + 1);
          return false;
        }
        i := i + 1;
      }
      assert blueprint[..i] == blueprint;
      ok := true;
    }

    /** The capacity loop of `build` for a storage building. */
    method RaiseCapacities(adds: Dict)
      requires rm.Valid()
      modifies rm
      ensures rm.Valid()
      ensures rm.State() == ApplyCapacity(old(rm.State()), adds)
    {
      ghost var start := rm.State();
      var j := 0;
      while j < |adds|
        invariant 0 <= j <= |adds|
        invariant rm.Valid()
        invariant rm.State() == ApplyCapacity(start, adds[..j])
      {
        assert adds[..j + 1][..j] == adds[..j];
        rm.IncreaseCapacity(adds[j].0, adds[j].1);
        j := j + 1;
      }
      assert adds[..j] == adds;
    }
  }

  /** The key order of a dict after each key of `d` is assigned in turn: a key not yet
      present goes to the end, a present one keeps its place. */
  function WithKeys(order: seq<string>, d: Dict): (r: seq<string>)
    ensures order <= r
    ensures forall i :: 0 <= i < |d| ==> d[i].0 in r
  {
    if d == [] then order
    else
      var o := WithKeys(order, d[..|d| - 1]);
      var name := d[|d| - 1].0;
      if name in o then o else o + [name]
  }

  /** The key order after a tick has assigned the outputs of every producer in `bs`. */
  function WithProducedKeys(order: seq<string>, bs: seq<Building>): (r: seq<string>)
    ensures order <= r
  {
    if bs == [] then order
    else
      var o := WithProducedKeys(order, bs[..|bs| - 1]);
      var b := bs[|bs| - 1];
      if b.Producer? then WithKeys(o, b.produces) else o
  }

  /** Assigning keys that are all present already leaves the key order as it was. */
  lemma {:induction false} WithKeysKnown(order: seq<string>, d: Dict)
    requires forall i :: 0 <= i < |d| ==> d[i].0 in order
    ensures WithKeys(order, d) == order
  {
    if d != [] {
      var init := d[..|d| - 1];
      assert forall i :: 0 <= i < |init| ==> init[i] == d[i];
      WithKeysKnown(order, init);
    }
  }

  /** A tick whose producers yield only default resources leaves a key order that already
      holds every default name as it was. */
  lemma {:induction false} WithProducedKeysKnown(order: seq<string>, bs: seq<Building>)
    requires forall i :: 0 <= i < |bs| ==> KnownOutputs(bs[i])
    requires forall n :: n in DefaultNames ==> n in order
    ensures WithProducedKeys(order, bs) == order
  {
    if bs != [] {
      var init := bs[..|bs| - 1];
      assert forall i :: 0 <= i < |init| ==> init[i] == bs[i];
      WithProducedKeysKnown(order, init);
      var b := bs[|bs| - 1];
      if b.Producer? {
        assert KnownOutputs(b);
        WithKeysKnown(order, b.produces);
      }
    }
  }

  /** `ProductionService`: one tick of production. */
  class ProductionService {
    const buildings: BuildingRepository
    const rm: ResourceManager

    constructor (buildings: BuildingRepository, rm: ResourceManager)
      ensures this.buildings == buildings && this.rm == rm
    {
      this.buildings := buildings;
      this.rm := rm;
    }

    /** `tick`: every producer adds its `produces` map, in repository order (Economy.Produce).
        The building list is only read. */
    method Tick()
      requires rm.Valid()
      modifies rm, rm.repo
      ensures rm.Valid() && rm.repo.order == WithProducedKeys(old(rm.repo.order), buildings.store)
      ensures rm.State() == Produce(old(rm.State()), buildings.store)
    {
      var bs := buildings.All();
      ghost var start := rm.State();
      var i := 0;
      while i < |bs|
        invariant 0 <= i <= |bs|
        invariant rm.Valid() && rm.repo.order == WithProducedKeys(old(rm.repo.order), bs[..i])
        invariant rm.State() == Produce(start, bs[..i])
      {
        assert bs[..i + 1][..i] == bs[..i];
        var b := bs[i];
        if b.Producer? {
          AddAll(b.produces);
        }
        i := i + 1;
      }
      assert bs[..i] == bs;
    }

    /** The inner loop of `tick`: adds each entry of one producer's `produces` map. */
    method AddAll(produces: Dict)
      requires rm.Valid()
      modifies rm, rm.repo
      ensures rm.Valid() && rm.repo.order == WithKeys(old(rm.repo.order), produces)
      ensures rm.State() == ProduceOne(old(rm.State()), produces)
    {
      ghost var start := rm.State();
      var j := 0;
      while j < |produces|
        invariant 0 <= j <= |produces|
        invariant rm.Valid() && rm.repo.order == WithKeys(old(rm.repo.order), produces[..j])
        invariant rm.State() == ProduceOne(start, produces[..j])
      {
        assert produces[..j + 1][..j] == produces[..j];
        rm.AddResource(produces[j].0, produces[j].1);
        j := j + 1;
      }
      assert produces[..j] == produces;
    }
  }

  /** Building ids strictly increase along the list. */
  predicate IdsIncreasing(bs: seq<Building>) {
    forall i, j :: 0 <= i < j < |bs| ==> bs[i].id < bs[j].id
  }

  /** Every id is at most `counter`: all were drawn from a counter that now stands there. */
  predicate DrawnUpTo(bs: seq<Building>, counter: int) {
    forall i :: 0 <= i < |bs| ==> bs[i].id <= counter
  }

  /** No building yields a negative amount, and producers yield only default resources. */
  predicate OutputsSound(bs: seq<Building>) {
    forall i :: 0 <= i < |bs| ==> NonNegativeOutput(bs[i]) && KnownOutputs(bs[i])
  }

  /** Appending a building with the next id keeps the registry ordered by id. */
  lemma AppendNextId(bs: seq<Building>, counter: int, b: Building)
    requires IdsIncreasing(bs) && DrawnUpTo(bs, counter) && OutputsSound(bs)
    requires b.id == counter + 1 && NonNegativeOutput(b) && KnownOutputs(b)
    ensures IdsIncreasing(bs + [b]) && DrawnUpTo(bs + [b], counter + 1) && OutputsSound(bs + [b])
  {
  }

  /** `GameService`: the operations the console calls. */
  class GameService {
    const rm: ResourceManager
    const br: BuildingRepository
    const factory: BuildingFactory
    const constr: ConstructionService
    const prod: ProductionService

    /** The services share one ledger and one building store. */
    ghost predicate Valid()
      reads this, rm, rm.repo
    {
      && constr.rm == rm && constr.buildings == br
      && prod.rm == rm && prod.buildings == br
      && rm.Valid()
    }

    /** The invariants of a running game: amounts within capacity, every default resource
        stored, ids strictly increasing and all drawn from the factory, and every building
        yielding only non-negative amounts of default resources. */
    ghost predicate Sound()
      reads this, rm, rm.repo, br, factory
    {
      && Bounded(rm.State())
      && (forall n :: n in DefaultNames ==> n in rm.repo.store)
      && IdsIncreasing(br.store)
      && DrawnUpTo(br.store, factory.idCounter)
      && OutputsSound(br.store)
    }

    constructor (rm: ResourceManager, br: BuildingRepository, factory: BuildingFactory,
                 constr: ConstructionService, prod: ProductionService)
      requires constr.rm == rm && constr.buildings == br && prod.rm == rm && prod.buildings == br
      requires rm.Valid()
      ensures this.rm == rm && this.br == br && this.factory == factory
      ensures this.constr == constr && this.prod == prod
      ensures Valid()
      ensures Bounded(rm.State()) && br.store == [] && (forall n :: n in DefaultNames ==> n in rm.repo.store)
              ==> Sound()
    {
      this.rm := rm;
      this.br := br;
      this.factory := factory;
      this.constr := constr;
      this.prod := prod;
    }

    /** `list_resources`: name and amount of every stored resource, in store order. */
    method ListResources() returns (listing: Dict)
      requires Valid()
      ensures |listing| == |rm.repo.order| && DistinctKeys(listing)
      ensures forall i :: 0 <= i < |listing| ==>
                listing[i].0 == rm.repo.order[i] && listing[i].1 == AmountOf(rm.State(), listing[i].0)
    {
      var rs := rm.repo.All();
      listing := [];
      var i := 0;
      while i < |rs|
        invariant 0 <= i <= |rs|
        invariant |listing| == i
        invariant forall k :: 0 <= k < i ==> listing[k] == (rs[k].name, rs[k].amount)
      {
        listing := listing + [(rs[i].name, rs[i].amount)];
        i := i + 1;
      }
    }

    /** `list_buildings`: the summary line of every building, in construction order. */
    method ListBuildings() returns (lines: seq<string>)
      ensures |lines| == |br.store|
      ensures forall i :: 0 <= i < |lines| ==> lines[i] == Summary(br.store[i])
    {
      var bs := br.All();
      lines := [];
      var i := 0;
      while i < |bs|
        invariant 0 <= i <= |bs|
        invariant |lines| == i
        invariant forall k :: 0 <= k < i ==> lines[k] == Summary(bs[k])
      {
        var line := Summary(bs[i]);
        lines := lines + [line];
        i := i + 1;
      }
    }

    /** `build(kind)`: a blank kind fails before anything changes; otherwise the kind's
        blueprint (Economy.Blueprint) is applied. Since every blueprint cost is positive, the
        build either changes nothing or deducts each cost exactly once, appends one
        building with the next id and applies its storage capacity. */
    method Build(kind: string) returns (ok: bool, message: string)
      requires Valid()
      modifies rm, rm.repo, br, factory
      ensures Valid() && rm.repo.order == old(rm.repo.order)
      ensures ok <==> !IsBlank(kind) && Affordable(old(rm.State()), Blueprint(kind))
      ensures IsBlank(kind) ==> message == "Cannot build: no building type specified"
      ensures !ok && !IsBlank(kind) ==> message == "Cannot build " + kind + ": insufficient resources"
      ensures !ok ==> && rm.State() == old(rm.State())
                      && br.store == old(br.store) && factory.idCounter == old(factory.idCounter)
      ensures ok ==>
                var b := Profile(kind, old(factory.idCounter) + 1);
                && br.store == old(br.store) + [b] && factory.idCounter == old(factory.idCounter) + 1
                && message == "Built " + Summary(b)
                && rm.State() == ApplyStorage(Deduct(old(rm.State()), Blueprint(kind)).ledger, b)
                && forall n :: AmountOf(rm.State(), n) == AmountOf(old(rm.State()), n) - Total(Blueprint(kind), n)
      ensures old(Sound()) ==> Sound()
    {
      var bp := Blueprint(kind);
      if |kind| == 0 || Strip(kind) == [] {
        return false, "Cannot build: no building type specified";
      }
      ghost var start := rm.State();
      ghost var wasSound := Sound();
      BlueprintAffordableIffDeducted(start, kind);
      var built := constr.Build(bp, factory, kind);
      if built == None {
        return false, "Cannot build " + kind + ": insufficient resources";
      }
      var b := built.value;
      ghost var deducted := Deduct(start, bp).ledger;
      assert ApplyStorage(deducted, b).stock == deducted.stock;
      if wasSound {
        if b.Storage? {
          ApplyCapacityPreservesBounded(deducted, b.addsCapacity);
        }
        AppendNextId(old(br.store), old(factory.idCounter), b);
      }
      return true, "Built " + Summary(b);
    }

    /** `tick`: one production step (Economy.Produce). In a sound game it keeps the game
        sound, leaves the resource order of `list_resources` as it was, lowers no amount and
        changes no recorded capacity. */
    method Tick()
      requires Valid()
      modifies rm, rm.repo
      ensures Valid() && rm.repo.order == WithProducedKeys(old(rm.repo.order), br.store)
      ensures old(Sound()) ==> rm.repo.order == old(rm.repo.order)
      ensures rm.State() == Produce(old(rm.State()), br.store)
      ensures old(Sound()) ==> Sound()
      ensures old(Sound()) ==> forall n :: AmountOf(rm.State(), n) >= AmountOf(old(rm.State()), n)
      ensures old(Sound()) ==> forall n :: n in old(rm.capacity) ==> n in rm.capacity && rm.capacity[n] == old(rm.capacity[n])
    {
      ghost var start := rm.State();
      ghost var wasSound := Sound();
      prod.Tick();
      if wasSound {
        WithProducedKeysKnown(old(rm.repo.order), br.store);
        ProduceClamped(start, br.store);
      }
    }
  }
}

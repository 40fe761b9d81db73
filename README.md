# City builder economy: resource ledger, building factory, construction and production

This project models, in Dafny, the resource-and-construction engine of a console city
builder written in Python: the resource ledger (`ResourceManager`) with its capacity
table, the building factory, the construction service, the production tick, the two
in-memory repositories, and the `GameService` facade operations `build`, `tick`,
`list_resources` and `list_buildings`.

Layout, one module per source file or layer:

- `wrappers.dfy` (`Wrappers`): `Option` and `Result`, for Python's `None` results and the
  factory's `ValueError`.
- `text.dfy` (`Text`): Python whitespace (`str.isspace`), `str.strip`, the blank-kind guard
  `not kind or not kind.strip()`, and decimal formatting of integers as f-strings do it.
- `entities.dfy` (`Entities`): `Resource` and `Building` as datatypes. `Building` has three
  variants: plain, producer and storage. The fixed profiles `Farm`, `LumberMill`, `House`,
  `Apartament` and `CoalMine` are functions. Python dicts are ordered association lists
  (`Dict`). `summary()` is `Summary`. As in the constructors, a resource starts at amount 0
  and a producer at work cost 0 unless other values are given.
- `repositories.dfy` (`Repositories`): `BuildingRepository` is a class over a `seq` that
  only grows at its end. `ResourceRepository` is a class over a `map` plus the dict's key
  order.
- `economy.dfy` (`Economy`): the value-level specification of `services.py`. It holds the
  ledger state (`Ledger`) and the operations `Add`, `Consume` and `IncreaseCapacity`. It
  also holds the construction transaction (`Affordable`, `Deduct`, `ApplyCapacity`), the
  tick (`Produce`), the factory's profile table (`Profile`) and the facade's blueprint
  table (`Blueprint`), with the lemmas about them.
- `services.dfy` (`Services`): the classes `ResourceManager`, `BuildingFactory`,
  `ConstructionService`, `ProductionService` and `GameService`. Where an `Economy`
  function matches a state-changing method, the method is proved to move its state exactly
  as that function says. The exceptions are `BuildingFactory.NextId`, which only increments
  its counter, and the seeding in the `ResourceManager` constructor, whose `SeedOne` and
  `SeedDefaults` steps are tied to the fold `Services.Seed`.

Behaviour worth knowing, all proved:

- The ledger keeps two invariants. `Consistent` says every stored resource sits under its
  own name and has a capacity entry. `Bounded` says `0 <= amount <= capacity` and no
  capacity is negative. Adding, consuming and raising capacity by non-negative amounts
  preserve `Bounded`.
- `can_build` reads an unknown resource as 0, but `consume_resource` refuses an unknown
  name. So a cost of 0 (or less) on an unrecorded resource passes the check and then stops
  the build midway. The deductions made before it stay applied and no building is made.
  `Deduct` models this loop as written, and `ZeroCostOnUnknownAbortsMidway` exhibits it.
  `DeductExact` shows the deduction completes, taking each cost exactly once, whenever no
  such cost is present. Every blueprint of `GameService.build` has only positive costs, so
  through the facade a build either changes nothing or completes.
- One tick adds to every stored resource the clamped total of what the producers yield
  (`ProduceClamped`). In a sound game it lowers no amount and changes no recorded capacity.
  Plain and storage buildings contribute nothing (`ProduceIgnoresNonProducers`).
- Through the facade, building ids strictly increase and are all drawn from the factory's
  counter, and every building produces only default resources (`GameService.Sound`). So in
  a sound game a tick creates no new resource and `list_resources` keeps its order.

The process wiring (container.py:5-7 and container.py:45) imports `ResearchService`,
`TradingService` and `RaidService` from services.py and passes eight arguments to
`GameService`. services.py defines none of those three services, and its `GameService`
takes five arguments. services.py, entities.py and repositories.py implement no upgrades,
research, trade, raids or population upkeep, so none of these is modelled. The model follows services.py: an unknown
building kind falls back to a `small_<kind>` food producer instead of failing, and the
deduction loop is not atomic.

## Model

| member | source | states |
|---|---|---|
| `Text.BlankIffAllSpace` | services.py:64-65 | the guard `not kind or not kind.strip()` holds exactly when every character of the kind is Python whitespace (the empty kind included) |
| `Entities.FixedProfiles` | entities.py:70-94 | House, Apartament, CoalMine, Farm and LumberMill are producers of exactly one resource with work cost 0: people 1, people 3, coal 8, food 5, wood 4 |
| `Entities.Summary` | entities.py:46-47 | the line starts with `#` and ends with the kind, unchanged, in brackets: ` [<kind>]` |
| `Entities.SummaryRoundTrip` | entities.py:46-47 | `#<id> [<kind>]` can be read back to the building's id and kind, so the summary determines both |
| `Repositories.BuildingRepository.constructor` | repositories.py:9-10 | a new building store is empty |
| `Repositories.BuildingRepository.All` | repositories.py:12-13 | returns the stored buildings in insertion order, as a value independent of the store |
| `Repositories.BuildingRepository.Add` | repositories.py:15-16 | appends the item at the end: the store grows by exactly one and the old store is a prefix of the new one |
| `Repositories.ResourceRepository.constructor` | repositories.py:20-21 | a new resource store is empty and valid |
| `Repositories.ResourceRepository.All` | repositories.py:23-24 | returns one resource per stored name, in key order, with pairwise distinct names |
| `Repositories.ResourceRepository.Get` | repositories.py:29-30 | returns the resource stored under the name, or None exactly when the name is absent |
| `Repositories.ResourceRepository.Add` | repositories.py:26-27 | stores the item under its own name, replacing any earlier entry; a new name goes to the end of the key order, and an existing one keeps its place |
| `Economy.DefaultNamesDistinct` | services.py:19 | the ten default resource names are distinct |
| `Economy.Add` | services.py:24-33 | an unknown name is created (capacity 100 unless one is recorded); the amount becomes `min(old + amount, capacity)`; consistency is kept |
| `Economy.AddFrame` | services.py:24-33 | `add_resource` changes no other resource and no other capacity |
| `Economy.Consume` | services.py:35-42 | refuses (no change) exactly when the name is unknown or its amount is below the request; otherwise takes exactly the request and changes nothing else |
| `Economy.IncreaseCapacity` | services.py:51-52 | the capacity becomes the old capacity (0 if none) plus the amount; amounts and other capacities are untouched |
| `Economy.AddPreservesBounded` | services.py:32-33 | adding a non-negative amount keeps `0 <= amount <= capacity` and never lowers the amount |
| `Economy.ConsumePreservesBounded` | services.py:39-41 | a successful consumption of a non-negative amount keeps every amount within bounds |
| `Economy.IncreaseCapacityPreservesBounded` | services.py:51-52 | raising a capacity by a non-negative amount keeps the ledger bounded and never lowers a capacity |
| `Economy.ConsumeThenAddRestores` | services.py:24-42 | adding back what a successful consumption took restores the ledger exactly |
| `Economy.Deduct` | services.py:113-116 | the deduction loop of `build`: capacities and the set of stored names never change, and consistency is kept |
| `Economy.DeductStopsAtRefusal` | services.py:113-116 | once a cost is refused, the rest of the blueprint is never attempted and earlier deductions stay |
| `Economy.DeductExact` | services.py:103-116 | when `can_build` holds and no cost is a non-positive cost on an unrecorded name, the deduction completes and lowers each resource by exactly its listed cost |
| `Economy.ZeroCostOnUnknownAbortsMidway` | services.py:103-116 | a blueprint with a zero cost on an unrecorded resource passes `can_build`, then stops with the earlier wood deduction applied |
| `Economy.DeductLeavesUnlisted` | services.py:113-116 | the deduction loop leaves every resource the blueprint does not list at its old amount |
| `Economy.DeductedWasAffordable` | services.py:103-116 | for a blueprint with distinct keys, a completed deduction implies `can_build` held beforehand |
| `Economy.DeductPreservesBounded` | services.py:103-116 | a completed deduction of positive, affordable costs keeps every amount within bounds |
| `Economy.ApplyCapacity` | services.py:119-121 | each resource's capacity rises by its `adds_capacity` entry; amounts are untouched |
| `Economy.ApplyCapacityPreservesBounded` | services.py:119-121 | non-negative capacity additions keep the ledger bounded |
| `Economy.ProduceOne` | services.py:133-134 | adding one producer's outputs keeps the ledger consistent |
| `Economy.Produce` | services.py:130-134 | a tick keeps the ledger consistent |
| `Economy.ProduceOneAt` | services.py:133-134 | for a stored resource, one producer's adds equal one clamped addition of their sum; its capacity is unchanged |
| `Economy.ProduceOneKeepsCapacity` | services.py:133-134 | one producer's adds leave every recorded capacity unchanged |
| `Economy.ProduceOneBounded` | services.py:133-134 | one producer's non-negative adds keep the ledger bounded |
| `Economy.ProduceAt` | services.py:130-134 | for a stored resource, a tick sets the amount to `min(old + total produced, capacity)` |
| `Economy.ProduceKeepsCapacity` | services.py:130-134 | a tick leaves every recorded capacity unchanged |
| `Economy.ProduceBounded` | services.py:130-134 | a tick with non-negative outputs keeps the ledger bounded |
| `Economy.ProduceClamped` | services.py:130-134 | a tick keeps the ledger bounded, keeps recorded capacities, adds the clamped total to every stored resource, and never lowers any amount |
| `Economy.ProduceIgnoresNonProducers` | services.py:131-132 | a tick over all buildings equals a tick over the producers alone: plain and storage buildings contribute nothing |
| `Economy.Profile` | services.py:63-95 | the created building carries the drawn id; its kind is the requested kind when known, `small_<kind>` otherwise; no output is negative, and every produced resource is one of the ten defaults |
| `Economy.UnknownKindFallback` | services.py:94-95 | an unrecognised kind yields a `small_<kind>` producer of one food with work cost 0 |
| `Economy.FactoryMatchesEntityProfiles` | services.py:66-81 | the farm, lumber mill, house, apartament and coal mine the factory creates equal the fixed entity profiles |
| `Economy.WarehouseIsOnlyStorage` | services.py:86-93 | only the warehouse is a storage building, and it raises the capacities of wood, stone, food, iron, coal, sand and concrete |
| `Economy.Blueprint` | services.py:159-173 | every blueprint, the default `{wood: 5, people: 1}` included, is non-empty with distinct keys and positive costs on default resources |
| `Economy.BlueprintAffordableIffDeducted` | services.py:158-178 | for every kind, the blueprint is affordable if and only if its deduction completes; a completed deduction takes each cost exactly once and keeps a bounded ledger bounded |
| `Services.UnrecordedAllNew` | services.py:19-21 | distinct names none of which is stored are all recorded, in their own order |
| `Services.SeedNewOrder` | services.py:19-21 | seeding a store that holds none of the defaults records all ten default names in their listed order |
| `Services.SeedEmptyOrder` | services.py:19-21 | a valid store with an empty key order is seeded to exactly the ten default names, in order |
| `Services.SeedContents` | services.py:19-22 | seeding keeps every stored resource, stores each missing name at amount 0, adds nothing else, and appends exactly the missing names, in order of first occurrence, to the key order |
| `Services.SeedOne` | services.py:20-21 | one step stores the name at amount 0 unless it is already stored, and keeps the store valid |
| `Services.SeedDefaults` | services.py:19-22 | the store and key order become the seeding fold over the names, and the store stays valid; every name, and only those, gets capacity 100 |
| `Services.ResourceManager.constructor` | services.py:15-22 | capacities are exactly the ten defaults at 100, and missing defaults are added at amount 0; the key order grows by exactly the defaults not yet stored, and a fresh store gets the ten defaults in their listed order; the ledger is consistent exactly when the supplied store held only default names, and bounded when those held amounts between 0 and 100 |
| `Services.ResourceManager.AddResource` | services.py:24-33 | the new ledger is `Economy.Add` of the old one; the ledger stays consistent; a new name is appended to the key order |
| `Services.ResourceManager.ConsumeResource` | services.py:35-42 | returns True exactly when `Economy.Consume` succeeds; the ledger then becomes its result, and otherwise nothing changes |
| `Services.ResourceManager.GetAmount` | services.py:44-46 | the stored amount, or 0 for an unknown name |
| `Services.ResourceManager.GetCapacity` | services.py:48-49 | the recorded capacity, or 0 for an unknown name |
| `Services.ResourceManager.IncreaseCapacity` | services.py:51-52 | the new ledger is `Economy.IncreaseCapacity` of the old one; the store is not touched |
| `Services.BuildingFactory.constructor` | services.py:56-57 | the id counter starts at 0 |
| `Services.BuildingFactory.NextId` | services.py:59-61 | increments the counter and returns its new value |
| `Services.BuildingFactory.Create` | services.py:63-95 | a blank kind is an error and draws no id; any other kind draws the next id and returns that kind's profile |
| `Services.ConstructionService.constructor` | services.py:99-101 | the service uses the given ledger and building store |
| `Services.ConstructionService.CanBuild` | services.py:103-107 | True exactly when every cost is covered by the current amount, an unknown resource counting as 0; reads only |
| `Services.ConstructionService.Build` | services.py:109-122 | unaffordable: None and nothing changes. A refused deduction: None, the partial deduction kept, no building. Otherwise: costs deducted, the next-id building appended, storage capacity applied, the building returned |
| `Services.ConstructionService.ConsumeAll` | services.py:113-116 | consumes the costs in blueprint order and stops at the first refusal, as `Economy.Deduct` says |
| `Services.ConstructionService.RaiseCapacities` | services.py:119-121 | raises each listed capacity, as `Economy.ApplyCapacity` says |
| `Services.ProductionService.constructor` | services.py:126-128 | the service uses the given building store and ledger |
| `Services.WithKeys` | services.py:133-134 | the key order after adding one producer's outputs extends the old order and contains every produced name |
| `Services.WithProducedKeys` | services.py:130-134 | the key order after a tick extends the old order |
| `Services.WithKeysKnown` | services.py:133-134 | when every produced name is already stored, adding the outputs leaves the key order unchanged |
| `Services.WithProducedKeysKnown` | services.py:130-134 | when every producer yields only default names and all defaults are stored, a tick leaves the key order unchanged |
| `Services.ProductionService.Tick` | services.py:130-134 | the new ledger is `Economy.Produce` of the old one over the stored buildings in order; the key order becomes exactly `WithProducedKeys` of the old one; the building list is only read |
| `Services.ProductionService.AddAll` | services.py:133-134 | adds each entry of one producer's `produces` map in order, as `Economy.ProduceOne` says; the key order becomes exactly `WithKeys` of the old one |
| `Services.AppendNextId` | services.py:59-61 | appending a building whose id is the next counter value keeps the ids strictly increasing and drawn from the counter, and every output non-negative and a default resource |
| `Services.GameService.constructor` | services.py:138-150 | the facade holds the given services; with an empty building store, a bounded ledger and all ten defaults stored, the game starts sound |
| `Services.GameService.ListResources` | services.py:152-153 | one entry per stored resource, in store order, with distinct names and each resource's current amount |
| `Services.GameService.ListBuildings` | services.py:155-156 | the summary line of every building, in construction order |
| `Services.GameService.Build` | services.py:158-179 | succeeds exactly when the kind is not blank and its blueprint (default `{wood: 5, people: 1}`) is affordable. On failure nothing changes and the message says why. On success each cost is deducted once, one building with the next id is appended, its storage capacity is applied, and the game stays sound |
| `Services.GameService.Tick` | services.py:181-183 | one production step; the key order becomes exactly `WithProducedKeys` of the old one. In a sound game the key order is unchanged, the game stays sound, no amount is lowered and no recorded capacity changes |

## Left out

- ui.py (console menu, `print`/`input`, the seed shortcut), main.py and container.py
  (process wiring and a name-based service locator) are not part of this model. The
  locator also names research, trading and raid services that services.py does not
  define. interfaces.py holds abstract signatures only.
- `__repr__` of `Resource` is not modelled; message texts are modelled only where
  `GameService.build` returns them.
- Resource objects are shared between the repository and the ledger, and the ledger changes
  `res.amount` in place. The model stores `Resource` values and replaces the entry under the
  same name, which keeps its place in the key order. Aliasing itself is not modelled.
- Services.ConstructionService.Build: the `build_fn` callback is fixed to
  `factory.create(kind)`, the only callback the source passes. The method requires a
  non-blank kind, so the `ValueError` that `create` would raise after the deductions is not
  modelled.
- Services.ResourceManager.AddResource: requires a consistent ledger. In an inconsistent
  one, where a stored resource has no capacity entry, Python would raise `KeyError`, and
  that is not modelled.
- Services.GameService.constructor: requires the construction and production services to
  share the facade's ledger and building store, as the process wiring builds them.
- Services.GameService.ListResources: returns an ordered list of name and amount pairs
  rather than a dict object. The key order is the same.

/** The building registry: one optional instance per building type, a fixed
    catalog, construction and upgrades paid through the ledger, passive
    production per tick and the population and storage bonuses. */
module Buildings {
  import opened Wrappers
  import opened Resources

  datatype BuildingType =
    | WoodCamp | StoneMine | WaterWell | IronMine
    | Farm | Workshop
    | Tent | House
    | Storage | Lab

  /** Every type, in the catalog's order (the order production runs in). */
  const AllTypes: seq<BuildingType> :=
    [WoodCamp, StoneMine, WaterWell, IronMine, Farm, Workshop, Tent, House, Storage, Lab]

  /** Passive production: `amount` of `resource` per `interval` seconds per level. */
  datatype Production = Production(resource: ResourceKind, amount: real, interval: Positive)

  /** `production_boost` is declared but no logic reads it. */
  datatype EffectKind = StorageEffect | PopulationEffect | ProductionBoost

  datatype Effect = Effect(kind: EffectKind, value: real)

  /** A catalog entry: everything about a type except its level. */
  datatype Blueprint = Blueprint(
    maxLevel: int,
    buildCost: Bundle,
    production: Option<Production>,
    effect: Option<Effect>)

  /** A built instance: a copy of its blueprint plus a level; `buildCost` is
      rewritten on every upgrade. */
  datatype Building = Building(
    id: BuildingType,
    level: int,
    maxLevel: int,
    buildCost: Bundle,
    production: Option<Production>,
    effect: Option<Effect>)

  /** `BUILDING_CONFIGS`. */
  function Catalog(t: BuildingType): Blueprint {
    match t
    case WoodCamp => Blueprint(10, map[Wood := 10.0, Stone := 5.0], Some(Production(Wood, 1.0, 3.0)), None)
    case StoneMine => Blueprint(10, map[Wood := 15.0, Stone := 0.0], Some(Production(Stone, 1.0, 5.0)), None)
    case WaterWell => Blueprint(5, map[Wood := 20.0, Stone := 10.0], Some(Production(Water, 2.0, 10.0)), None)
    case IronMine =>
      Blueprint(10, map[Wood := 50.0, Stone := 50.0, Iron := 0.0], Some(Production(Iron, 1.0, 15.0)), None)
    case Farm => Blueprint(10, map[Wood := 30.0, Stone := 20.0], Some(Production(Food, 3.0, 10.0)), None)
    case Workshop => Blueprint(5, map[Wood := 50.0, Stone := 30.0], None, None)
    case Tent => Blueprint(5, map[Wood := 20.0, Stone := 0.0], None, Some(Effect(PopulationEffect, 2.0)))
    case House => Blueprint(10, map[Wood := 100.0, Stone := 50.0], None, Some(Effect(PopulationEffect, 5.0)))
    case Storage => Blueprint(10, map[Wood := 50.0, Stone := 50.0], None, Some(Effect(StorageEffect, 100.0)))
    case Lab => Blueprint(1, map[Wood := 200.0, Stone := 100.0, Iron := 50.0], None, None)
  }

  /** Every catalog entry allows at least one level, costs some wood and
      nothing negative, and either produces a resource or carries a storage
      or population effect or neither, never both; amounts are positive. */
  lemma CatalogFacts(t: BuildingType)
    ensures Catalog(t).maxLevel >= 1
    ensures Wood in Catalog(t).buildCost && Catalog(t).buildCost[Wood] > 0.0
    ensures forall k :: k in Catalog(t).buildCost ==> Catalog(t).buildCost[k] >= 0.0
    ensures Catalog(t).production.Some? ==> Catalog(t).effect.None? && Catalog(t).production.value.amount > 0.0
    ensures Catalog(t).effect.Some? ==>
              Catalog(t).effect.value.kind != ProductionBoost && Catalog(t).effect.value.value > 0.0
  {
  }

  /** The cost stored on an instance after an upgrade to `newLevel`: each line
      of the catalog cost times `newLevel + 1` times 1.5, rounded down. */
  function UpgradeCost(t: BuildingType, newLevel: int): Bundle {
    var base := Catalog(t).buildCost;
    map k | k in base :: CostLine(base[k], newLevel)
  }

  /** One line of an upgraded cost: `floor(base * (newLevel + 1) * 1.5)`. */
  function CostLine(base: real, newLevel: int): real {
    ((base * ((newLevel + 1) as real) * 1.5).Floor) as real
  }

  /** The cost an instance of level `level` carries. */
  function StoredCost(t: BuildingType, level: int): Bundle {
    if level == 1 then Catalog(t).buildCost else UpgradeCost(t, level)
  }

  /** A freshly constructed instance: level 1 and a copy of the catalog cost. */
  function Constructed(t: BuildingType): Building {
    var c := Catalog(t);
    Building(t, 1, c.maxLevel, c.buildCost, c.production, c.effect)
  }

  /** The instance after `existing.level++` and the cost rewrite. */
  function Upgraded(t: BuildingType, b: Building): Building {
    b.(level := b.level + 1, buildCost := UpgradeCost(t, b.level + 1))
  }

  /** The slot of type `t` holds a copy of `t`'s blueprint at a level between
      1 and the maximum, carrying the cost its level implies. */
  ghost predicate Conforms(t: BuildingType, b: Building) {
    var c := Catalog(t);
    && b.id == t && b.maxLevel == c.maxLevel && b.production == c.production && b.effect == c.effect
    && 1 <= b.level <= b.maxLevel
    && b.buildCost == StoredCost(t, b.level)
  }

  ghost predicate AllConform(bs: map<BuildingType, Building>) {
    forall t :: t in bs ==> Conforms(t, bs[t])
  }

  /** `canBuild`: false at the maximum level; otherwise whether the ledger
      covers the CATALOG cost (not the instance's stored cost). */
  predicate Buildable(bs: map<BuildingType, Building>, res: Bundle, t: BuildingType) {
    && !(t in bs && bs[t].level >= bs[t].maxLevel)
    && Affords(res, Catalog(t).buildCost)
  }

  /** What the upgrade of `b` does: one level up, the stored cost recomputed
      from the catalog as a function of the new level only (never from the
      previous stored cost), and the level still within the maximum. */
  lemma UpgradeEffect(t: BuildingType, b: Building)
    requires Conforms(t, b) && b.level < b.maxLevel
    ensures Conforms(t, Upgraded(t, b))
    ensures Upgraded(t, b).level == b.level + 1
    ensures forall k :: k in Catalog(t).buildCost <==> k in Upgraded(t, b).buildCost
    ensures forall k :: k in Catalog(t).buildCost ==>
              Upgraded(t, b).buildCost[k] == CostLine(Catalog(t).buildCost[k], b.level + 1)
  {
  }

  /** The stored cost and the charged cost part ways on the first upgrade: a
      level-1 wood camp is upgraded for its catalog cost of 10 wood and 5
      stone, and then carries a cost of 45 wood and 22 stone, which no later
      build charges. */
  lemma StoredCostNotCharged()
    ensures Catalog(WoodCamp).buildCost == map[Wood := 10.0, Stone := 5.0]
    ensures Upgraded(WoodCamp, Constructed(WoodCamp)).buildCost == map[Wood := 45.0, Stone := 22.0]
  {
    var u := UpgradeCost(WoodCamp, 2);
    assert (10.0 * 3.0 * 1.5).Floor == 45;
    assert (5.0 * 3.0 * 1.5).Floor == 22;
    assert u.Keys == {Wood, Stone};
  }

  // ---------------------------------------------------------------------
  // Population and storage bonuses

  /** The value `b` contributes to bonuses of kind `kind`. */
  function EffectValue(b: Building, kind: EffectKind): real {
    if b.effect.Some? && b.effect.value.kind == kind then b.effect.value.value else 0.0
  }

  /** The sum of `kind` effects over the built instances of `types`. */
  function BonusOver(bs: map<BuildingType, Building>, kind: EffectKind, types: seq<BuildingType>): real {
    if types == [] then 0.0
    else
      var t := types[|types| - 1];
      BonusOver(bs, kind, types[..|types| - 1]) + (if t in bs then EffectValue(bs[t], kind) else 0.0)
  }

  /** `totalPopulationBonus`. */
  function PopulationBonus(bs: map<BuildingType, Building>): real {
    BonusOver(bs, PopulationEffect, AllTypes)
  }

  /** `totalStorageBonus`. */
  function StorageBonus(bs: map<BuildingType, Building>): real {
    BonusOver(bs, StorageEffect, AllTypes)
  }

  /** Bonuses depend on which types are built and on their effects only, so
      in particular not on levels. */
  lemma {:induction false} BonusCongruent(bs1: map<BuildingType, Building>, bs2: map<BuildingType, Building>,
                                          kind: EffectKind, types: seq<BuildingType>)
    requires bs1.Keys == bs2.Keys
    requires forall t :: t in bs1 ==> bs1[t].effect == bs2[t].effect
    ensures BonusOver(bs1, kind, types) == BonusOver(bs2, kind, types)
  {
    if types != [] {
      BonusCongruent(bs1, bs2, kind, types[..|types| - 1]);
    }
  }

  /** Constructing `t` raises the bonus over a list holding `t` once by
      exactly the new instance's effect value. */
  lemma {:induction false} BonusInsert(bs: map<BuildingType, Building>, t: BuildingType, b: Building,
                                       kind: EffectKind, types: seq<BuildingType>)
    requires t !in bs
    requires forall i, j :: 0 <= i < j < |types| ==> types[i] != types[j]
    ensures BonusOver(bs[t := b], kind, types)
            == BonusOver(bs, kind, types) + (if t in types then EffectValue(b, kind) else 0.0)
  {
    if types != [] {
      var prefix := types[..|types| - 1];
      BonusInsert(bs, t, b, kind, prefix);
      assert t in types <==> t in prefix || t == types[|types| - 1];
      assert t == types[|types| - 1] ==> t !in prefix;
    }
  }

  /** The position of each type in `AllTypes`. */
  function TypeIndex(t: BuildingType): (i: nat)
    ensures i < |AllTypes| && AllTypes[i] == t
  {
    match t
    case WoodCamp => 0 case StoneMine => 1 case WaterWell => 2 case IronMine => 3 case Farm => 4
    case Workshop => 5 case Tent => 6 case House => 7 case Storage => 8 case Lab => 9
  }

  lemma AllTypesDistinct()
    ensures forall i, j :: 0 <= i < j < |AllTypes| ==> AllTypes[i] != AllTypes[j]
  {
    forall i | 0 <= i < |AllTypes| ensures TypeIndex(AllTypes[i]) == i {
    }
  }

  /** Instances whose effects are not of kind `kind` add nothing. */
  lemma {:induction false} BonusZero(bs: map<BuildingType, Building>, kind: EffectKind, types: seq<BuildingType>)
    requires forall t :: t in bs ==> EffectValue(bs[t], kind) == 0.0
    ensures BonusOver(bs, kind, types) == 0.0
  {
    if types != [] {
      BonusZero(bs, kind, types[..|types| - 1]);
    }
  }

  /** With conforming instances, the population bonus is 2 for a tent plus 5
      for a house and the storage bonus 100 for a storehouse, whatever their
      levels. */
  lemma BonusClosedForm(bs: map<BuildingType, Building>)
    requires AllConform(bs)
    ensures PopulationBonus(bs) == (if Tent in bs then 2.0 else 0.0) + (if House in bs then 5.0 else 0.0)
    ensures StorageBonus(bs) == if Storage in bs then 100.0 else 0.0
  {
    forall t | t in bs ensures bs[t].effect == Catalog(t).effect {
      assert Conforms(t, bs[t]);
    }
    AllTypesDistinct();
    PopulationClosedForm(bs);
    StorageClosedForm(bs);
  }

  lemma PopulationClosedForm(bs: map<BuildingType, Building>)
    requires forall t :: t in bs ==> bs[t].effect == Catalog(t).effect
    requires forall i, j :: 0 <= i < j < |AllTypes| ==> AllTypes[i] != AllTypes[j]
    ensures PopulationBonus(bs) == (if Tent in bs then 2.0 else 0.0) + (if House in bs then 5.0 else 0.0)
  {
    var noPop := bs - {Tent, House};
    forall t | t in noPop ensures EffectValue(noPop[t], PopulationEffect) == 0.0 {
      assert t != Tent && t != House;
    }
    BonusZero(noPop, PopulationEffect, AllTypes);
    var withTent := if Tent in bs then noPop[Tent := bs[Tent]] else noPop;
    assert BonusOver(withTent, PopulationEffect, AllTypes) == if Tent in bs then 2.0 else 0.0 by {
      if Tent in bs {
        BonusInsert(noPop, Tent, bs[Tent], PopulationEffect, AllTypes);
        assert AllTypes[6] == Tent;
      }
    }
    if House in bs {
      BonusInsert(withTent, House, bs[House], PopulationEffect, AllTypes);
      assert AllTypes[7] == House;
      assert withTent[House := bs[House]] == bs;
    } else {
      assert withTent == bs;
    }
  }

  lemma StorageClosedForm(bs: map<BuildingType, Building>)
    requires forall t :: t in bs ==> bs[t].effect == Catalog(t).effect
    requires forall i, j :: 0 <= i < j < |AllTypes| ==> AllTypes[i] != AllTypes[j]
    ensures StorageBonus(bs) == if Storage in bs then 100.0 else 0.0
  {
    var noStore := bs - {Storage};
    forall t | t in noStore ensures EffectValue(noStore[t], StorageEffect) == 0.0 {
      assert t != Storage;
    }
    BonusZero(noStore, StorageEffect, AllTypes);
    if Storage in bs {
      BonusInsert(noStore, Storage, bs[Storage], StorageEffect, AllTypes);
      assert AllTypes[8] == Storage;
      assert noStore[Storage := bs[Storage]] == bs;
    } else {
      assert noStore == bs;
    }
  }

  /** Constructing an absent type keeps every slot conforming and raises the
      storage bonus by the new instance's storage effect. */
  lemma ConstructKeepsInvariants(bs: map<BuildingType, Building>, t: BuildingType)
    requires AllConform(bs) && t !in bs
    ensures AllConform(bs[t := Constructed(t)])
    ensures StorageBonus(bs[t := Constructed(t)]) == StorageBonus(bs) + EffectValue(Constructed(t), StorageEffect)
  {
    AllTypesDistinct();
    BonusInsert(bs, t, Constructed(t), StorageEffect, AllTypes);
    assert t in AllTypes by { assert AllTypes[TypeIndex(t)] == t; }
  }

  /** Upgrading a type below its maximum keeps every slot conforming and
      leaves the storage bonus as it was. */
  lemma UpgradeKeepsInvariants(bs: map<BuildingType, Building>, t: BuildingType)
    requires AllConform(bs) && t in bs && bs[t].level < bs[t].maxLevel
    ensures AllConform(bs[t := Upgraded(t, bs[t])])
    ensures StorageBonus(bs[t := Upgraded(t, bs[t])]) == StorageBonus(bs)
  {
    UpgradeEffect(t, bs[t]);
    BonusCongruent(bs, bs[t := Upgraded(t, bs[t])], StorageEffect, AllTypes);
  }

  // ---------------------------------------------------------------------
  // Production

  /** `(amount * deltaTime * level) / interval` for an instance that produces. */
  function Rate(p: Production, level: int, dt: real): real {
    p.amount * dt * (level as real) / p.interval
  }

  /** One instance's share of a tick: credit its production, if any. */
  function Yield(res: Bundle, cap: real, bs: map<BuildingType, Building>, dt: real, t: BuildingType): Bundle {
    if t in bs && bs[t].production.Some? then
      var p := bs[t].production.value;
      Credit(res, cap, p.resource, Rate(p, bs[t].level, dt))
    else res
  }

  /** A tick over the instances of `types`, in order. */
  function Produce(res: Bundle, cap: real, bs: map<BuildingType, Building>, dt: real,
                   types: seq<BuildingType>): Bundle
  {
    if types == [] then res
    else Yield(Produce(res, cap, bs, dt, types[..|types| - 1]), cap, bs, dt, types[|types| - 1])
  }

  /** The kind a type produces, if it produces. */
  function Produces(t: BuildingType): Option<ResourceKind> {
    match Catalog(t).production
    case None => None
    case Some(p) => Some(p.resource)
  }

  /** The only producer of each kind (crystal has none). */
  function Producer(k: ResourceKind): Option<BuildingType> {
    match k
    case Wood => Some(WoodCamp)
    case Stone => Some(StoneMine)
    case Water => Some(WaterWell)
    case Iron => Some(IronMine)
    case Food => Some(Farm)
    case Crystal => None
  }

  lemma ProducerIsUnique(t: BuildingType, k: ResourceKind)
    ensures Produces(t) == Some(k) <==> Producer(k) == Some(t)
  {
  }

  /** The built instance of `t` produces kind `k`. */
  predicate ProducesIn(bs: map<BuildingType, Building>, t: BuildingType, k: ResourceKind) {
    t in bs && bs[t].production.Some? && bs[t].production.value.resource == k
  }

  /** Instances that do not produce `k` leave `k`'s balance alone. */
  lemma {:induction false} ProduceUntouched(res: Bundle, cap: real, bs: map<BuildingType, Building>, dt: real,
                                            types: seq<BuildingType>, k: ResourceKind)
    requires forall i :: 0 <= i < |types| ==> !ProducesIn(bs, types[i], k)
    ensures Amount(Produce(res, cap, bs, dt, types), k) == Amount(res, k)
  {
    if types != [] {
      ProduceUntouched(res, cap, bs, dt, types[..|types| - 1], k);
    }
  }

  /** When exactly one instance of `types` produces `k`, a tick credits `k`
      with exactly that instance's rate. */
  lemma {:induction false} ProduceSingle(res: Bundle, cap: real, bs: map<BuildingType, Building>, dt: real,
                                         types: seq<BuildingType>, j: nat, k: ResourceKind)
    requires j < |types| && ProducesIn(bs, types[j], k)
    requires forall i :: 0 <= i < |types| && i != j ==> !ProducesIn(bs, types[i], k)
    ensures Amount(Produce(res, cap, bs, dt, types), k)
            == Max(0.0, Min(Amount(res, k) + Rate(bs[types[j]].production.value, bs[types[j]].level, dt), cap))
  {
    var prefix := types[..|types| - 1];
    if j == |types| - 1 {
      ProduceUntouched(res, cap, bs, dt, prefix, k);
    } else {
      ProduceSingle(res, cap, bs, dt, prefix, j, k);
    }
  }

  /** `updateProduction(dt)` credits each kind exactly
      `amount * dt * level / interval` from its producer when that is built
      (clamped as `addResource` clamps), and leaves it alone otherwise. */
  lemma ProductionPerKind(res: Bundle, cap: real, bs: map<BuildingType, Building>, dt: real, k: ResourceKind)
    requires AllConform(bs)
    ensures Amount(Produce(res, cap, bs, dt, AllTypes), k)
            == match Producer(k)
               case Some(t) =>
                 if t in bs
                 then Max(0.0, Min(Amount(res, k) + Rate(Catalog(t).production.value, bs[t].level, dt), cap))
                 else Amount(res, k)
               case None => Amount(res, k)
  {
    forall t | true ensures ProducesIn(bs, t, k) <==> t in bs && Producer(k) == Some(t) {
      if t in bs {
        assert Conforms(t, bs[t]);
        ProducerIsUnique(t, k);
      }
    }
    AllTypesDistinct();
    match Producer(k)
    case None =>
      ProduceUntouched(res, cap, bs, dt, AllTypes, k);
    case Some(t) =>
      if t in bs {
        assert Conforms(t, bs[t]);
        ProduceSingle(res, cap, bs, dt, AllTypes, TypeIndex(t), k);
      } else {
        ProduceUntouched(res, cap, bs, dt, AllTypes, k);
      }
  }

  /** The scenario of a level-1 wood camp: a 3-second tick credits exactly
      one wood before the cap applies. */
  lemma WoodCampTick(res: Bundle, cap: real, bs: map<BuildingType, Building>)
    requires AllConform(bs) && WoodCamp in bs && bs[WoodCamp].level == 1
    ensures Rate(Catalog(WoodCamp).production.value, 1, 3.0) == 1.0
    ensures Amount(Produce(res, cap, bs, 3.0, AllTypes), Wood) == Max(0.0, Min(Amount(res, Wood) + 1.0, cap))
  {
    ProductionPerKind(res, cap, bs, 3.0, Wood);
  }

  // ---------------------------------------------------------------------
  // The store

  /** The building store; it pays costs, raises the cap and credits
      production through the ledger it holds. */
  class BuildingRegistry {
    const ledger: Ledger
    var buildings: map<BuildingType, Building>

    ghost predicate Valid()
      reads this, ledger
    {
      ledger.Valid() && AllConform(buildings)
    }

    constructor (ledger: Ledger)
      requires ledger.Valid()
      ensures Valid()
      ensures this.ledger == ledger && buildings == map[]
    {
      this.ledger := ledger;
      buildings := map[];
    }

    /** `getBuilding`. */
    function GetBuilding(t: BuildingType): (r: Option<Building>)
      reads this
      ensures r.Some? <==> t in buildings
      ensures r.Some? ==> r.value == buildings[t]
    {
      if t in buildings then Some(buildings[t]) else None
    }

    /** `totalPopulationBonus`. */
    function TotalPopulationBonus(): (r: real)
      reads this
      ensures AllConform(buildings) ==>
                r == (if Tent in buildings then 2.0 else 0.0) + (if House in buildings then 5.0 else 0.0)
    {
      assert AllConform(buildings) ==>
               PopulationBonus(buildings)
               == (if Tent in buildings then 2.0 else 0.0) + (if House in buildings then 5.0 else 0.0) by {
        if AllConform(buildings) {
          BonusClosedForm(buildings);
        }
      }
      PopulationBonus(buildings)
    }

    /** `totalStorageBonus`. */
    function TotalStorageBonus(): (r: real)
      reads this
      ensures AllConform(buildings) ==> r == if Storage in buildings then 100.0 else 0.0
    {
      assert AllConform(buildings) ==> StorageBonus(buildings) == if Storage in buildings then 100.0 else 0.0 by {
        if AllConform(buildings) {
          BonusClosedForm(buildings);
        }
      }
      StorageBonus(buildings)
    }

    /** `canBuild`. */
    method CanBuild(t: BuildingType) returns (ok: bool)
      ensures ok == Buildable(buildings, ledger.resources, t)
    {
      if t in buildings && buildings[t].level >= buildings[t].maxLevel {
        return false;
      }
      ok := ledger.CanAfford(Catalog(t).buildCost);
    }

    /** `build`: pays the catalog cost, then constructs (granting the storage
        bonus once) or upgrades. The cap minus the storage bonus of the built
        instances is the same before and after, so the bonus is granted
        exactly once per storehouse. */
    method Build(t: BuildingType) returns (ok: bool)
      requires Valid()
      modifies this, ledger
      ensures Valid()
      ensures ok == Buildable(old(buildings), old(ledger.resources), t)
      ensures !ok ==> buildings == old(buildings) && ledger.resources == old(ledger.resources)
                      && ledger.maxStorage == old(ledger.maxStorage)
      ensures ok ==> ledger.resources == Pay(old(ledger.resources), Catalog(t).buildCost)
      ensures ok && t !in old(buildings) ==>
                buildings == old(buildings)[t := Constructed(t)]
                && ledger.maxStorage == old(ledger.maxStorage) + EffectValue(Constructed(t), StorageEffect)
      ensures ok && t in old(buildings) ==>
                buildings == old(buildings)[t := Upgraded(t, old(buildings)[t])]
                && ledger.maxStorage == old(ledger.maxStorage)
      ensures ledger.maxStorage - StorageBonus(buildings) == old(ledger.maxStorage - StorageBonus(buildings))
    {
      ok := CanBuild(t);
      if !ok {
        return;
      }
      var config := Catalog(t);
      var paid := ledger.PayCost(config.buildCost);
      // The source's early return when payment fails is never taken:
      // CanBuild has just checked the same cost against the same stock.
      assert paid;
      if t in buildings {
        Upgrade(t);
      } else {
        Construct(t);
      }
    }

    /** The upgrade branch of `build`: `level++`, then the stored cost
        rewritten for the new level. */
    method Upgrade(t: BuildingType)
      requires Valid() && t in buildings && buildings[t].level < buildings[t].maxLevel
      modifies this
      ensures Valid()
      ensures buildings == old(buildings)[t := Upgraded(t, old(buildings)[t])]
      ensures StorageBonus(buildings) == old(StorageBonus(buildings))
    {
      UpgradeKeepsInvariants(buildings, t);
      var existing := buildings[t];
      var upgraded := existing.(level := existing.level + 1);
      upgraded := upgraded.(buildCost := UpgradeCost(t, upgraded.level));
      buildings := buildings[t := upgraded];
    }

    /** The construction branch of `build`: a level-1 copy of the blueprint,
        and the cap raised by a storage effect. */
    method Construct(t: BuildingType)
      requires Valid() && t !in buildings
      modifies this, ledger
      ensures Valid()
      ensures buildings == old(buildings)[t := Constructed(t)]
      ensures ledger.resources == old(ledger.resources)
      ensures ledger.maxStorage == old(ledger.maxStorage) + EffectValue(Constructed(t), StorageEffect)
      ensures StorageBonus(buildings) == old(StorageBonus(buildings)) + EffectValue(Constructed(t), StorageEffect)
    {
      ConstructKeepsInvariants(buildings, t);
      var config := Catalog(t);
      buildings := buildings[t := Constructed(t)];
      if config.effect.Some? && config.effect.value.kind == StorageEffect {
        ledger.IncreaseMaxStorage(config.effect.value.value);
      }
    }

    /** `updateProduction(deltaTime)`: one tick over the built instances, in
        catalog order. */
    method UpdateProduction(dt: real)
      requires Valid()
      modifies ledger
      ensures Valid()
      ensures ledger.resources == Produce(old(ledger.resources), ledger.maxStorage, buildings, dt, AllTypes)
      ensures ledger.maxStorage == old(ledger.maxStorage)
    {
      var types := AllTypes;
      var i := 0;
      while i < |types|
        invariant 0 <= i <= |types|
        invariant ledger.Valid() && ledger.maxStorage == old(ledger.maxStorage)
        invariant ledger.resources == Produce(old(ledger.resources), ledger.maxStorage, buildings, dt, types[..i])
      {
        var t := types[i];
        ghost var before := ledger.resources;
        if t in buildings && buildings[t].production.Some? {
          var p := buildings[t].production.value;
          var _ := ledger.AddResource(p.resource, Rate(p, buildings[t].level, dt));
        }
        assert ledger.resources == Yield(before, ledger.maxStorage, buildings, dt, t);
        assert types[..i + 1][..i] == types[..i];
        i := i + 1;
      }
      assert types[..i] == types;
    }

    /** `resetBuildings`: every slot empty. */
    method ResetBuildings()
      requires Valid()
      modifies this
      ensures Valid()
      ensures buildings == map[]
      ensures PopulationBonus(buildings) == 0.0 && StorageBonus(buildings) == 0.0
    {
      buildings := map[];
      BonusClosedForm(buildings);
    }
  }
}

/** The population registry: an ordered list of residents, their stamina,
    status and assignment, and recruitment up to the cap that the built
    tents and houses give. */
module Population {
  import opened Wrappers
  import opened Buildings

  datatype Status = Idle | Working | Adventuring | Resting

  datatype Skills = Skills(gathering: real, building: real, crafting: real, combat: real)

  datatype Resident = Resident(
    id: string,
    name: string,
    health: real,
    maxHealth: real,
    attack: real,
    defense: real,
    stamina: real,
    skills: Skills,
    status: Status,
    assignment: Option<string>)

  const MaxStamina: real := 100.0

  /** The resident every game starts with. */
  function Hero(): Resident {
    Resident("hero", "\U{4E3B}\U{89D2}", 100.0, 100.0, 10.0, 5.0, MaxStamina, Skills(5.0, 5.0, 5.0, 5.0), Idle, None)
  }

  // ---------------------------------------------------------------------
  // Lookup

  function ResidentId(r: Resident): string {
    r.id
  }

  /** `findIndex` on the id: the position of the FIRST resident with `id`. */
  function FindIndex(rs: seq<Resident>, id: string): Option<nat> {
    FirstIndex(rs, ResidentId, id)
  }

  /** `getResident`: the first resident with `id`, if there is one. */
  function Find(rs: seq<Resident>, id: string): (r: Option<Resident>)
    ensures r.Some? ==> r.value in rs && r.value.id == id
    ensures r.Some? ==> exists i :: 0 <= i < |rs| && rs[i] == r.value && forall j :: 0 <= j < i ==> rs[j].id != id
    ensures r.None? ==> forall x :: x in rs ==> x.id != id
  {
    match FindIndex(rs, id)
    case None => None
    case Some(i) => Some(rs[i])
  }

  // ---------------------------------------------------------------------
  // Updates of one resident, as values

  /** `updateResidentStatus`: the first resident with `id` takes the status
      and the assignment (none when omitted), with no check of the
      transition; every other resident is unchanged; an unknown id changes
      nothing. */
  function WithStatus(rs: seq<Resident>, id: string, status: Status, assignment: Option<string>): (r: seq<Resident>)
    ensures |r| == |rs|
    ensures forall j :: 0 <= j < |rs| ==> r[j].id == rs[j].id && r[j].stamina == rs[j].stamina
    ensures forall j :: 0 <= j < |rs| && FindIndex(rs, id) != Some(j) ==> r[j] == rs[j]
    ensures FindIndex(rs, id).Some? ==>
              var i := FindIndex(rs, id).value;
              r[i] == rs[i].(status := status, assignment := assignment)
  {
    match FindIndex(rs, id)
    case None => rs
    case Some(i) => rs[i := rs[i].(status := status, assignment := assignment)]
  }

  /** `consumeStamina` succeeds when the resident exists and has at least
      `amount` stamina. */
  predicate CanSpend(rs: seq<Resident>, id: string, amount: real) {
    Find(rs, id).Some? && Find(rs, id).value.stamina >= amount
  }

  /** `consumeStamina`: on success the first resident with `id` loses exactly
      `amount` and so is not left negative; otherwise nothing changes. */
  function WithStaminaSpent(rs: seq<Resident>, id: string, amount: real): (r: seq<Resident>)
    ensures |r| == |rs|
    ensures forall j :: 0 <= j < |rs| ==> r[j].id == rs[j].id
    ensures !CanSpend(rs, id, amount) ==> r == rs
    ensures forall j :: 0 <= j < |rs| && FindIndex(rs, id) != Some(j) ==> r[j] == rs[j]
    ensures CanSpend(rs, id, amount) ==>
              var i := FindIndex(rs, id).value;
              r[i] == rs[i].(stamina := rs[i].stamina - amount) && r[i].stamina >= 0.0
  {
    match FindIndex(rs, id)
    case None => rs
    case Some(i) =>
      if rs[i].stamina < amount then rs
      else rs[i := rs[i].(stamina := rs[i].stamina - amount)]
  }

  /** `recoverStamina`: the first resident with `id` gains `amount`, capped at
      100, so it never ends above 100; an unknown id changes nothing. */
  function WithStaminaRecovered(rs: seq<Resident>, id: string, amount: real): (r: seq<Resident>)
    ensures |r| == |rs|
    ensures forall j :: 0 <= j < |rs| && FindIndex(rs, id) != Some(j) ==> r[j] == rs[j]
    ensures FindIndex(rs, id).Some? ==>
              var i := FindIndex(rs, id).value;
              r[i] == rs[i].(stamina := Min(MaxStamina, rs[i].stamina + amount)) && r[i].stamina <= MaxStamina
  {
    match FindIndex(rs, id)
    case None => rs
    case Some(i) => rs[i := rs[i].(stamina := Min(MaxStamina, rs[i].stamina + amount))]
  }

  /** `removeResident`: the first resident with `id` is taken out and the
      others keep their order; an unknown id changes nothing. */
  function Without(rs: seq<Resident>, id: string): (r: seq<Resident>)
    ensures FindIndex(rs, id).None? ==> r == rs
    ensures FindIndex(rs, id).Some? ==>
              var i := FindIndex(rs, id).value;
              |r| == |rs| - 1 && r == rs[..i] + rs[i + 1..]
    ensures multiset(r) <= multiset(rs)
  {
    match FindIndex(rs, id)
    case None => rs
    case Some(i) =>
      assert rs == rs[..i] + [rs[i]] + rs[i + 1..];
      rs[..i] + rs[i + 1..]
  }

  // ---------------------------------------------------------------------
  // Recruitment

  /** The names a recruit is drawn from. */
  const Names: seq<string> := [
    "\U{827E}\U{4F26}", "\U{8D1D}\U{62C9}", "\U{5361}\U{5C14}", "\U{6234}\U{5B89}\U{5A1C}",
    "\U{57C3}\U{91CC}\U{514B}", "\U{83F2}\U{5965}\U{5A1C}", "\U{4E54}\U{6CBB}", "\U{6C49}\U{5A1C}"
  ]

  /** The eight uniform draws that `generateRandomResident` makes, one for
      the name and one for each stat and skill. */
  datatype Draws = Draws(
    name: real, health: real, attack: real, defense: real,
    gathering: real, building: real, crafting: real, combat: real)

  predicate Unit(u: real) {
    0.0 <= u < 1.0
  }

  /** Every draw lies in [0, 1), as the source's random generator promises. */
  predicate UnitDraws(d: Draws) {
    Unit(d.name) && Unit(d.health) && Unit(d.attack) && Unit(d.defense)
    && Unit(d.gathering) && Unit(d.building) && Unit(d.crafting) && Unit(d.combat)
  }

  /** `x` is a whole number between `lo` and `hi`. */
  predicate WholeIn(x: real, lo: int, hi: int) {
    x == (x.Floor as real) && lo as real <= x <= hi as real
  }

  /** `generateRandomResident`, with the id and the draws given: an idle
      resident at full stamina and 100 maximum health, named from the list,
      whose health is 80 to 119, attack 5 to 14, defense 3 to 10 and every
      skill 1 to 5. */
  function GenerateResident(id: string, d: Draws): (r: Resident)
    requires UnitDraws(d)
    ensures r.id == id && r.name in Names
    ensures r.maxHealth == 100.0 && r.stamina == MaxStamina && r.status == Idle && r.assignment == None
    ensures && WholeIn(r.health, 80, 119) && WholeIn(r.attack, 5, 14) && WholeIn(r.defense, 3, 10)
              && WholeIn(r.skills.gathering, 1, 5) && WholeIn(r.skills.building, 1, 5)
              && WholeIn(r.skills.crafting, 1, 5) && WholeIn(r.skills.combat, 1, 5)
  {
    Resident(
      id, Names[(d.name * 8.0).Floor],
      (80 + (d.health * 40.0).Floor) as real,
      100.0,
      (5 + (d.attack * 10.0).Floor) as real,
      (3 + (d.defense * 8.0).Floor) as real,
      MaxStamina,
      Skills(
        (1 + (d.gathering * 5.0).Floor) as real,
        (1 + (d.building * 5.0).Floor) as real,
        (1 + (d.crafting * 5.0).Floor) as real,
        (1 + (d.combat * 5.0).Floor) as real),
      Idle,
      None)
  }

  /** `canRecruit`: fewer residents than 1 plus the population bonus. */
  predicate Recruitable(rs: seq<Resident>, bs: map<BuildingType, Building>) {
    (|rs| as real) < 1.0 + PopulationBonus(bs)
  }

  /** The cap is a whole number (1, 3, 6 or 8), so recruiting one more
      resident when allowed never takes the population past it; a settlement
      never holds more than 8 recruits' worth of room. */
  lemma RecruitStaysWithinCap(rs: seq<Resident>, bs: map<BuildingType, Building>)
    requires AllConform(bs)
    ensures 1.0 + PopulationBonus(bs) <= 8.0
    ensures Recruitable(rs, bs) ==> (|rs| + 1) as real <= 1.0 + PopulationBonus(bs)
  {
    BonusClosedForm(bs);
  }

  // ---------------------------------------------------------------------
  // The store

  /** The population store; it reads the population bonus from the building
      registry it holds. */
  class PopulationRegistry {
    const buildingRegistry: BuildingRegistry
    var residents: seq<Resident>

    constructor (buildingRegistry: BuildingRegistry)
      ensures this.buildingRegistry == buildingRegistry
      ensures residents == [Hero()]
    {
      this.buildingRegistry := buildingRegistry;
      residents := [Hero()];
    }

    /** `getResident`. */
    function GetResident(id: string): (r: Option<Resident>)
      reads this
      ensures r.Some? ==> r.value in residents && r.value.id == id
      ensures r.Some? ==> exists i :: 0 <= i < |residents| && residents[i] == r.value
                                      && forall j :: 0 <= j < i ==> residents[j].id != id
      ensures r.None? ==> forall x :: x in residents ==> x.id != id
    {
      Find(residents, id)
    }

    /** `maxPopulation`. */
    function MaxPopulation(): (r: real)
      reads buildingRegistry
      ensures AllConform(buildingRegistry.buildings) ==>
                r == 1.0 + (if Tent in buildingRegistry.buildings then 2.0 else 0.0)
                         + (if House in buildingRegistry.buildings then 5.0 else 0.0)
      ensures AllConform(buildingRegistry.buildings) ==> 1.0 <= r <= 8.0
    {
      assert AllConform(buildingRegistry.buildings) ==>
               PopulationBonus(buildingRegistry.buildings)
               == (if Tent in buildingRegistry.buildings then 2.0 else 0.0)
                  + (if House in buildingRegistry.buildings then 5.0 else 0.0) by {
        if AllConform(buildingRegistry.buildings) {
          BonusClosedForm(buildingRegistry.buildings);
        }
      }
      1.0 + PopulationBonus(buildingRegistry.buildings)
    }

    /** `canRecruit`. */
    predicate CanRecruit()
      reads this, buildingRegistry
      ensures CanRecruit() <==> (|residents| as real) < MaxPopulation()
      ensures CanRecruit() && AllConform(buildingRegistry.buildings) ==> (|residents| + 1) as real <= MaxPopulation()
    {
      assert AllConform(buildingRegistry.buildings) && Recruitable(residents, buildingRegistry.buildings) ==>
               (|residents| + 1) as real <= MaxPopulation() by {
        if AllConform(buildingRegistry.buildings) {
          RecruitStaysWithinCap(residents, buildingRegistry.buildings);
        }
      }
      Recruitable(residents, buildingRegistry.buildings)
    }

    /** `addResident`: appends, with no check of the id. */
    method AddResident(r: Resident)
      modifies this
      ensures residents == old(residents) + [r]
    {
      residents := residents + [r];
    }

    /** `removeResident`. */
    method RemoveResident(id: string)
      modifies this
      ensures residents == Without(old(residents), id)
    {
      var index := FindIndex(residents, id);
      if index.Some? {
        residents := residents[..index.value] + residents[index.value + 1..];
      }
    }

    /** `updateResidentStatus`. */
    method UpdateResidentStatus(id: string, status: Status, assignment: Option<string>)
      modifies this
      ensures residents == WithStatus(old(residents), id, status, assignment)
    {
      var index := FindIndex(residents, id);
      if index.Some? {
        var resident := residents[index.value];
        residents := residents[index.value := resident.(status := status, assignment := assignment)];
      }
    }

    /** `recoverStamina`. */
    method RecoverStamina(id: string, amount: real)
      modifies this
      ensures residents == WithStaminaRecovered(old(residents), id, amount)
    {
      var index := FindIndex(residents, id);
      if index.Some? {
        var resident := residents[index.value];
        residents := residents[index.value := resident.(stamina := Min(MaxStamina, resident.stamina + amount))];
      }
    }

    /** `consumeStamina`. */
    method ConsumeStamina(id: string, amount: real) returns (ok: bool)
      modifies this
      ensures ok == CanSpend(old(residents), id, amount)
      ensures residents == WithStaminaSpent(old(residents), id, amount)
    {
      var index := FindIndex(residents, id);
      if index.None? || residents[index.value].stamina < amount {
        return false;
      }
      var resident := residents[index.value];
      residents := residents[index.value := resident.(stamina := resident.stamina - amount)];
      return true;
    }

    /** `recruitResident`, with the new resident's id and draws given:
        below the cap, append one generated resident; at the cap, change
        nothing. */
    method RecruitResident(id: string, d: Draws) returns (ok: bool)
      requires UnitDraws(d)
      modifies this
      ensures ok == old(CanRecruit())
      ensures residents == if ok then old(residents) + [GenerateResident(id, d)] else old(residents)
    {
      if !CanRecruit() {
        return false;
      }
      AddResident(GenerateResident(id, d));
      return true;
    }

    /** `resetPopulation`: the hero alone. */
    method ResetPopulation()
      modifies this
      ensures residents == [Hero()]
    {
      residents := [Hero()];
    }
  }
}

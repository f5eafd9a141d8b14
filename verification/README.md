# Survival-shelter simulation engine, modelled in Dafny

This project models the simulation core of an idle survival game: four
stores that together form one sequential, in-memory state machine, plus a
small scene navigator.

- **Resource ledger** (`resource.dfy`, class `Resources.Ledger`). It holds six
  balances (wood, stone, food, water, iron, crystal) and one storage cap.
  Credits are clamped per kind to the cap and then to zero. Costs are checked
  and paid all or nothing.
- **Building registry** (`building.dfy`, class `Buildings.BuildingRegistry`).
  It holds the fixed catalog of ten building types and at most one instance
  per type. Construction and upgrades are paid through the ledger. Each tick
  credits passive production, and the registry reports the population and
  storage bonuses.
- **Population registry** (`population.dfy`, class
  `Population.PopulationRegistry`). It holds an ordered list of residents,
  looked up by id (first match). It manages their stamina, status and
  assignment, and recruits up to the cap that the built tents and houses give.
- **Expedition engine** (`adventure.dfy`, class `Adventure.AdventureEngine`).
  It holds teams of resident ids, the three catalog levels, and team power.
  An exploration goes idle → exploring → idle: stamina is paid on departure,
  and rewards are credited through the ledger on success.
- **Scene navigator** (`scene.dfy`, class `Scenes.Game`). It holds a current
  scene id and a history. A move to a known scene pushes the scene being
  left. A choice moves along an edge of the configured scene graph.

Each store is a class whose fields the methods reassign. Records the source
mutates in place (a building instance, a resident, a team) are datatype
values inside a `map` or `seq` field. Every state-changing method is proved
against a pure function of the old state, for example
`Snapshot() == Departure(old(Snapshot()), teamId, levelId)`. The lemmas then
state what those functions promise.

The stores are singletons in the source, so every store that touches
resources touches the same ledger. The `AdventureEngine` constructor requires
its ledger to be the one its population registry's building registry holds.

Some behaviour is fixed by the code:

- The cap is per kind: each balance is clamped separately, and the total can
  exceed the cap (`TotalExceedsCap`).
- `build` always charges the catalog cost. The cost stored on an upgraded
  instance is recomputed but never charged (`StoredCostNotCharged`).
- A storage building raises the cap once, when first constructed. Upgrades
  and building resets do not change the cap.

Randomness and the clock become parameters:

- the seven stat draws and the name draw of a new resident;
- the uniform sample of a simulated exploration;
- the ids derived from the clock.

Closures also become parameters. A choice condition's outcome is an input,
and whether a scene's enter hook fires is an output.

## Model

| member | source | states |
|---|---|---|
| Wrappers.FirstIndex | src/stores/population.ts:79-84 | the position of the first element with the key, none iff no element has it; `FindIndex`, `TeamIndex` and `ChoiceIndex` are this search on residents, teams and choices |
| Wrappers.FirstIndexByKeys | src/stores/adventure.ts:105-107 | the search reads keys only: sequences with equal keys position by position give the same index |
| Resources.Amount | src/stores/resource.ts:41-43 | a kind missing from the stock reads as 0, a present one as its balance |
| Resources.Total | src/stores/resource.ts:31-33 | the total of a non-negative stock is non-negative and at least every single balance |
| Resources.CreditBounds | src/stores/resource.ts:45-50 | `Credit` and `CreditDelta` (addResource's new stock and reported delta): the balance ends between 0 and a non-negative cap and no other kind changes; a non-negative amount credits between 0 and the amount, exactly the amount when it fits |
| Resources.PayEffect | src/stores/resource.ts:69-76 | `Pay` (payCost's new stock) lowers each cost kind by exactly its line, leaves other kinds alone, and an affordable cost leaves no balance negative |
| Resources.CapPreserved | src/stores/resource.ts:45-80 | balances within the cap stay within it under credit, consumption, payment and a cap raise |
| Resources.TotalExceedsCap | src/stores/resource.ts:31-50 | the cap bounds each kind, not the sum: filling wood from the initial stock gives a total of 120 over a cap of 100 |
| Resources.Ledger.constructor | src/stores/resource.ts:8-18 | initial stock (10 food, 10 water, rest 0) and cap 100 |
| Resources.Ledger.AddResource | src/stores/resource.ts:45-50 | the new stock is the clamped credit and the result is the capped balance minus the old one; non-negativity and the cap are kept |
| Resources.Ledger.ConsumeResource | src/stores/resource.ts:52-58 | succeeds iff the balance covers the amount, then deducts exactly it; otherwise no change |
| Resources.Ledger.CanAfford | src/stores/resource.ts:60-67 | the scan returns true iff `Affords`: every cost line is covered, a missing kind counting as 0 |
| Resources.Ledger.PayCost | src/stores/resource.ts:69-76 | pays iff affordable, deducting every line; otherwise no change; balances stay non-negative |
| Resources.Ledger.IncreaseMaxStorage | src/stores/resource.ts:78-80 | the cap grows by the amount and the stock is unchanged |
| Resources.Ledger.ResetResources | src/stores/resource.ts:86-96 | stock and cap back to their initial values |
| Resources.Ledger.GetResource | src/stores/resource.ts:41-43 | a kind missing from the stock reads 0, a present one its balance |
| Resources.Ledger.TotalResources | src/stores/resource.ts:31-33 | for a valid (non-negative) stock the total is non-negative and at least every single balance |
| Buildings.UpgradeEffect | src/stores/building.ts:173-179 | an upgrade raises the level by one, keeps the instance conforming, and rewrites the stored cost from the catalog cost as floor(base × (level+1) × 1.5) of the new level |
| Buildings.StoredCostNotCharged | src/stores/building.ts:164-184 | a wood camp is upgraded for its catalog 10 wood / 5 stone but then stores 45 wood / 22 stone, which nothing charges |
| Buildings.BonusCongruent | src/stores/building.ts:127-141 | bonuses depend only on which types are built and their effects |
| Buildings.BonusInsert | src/stores/building.ts:127-141 | constructing a type raises its bonus kind by exactly the new instance's effect value |
| Buildings.BonusZero | src/stores/building.ts:127-141 | instances without an effect of a kind add nothing to that kind's bonus |
| Buildings.BonusClosedForm | src/stores/building.ts:131-141 | population bonus = 2 per tent + 5 per house built; storage bonus = 100 if a storage is built |
| Buildings.PopulationClosedForm | src/stores/building.ts:131-135 | the population bonus in closed form from the catalog effects |
| Buildings.StorageClosedForm | src/stores/building.ts:137-141 | the storage bonus in closed form from the catalog effects |
| Buildings.ConstructKeepsInvariants | src/stores/building.ts:180-190 | constructing keeps every slot conforming and raises the storage bonus by the new instance's storage effect |
| Buildings.UpgradeKeepsInvariants | src/stores/building.ts:173-179 | upgrading below the maximum keeps every slot conforming and the storage bonus unchanged |
| Buildings.ProducerIsUnique | src/stores/building.ts:8-104 | each kind has at most one producing type in the catalog (crystal none) |
| Buildings.CatalogFacts | src/stores/building.ts:8-104 | every catalog entry allows a level, costs some wood and nothing negative, and produces or carries a storage/population effect, never both |
| Buildings.ProduceUntouched | src/stores/building.ts:205-213 | `Produce` (one instance's credit in a tick): instances not producing a kind leave that kind's balance alone |
| Buildings.ProduceSingle | src/stores/building.ts:205-213 | with a single producer of a kind, a tick credits that kind exactly once by the producer's rate |
| Buildings.ProductionPerKind | src/stores/building.ts:205-213 | a tick credits each kind by amount × dt × level / interval of its producer if built, clamped to the cap; otherwise the balance is unchanged |
| Buildings.WoodCampTick | src/stores/building.ts:205-213 | a level-1 wood camp credits exactly 1 wood over a 3-second tick when it fits under the cap |
| Buildings.BuildingRegistry.constructor | src/stores/building.ts:110-121 | no building is built |
| Buildings.BuildingRegistry.CanBuild | src/stores/building.ts:148-159 | the result is `Buildable`: true iff the type is below its maximum level (or unbuilt) and the catalog cost is affordable |
| Buildings.BuildingRegistry.Build | src/stores/building.ts:161-194 | succeeds iff buildable; pays the catalog cost; constructs a level-1 copy (raising the cap by a storage effect) or upgrades; the cap minus the storage bonus is invariant |
| Buildings.BuildingRegistry.Upgrade | src/stores/building.ts:173-179 | the slot becomes the upgraded instance, every slot still conforms and the storage bonus is unchanged |
| Buildings.BuildingRegistry.Construct | src/stores/building.ts:180-190 | the slot becomes a level-1 copy of the blueprint and the cap and the storage bonus rise by the same storage effect |
| Buildings.BuildingRegistry.UpdateProduction | src/stores/building.ts:205-213 | the stock after the loop is the production fold over the catalog order |
| Buildings.BuildingRegistry.ResetBuildings | src/stores/building.ts:215-219 | every slot empty, so both bonuses are 0 |
| Buildings.BuildingRegistry.GetBuilding | src/stores/building.ts:144-146 | an instance is returned iff the type is built, and it is the stored one |
| Buildings.BuildingRegistry.TotalPopulationBonus | src/stores/building.ts:131-135 | for conforming slots: 2 for a tent plus 5 for a house, whatever their levels |
| Buildings.BuildingRegistry.TotalStorageBonus | src/stores/building.ts:137-141 | for conforming slots: 100 when a storage is built, else 0 |
| Population.Find | src/stores/population.ts:48-50 | a found resident has the id and is the FIRST one with it; none iff no resident has it |
| Population.WithStatus | src/stores/population.ts:86-96 | only the first resident with the id changes, taking the status and assignment; ids and stamina are kept |
| Population.WithStaminaSpent | src/stores/population.ts:105-111 | spends iff the resident exists with enough stamina, leaving it non-negative; otherwise no change |
| Population.WithStaminaRecovered | src/stores/population.ts:98-103 | recovery adds the amount but never beyond 100 |
| Population.Without | src/stores/population.ts:79-84 | removes exactly the first resident with the id, keeping the others in order; an unknown id changes nothing |
| Population.GenerateResident | src/stores/population.ts:56-77 | an idle, unassigned recruit at full stamina with a listed name, health 80-119, attack 5-14, defense 3-10, skills 1-5, all whole |
| Population.RecruitStaysWithinCap | src/stores/population.ts:113-122 | for `Recruitable` (canRecruit): the cap 1 + population bonus is at most 8 and a permitted recruit never exceeds it |
| Population.PopulationRegistry.constructor | src/stores/population.ts:10-27 | the hero alone |
| Population.PopulationRegistry.AddResident | src/stores/population.ts:52-54 | the resident is appended |
| Population.PopulationRegistry.RemoveResident | src/stores/population.ts:79-84 | the list becomes the spliced list |
| Population.PopulationRegistry.UpdateResidentStatus | src/stores/population.ts:86-96 | the list becomes the status update of the first match |
| Population.PopulationRegistry.RecoverStamina | src/stores/population.ts:98-103 | the list becomes the capped recovery |
| Population.PopulationRegistry.ConsumeStamina | src/stores/population.ts:105-111 | succeeds iff the resident can pay, and the list becomes the spend |
| Population.PopulationRegistry.RecruitResident | src/stores/population.ts:117-122 | succeeds iff below the cap, then appends exactly one generated recruit |
| Population.PopulationRegistry.ResetPopulation | src/stores/population.ts:124-143 | the hero alone |
| Population.PopulationRegistry.GetResident | src/stores/population.ts:48-50 | a found resident has the id and is the FIRST one with it; none iff no resident has it |
| Population.PopulationRegistry.MaxPopulation | src/stores/population.ts:31-33 | for conforming slots: 1 + 2 per tent + 5 per house, so between 1 and 8 |
| Population.PopulationRegistry.CanRecruit | src/stores/population.ts:113-115 | true iff the residents number fewer than the maximum; then one more still fits under it |
| Adventure.FindLevel | src/stores/adventure.ts:101-103 | a found level is in the catalog with the id; none iff no level has it |
| Adventure.LevelCatalog | src/stores/adventure.ts:9-63 | the three levels have distinct ids, rising difficulty and recommended power, a positive stamina cost and positive rewards |
| Adventure.GetLevel | src/stores/adventure.ts:101-103 | a level is found iff the id is forest_1, ruins_1 or crystal_cave, and it is the catalog level with that id |
| Adventure.Position | src/stores/adventure.ts:136-137 | the first occurrence of the id among the members, or none iff absent |
| Adventure.Dismissed | src/stores/adventure.ts:132-141 | removing a member splices out its FIRST occurrence, keeping the other members in order (one fewer, multiset minus one); other teams and the team's other fields are unchanged |
| Adventure.PowerConcat | src/stores/adventure.ts:143-158 | `Power` (the reduce over the members): the power of two member lists joined is the sum of their powers |
| Adventure.PowerWithout | src/stores/adventure.ts:143-158 | removing any member lowers the power by exactly its share, whatever the order |
| Adventure.PowerNonNegative | src/stores/adventure.ts:143-158 | residents with non-negative stats give non-negative power |
| Adventure.MembershipMovesPower | src/stores/adventure.ts:120-158 | `TeamPower`: adding a member raises the team's power by its share and removing one lowers it by its share |
| Adventure.SuccessRate | src/stores/adventure.ts:238 | never above 0.9; 0.9 from twice the recommended power; 0 at no power; one half at the recommended power |
| Adventure.Dispatch | src/stores/adventure.ts:186-189 | the departure loop neither adds nor removes residents |
| Adventure.DispatchEffect | src/stores/adventure.ts:186-189 | with distinct members who can pay, each pays exactly the cost and becomes adventuring for the team; everyone else is unchanged |
| Adventure.DepartureEffect | src/stores/adventure.ts:179-197 | `Departure` (startExploration's new world): the team explores the level, each member's stamina is debited and marked adventuring; every other team, the stock and the completed levels are left alone and the current level becomes the started one |
| Adventure.DepartureFrame | src/stores/adventure.ts:179-197 | a start rewrites only the chosen team (exploring the level) and sets the current level; other teams, the stock, the cap and the completed levels stay |
| Adventure.DuplicateMemberPaysTwice | src/stores/adventure.ts:120-130 | a resident listed twice pays twice: the hero leaves a 20-cost level with 60 |
| Adventure.Recall | src/stores/adventure.ts:219-221 | the return loop neither adds nor removes residents |
| Adventure.RecallEffect | src/stores/adventure.ts:219-221 | every member found becomes idle and unassigned, duplicates included; nothing else changes |
| Adventure.ResolutionEffect | src/stores/adventure.ts:199-228 | `Resolution` (completeExploration's new world): success credits each reward line as addResource does and records the level; failure does neither; the team is idle with no level, every other team is unchanged, the current level is cleared and nobody's stamina changes |
| Adventure.ResolutionFrame | src/stores/adventure.ts:199-228 | a completion rewrites only the chosen team (idle, no level) and clears the current level; other teams and the cap stay |
| Adventure.ResolutionRewards | src/stores/adventure.ts:199-217 | rewards are credited as addResource credits them and the level recorded iff the completion succeeds |
| Adventure.TeamsStaySound | src/stores/adventure.ts:109-265 | every operation keeps teams out of combat, holding a catalog level exactly while exploring |
| Adventure.RoundTrip | src/stores/adventure.ts:179-228 | start then complete restores the team, and the level is newly recorded iff the run succeeded |
| Adventure.AdventureEngine.constructor | src/stores/adventure.ts:70-83 | the main team alone, nothing completed, no current level |
| Adventure.AdventureEngine.CreateTeam | src/stores/adventure.ts:109-118 | appends and returns an empty idle team |
| Adventure.AdventureEngine.AddMemberToTeam | src/stores/adventure.ts:120-130 | succeeds iff the team exists and the resident exists idle, then appends the id to the first such team |
| Adventure.AdventureEngine.RemoveMemberFromTeam | src/stores/adventure.ts:132-141 | succeeds iff the team lists the id, then splices out its first occurrence |
| Adventure.AdventureEngine.CanStartExploration | src/stores/adventure.ts:160-177 | the scan returns true iff the team and level exist, the team is idle and non-empty, and every member exists with enough stamina |
| Adventure.AdventureEngine.StartExploration | src/stores/adventure.ts:179-197 | succeeds iff startable; the whole new state is the departure of the old |
| Adventure.AdventureEngine.SendOff | src/stores/adventure.ts:186-189 | the loop's residents are the departure fold |
| Adventure.AdventureEngine.CompleteExploration | src/stores/adventure.ts:199-228 | succeeds iff the team is exploring a catalog level; the whole new state is the resolution of the old |
| Adventure.AdventureEngine.CollectRewards | src/stores/adventure.ts:208-210 | every reward line credited through addResource, the cap unchanged |
| Adventure.AdventureEngine.StandDown | src/stores/adventure.ts:219-221 | the loop's residents are the return fold |
| Adventure.AdventureEngine.SimulateExploration | src/stores/adventure.ts:230-242 | the new world is `Simulated`: completion with success iff the sample is below the success rate |
| Adventure.AdventureEngine.ResetAdventures | src/stores/adventure.ts:252-265 | the main team alone, nothing completed, no current level |
| Adventure.AdventureEngine.GetTeam | src/stores/adventure.ts:105-107 | a found team has the id and is the FIRST one with it; none iff no team has it |
| Adventure.AdventureEngine.CalculateTeamPower | src/stores/adventure.ts:143-158 | 0 for an unknown team; otherwise the members' power, non-negative when every resident's stats are |
| Adventure.AdventureEngine.IsLevelCompleted | src/stores/adventure.ts:248-250 | true iff the level id occurs in the completed list |
| Scenes.OverridesAreFieldwise | src/composables/use-game.ts:9-23 | each of the six fields is the configured value when set and the default 100/100/10/5/1/0 otherwise; no overrides give the defaults |
| Scenes.InitialState | src/composables/use-game.ts:9-23 | starts at the initial scene with the defaults overridden by the configured attributes, and empty inventory, history and flags |
| Scenes.SceneOf | src/composables/use-game.ts:25-27 | a scene is found iff the id is configured, and it is the configured scene for that id |
| Scenes.VisitEffect | src/composables/use-game.ts:32-42 | `Visited` (goToScene's new state): a known target grows the history by exactly the scene left and becomes current; an unknown one changes nothing |
| Scenes.ChoiceFollowsGraph | src/composables/use-game.ts:47-59 | `Chosen` (selectChoice's new state): a choice moves iff the scene is known, lists it, its condition holds and its target is known; the new state is goToScene of the target, else unchanged |
| Scenes.TrailPreserved | src/composables/use-game.ts:32-80 | the history is a trail from the initial scene through known scenes under every operation |
| Scenes.Game.constructor | src/composables/use-game.ts:8-23 | the initial state |
| Scenes.Game.GoToScene | src/composables/use-game.ts:32-42 | the new state is the visit; the hook fires iff the target is known and has one |
| Scenes.Game.SelectChoice | src/composables/use-game.ts:47-59 | the new state is the choice's move; the hook fires iff the move reaches a scene with one |
| Scenes.Game.ResetGame | src/composables/use-game.ts:64-80 | the whole state replaced by the initial one |
| Scenes.Game.CurrentScene | src/composables/use-game.ts:25-27 | a scene is returned iff the current id is configured, and it is that scene |

## Left out

- Numbers are exact reals, not IEEE doubles. Rounding, `NaN` and infinities are not modelled. `x || 0` is modelled only as reading a missing kind as 0.
- The iteration order of `Object.entries` is not modelled. The keys of a cost or reward are distinct, so the order does not change the result.
- Randomness and the clock are parameters: resident draws, the simulation sample, and the ids built from `Date.now()`. How ids are formatted, and whether they are unique, is not modelled.
- Display data is left out: names and descriptions of resources, buildings and levels; `getResourceName`; `getBuildingInfo`, `getAllBuildingConfigs` and `getAllLevels`; scene descriptions and choice texts.
- Derived views are left out because they are plain filters or ratios: `storageUsed`, `storagePercentage`, `builtBuildings`, the idle/working/adventuring resident lists, `idleTeams`, `exploringTeams` and `availableLevels`.
- `buildTime` and `isBuilding` are never read by any logic, so they are left out.
- Level enemies and `specialItems` are left out: nothing grants or fights them.
- `explorationProgress` and `explorationResult` are left out: they are a progress counter and a message text that no logic reads.
- The game loop store (`src/stores/game.ts`) is left out: pause, speed, the game clock and page navigation. `UpdateProduction` takes the elapsed seconds as a parameter.
- Reactivity and live references are left out. The team that `createTeam` returns, and the objects that `getTeam`/`getResident` return, are values here. Later changes through such a reference are not modelled.
- Prototype-inherited keys of the scene record are left out (for example `"toString"` would look like a known scene in the source). The scenes are a map of configured ids only.
- The effects of the enter hooks and condition closures on the game state are left out. The model records only whether a hook fires, and takes the condition's outcome as an input.
- `Adventure.DepartureEffect`: stated only for teams whose member ids are distinct. A team can list one resident twice, and then the departure charges twice (`DuplicateMemberPaysTwice`).
- `Adventure.RecallEffect` and `Adventure.DispatchEffect`: "the resident each member id finds" means the first resident with that id, as in the source. Residents sharing an id are not tracked further.

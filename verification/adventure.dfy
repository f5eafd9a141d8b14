/** The expedition engine: teams of residents, the fixed level catalog, the
    team power formula, and explorations that go idle -> exploring -> idle,
    paying stamina on departure and crediting rewards on success. */
module Adventure {
  import opened Wrappers
  import opened Resources
  import opened Population

  /** `in_combat` is declared, but no operation ever sets it. */
  datatype TeamStatus = Idle | Exploring | InCombat

  datatype Team = Team(
    id: string,
    name: string,
    members: seq<string>,
    currentLevelId: Option<string>,
    status: TeamStatus)

  /** A catalog level: only the fields the engine reads (enemy rosters, names
      and special items are display data). */
  datatype Level = Level(
    id: string,
    difficulty: int,
    recommendedPower: Positive,
    staminaCost: real,
    rewards: Bundle)

  /** `ADVENTURE_LEVELS`. */
  const Levels: seq<Level> := [
    Level("forest_1", 1, 20.0, 20.0, map[Wood := 20.0, Food := 10.0]),
    Level("ruins_1", 3, 50.0, 30.0, map[Stone := 30.0, Iron := 10.0]),
    Level("crystal_cave", 8, 150.0, 50.0, map[Crystal := 5.0, Iron := 50.0])
  ]

  /** The catalog's ids are distinct, difficulty and recommended power rise
      from one level to the next, and every level costs stamina and pays
      positive rewards. */
  lemma LevelCatalog()
    ensures forall i, j :: 0 <= i < j < |Levels| ==>
              Levels[i].id != Levels[j].id
              && Levels[i].difficulty < Levels[j].difficulty
              && Levels[i].recommendedPower < Levels[j].recommendedPower
    ensures forall l :: l in Levels ==> l.staminaCost > 0.0
    ensures forall l, k :: l in Levels && k in l.rewards ==> l.rewards[k] > 0.0
  {
  }

  /** `createTeam`'s new team, with its id given. */
  function NewTeam(id: string, name: string): Team {
    Team(id, name, [], None, TeamStatus.Idle)
  }

  /** The team every game starts with. */
  function MainTeam(): Team {
    NewTeam("main_team", "\U{4E3B}\U{961F}")
  }

  // ---------------------------------------------------------------------
  // Lookups

  /** `find` on the level id. */
  function FindLevel(ls: seq<Level>, id: string): (r: Option<Level>)
    ensures r.Some? ==> r.value in ls && r.value.id == id
    ensures r.None? ==> forall l :: l in ls ==> l.id != id
  {
    if ls == [] then None
    else if ls[0].id == id then Some(ls[0])
    else FindLevel(ls[1..], id)
  }

  /** `getLevel`. */
  function GetLevel(id: string): (r: Option<Level>)
    ensures r.Some? <==> id == "forest_1" || id == "ruins_1" || id == "crystal_cave"
    ensures r.Some? ==> r.value in Levels && r.value.id == id
  {
    FindLevel(Levels, id)
  }

  function TeamId(t: Team): string {
    t.id
  }

  /** `find` on the team id: the position of the FIRST team with `id`. */
  function TeamIndex(ts: seq<Team>, id: string): Option<nat> {
    FirstIndex(ts, TeamId, id)
  }

  /** `indexOf`: the position of the first occurrence of `x`. */
  function Position(xs: seq<string>, x: string): (r: Option<nat>)
    ensures r.Some? ==> r.value < |xs| && xs[r.value] == x && x !in xs[..r.value]
    ensures r.None? ==> x !in xs
  {
    if xs == [] then None
    else if xs[0] == x then Some(0)
    else match Position(xs[1..], x)
      case None => None
      case Some(i) =>
        assert xs[..i + 1] == [xs[0]] + xs[1..][..i];
        Some(i + 1)
  }

  // ---------------------------------------------------------------------
  // Team membership

  /** `addMemberToTeam` succeeds when the team exists and the resident exists
      and is idle; nothing checks that the resident is not already in this
      or another team. */
  predicate CanEnlist(ts: seq<Team>, rs: seq<Resident>, teamId: string, residentId: string) {
    && TeamIndex(ts, teamId).Some?
    && Find(rs, residentId).Some?
    && Find(rs, residentId).value.status == Status.Idle
  }

  /** The teams after a successful `addMemberToTeam`: the id appended to the
      first team with `teamId`. */
  function Enlisted(ts: seq<Team>, teamId: string, residentId: string): seq<Team>
    requires TeamIndex(ts, teamId).Some?
  {
    var i := TeamIndex(ts, teamId).value;
    ts[i := ts[i].(members := ts[i].members + [residentId])]
  }

  /** `removeMemberFromTeam` succeeds when the team exists and lists the id. */
  predicate CanDismiss(ts: seq<Team>, teamId: string, residentId: string) {
    TeamIndex(ts, teamId).Some? && residentId in ts[TeamIndex(ts, teamId).value].members
  }

  /** The teams after a successful `removeMemberFromTeam`: the first
      occurrence of the id spliced out, the other members kept in order. */
  function Dismissed(ts: seq<Team>, teamId: string, residentId: string): (r: seq<Team>)
    requires CanDismiss(ts, teamId, residentId)
    ensures |r| == |ts|
    ensures var i := TeamIndex(ts, teamId).value;
            var ms := ts[i].members;
            && |r[i].members| == |ms| - 1
            && multiset(r[i].members) == multiset(ms) - multiset{residentId}
            && (forall j :: 0 <= j < |ts| && j != i ==> r[j] == ts[j])
            && r[i] == ts[i].(members := r[i].members)
            && exists p :: 0 <= p < |ms| && ms[p] == residentId && residentId !in ms[..p]
                          && r[i].members == ms[..p] + ms[p + 1..]
  {
    var i := TeamIndex(ts, teamId).value;
    var ms := ts[i].members;
    var p := Position(ms, residentId).value;
    assert ms == ms[..p] + [ms[p]] + ms[p + 1..];
    ts[i := ts[i].(members := ms[..p] + ms[p + 1..])]
  }

  // ---------------------------------------------------------------------
  // Team power

  /** One member's share: `attack * 2 + defense + health / 10`, or 0 for an
      id the registry does not hold. */
  function MemberPower(rs: seq<Resident>, id: string): real {
    match Find(rs, id)
    case None => 0.0
    case Some(r) => r.attack * 2.0 + r.defense + r.health / 10.0
  }

  /** The `reduce` over the members, left to right. */
  function Power(rs: seq<Resident>, members: seq<string>): real {
    if members == [] then 0.0
    else Power(rs, members[..|members| - 1]) + MemberPower(rs, members[|members| - 1])
  }

  /** `calculateTeamPower`: 0 for an unknown team. */
  function TeamPower(ts: seq<Team>, rs: seq<Resident>, teamId: string): real {
    match TeamIndex(ts, teamId)
    case None => 0.0
    case Some(i) => Power(rs, ts[i].members)
  }

  lemma {:induction false} PowerConcat(rs: seq<Resident>, a: seq<string>, b: seq<string>)
    ensures Power(rs, a + b) == Power(rs, a) + Power(rs, b)
  {
    if b == [] {
      assert a + b == a;
    } else {
      PowerConcat(rs, a, b[..|b| - 1]);
      assert (a + b)[..|a + b| - 1] == a + b[..|b| - 1];
    }
  }

  /** The power does not depend on the members' order: removing any one
      member lowers it by exactly that member's share. */
  lemma PowerWithout(rs: seq<Resident>, ms: seq<string>, i: nat)
    requires i < |ms|
    ensures Power(rs, ms[..i] + ms[i + 1..]) == Power(rs, ms) - MemberPower(rs, ms[i])
  {
    assert ms == (ms[..i] + [ms[i]]) + ms[i + 1..];
    PowerConcat(rs, ms[..i] + [ms[i]], ms[i + 1..]);
    PowerConcat(rs, ms[..i], ms[i + 1..]);
    assert (ms[..i] + [ms[i]])[..i] == ms[..i];
  }

  /** Residents with non-negative stats give a non-negative team power. */
  lemma {:induction false} PowerNonNegative(rs: seq<Resident>, ms: seq<string>)
    requires forall r :: r in rs ==> r.attack >= 0.0 && r.defense >= 0.0 && r.health >= 0.0
    ensures Power(rs, ms) >= 0.0
  {
    if ms != [] {
      PowerNonNegative(rs, ms[..|ms| - 1]);
    }
  }

  /** Enlisting adds exactly the new member's share to the team's power, and
      dismissing takes exactly it away; other teams keep their power. */
  lemma MembershipMovesPower(ts: seq<Team>, rs: seq<Resident>, teamId: string, residentId: string)
    ensures TeamIndex(ts, teamId).Some? ==>
              TeamPower(Enlisted(ts, teamId, residentId), rs, teamId)
              == TeamPower(ts, rs, teamId) + MemberPower(rs, residentId)
    ensures CanDismiss(ts, teamId, residentId) ==>
              TeamPower(Dismissed(ts, teamId, residentId), rs, teamId)
              == TeamPower(ts, rs, teamId) - MemberPower(rs, residentId)
  {
    if TeamIndex(ts, teamId).Some? {
      var i := TeamIndex(ts, teamId).value;
      var after := Enlisted(ts, teamId, residentId);
      assert after[i].members[..|after[i].members| - 1] == ts[i].members;
      FirstIndexByKeys(ts, after, TeamId, teamId);
    }
    if CanDismiss(ts, teamId, residentId) {
      var i := TeamIndex(ts, teamId).value;
      var p := Position(ts[i].members, residentId).value;
      PowerWithout(rs, ts[i].members, p);
      FirstIndexByKeys(ts, Dismissed(ts, teamId, residentId), TeamId, teamId);
    }
  }

  /** The success rate `min(0.9, power / (recommendedPower * 2))`: never above
      0.9, exactly 0.9 at twice the recommended power or more, 0 at no power,
      and one half when the power equals the recommended power. */
  function SuccessRate(power: real, recommended: Positive): (r: real)
    ensures r <= 0.9
    ensures power >= 2.0 * recommended ==> r == 0.9
    ensures power == 0.0 ==> r == 0.0
    ensures power == recommended ==> r == 0.5
    ensures power >= 0.0 ==> r >= 0.0
    ensures power <= 1.8 * recommended ==> r == power / (recommended * 2.0)
  {
    RateFacts(power, recommended);
    Min(0.9, power / (recommended * 2.0))
  }

  lemma RateFacts(power: real, recommended: Positive)
    ensures power >= 2.0 * recommended ==> power / (recommended * 2.0) >= 1.0
    ensures power <= 1.8 * recommended ==> power / (recommended * 2.0) <= 0.9
    ensures power == recommended ==> power / (recommended * 2.0) == 0.5
    ensures power >= 0.0 ==> power / (recommended * 2.0) >= 0.0
  {
    var d := recommended * 2.0;
    assert power / d * d == power;
  }

  // ---------------------------------------------------------------------
  // Departure

  /** A snapshot of everything an expedition reads or writes: the engine's
      own fields, the residents and the ledger. */
  datatype World = World(
    teams: seq<Team>,
    completedLevels: seq<string>,
    currentLevel: Option<Level>,
    residents: seq<Resident>,
    resources: Bundle,
    maxStorage: real)

  /** `canStartExploration`: the team and the level exist, the team is idle
      and not empty, and every member exists with at least the level's
      stamina cost. */
  predicate Startable(ts: seq<Team>, rs: seq<Resident>, teamId: string, levelId: string) {
    match TeamIndex(ts, teamId)
    case None => false
    case Some(i) =>
      match GetLevel(levelId)
      case None => false
      case Some(level) =>
        && ts[i].status == TeamStatus.Idle
        && |ts[i].members| > 0
        && forall j :: 0 <= j < |ts[i].members| ==> CanSpend(rs, ts[i].members[j], level.staminaCost)
  }

  /** The departure loop over `members`, in order: each pays the stamina cost
      (a failed payment is ignored) and is marked adventuring for the team. */
  function Dispatch(rs: seq<Resident>, members: seq<string>, cost: real, teamId: string): (r: seq<Resident>)
    ensures |r| == |rs|
  {
    if members == [] then rs
    else
      var m := members[|members| - 1];
      var before := Dispatch(rs, members[..|members| - 1], cost, teamId);
      WithStatus(WithStaminaSpent(before, m, cost), m, Status.Adventuring, Some(teamId))
  }

  /** The departure loop's next turn. */
  lemma DispatchNext(rs: seq<Resident>, members: seq<string>, i: nat, cost: real, teamId: string)
    requires i < |members|
    ensures Dispatch(rs, members[..i + 1], cost, teamId)
            == WithStatus(WithStaminaSpent(Dispatch(rs, members[..i], cost, teamId), members[i], cost),
                          members[i], Status.Adventuring, Some(teamId))
  {
    assert members[..i + 1][..i] == members[..i];
  }

  /** The resident at `j` is the one the members' lookups land on. */
  predicate Called(rs: seq<Resident>, members: seq<string>, j: nat)
    requires j < |rs|
  {
    rs[j].id in members && FindIndex(rs, rs[j].id) == Some(j)
  }

  /** No id occurs twice. */
  predicate Distinct(ms: seq<string>) {
    forall a, b :: 0 <= a < b < |ms| ==> ms[a] != ms[b]
  }

  /** With distinct member ids that all can pay, the departure takes exactly
      the cost from each member and marks it adventuring for the team; every
      other resident is unchanged. */
  lemma {:induction false} DispatchEffect(rs: seq<Resident>, members: seq<string>, cost: real, teamId: string)
    requires Distinct(members)
    requires forall a :: 0 <= a < |members| ==> CanSpend(rs, members[a], cost)
    ensures |Dispatch(rs, members, cost, teamId)| == |rs|
    ensures forall j :: 0 <= j < |rs| ==>
              Dispatch(rs, members, cost, teamId)[j]
              == if Called(rs, members, j)
                 then rs[j].(stamina := rs[j].stamina - cost, status := Status.Adventuring, assignment := Some(teamId))
                 else rs[j]
  {
    if members != [] {
      var n := |members| - 1;
      var m, prefix := members[n], members[..n];
      assert members == prefix + [m];
      assert Distinct(prefix);
      assert m !in prefix by {
        forall a | 0 <= a < n ensures prefix[a] != m {
          assert prefix[a] == members[a];
        }
      }
      DispatchEffect(rs, prefix, cost, teamId);
      DispatchStep(rs, prefix, m, cost, teamId, Dispatch(rs, prefix, cost, teamId));
    }
  }

  /** One turn of the departure loop, for a member not met before. */
  lemma DispatchStep(rs: seq<Resident>, prefix: seq<string>, m: string, cost: real, teamId: string,
                     before: seq<Resident>)
    requires m !in prefix && CanSpend(rs, m, cost)
    requires |before| == |rs|
    requires forall j :: 0 <= j < |rs| ==>
               before[j]
               == if Called(rs, prefix, j)
                  then rs[j].(stamina := rs[j].stamina - cost, status := Status.Adventuring, assignment := Some(teamId))
                  else rs[j]
    ensures var after := WithStatus(WithStaminaSpent(before, m, cost), m, Status.Adventuring, Some(teamId));
            && |after| == |rs|
            && forall j :: 0 <= j < |rs| ==>
                 after[j]
                 == if Called(rs, prefix + [m], j)
                    then rs[j].(stamina := rs[j].stamina - cost, status := Status.Adventuring, assignment := Some(teamId))
                    else rs[j]
  {
    FirstIndexByKeys(rs, before, ResidentId, m);
    var i := FindIndex(rs, m).value;
    assert !Called(rs, prefix, i);
    assert before[i] == rs[i];
    var spent := WithStaminaSpent(before, m, cost);
    FirstIndexByKeys(before, spent, ResidentId, m);
    var after := WithStatus(spent, m, Status.Adventuring, Some(teamId));
    forall j | 0 <= j < |rs|
      ensures after[j]
              == if Called(rs, prefix + [m], j)
                 then rs[j].(stamina := rs[j].stamina - cost, status := Status.Adventuring, assignment := Some(teamId))
                 else rs[j]
    {
      if j != i {
        assert rs[j].id in prefix + [m] <==> rs[j].id in prefix || rs[j].id == m;
        assert Called(rs, prefix + [m], j) == Called(rs, prefix, j);
      }
    }
  }

  /** Nothing stops one resident from being listed twice in a team: the
      departure then charges the stamina cost twice, as long as the stamina
      lasts. The hero, listed twice for a 20-stamina level, leaves with 60. */
  lemma DuplicateMemberPaysTwice()
    ensures Dispatch([Hero()], ["hero", "hero"], 20.0, "main_team")[0].stamina == 60.0
  {
    var once := Dispatch([Hero()], ["hero"], 20.0, "main_team");
    assert ["hero", "hero"][..1] == ["hero"];
    assert ["hero"][..0] == [];
    assert FindIndex([Hero()], "hero") == Some(0);
    assert once[0].stamina == 80.0;
    FirstIndexByKeys([Hero()], once, ResidentId, "hero");
  }

  /** `startExploration`'s effect on the world; nothing when the start
      condition fails. */
  function Departure(w: World, teamId: string, levelId: string): World {
    if !Startable(w.teams, w.residents, teamId, levelId) then w
    else
      var i := TeamIndex(w.teams, teamId).value;
      var level := GetLevel(levelId).value;
      w.(residents := Dispatch(w.residents, w.teams[i].members, level.staminaCost, teamId),
         teams := w.teams[i := w.teams[i].(status := Exploring, currentLevelId := Some(levelId))],
         currentLevel := Some(level))
  }

  lemma DepartureUnfolds(w: World, teamId: string, levelId: string)
    requires Startable(w.teams, w.residents, teamId, levelId)
    ensures TeamIndex(w.teams, teamId).Some? && GetLevel(levelId).Some?
    ensures var i := TeamIndex(w.teams, teamId).value;
            var level := GetLevel(levelId).value;
            Departure(w, teamId, levelId)
            == w.(residents := Dispatch(w.residents, w.teams[i].members, level.staminaCost, teamId),
                  teams := w.teams[i := w.teams[i].(status := Exploring, currentLevelId := Some(levelId))],
                  currentLevel := Some(level))
  {
  }

  /** A start changes only the chosen team, which explores the level, and
      the current level; the ledger and the completed levels stay. */
  lemma DepartureFrame(w: World, teamId: string, levelId: string)
    requires Startable(w.teams, w.residents, teamId, levelId)
    ensures var w' := Departure(w, teamId, levelId);
            var i := TeamIndex(w.teams, teamId).value;
            && w'.teams[i] == w.teams[i].(status := Exploring, currentLevelId := Some(levelId))
            && |w'.teams| == |w.teams|
            && (forall j :: 0 <= j < |w.teams| && j != i ==> w'.teams[j] == w.teams[j])
            && w'.currentLevel == GetLevel(levelId)
            && w'.resources == w.resources && w'.completedLevels == w.completedLevels
            && w'.maxStorage == w.maxStorage
            && w'.residents == Dispatch(w.residents, w.teams[i].members, GetLevel(levelId).value.staminaCost, teamId)
  {
    DepartureUnfolds(w, teamId, levelId);
  }

  /** What a successful start does, for a team whose member ids are
      distinct: every member pays exactly the stamina cost and is marked
      adventuring for the team, the team explores the level, and the ledger
      and the completed levels are untouched. */
  lemma DepartureEffect(w: World, teamId: string, levelId: string)
    requires Startable(w.teams, w.residents, teamId, levelId)
    requires Distinct(w.teams[TeamIndex(w.teams, teamId).value].members)
    ensures var w' := Departure(w, teamId, levelId);
            var i := TeamIndex(w.teams, teamId).value;
            var cost := GetLevel(levelId).value.staminaCost;
            && w'.teams[i].status == Exploring && w'.teams[i].currentLevelId == Some(levelId)
            && w'.teams[i] == w.teams[i].(status := Exploring, currentLevelId := Some(levelId))
            && |w'.teams| == |w.teams|
            && (forall j :: 0 <= j < |w.teams| && j != i ==> w'.teams[j] == w.teams[j])
            && w'.currentLevel == GetLevel(levelId)
            && w'.resources == w.resources && w'.completedLevels == w.completedLevels
            && w'.maxStorage == w.maxStorage
            && |w'.residents| == |w.residents|
            && forall j :: 0 <= j < |w.residents| ==>
                 w'.residents[j]
                 == if Called(w.residents, w.teams[i].members, j)
                    then w.residents[j].(stamina := w.residents[j].stamina - cost,
                                         status := Status.Adventuring, assignment := Some(teamId))
                    else w.residents[j]
  {
    DepartureFrame(w, teamId, levelId);
    var i := TeamIndex(w.teams, teamId).value;
    DispatchEffect(w.residents, w.teams[i].members, GetLevel(levelId).value.staminaCost, teamId);
  }

  // ---------------------------------------------------------------------
  // Completion

  /** The level a team is exploring, when the team exists, is exploring and
      its level is in the catalog. */
  function ActiveLevel(ts: seq<Team>, teamId: string): Option<Level> {
    match TeamIndex(ts, teamId)
    case None => None
    case Some(i) =>
      if ts[i].status != Exploring then None
      else match ts[i].currentLevelId
        case None => None
        case Some(levelId) => GetLevel(levelId)
  }

  /** The stock once the reward lines whose kinds are in `done` have been
      credited through `addResource`. */
  function CreditLines(res: Bundle, cap: real, rewards: Bundle, done: set<ResourceKind>): Bundle
    requires done <= rewards.Keys
  {
    map k | k in res.Keys + done :: if k in done then Max(0.0, Min(Amount(res, k) + rewards[k], cap)) else res[k]
  }

  /** The return loop over `members`: each is marked idle with no assignment. */
  function Recall(rs: seq<Resident>, members: seq<string>): (r: seq<Resident>)
    ensures |r| == |rs|
  {
    if members == [] then rs
    else WithStatus(Recall(rs, members[..|members| - 1]), members[|members| - 1], Status.Idle, None)
  }

  /** Returning marks every member the lookups find idle with no assignment
      (duplicates included) and changes nobody's stamina or anything else. */
  lemma {:induction false} RecallEffect(rs: seq<Resident>, members: seq<string>)
    ensures |Recall(rs, members)| == |rs|
    ensures forall j :: 0 <= j < |rs| ==>
              Recall(rs, members)[j]
              == if Called(rs, members, j) then rs[j].(status := Status.Idle, assignment := None) else rs[j]
  {
    if members != [] {
      var n := |members| - 1;
      var m, prefix := members[n], members[..n];
      RecallEffect(rs, prefix);
      var before := Recall(rs, prefix);
      FirstIndexByKeys(rs, before, ResidentId, m);
      forall j | 0 <= j < |rs|
        ensures Recall(rs, members)[j]
                == if Called(rs, members, j) then rs[j].(status := Status.Idle, assignment := None) else rs[j]
      {
        assert rs[j].id in members <==> rs[j].id in prefix || rs[j].id == m;
      }
    }
  }

  /** `completeExploration`'s effect on the world; nothing when the team is
      not exploring a known level. */
  function Resolution(w: World, teamId: string, success: bool): World {
    match ActiveLevel(w.teams, teamId)
    case None => w
    case Some(level) =>
      var i := TeamIndex(w.teams, teamId).value;
      w.(resources := if success then CreditLines(w.resources, w.maxStorage, level.rewards, level.rewards.Keys)
                      else w.resources,
         completedLevels := if success then w.completedLevels + [level.id] else w.completedLevels,
         residents := Recall(w.residents, w.teams[i].members),
         teams := w.teams[i := w.teams[i].(status := TeamStatus.Idle, currentLevelId := None)],
         currentLevel := None)
  }

  /** What a completion does: on success each reward line is credited as
      `addResource` credits it and the level is recorded as completed; on
      failure neither; in both cases the team is idle with no level, its
      members are idle with no assignment and nobody regains stamina. */
  lemma ResolutionEffect(w: World, teamId: string, success: bool)
    requires ActiveLevel(w.teams, teamId).Some?
    ensures var w' := Resolution(w, teamId, success);
            var level := ActiveLevel(w.teams, teamId).value;
            var i := TeamIndex(w.teams, teamId).value;
            && (success ==> forall k :: Amount(w'.resources, k)
                                        == if k in level.rewards
                                           then Max(0.0, Min(Amount(w.resources, k) + level.rewards[k], w.maxStorage))
                                           else Amount(w.resources, k))
            && (success ==> w'.completedLevels == w.completedLevels + [level.id])
            && (!success ==> w'.resources == w.resources && w'.completedLevels == w.completedLevels)
            && w'.teams[i].status == TeamStatus.Idle && w'.teams[i].currentLevelId == None
            && w'.teams[i] == w.teams[i].(status := TeamStatus.Idle, currentLevelId := None)
            && |w'.teams| == |w.teams|
            && (forall j :: 0 <= j < |w.teams| && j != i ==> w'.teams[j] == w.teams[j])
            && w'.currentLevel == None
            && w'.maxStorage == w.maxStorage
            && |w'.residents| == |w.residents|
            && (forall j :: 0 <= j < |w.residents| ==> w'.residents[j].stamina == w.residents[j].stamina)
            && (forall j :: 0 <= j < |w.residents| && Called(w.residents, w.teams[i].members, j) ==>
                  w'.residents[j].status == Status.Idle && w'.residents[j].assignment == None)
  {
    ResolutionFrame(w, teamId, success);
    ResolutionRewards(w, teamId, success);
    var i := TeamIndex(w.teams, teamId).value;
    RecallEffect(w.residents, w.teams[i].members);
  }

  /** A completion credits the level's rewards and records the level exactly
      when it succeeds. */
  lemma ResolutionRewards(w: World, teamId: string, success: bool)
    requires ActiveLevel(w.teams, teamId).Some?
    ensures var w' := Resolution(w, teamId, success);
            var level := ActiveLevel(w.teams, teamId).value;
            && (success ==> forall k :: Amount(w'.resources, k)
                                        == if k in level.rewards
                                           then Max(0.0, Min(Amount(w.resources, k) + level.rewards[k], w.maxStorage))
                                           else Amount(w.resources, k))
            && (success ==> w'.completedLevels == w.completedLevels + [level.id])
            && (!success ==> w'.resources == w.resources && w'.completedLevels == w.completedLevels)
  {
  }

  /** A completion changes only the chosen team, which goes idle with no
      level, clears the current level and recalls the team's members. */
  lemma ResolutionFrame(w: World, teamId: string, success: bool)
    requires ActiveLevel(w.teams, teamId).Some?
    ensures var w' := Resolution(w, teamId, success);
            var i := TeamIndex(w.teams, teamId).value;
            && w'.teams[i] == w.teams[i].(status := TeamStatus.Idle, currentLevelId := None)
            && |w'.teams| == |w.teams|
            && (forall j :: 0 <= j < |w.teams| && j != i ==> w'.teams[j] == w.teams[j])
            && w'.currentLevel == None
            && w'.maxStorage == w.maxStorage
            && w'.residents == Recall(w.residents, w.teams[i].members)
  {
  }

  /** `simulateExploration` with the uniform sample given: completion
      succeeds iff the sample is below the success rate. */
  function Simulated(w: World, teamId: string, sample: real): World {
    match ActiveLevel(w.teams, teamId)
    case None => w
    case Some(level) =>
      Resolution(w, teamId, sample < SuccessRate(TeamPower(w.teams, w.residents, teamId), level.recommendedPower))
  }

  // ---------------------------------------------------------------------
  // Team states

  /** The team states the engine keeps: never in combat, holding a level
      exactly while exploring, and that level is in the catalog. */
  predicate SoundTeam(t: Team) {
    && t.status != InCombat
    && (t.status == Exploring <==> t.currentLevelId.Some?)
    && (t.currentLevelId.Some? ==> GetLevel(t.currentLevelId.value).Some?)
  }

  predicate SoundTeams(ts: seq<Team>) {
    forall t :: t in ts ==> SoundTeam(t)
  }

  lemma SoundUpdate(ts: seq<Team>, i: nat, t: Team)
    requires SoundTeams(ts) && i < |ts| && SoundTeam(t)
    ensures SoundTeams(ts[i := t])
  {
    forall u | u in ts[i := t] ensures SoundTeam(u) {
      var j :| 0 <= j < |ts| && ts[i := t][j] == u;
      assert j != i ==> u == ts[j];
    }
  }

  /** Every team operation keeps the team states sound: in particular no
      operation ever puts a team in combat. */
  lemma TeamsStaySound(w: World, teamId: string, levelId: string, success: bool, sample: real,
                       residentId: string, id: string, name: string)
    requires SoundTeams(w.teams)
    ensures SoundTeams([MainTeam()])
    ensures SoundTeams(Departure(w, teamId, levelId).teams)
    ensures SoundTeams(Resolution(w, teamId, success).teams)
    ensures SoundTeams(Simulated(w, teamId, sample).teams)
    ensures TeamIndex(w.teams, teamId).Some? ==> SoundTeams(Enlisted(w.teams, teamId, residentId))
    ensures CanDismiss(w.teams, teamId, residentId) ==> SoundTeams(Dismissed(w.teams, teamId, residentId))
    ensures SoundTeams(w.teams + [NewTeam(id, name)])
  {
    assert [MainTeam()][0] == MainTeam();
    match TeamIndex(w.teams, teamId)
    case None =>
    case Some(i) =>
      var t := w.teams[i];
      assert SoundTeam(t);
      if Startable(w.teams, w.residents, teamId, levelId) {
        SoundUpdate(w.teams, i, t.(status := Exploring, currentLevelId := Some(levelId)));
      }
      if ActiveLevel(w.teams, teamId).Some? {
        SoundUpdate(w.teams, i, t.(status := TeamStatus.Idle, currentLevelId := None));
      }
      SoundUpdate(w.teams, i, t.(members := t.members + [residentId]));
      if CanDismiss(w.teams, teamId, residentId) {
        var d := Dismissed(w.teams, teamId, residentId);
        SoundUpdate(w.teams, i, d[i]);
        assert d == w.teams[i := d[i]];
      }
  }

  /** A start followed by a completion brings the team back to idle with no
      level, and a successful one records the level as completed. */
  lemma RoundTrip(w: World, teamId: string, levelId: string, success: bool)
    requires SoundTeams(w.teams)
    requires Startable(w.teams, w.residents, teamId, levelId)
    ensures var w1 := Departure(w, teamId, levelId);
            var w2 := Resolution(w1, teamId, success);
            var i := TeamIndex(w.teams, teamId).value;
            && ActiveLevel(w1.teams, teamId) == GetLevel(levelId)
            && w2.teams[i] == w.teams[i]
            && (success <==> levelId in w2.completedLevels[|w.completedLevels|..])
  {
    var i := TeamIndex(w.teams, teamId).value;
    var w1 := Departure(w, teamId, levelId);
    FirstIndexByKeys(w.teams, w1.teams, TeamId, teamId);
    assert SoundTeam(w.teams[i]);
    var w2 := Resolution(w1, teamId, success);
    assert w2.completedLevels[|w.completedLevels|..] == if success then [levelId] else [];
  }

  // ---------------------------------------------------------------------
  // The store

  /** The adventure store; it spends stamina and sets statuses through the
      population registry and credits rewards through the ledger. */
  class AdventureEngine {
    const population: PopulationRegistry
    const ledger: Ledger
    var teams: seq<Team>
    var completedLevels: seq<string>
    var currentLevel: Option<Level>

    function Snapshot(): World
      reads this, population, ledger
    {
      World(teams, completedLevels, currentLevel, population.residents, ledger.resources, ledger.maxStorage)
    }

    constructor (population: PopulationRegistry, ledger: Ledger)
      requires ledger == population.buildingRegistry.ledger
      ensures this.population == population && this.ledger == ledger
      ensures teams == [MainTeam()] && completedLevels == [] && currentLevel == None
    {
      this.population := population;
      this.ledger := ledger;
      teams := [MainTeam()];
      completedLevels := [];
      currentLevel := None;
    }

    /** `getTeam`. */
    function GetTeam(id: string): (r: Option<Team>)
      reads this
      ensures r.Some? ==> r.value in teams && r.value.id == id
      ensures r.Some? ==> exists i :: 0 <= i < |teams| && teams[i] == r.value && forall j :: 0 <= j < i ==> teams[j].id != id
      ensures r.None? ==> forall t :: t in teams ==> t.id != id
    {
      match TeamIndex(teams, id)
      case None => None
      case Some(i) => Some(teams[i])
    }

    /** `createTeam`, with the new team's id given. */
    method CreateTeam(id: string, name: string) returns (team: Team)
      modifies this
      ensures team == NewTeam(id, name)
      ensures teams == old(teams) + [team]
      ensures completedLevels == old(completedLevels) && currentLevel == old(currentLevel)
    {
      team := NewTeam(id, name);
      teams := teams + [team];
    }

    /** `addMemberToTeam`. */
    method AddMemberToTeam(teamId: string, residentId: string) returns (ok: bool)
      modifies this
      ensures ok == CanEnlist(old(teams), population.residents, teamId, residentId)
      ensures teams == if ok then Enlisted(old(teams), teamId, residentId) else old(teams)
      ensures completedLevels == old(completedLevels) && currentLevel == old(currentLevel)
    {
      var index := TeamIndex(teams, teamId);
      var resident := population.GetResident(residentId);
      if index.None? || resident.None? || resident.value.status != Status.Idle {
        return false;
      }
      var team := teams[index.value];
      teams := teams[index.value := team.(members := team.members + [residentId])];
      return true;
    }

    /** `removeMemberFromTeam`. */
    method RemoveMemberFromTeam(teamId: string, residentId: string) returns (ok: bool)
      modifies this
      ensures ok == CanDismiss(old(teams), teamId, residentId)
      ensures teams == if ok then Dismissed(old(teams), teamId, residentId) else old(teams)
      ensures completedLevels == old(completedLevels) && currentLevel == old(currentLevel)
    {
      var index := TeamIndex(teams, teamId);
      if index.None? {
        return false;
      }
      var team := teams[index.value];
      var position := Position(team.members, residentId);
      if position.None? {
        return false;
      }
      var p := position.value;
      teams := teams[index.value := team.(members := team.members[..p] + team.members[p + 1..])];
      return true;
    }

    /** `calculateTeamPower`. */
    function CalculateTeamPower(teamId: string): (r: real)
      reads this, population
      ensures GetTeam(teamId).None? ==> r == 0.0
      ensures GetTeam(teamId).Some? ==> r == Power(population.residents, GetTeam(teamId).value.members)
      ensures (forall x :: x in population.residents ==> x.attack >= 0.0 && x.defense >= 0.0 && x.health >= 0.0)
              ==> r >= 0.0
    {
      assert (forall x :: x in population.residents ==> x.attack >= 0.0 && x.defense >= 0.0 && x.health >= 0.0)
             ==> TeamPower(teams, population.residents, teamId) >= 0.0 by {
        if TeamIndex(teams, teamId).Some? &&
           forall x :: x in population.residents ==> x.attack >= 0.0 && x.defense >= 0.0 && x.health >= 0.0 {
          PowerNonNegative(population.residents, teams[TeamIndex(teams, teamId).value].members);
        }
      }
      TeamPower(teams, population.residents, teamId)
    }

    /** `canStartExploration`: checks the team and the level, then scans the
        members and stops at the first that is missing or too tired. */
    method CanStartExploration(teamId: string, levelId: string) returns (ok: bool)
      ensures ok == Startable(teams, population.residents, teamId, levelId)
    {
      var index := TeamIndex(teams, teamId);
      var level := GetLevel(levelId);
      if index.None? || level.None? || teams[index.value].status != TeamStatus.Idle
         || |teams[index.value].members| == 0 {
        return false;
      }
      var members := teams[index.value].members;
      var cost := level.value.staminaCost;
      var i := 0;
      while i < |members|
        invariant 0 <= i <= |members|
        invariant forall j :: 0 <= j < i ==> CanSpend(population.residents, members[j], cost)
      {
        var resident := population.GetResident(members[i]);
        if resident.None? || resident.value.stamina < cost {
          return false;
        }
        i := i + 1;
      }
      return true;
    }

    /** `startExploration`. */
    method StartExploration(teamId: string, levelId: string) returns (ok: bool)
      modifies this, population
      ensures ok == Startable(old(teams), old(population.residents), teamId, levelId)
      ensures Snapshot() == Departure(old(Snapshot()), teamId, levelId)
    {
      ghost var w := Snapshot();
      ok := CanStartExploration(teamId, levelId);
      if !ok {
        return;
      }
      DepartureUnfolds(w, teamId, levelId);
      var index := TeamIndex(teams, teamId).value;
      var level := GetLevel(levelId).value;
      var members := teams[index].members;
      SendOff(members, level.staminaCost, teamId);
      var team := teams[index];
      teams := teams[index := team.(status := Exploring, currentLevelId := Some(levelId))];
      currentLevel := Some(level);
    }

    /** The departure loop of `startExploration`: each member in turn pays
        the stamina cost (a failed payment is ignored) and is marked
        adventuring for the team. */
    method SendOff(members: seq<string>, cost: real, teamId: string)
      modifies population
      ensures population.residents == Dispatch(old(population.residents), members, cost, teamId)
    {
      var i := 0;
      while i < |members|
        invariant 0 <= i <= |members|
        invariant population.residents == Dispatch(old(population.residents), members[..i], cost, teamId)
      {
        DispatchNext(old(population.residents), members, i, cost, teamId);
        var _ := population.ConsumeStamina(members[i], cost);
        population.UpdateResidentStatus(members[i], Status.Adventuring, Some(teamId));
        i := i + 1;
      }
      assert members[..i] == members;
    }

    /** `completeExploration`, with the outcome given. */
    method CompleteExploration(teamId: string, success: bool) returns (ok: bool)
      requires ledger.Valid()
      modifies this, population, ledger
      ensures ledger.Valid()
      ensures ok == ActiveLevel(old(teams), teamId).Some?
      ensures Snapshot() == Resolution(old(Snapshot()), teamId, success)
    {
      var index := TeamIndex(teams, teamId);
      if index.None? || teams[index.value].status != Exploring {
        return false;
      }
      var team := teams[index.value];
      var level := if team.currentLevelId.Some? then GetLevel(team.currentLevelId.value) else None;
      if level.None? {
        return false;
      }
      if success {
        CollectRewards(level.value.rewards);
        completedLevels := completedLevels + [level.value.id];
      }
      StandDown(team.members);
      teams := teams[index.value := team.(status := TeamStatus.Idle, currentLevelId := None)];
      currentLevel := None;
      return true;
    }

    /** The reward loop of `completeExploration`: every reward line credited
        through `addResource`. */
    method CollectRewards(rewards: Bundle)
      requires ledger.Valid()
      modifies ledger
      ensures ledger.Valid()
      ensures ledger.resources == CreditLines(old(ledger.resources), ledger.maxStorage, rewards, rewards.Keys)
      ensures ledger.maxStorage == old(ledger.maxStorage)
    {
      var pending := rewards.Keys;
      while pending != {}
        invariant pending <= rewards.Keys
        invariant ledger.Valid() && ledger.maxStorage == old(ledger.maxStorage)
        invariant ledger.resources == CreditLines(old(ledger.resources), ledger.maxStorage, rewards, rewards.Keys - pending)
        decreases pending
      {
        var k :| k in pending;
        ghost var done := rewards.Keys - pending;
        assert Amount(ledger.resources, k) == Amount(old(ledger.resources), k);
        var _ := ledger.AddResource(k, rewards[k]);
        pending := pending - {k};
        assert rewards.Keys - pending == done + {k};
      }
      assert rewards.Keys - pending == rewards.Keys;
    }

    /** The return loop of `completeExploration`: each member in turn marked
        idle with no assignment. */
    method StandDown(members: seq<string>)
      modifies population
      ensures population.residents == Recall(old(population.residents), members)
    {
      var i := 0;
      while i < |members|
        invariant 0 <= i <= |members|
        invariant population.residents == Recall(old(population.residents), members[..i])
      {
        population.UpdateResidentStatus(members[i], Status.Idle, None);
        assert members[..i + 1][..i] == members[..i];
        i := i + 1;
      }
      assert members[..i] == members;
    }

    /** `simulateExploration`, with the uniform sample given. */
    method SimulateExploration(teamId: string, sample: real)
      requires ledger.Valid()
      modifies this, population, ledger
      ensures ledger.Valid()
      ensures Snapshot() == Simulated(old(Snapshot()), teamId, sample)
    {
      var index := TeamIndex(teams, teamId);
      if index.None? || teams[index.value].status != Exploring {
        return;
      }
      var levelId := teams[index.value].currentLevelId;
      var level := if levelId.Some? then GetLevel(levelId.value) else None;
      if level.None? {
        return;
      }
      var teamPower := CalculateTeamPower(teamId);
      var successRate := SuccessRate(teamPower, level.value.recommendedPower);
      var success := sample < successRate;
      var _ := CompleteExploration(teamId, success);
    }

    /** `isLevelCompleted`: membership in the completed list. */
    function IsLevelCompleted(levelId: string): (r: bool)
      reads this
      ensures r <==> exists i :: 0 <= i < |completedLevels| && completedLevels[i] == levelId
    {
      levelId in completedLevels
    }

    /** `resetAdventures`. */
    method ResetAdventures()
      modifies this
      ensures teams == [MainTeam()] && completedLevels == [] && currentLevel == None
    {
      teams := [MainTeam()];
      completedLevels := [];
      currentLevel := None;
    }
  }
}

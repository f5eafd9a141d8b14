/** The scene navigator: a current scene id, a history of the scenes left
    behind, and moves along the choices of a fixed scene graph. The choice
    conditions and the scenes' enter hooks are closures the navigator only
    calls, so a condition's outcome is an input and a hook call is an output. */
module Scenes {
  import opened Wrappers

  /** A choice; `guarded` says whether it carries a condition. */
  datatype Choice = Choice(id: string, nextSceneId: string, guarded: bool)

  /** A scene; `hasOnEnter` says whether it carries an enter hook. */
  datatype Scene = Scene(id: string, choices: seq<Choice>, hasOnEnter: bool)

  datatype Attributes = Attributes(
    health: real,
    maxHealth: real,
    attack: real,
    defense: real,
    level: real,
    experience: real)

  /** A partial set of attributes: the fields the configuration sets. */
  datatype AttributeOverrides = AttributeOverrides(
    health: Option<real>,
    maxHealth: Option<real>,
    attack: Option<real>,
    defense: Option<real>,
    level: Option<real>,
    experience: Option<real>)

  datatype GameConfig = GameConfig(
    initialSceneId: string,
    initialAttributes: AttributeOverrides,
    scenes: map<string, Scene>)

  datatype FlagValue = BoolFlag(b: bool) | NumberFlag(n: real) | TextFlag(s: string)

  datatype GameState = GameState(
    currentSceneId: string,
    playerAttributes: Attributes,
    inventory: seq<string>,
    history: seq<string>,
    flags: map<string, FlagValue>)

  /** The attributes before the configuration's overrides. */
  function DefaultAttributes(): Attributes {
    Attributes(100.0, 100.0, 10.0, 5.0, 1.0, 0.0)
  }

  function Override(value: real, o: Option<real>): real {
    if o.Some? then o.value else value
  }

  /** The defaults with every field the configuration sets replaced. */
  function InitialAttributes(o: AttributeOverrides): Attributes {
    var d := DefaultAttributes();
    Attributes(Override(d.health, o.health), Override(d.maxHealth, o.maxHealth),
               Override(d.attack, o.attack), Override(d.defense, o.defense),
               Override(d.level, o.level), Override(d.experience, o.experience))
  }

  /** An override changes only its own field: every field is the
      configured value when one is set and the default otherwise, so with no
      overrides the defaults come back. */
  lemma OverridesAreFieldwise(o: AttributeOverrides)
    ensures InitialAttributes(o).health == if o.health.Some? then o.health.value else 100.0
    ensures InitialAttributes(o).maxHealth == if o.maxHealth.Some? then o.maxHealth.value else 100.0
    ensures InitialAttributes(o).attack == if o.attack.Some? then o.attack.value else 10.0
    ensures InitialAttributes(o).defense == if o.defense.Some? then o.defense.value else 5.0
    ensures InitialAttributes(o).level == if o.level.Some? then o.level.value else 1.0
    ensures InitialAttributes(o).experience == if o.experience.Some? then o.experience.value else 0.0
    ensures InitialAttributes(AttributeOverrides(None, None, None, None, None, None)) == DefaultAttributes()
  {
  }

  /** The state at the start and after `resetGame`. */
  function InitialState(config: GameConfig): (s: GameState)
    ensures s.currentSceneId == config.initialSceneId
    ensures s.playerAttributes == InitialAttributes(config.initialAttributes)
    ensures s.inventory == [] && s.history == [] && s.flags == map[]
  {
    GameState(config.initialSceneId, InitialAttributes(config.initialAttributes), [], [], map[])
  }

  /** `config.scenes[id]`, absent when the id names no scene. */
  function SceneOf(config: GameConfig, id: string): (r: Option<Scene>)
    ensures r.Some? <==> id in config.scenes
    ensures r.Some? ==> r.value == config.scenes[id]
  {
    if id in config.scenes then Some(config.scenes[id]) else None
  }

  /** `find` on the choice id: the position of the FIRST choice with `id`. */
  function ChoiceIndex(cs: seq<Choice>, id: string): Option<nat> {
    FirstIndex(cs, ChoiceId, id)
  }

  function ChoiceId(c: Choice): string {
    c.id
  }

  /** `goToScene`'s effect: to a known scene, the current id is pushed onto
      the history and the target becomes current; otherwise nothing. */
  function Visited(config: GameConfig, s: GameState, sceneId: string): GameState {
    if sceneId !in config.scenes then s
    else s.(history := s.history + [s.currentSceneId], currentSceneId := sceneId)
  }

  /** The scene `selectChoice` moves to, if it moves: the current scene is
      known, lists the choice, and the choice is unguarded or its condition
      holds. */
  function ChosenTarget(config: GameConfig, s: GameState, choiceId: string, conditionHolds: bool): Option<string> {
    match SceneOf(config, s.currentSceneId)
    case None => None
    case Some(scene) =>
      match ChoiceIndex(scene.choices, choiceId)
      case None => None
      case Some(i) =>
        var choice := scene.choices[i];
        if choice.guarded && !conditionHolds then None else Some(choice.nextSceneId)
  }

  /** `selectChoice`'s effect: `goToScene` on the chosen target. */
  function Chosen(config: GameConfig, s: GameState, choiceId: string, conditionHolds: bool): GameState {
    match ChosenTarget(config, s, choiceId, conditionHolds)
    case None => s
    case Some(target) => Visited(config, s, target)
  }

  /** A visit to a known scene grows the history by exactly the scene left
      and changes nothing but the history and the current id; a visit to an
      unknown id changes nothing. */
  lemma VisitEffect(config: GameConfig, s: GameState, sceneId: string)
    ensures var s' := Visited(config, s, sceneId);
            && (sceneId !in config.scenes ==> s' == s)
            && (sceneId in config.scenes ==>
                  && |s'.history| == |s.history| + 1
                  && s'.history[..|s.history|] == s.history
                  && s'.history[|s.history|] == s.currentSceneId
                  && s'.currentSceneId == sceneId
                  && s'.playerAttributes == s.playerAttributes
                  && s'.inventory == s.inventory && s'.flags == s.flags)
  {
  }

  /** `selectChoice` moves exactly along an edge of the scene graph: it moves
      iff the current scene is known, lists the choice, the choice's
      condition (if any) holds and its target is a known scene; the new scene
      is then the first such choice's target, and the state is otherwise what
      `goToScene` makes of it. */
  lemma ChoiceFollowsGraph(config: GameConfig, s: GameState, choiceId: string, conditionHolds: bool)
    ensures var s' := Chosen(config, s, choiceId, conditionHolds);
            (|s'.history| == |s.history| + 1)
            <==> (&& s.currentSceneId in config.scenes
                  && var cs := config.scenes[s.currentSceneId].choices;
                     && ChoiceIndex(cs, choiceId).Some?
                     && (cs[ChoiceIndex(cs, choiceId).value].guarded ==> conditionHolds)
                     && cs[ChoiceIndex(cs, choiceId).value].nextSceneId in config.scenes)
    ensures var s' := Chosen(config, s, choiceId, conditionHolds);
            |s'.history| == |s.history| + 1 ==>
              var c := config.scenes[s.currentSceneId].choices[ChoiceIndex(config.scenes[s.currentSceneId].choices, choiceId).value];
              && c.id == choiceId
              && s' == Visited(config, s, c.nextSceneId)
              && s'.currentSceneId == c.nextSceneId
    ensures var s' := Chosen(config, s, choiceId, conditionHolds);
            |s'.history| != |s.history| + 1 ==> s' == s
  {
  }

  /** The navigator's invariant: the history, followed by the current scene,
      is a trail that starts at the initial scene and, after its first
      entry, passes through known scenes only. */
  predicate Trail(config: GameConfig, s: GameState) {
    && (|s.history| == 0 ==> s.currentSceneId == config.initialSceneId)
    && (|s.history| > 0 ==> s.history[0] == config.initialSceneId && s.currentSceneId in config.scenes)
    && forall k :: 0 < k < |s.history| ==> s.history[k] in config.scenes
  }

  /** Every navigator operation keeps the trail. */
  lemma TrailPreserved(config: GameConfig, s: GameState, sceneId: string, choiceId: string, conditionHolds: bool)
    ensures Trail(config, InitialState(config))
    ensures Trail(config, s) ==> Trail(config, Visited(config, s, sceneId))
    ensures Trail(config, s) ==> Trail(config, Chosen(config, s, choiceId, conditionHolds))
  {
    if Trail(config, s) && sceneId in config.scenes {
      var s' := Visited(config, s, sceneId);
      forall k | 0 < k < |s'.history| ensures s'.history[k] in config.scenes {
        if k < |s.history| {
          assert s'.history[k] == s.history[k];
        }
      }
    }
    if Trail(config, s) {
      match ChosenTarget(config, s, choiceId, conditionHolds)
      case None =>
      case Some(target) =>
        var s' := Visited(config, s, target);
        forall k | 0 < k < |s'.history| ensures s'.history[k] in config.scenes {
          if k < |s.history| {
            assert s'.history[k] == s.history[k];
          }
        }
    }
  }

  /** The navigator state of one game, replaced or updated in place. */
  class Game {
    const config: GameConfig
    var state: GameState

    ghost predicate Valid()
      reads this
    {
      Trail(config, state)
    }

    constructor (config: GameConfig)
      ensures this.config == config && state == InitialState(config) && Valid()
    {
      this.config := config;
      state := InitialState(config);
      new;
      TrailPreserved(config, state, "", "", false);
    }

    /** `currentScene`: the current id's scene, if there is one. */
    function CurrentScene(): (r: Option<Scene>)
      reads this
      ensures r.Some? <==> state.currentSceneId in config.scenes
      ensures r.Some? ==> r.value == config.scenes[state.currentSceneId]
    {
      SceneOf(config, state.currentSceneId)
    }

    /** `goToScene`; `hookCalled` tells whether the target's enter hook is
        invoked. */
    method GoToScene(sceneId: string) returns (hookCalled: bool)
      requires Valid()
      modifies this
      ensures Valid()
      ensures state == Visited(config, old(state), sceneId)
      ensures hookCalled <==> sceneId in config.scenes && config.scenes[sceneId].hasOnEnter
    {
      TrailPreserved(config, state, sceneId, "", false);
      var scene := SceneOf(config, sceneId);
      if scene.None? {
        return false;
      }
      state := state.(history := state.history + [state.currentSceneId], currentSceneId := sceneId);
      hookCalled := scene.value.hasOnEnter;
    }

    /** `selectChoice`, with the outcome of the choice's condition given (it
        is read only when the choice has one). */
    method SelectChoice(choiceId: string, conditionHolds: bool) returns (hookCalled: bool)
      requires Valid()
      modifies this
      ensures Valid()
      ensures state == Chosen(config, old(state), choiceId, conditionHolds)
      ensures hookCalled <==> match ChosenTarget(config, old(state), choiceId, conditionHolds)
                              case None => false
                              case Some(target) => target in config.scenes && config.scenes[target].hasOnEnter
    {
      var scene := CurrentScene();
      if scene.None? {
        return false;
      }
      var index := ChoiceIndex(scene.value.choices, choiceId);
      if index.None? {
        return false;
      }
      var choice := scene.value.choices[index.value];
      if choice.guarded && !conditionHolds {
        return false;
      }
      hookCalled := GoToScene(choice.nextSceneId);
    }

    /** `resetGame`: the whole state replaced by the initial one. */
    method ResetGame()
      modifies this
      ensures Valid()
      ensures state == InitialState(config)
    {
      state := InitialState(config);
      TrailPreserved(config, state, "", "", false);
    }
  }
}

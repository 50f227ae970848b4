/**
 * GameManager's score, health and stage state as a value, the effect of
 * each of its operations on it, and what any sequence of gameplay events
 * does to it: points are never lost, exactly one stage stays active, and
 * health counts down to the fatal hit.
 */
module Progress {
  import opened PlayerRules

  /** A health indicator image: its normal colour, or the translucent red of a lost life. */
  datatype Tint = Normal | Lost

  datatype ManagerState = ManagerState(
    totalPoint: int,
    stagePoint: int,
    stageIndex: int,
    health: int,
    stages: seq<bool>,
    healthIcons: seq<Tint>,
    restartShown: bool,
    restartLabel: string,
    timeScale: int)

  const ClearLabel := "Game Clear!"
  const StompPoints := 100

  /** The number the point display shows every frame. */
  function Displayed(m: ManagerState): int {
    m.totalPoint + m.stagePoint
  }

  /** There is a stage after the current one. */
  predicate CanAdvance(m: ManagerState) {
    m.stageIndex < |m.stages| - 1
  }

  /** Exactly the stage at `i` is active. */
  predicate OnlyActive(stages: seq<bool>, i: int) {
    0 <= i < |stages| && forall j :: 0 <= j < |stages| ==> (stages[j] <==> j == i)
  }

  /**
   * NextStage: advance to the next stage if there is one, otherwise pause
   * and offer the restart button as "Game Clear!"; either way the stage's
   * points are banked.
   */
  function NextStageOf(m: ManagerState): (r: ManagerState)
    requires CanAdvance(m) ==> 0 <= m.stageIndex
    ensures Displayed(r) == Displayed(m) && r.totalPoint == Displayed(m) && r.stagePoint == 0
    ensures r.health == m.health && r.healthIcons == m.healthIcons && |r.stages| == |m.stages|
    ensures CanAdvance(m) ==>
      && r.stageIndex == m.stageIndex + 1
      && !r.stages[m.stageIndex] && r.stages[r.stageIndex]
      && (forall j :: 0 <= j < |m.stages| && j != m.stageIndex && j != r.stageIndex ==> r.stages[j] == m.stages[j])
      && r.timeScale == m.timeScale && r.restartShown == m.restartShown && r.restartLabel == m.restartLabel
    ensures !CanAdvance(m) ==>
      && r.stageIndex == m.stageIndex && r.stages == m.stages
      && r.timeScale == 0 && r.restartShown && r.restartLabel == ClearLabel
  {
    var banked := m.(totalPoint := m.totalPoint + m.stagePoint, stagePoint := 0);
    if CanAdvance(m) then
      banked.(stageIndex := m.stageIndex + 1,
              stages := m.stages[m.stageIndex := false][m.stageIndex + 1 := true])
    else
      banked.(timeScale := 0, restartLabel := ClearLabel, restartShown := true)
  }

  /** One step of NextStage keeps exactly one stage active, the one at the index. */
  lemma NextStageKeepsOneActive(m: ManagerState)
    requires OnlyActive(m.stages, m.stageIndex)
    ensures OnlyActive(NextStageOf(m).stages, NextStageOf(m).stageIndex)
  {
  }

  /** The hit that HealthDown cannot absorb: the player dies instead. */
  predicate Fatal(m: ManagerState) {
    m.health <= 1
  }

  /**
   * HealthDown: lose a life and tint its indicator while more than one is
   * left; otherwise keep health and show the restart button (the player's
   * death is the caller's side of this).
   */
  function HealthDownOf(m: ManagerState): (r: ManagerState)
    requires m.health > 1 ==> m.health <= |m.healthIcons|
    ensures r == m.(health := r.health, healthIcons := r.healthIcons, restartShown := r.restartShown)
    ensures |r.healthIcons| == |m.healthIcons|
    ensures !Fatal(m) ==>
      && r.health == m.health - 1 && r.healthIcons[r.health] == Lost
      && (forall j :: 0 <= j < |m.healthIcons| && j != r.health ==> r.healthIcons[j] == m.healthIcons[j])
      && r.restartShown == m.restartShown
    ensures Fatal(m) ==> r.health == m.health && r.healthIcons == m.healthIcons && r.restartShown
  {
    if m.health > 1 then
      m.(health := m.health - 1, healthIcons := m.healthIcons[m.health - 1 := Lost])
    else
      m.(restartShown := true)
  }

  /** An item pickup: only the stage points change, by the item's reward. */
  function CollectOf(m: ManagerState, name: string): (r: ManagerState)
    ensures r == m.(stagePoint := r.stagePoint)
    ensures Displayed(r) == Displayed(m) + Reward(name)
  {
    m.(stagePoint := m.stagePoint + Reward(name))
  }

  /** A successful attack on an enemy: only the stage points change, by 100. */
  function StompOf(m: ManagerState): (r: ManagerState)
    ensures r == m.(stagePoint := r.stagePoint)
    ensures Displayed(r) == Displayed(m) + StompPoints
  {
    m.(stagePoint := m.stagePoint + StompPoints)
  }

  function RestartOf(m: ManagerState): ManagerState {
    m.(timeScale := 1)
  }

  // ---------------------------------------------------------------- runs

  /** Gameplay events as the manager sees them: reaching the finish, picking up an item, stomping an enemy, being hurt (by an enemy or a hazard). */
  datatype Event = Finish | Pickup(name: string) | Stomp | Damage

  /** The scene's wiring: a current stage exists and every life has an indicator. */
  predicate Wired(m: ManagerState) {
    0 <= m.stageIndex < |m.stages| && m.health <= |m.healthIcons|
  }

  function StepOf(m: ManagerState, e: Event): (r: ManagerState)
    requires Wired(m)
    ensures Wired(r) && |r.stages| == |m.stages| && |r.healthIcons| == |m.healthIcons|
  {
    match e
    case Finish => NextStageOf(m)
    case Pickup(name) => CollectOf(m, name)
    case Stomp => StompOf(m)
    case Damage => HealthDownOf(m)
  }

  function RunOf(m: ManagerState, evs: seq<Event>): (r: ManagerState)
    requires Wired(m)
    ensures Wired(r) && |r.stages| == |m.stages| && |r.healthIcons| == |m.healthIcons|
    decreases |evs|
  {
    if evs == [] then m else RunOf(StepOf(m, evs[0]), evs[1..])
  }

  /** Points earned along `evs`: item rewards and 100 per stomp. */
  function Earned(evs: seq<Event>): int
    decreases |evs|
  {
    if evs == [] then 0
    else
      (match evs[0]
       case Pickup(name) => Reward(name)
       case Stomp => StompPoints
       case _ => 0)
      + Earned(evs[1..])
  }

  function Finishes(evs: seq<Event>): nat
    decreases |evs|
  {
    if evs == [] then 0 else (if evs[0].Finish? then 1 else 0) + Finishes(evs[1..])
  }

  function Hits(evs: seq<Event>): nat
    decreases |evs|
  {
    if evs == [] then 0 else (if evs[0].Damage? then 1 else 0) + Hits(evs[1..])
  }

  /** Number of hits along `evs` that land when no life is left to lose: each sends the death signal. */
  function Deaths(m: ManagerState, evs: seq<Event>): nat
    requires Wired(m)
    decreases |evs|
  {
    if evs == [] then 0
    else (if evs[0].Damage? && Fatal(m) then 1 else 0) + Deaths(StepOf(m, evs[0]), evs[1..])
  }

  function Min(a: int, b: int): int {
    if a <= b then a else b
  }

  function Max(a: int, b: int): int {
    if a >= b then a else b
  }

  /**
   * The displayed score is a ledger: it starts where it was and grows by
   * exactly the points earned, however pickups, stomps, hits and stage
   * changes interleave; banking at the finish moves points, never loses them.
   */
  lemma {:induction false} ScoreLedger(m: ManagerState, evs: seq<Event>)
    requires Wired(m)
    ensures Displayed(RunOf(m, evs)) == Displayed(m) + Earned(evs)
    decreases |evs|
  {
    if evs != [] {
      ScoreLedger(StepOf(m, evs[0]), evs[1..]);
    }
  }

  /**
   * Stages advance one per finish until the last one, exactly one stage is
   * active throughout, and time is frozen once a finish is reached on the
   * last stage.
   */
  lemma {:induction false} StageProgress(m: ManagerState, evs: seq<Event>)
    requires Wired(m) && OnlyActive(m.stages, m.stageIndex)
    ensures OnlyActive(RunOf(m, evs).stages, RunOf(m, evs).stageIndex)
    ensures RunOf(m, evs).stageIndex == Min(m.stageIndex + Finishes(evs), |m.stages| - 1)
    ensures RunOf(m, evs).timeScale == if m.stageIndex + Finishes(evs) >= |m.stages| then 0 else m.timeScale
    decreases |evs|
  {
    if evs != [] {
      var next := StepOf(m, evs[0]);
      if evs[0].Finish? {
        NextStageKeepsOneActive(m);
      }
      StageProgress(next, evs[1..]);
    }
  }

  /**
   * Health counts down by one per hit and never below 1; the lives lost are
   * exactly the indicators from the final health up to the initial one; and
   * the death signal fires on the hit that finds one life left and on every
   * later hit.
   */
  lemma {:induction false} HealthCountdown(m: ManagerState, evs: seq<Event>)
    requires Wired(m) && m.health >= 1
    ensures RunOf(m, evs).health == Max(1, m.health - Hits(evs))
    ensures Deaths(m, evs) == Max(0, Hits(evs) - (m.health - 1))
    ensures forall j :: 0 <= j < |m.healthIcons| ==>
      RunOf(m, evs).healthIcons[j] == if RunOf(m, evs).health <= j < m.health then Lost else m.healthIcons[j]
    decreases |evs|
  {
    if evs != [] {
      var next := StepOf(m, evs[0]);
      HealthCountdown(next, evs[1..]);
    }
  }
}

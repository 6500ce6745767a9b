/**
 * The player's animation table (src/demo/Player/spriteData.ts) over a
 * 60-column, 1-row sheet: four run cycles that loop, four rolls, four attacks
 * and four one-frame idles, nested by action then direction and reached
 * through dot-separated paths such as "move.right".
 */
module SpriteData {
  import opened Base

  /** Columns of the player's sheet (the `hFrames` of its texture). */
  const SheetColumns := 60

  /** `count` consecutive columns of row 0 starting at `from`. */
  function Row(from: int, count: nat): (r: seq<Frame>)
    ensures |r| == count
    ensures forall i :: 0 <= i < count ==> r[i] == Frame(from + i, 0)
  {
    seq(count, i => Frame(from + i, 0))
  }

  const RunRight := Animation(Row(0, 6), true)
  const RunLeft := Animation(Row(12, 6), true)
  const RunUp := Animation(Row(6, 6), true)
  const RunDown := Animation(Row(18, 6), true)

  const RollRight := Animation(Row(40, 5), false)
  const RollLeft := Animation(Row(50, 5), false)
  /** The up roll shows column 45 twice. */
  const RollUp := Animation([Frame(45, 0)] + Row(45, 4), false)
  const RollDown := Animation(Row(55, 5), false)

  const AttackRight := Animation(Row(24, 4), false)
  const AttackUp := Animation(Row(28, 4), false)
  const AttackLeft := Animation(Row(32, 4), false)
  const AttackDown := Animation(Row(36, 4), false)

  const IdleRight := Animation([Frame(0, 0)], false)
  const IdleUp := Animation([Frame(6, 0)], false)
  const IdleLeft := Animation([Frame(12, 0)], false)
  const IdleDown := Animation([Frame(18, 0)], false)

  /** `playerAnimationsMap`, flattened: each action group and each action.direction path. */
  const PlayerAnimations: AnimationSet := map[
    "move" := Group,
    "move.right" := Clip(RunRight), "move.left" := Clip(RunLeft),
    "move.up" := Clip(RunUp), "move.down" := Clip(RunDown),
    "idle" := Group,
    "idle.right" := Clip(IdleRight), "idle.left" := Clip(IdleLeft),
    "idle.up" := Clip(IdleUp), "idle.down" := Clip(IdleDown),
    "attack" := Group,
    "attack.right" := Clip(AttackRight), "attack.left" := Clip(AttackLeft),
    "attack.up" := Clip(AttackUp), "attack.down" := Clip(AttackDown),
    "roll" := Group,
    "roll.right" := Clip(RollRight), "roll.left" := Clip(RollLeft),
    "roll.up" := Clip(RollUp), "roll.down" := Clip(RollDown)
  ]

  /** Every frame of the table lies on the sheet's single row. */
  predicate OnSheet(a: Animation)
  {
    forall i :: 0 <= i < |a.frames| ==> 0 <= a.frames[i].h < SheetColumns && a.frames[i].v == 0
  }

  /**
   * Each action's four directions share a shape: runs loop over 6 frames,
   * attacks play 4 and rolls 5 frames once, idles show 1 frame; every frame
   * is on the sheet.
   */
  lemma PlayerAnimationsShape(dir: string)
    requires dir in {"right", "left", "up", "down"}
    ensures "move." + dir in PlayerAnimations && "idle." + dir in PlayerAnimations
    ensures "attack." + dir in PlayerAnimations && "roll." + dir in PlayerAnimations
    ensures PlayerAnimations["move." + dir].Clip? && PlayerAnimations["move." + dir].animation.loop
    ensures |PlayerAnimations["move." + dir].animation.frames| == 6
    ensures PlayerAnimations["attack." + dir].Clip? && !PlayerAnimations["attack." + dir].animation.loop
    ensures |PlayerAnimations["attack." + dir].animation.frames| == 4
    ensures PlayerAnimations["roll." + dir].Clip? && !PlayerAnimations["roll." + dir].animation.loop
    ensures |PlayerAnimations["roll." + dir].animation.frames| == 5
    ensures PlayerAnimations["idle." + dir].Clip? && |PlayerAnimations["idle." + dir].animation.frames| == 1
    ensures !PlayerAnimations["idle." + dir].animation.loop
    ensures OnSheet(PlayerAnimations["move." + dir].animation) && OnSheet(PlayerAnimations["attack." + dir].animation)
    ensures OnSheet(PlayerAnimations["roll." + dir].animation) && OnSheet(PlayerAnimations["idle." + dir].animation)
  {
    if dir == "right" {
      assert "move." + dir == "move.right" && "idle." + dir == "idle.right";
      assert "attack." + dir == "attack.right" && "roll." + dir == "roll.right";
      RightEntries();
    } else if dir == "left" {
      assert "move." + dir == "move.left" && "idle." + dir == "idle.left";
      assert "attack." + dir == "attack.left" && "roll." + dir == "roll.left";
      LeftEntries();
    } else if dir == "up" {
      assert "move." + dir == "move.up" && "idle." + dir == "idle.up";
      assert "attack." + dir == "attack.up" && "roll." + dir == "roll.up";
      UpEntries();
    } else {
      assert "move." + dir == "move.down" && "idle." + dir == "idle.down";
      assert "attack." + dir == "attack.down" && "roll." + dir == "roll.down";
      DownEntries();
    }
  }

  /** The four clips stored for each direction, and their shapes. */
  lemma RightEntries()
    ensures "move.right" in PlayerAnimations && PlayerAnimations["move.right"] == Clip(RunRight)
    ensures "idle.right" in PlayerAnimations && PlayerAnimations["idle.right"] == Clip(IdleRight)
    ensures "attack.right" in PlayerAnimations && PlayerAnimations["attack.right"] == Clip(AttackRight)
    ensures "roll.right" in PlayerAnimations && PlayerAnimations["roll.right"] == Clip(RollRight)
    ensures RunRight.loop && |RunRight.frames| == 6 && OnSheet(RunRight)
    ensures !IdleRight.loop && |IdleRight.frames| == 1 && OnSheet(IdleRight)
    ensures !AttackRight.loop && |AttackRight.frames| == 4 && OnSheet(AttackRight)
    ensures !RollRight.loop && |RollRight.frames| == 5 && OnSheet(RollRight)
  {
  }

  lemma LeftEntries()
    ensures "move.left" in PlayerAnimations && PlayerAnimations["move.left"] == Clip(RunLeft)
    ensures "idle.left" in PlayerAnimations && PlayerAnimations["idle.left"] == Clip(IdleLeft)
    ensures "attack.left" in PlayerAnimations && PlayerAnimations["attack.left"] == Clip(AttackLeft)
    ensures "roll.left" in PlayerAnimations && PlayerAnimations["roll.left"] == Clip(RollLeft)
    ensures RunLeft.loop && |RunLeft.frames| == 6 && OnSheet(RunLeft)
    ensures !IdleLeft.loop && |IdleLeft.frames| == 1 && OnSheet(IdleLeft)
    ensures !AttackLeft.loop && |AttackLeft.frames| == 4 && OnSheet(AttackLeft)
    ensures !RollLeft.loop && |RollLeft.frames| == 5 && OnSheet(RollLeft)
  {
  }

  lemma UpEntries()
    ensures "move.up" in PlayerAnimations && PlayerAnimations["move.up"] == Clip(RunUp)
    ensures "idle.up" in PlayerAnimations && PlayerAnimations["idle.up"] == Clip(IdleUp)
    ensures "attack.up" in PlayerAnimations && PlayerAnimations["attack.up"] == Clip(AttackUp)
    ensures "roll.up" in PlayerAnimations && PlayerAnimations["roll.up"] == Clip(RollUp)
    ensures RunUp.loop && |RunUp.frames| == 6 && OnSheet(RunUp)
    ensures !IdleUp.loop && |IdleUp.frames| == 1 && OnSheet(IdleUp)
    ensures !AttackUp.loop && |AttackUp.frames| == 4 && OnSheet(AttackUp)
    ensures !RollUp.loop && |RollUp.frames| == 5 && OnSheet(RollUp)
  {
  }

  lemma DownEntries()
    ensures "move.down" in PlayerAnimations && PlayerAnimations["move.down"] == Clip(RunDown)
    ensures "idle.down" in PlayerAnimations && PlayerAnimations["idle.down"] == Clip(IdleDown)
    ensures "attack.down" in PlayerAnimations && PlayerAnimations["attack.down"] == Clip(AttackDown)
    ensures "roll.down" in PlayerAnimations && PlayerAnimations["roll.down"] == Clip(RollDown)
    ensures RunDown.loop && |RunDown.frames| == 6 && OnSheet(RunDown)
    ensures !IdleDown.loop && |IdleDown.frames| == 1 && OnSheet(IdleDown)
    ensures !AttackDown.loop && |AttackDown.frames| == 4 && OnSheet(AttackDown)
    ensures !RollDown.loop && |RollDown.frames| == 5 && OnSheet(RollDown)
  {
  }

  /** Each idle frame is the first frame of the run cycle in the same direction. */
  lemma IdleStartsRun()
    ensures IdleRight.frames[0] == RunRight.frames[0] && IdleLeft.frames[0] == RunLeft.frames[0]
    ensures IdleUp.frames[0] == RunUp.frames[0] && IdleDown.frames[0] == RunDown.frames[0]
  {
  }
}

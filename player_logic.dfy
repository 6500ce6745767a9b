/**
 * The player script's decisions (src/demo/Player/Player.tsx) as functions of
 * its refs and of what it reads: each tick, in "move", it turns the input
 * axes into a heading, picks a run or idle animation and accelerates or
 * decelerates, then switches to "attack" or "roll" when asked; in "attack"
 * and "roll" it starts the matching animation once, with an end callback
 * that returns it to "move".
 */
module PlayerLogic {
  import opened Base
  import AL = AnimationLogic
  import MC = MovableComponent
  import SD = SpriteData
  import MO = Motion

  const RollSpeed: real := 150.0

  datatype Mode = Moving | Attacking | Rolling

  /** The script's refs: `state`, `lastDirection`, `lastInputVector`. */
  datatype ScriptState = ScriptState(mode: Mode, lastDirection: Vec3, lastInput: Vec3)

  const InitialScript := ScriptState(Moving, Vec3(1.0, 0.0, 0.0), Origin)

  predicate Unit(x: real)
  {
    x == -1.0 || x == 0.0 || x == 1.0
  }

  /** Input axes: each of x and y is -1, 0 or 1, and z is 0. */
  predicate Axes(v: Vec3)
  {
    Unit(v.x) && Unit(v.y) && v.z == 0.0
  }

  /** A heading: axes that are not both zero. */
  predicate Heading(d: Vec3)
  {
    Axes(d) && (d.x != 0.0 || d.y != 0.0)
  }

  /** The input vector: right minus left, up minus down. */
  function InputVector(right: int, left: int, up: int, down: int): (v: Vec3)
    ensures 0 <= right <= 1 && 0 <= left <= 1 && 0 <= up <= 1 && 0 <= down <= 1 ==> Axes(v)
    ensures v.x == 0.0 <==> right == left
    ensures v.y == 0.0 <==> up == down
  {
    Vec3((right - left) as real, (up - down) as real, 0.0)
  }

  /**
   * The heading after a non-zero input: a horizontal input takes precedence
   * (keeping the vertical component), a purely vertical input points straight
   * up or down; a zero input keeps the last heading.
   */
  function NextDirection(last: Vec3, input: Vec3): (d: Vec3)
    ensures input.x != 0.0 ==> d.x == (if input.x > 0.0 then 1.0 else -1.0) && d.y == input.y
    ensures input.x == 0.0 && input.y != 0.0 ==> d.x == 0.0 && d.y == (if input.y > 0.0 then 1.0 else -1.0)
    ensures input.x == 0.0 && input.y == 0.0 ==> d == last
    ensures Heading(last) && Axes(input) ==> Heading(d)
  {
    if input.y > 0.0 && input.x == 0.0 then Vec3(0.0, 1.0, 0.0)
    else if input.y < 0.0 && input.x == 0.0 then Vec3(0.0, -1.0, 0.0)
    else if input.x > 0.0 then Vec3(1.0, input.y, 0.0)
    else if input.x < 0.0 then Vec3(-1.0, input.y, 0.0)
    else last
  }

  /** What the script asks of the movement controller. */
  datatype Command =
    | AccelerateTowards(direction: Vec3)
    | DecelerateTowards(direction: Vec3)
    | MoveTowards(direction: Vec3, speed: real)
    | NoCommand

  /** One `setAnimation(path, callback?)` call. */
  datatype Request = Request(path: string, callback: Option<EndCallback>)

  /** A tick's outcome: the new refs, the controller command, the animation calls in order. */
  datatype Step = Step(script: ScriptState, command: Command, requests: seq<Request>)

  /** The run animation for a non-zero input (the four tests exclude each other). */
  function MoveRequests(input: Vec3): (r: seq<Request>)
    // a horizontal component decides the run; only a purely vertical input runs up or down
    ensures input.x > 0.0 ==> r == [Request("move.right", None)]
    ensures input.x < 0.0 ==> r == [Request("move.left", None)]
    ensures input.x == 0.0 && input.y > 0.0 ==> r == [Request("move.up", None)]
    ensures input.x == 0.0 && input.y < 0.0 ==> r == [Request("move.down", None)]
    ensures input.x == 0.0 && input.y == 0.0 ==> r == []
  {
    if input.y > 0.0 && input.x == 0.0 then [Request("move.up", None)]
    else if input.y < 0.0 && input.x == 0.0 then [Request("move.down", None)]
    else if input.x > 0.0 then [Request("move.right", None)]
    else if input.x < 0.0 then [Request("move.left", None)]
    else []
  }

  /** One independent test: when it holds, the call is made after the earlier ones. */
  function When(reqs: seq<Request>, test: bool, path: string, cb: Option<EndCallback>): seq<Request>
  {
    if test then reqs + [Request(path, cb)] else reqs
  }

  /** Four independent tests on a heading, in the order up, down, right, left: the last call wins. */
  function FacingRequests(d: Vec3, up: string, down: string, right: string, left: string, cb: Option<EndCallback>): (r: seq<Request>)
    ensures Heading(d) ==> 1 <= |r| <= 2
    ensures forall i :: 0 <= i < |r| ==> r[i].path in {up, down, right, left} && r[i].callback == cb
    ensures d.x > 0.0 ==> |r| > 0 && r[|r| - 1].path == right
    ensures d.x < 0.0 ==> |r| > 0 && r[|r| - 1].path == left
    ensures d.x == 0.0 && d.y > 0.0 ==> r == [Request(up, cb)]
    ensures d.x == 0.0 && d.y < 0.0 ==> r == [Request(down, cb)]
    ensures d.x != 0.0 && d.y == 0.0 ==> |r| == 1
    ensures |r| == 2 ==> r[0].path == (if d.y > 0.0 then up else down)
  {
    When(When(When(When([], d.y > 0.0, up, cb), d.y < 0.0, down, cb), d.x > 0.0, right, cb), d.x < 0.0, left, cb)
  }

  /** The roll animation: the first of up, down, right, left that applies. */
  function RollRequests(d: Vec3): (r: seq<Request>)
    ensures Heading(d) ==> |r| == 1
    ensures |r| <= 1
    // the vertical sign decides first, then the horizontal one; every roll returns to "move"
    ensures d.y > 0.0 ==> r == [Request("roll.up", Some(BackToMove))]
    ensures d.y < 0.0 ==> r == [Request("roll.down", Some(BackToMove))]
    ensures d.y == 0.0 && d.x > 0.0 ==> r == [Request("roll.right", Some(BackToMove))]
    ensures d.y == 0.0 && d.x < 0.0 ==> r == [Request("roll.left", Some(BackToMove))]
    ensures d.x == 0.0 && d.y == 0.0 ==> r == []
  {
    if d.y > 0.0 then [Request("roll.up", Some(BackToMove))]
    else if d.y < 0.0 then [Request("roll.down", Some(BackToMove))]
    else if d.x > 0.0 then [Request("roll.right", Some(BackToMove))]
    else if d.x < 0.0 then [Request("roll.left", Some(BackToMove))]
    else []
  }

  /** `String.prototype.includes`. */
  predicate Contains(s: string, sub: string)
  {
    exists i {:trigger s[i..]} :: 0 <= i <= |s| - |sub| && s[i..][..|sub|] == sub
  }

  /** `getAnimation()?.includes(sub)`: false when no animation is set. */
  predicate Includes(path: Option<string>, sub: string)
  {
    path.Some? && Contains(path.value, sub)
  }

  lemma PrefixContained(s: string, sub: string)
    requires |sub| <= |s| && s[..|sub|] == sub
    ensures Contains(s, sub)
  {
    assert s[0..][..|sub|] == sub;
  }

  lemma MissingCharNotContained(s: string, sub: string, c: char)
    requires c in sub && c !in s
    ensures !Contains(s, sub)
  {
    var j :| 0 <= j < |sub| && sub[j] == c;
    forall i | 0 <= i <= |s| - |sub|
      ensures s[i..][..|sub|] != sub
    {
      assert s[i..][..|sub|][j] == s[i + j] != c;
    }
  }

  const MovePaths := {"move.up", "move.down", "move.right", "move.left"}
  const IdlePaths := {"idle.up", "idle.down", "idle.right", "idle.left"}
  const AttackPaths := {"attack.up", "attack.down", "attack.right", "attack.left"}
  const RollPaths := {"roll.up", "roll.down", "roll.right", "roll.left"}

  /** A path that starts with `word` and lacks a character of `other` names the one and not the other. */
  lemma NamesOnly(p: string, word: string, other: string, c: char)
    requires |word| <= |p| && p[..|word|] == word && c in other && c !in p
    ensures Contains(p, word) && !Contains(p, other)
  {
    PrefixContained(p, word);
    MissingCharNotContained(p, other, c);
  }

  /** Run and idle paths mention neither action. */
  lemma RunOrIdlePathGuards(p: string)
    requires p in MovePaths + IdlePaths
    ensures !Contains(p, "attack") && !Contains(p, "roll")
  {
    if p in MovePaths {
      RunPathGuards(p);
    } else {
      IdlePathGuards(p);
    }
  }

  lemma RunPathGuards(p: string)
    requires p in MovePaths
    ensures !Contains(p, "attack") && !Contains(p, "roll")
  {
    if p == "move.up" {
      MissingCharNotContained("move.up", "attack", 'k');
      MissingCharNotContained("move.up", "roll", 'r');
    } else if p == "move.down" {
      MissingCharNotContained("move.down", "attack", 'k');
      MissingCharNotContained("move.down", "roll", 'r');
    } else if p == "move.right" {
      MissingCharNotContained("move.right", "attack", 'k');
      MissingCharNotContained("move.right", "roll", 'l');
    } else {
      MissingCharNotContained("move.left", "attack", 'k');
      MissingCharNotContained("move.left", "roll", 'r');
    }
  }

  lemma IdlePathGuards(p: string)
    requires p in IdlePaths
    ensures !Contains(p, "attack") && !Contains(p, "roll")
  {
    if p == "idle.up" {
      MissingCharNotContained("idle.up", "attack", 'k');
      MissingCharNotContained("idle.up", "roll", 'r');
    } else if p == "idle.down" {
      MissingCharNotContained("idle.down", "attack", 'k');
      MissingCharNotContained("idle.down", "roll", 'r');
    } else if p == "idle.right" {
      MissingCharNotContained("idle.right", "attack", 'k');
      MissingCharNotContained("idle.right", "roll", 'o');
    } else {
      MissingCharNotContained("idle.left", "attack", 'k');
      MissingCharNotContained("idle.left", "roll", 'r');
    }
  }

  /** Attack paths mention "attack" and not "roll". */
  lemma AttackPathGuards(p: string)
    requires p in AttackPaths
    ensures Contains(p, "attack") && !Contains(p, "roll")
  {
    if p == "attack.up" {
      NamesOnly(p, "attack", "roll", 'r');
    } else if p == "attack.down" {
      NamesOnly(p, "attack", "roll", 'r');
    } else if p == "attack.right" {
      NamesOnly(p, "attack", "roll", 'o');
    } else {
      NamesOnly(p, "attack", "roll", 'r');
    }
  }

  /** Roll paths mention "roll" and not "attack". */
  lemma RollPathGuards(p: string)
    requires p in RollPaths
    ensures Contains(p, "roll") && !Contains(p, "attack")
  {
    if p == "roll.up" {
      NamesOnly(p, "roll", "attack", 'k');
    } else if p == "roll.down" {
      NamesOnly(p, "roll", "attack", 'k');
    } else if p == "roll.right" {
      NamesOnly(p, "roll", "attack", 'k');
    } else {
      NamesOnly(p, "roll", "attack", 'k');
    }
  }

  /** The "move" case: axes, heading, animation, controller, then the action buttons (roll last, so it wins). */
  function MoveStep(s: ScriptState, input: Vec3, attackPressed: bool, rollPressed: bool): (r: Step)
    ensures r.script.lastInput == input
    ensures r.script.mode == (if rollPressed then Rolling else if attackPressed then Attacking else Moving)
    ensures input.x != 0.0 || input.y != 0.0 ==>
              r.command == AccelerateTowards(r.script.lastDirection) && r.requests == MoveRequests(input)
    ensures input.x == 0.0 && input.y == 0.0 ==>
              r.script.lastDirection == s.lastDirection && r.command == DecelerateTowards(s.lastDirection)
    // a non-zero input turns the heading; a zero one shows the idle animation of the kept heading
    ensures input.x != 0.0 || input.y != 0.0 ==> r.script.lastDirection == NextDirection(s.lastDirection, input)
    ensures input.x == 0.0 && input.y == 0.0 ==>
              r.requests == FacingRequests(s.lastDirection, "idle.up", "idle.down", "idle.right", "idle.left", None)
  {
    var mode := if rollPressed then Rolling else if attackPressed then Attacking else Moving;
    if input.x != 0.0 || input.y != 0.0 then
      var d := NextDirection(s.lastDirection, input);
      Step(ScriptState(mode, d, input), AccelerateTowards(d), MoveRequests(input))
    else
      Step(ScriptState(mode, s.lastDirection, input), DecelerateTowards(s.lastDirection),
           FacingRequests(s.lastDirection, "idle.up", "idle.down", "idle.right", "idle.left", None))
  }

  /** The buttons decide only the next mode: the heading, command and calls of a "move" tick ignore them. */
  lemma MoveStepIgnoresButtons(s: ScriptState, s': ScriptState, input: Vec3, attackPressed: bool, rollPressed: bool)
    requires s.lastDirection == s'.lastDirection
    ensures var a := MoveStep(s, input, attackPressed, rollPressed);
            var b := MoveStep(s', input, false, false);
            a.script.lastDirection == b.script.lastDirection && a.command == b.command && a.requests == b.requests
  {
  }

  /** The "attack" case: once the attack animation is playing nothing happens; before, decelerate and start it. */
  function AttackStep(s: ScriptState, current: Option<string>): (r: Step)
    ensures r.script == s
    ensures Includes(current, "attack") ==> r.command == NoCommand && r.requests == []
    ensures !Includes(current, "attack") ==> r.command == DecelerateTowards(s.lastDirection)
    ensures !Includes(current, "attack") ==>
              r.requests == FacingRequests(s.lastDirection, "attack.up", "attack.down", "attack.right", "attack.left",
                                           Some(BackToMove))
  {
    if Includes(current, "attack") then Step(s, NoCommand, [])
    else
      Step(s, DecelerateTowards(s.lastDirection),
           FacingRequests(s.lastDirection, "attack.up", "attack.down", "attack.right", "attack.left", Some(BackToMove)))
  }

  /** The "roll" case: once the roll animation is playing nothing happens; before, move at the roll speed and start it. */
  function RollStep(s: ScriptState, current: Option<string>, rollSpeed: real): (r: Step)
    ensures r.script == s
    ensures Includes(current, "roll") ==> r.command == NoCommand && r.requests == []
    ensures !Includes(current, "roll") ==> r.command == MoveTowards(s.lastDirection, rollSpeed)
    ensures !Includes(current, "roll") ==> r.requests == RollRequests(s.lastDirection)
  {
    if Includes(current, "roll") then Step(s, NoCommand, [])
    else Step(s, MoveTowards(s.lastDirection, rollSpeed), RollRequests(s.lastDirection))
  }

  /** One tick of the script, dispatched on its state; `current` is the animation playing. */
  function ScriptStep(s: ScriptState, current: Option<string>, input: Vec3, attackPressed: bool, rollPressed: bool,
                      rollSpeed: real): (r: Step)
    // only a "move" tick reads the input and changes the script; an attack or a roll ends through its callback
    ensures s.mode == Moving ==> r.script.lastInput == input
    ensures s.mode != Moving ==> r.script == s
    // an attack or roll tick commands the controller exactly until its own animation plays
    ensures s.mode == Attacking ==> (r.command == NoCommand <==> Includes(current, "attack"))
    ensures s.mode == Rolling ==> (r.command == NoCommand <==> Includes(current, "roll"))
  {
    match s.mode
    case Moving => MoveStep(s, input, attackPressed, rollPressed)
    case Attacking => AttackStep(s, current)
    case Rolling => RollStep(s, current, rollSpeed)
  }

  /** `handleAttackEnded` / `handleRollEnded`. */
  function Ended(s: ScriptState, cb: EndCallback): (r: ScriptState)
    ensures cb == BackToMove ==> r == s.(mode := Moving)
    ensures cb != BackToMove ==> r == s
  {
    if cb == BackToMove then s.(mode := Moving) else s
  }

  /** The animation player after the tick's calls, in order. */
  function Requested(ap: AL.PlayerState, reqs: seq<Request>): AL.PlayerState
    decreases |reqs|
  {
    if reqs == [] then ap
    else
      var last := reqs[|reqs| - 1];
      AL.SetAnimation(Requested(ap, reqs[..|reqs| - 1]), last.path, last.callback)
  }

  /** The movement controller after the tick's command. */
  function Commanded(ms: MO.MoverState, cmd: Command): MO.MoverState
  {
    match cmd
    case AccelerateTowards(d) => MC.AcceleratedTo(ms, d)
    case DecelerateTowards(d) => MC.DeceleratedTo(ms, d)
    case MoveTowards(d, speed) => MC.MovedTo(ms, d, speed)
    case NoCommand => ms
  }

  /** The game object's direction after the command (every command passes its direction on). */
  function Steered(direction: Vec3, provided: bool, cmd: Command): Vec3
  {
    if cmd.NoCommand? || !provided then direction else cmd.direction
  }

  /**
   * Ends of a sequence of calls: the last call's path is current, the
   * display time is untouched, and the step restarts unless the path was
   * already current.
   */
  lemma {:induction false} RequestedEnd(ap: AL.PlayerState, reqs: seq<Request>)
    requires |reqs| > 0
    ensures Requested(ap, reqs).path == Some(reqs[|reqs| - 1].path)
    ensures Requested(ap, reqs).elapsed == ap.elapsed
    ensures reqs[|reqs| - 1].callback.Some? ==> Requested(ap, reqs).callback == reqs[|reqs| - 1].callback
    ensures Requested(ap, reqs[..|reqs| - 1]).path != Some(reqs[|reqs| - 1].path) ==> Requested(ap, reqs).step == 0
    decreases |reqs|
  {
    if |reqs| > 1 {
      RequestedEnd(ap, reqs[..|reqs| - 1]);
    }
  }

  /** Appending a call applies it after the others. */
  lemma RequestedSnoc(ap: AL.PlayerState, reqs: seq<Request>, r: Request)
    ensures Requested(ap, reqs + [r]) == AL.SetAnimation(Requested(ap, reqs), r.path, r.callback)
  {
    assert (reqs + [r])[..|reqs|] == reqs;
  }

  /** A tick keeps the heading a heading, given input axes. */
  lemma StepKeepsHeading(s: ScriptState, current: Option<string>, input: Vec3, attackPressed: bool, rollPressed: bool,
                         rollSpeed: real)
    requires Heading(s.lastDirection) && Axes(input)
    ensures Heading(ScriptStep(s, current, input, attackPressed, rollPressed, rollSpeed).script.lastDirection)
  {
  }

  /** Pressing both buttons in "move" starts a roll: the roll test comes last. */
  lemma RollWinsOverAttack(s: ScriptState, current: Option<string>, input: Vec3, rollSpeed: real)
    requires s.mode == Moving
    ensures ScriptStep(s, current, input, true, true, rollSpeed).script.mode == Rolling
  {
  }

  /**
   * A "move" tick always sets exactly a run or idle animation, and that
   * path names neither action, so the next attack or roll tick starts its
   * animation.
   */
  lemma MoveStepShowsRunOrIdle(s: ScriptState, input: Vec3, attackPressed: bool, rollPressed: bool, ap: AL.PlayerState)
    requires Heading(s.lastDirection) && Axes(input)
    ensures var r := MoveStep(s, input, attackPressed, rollPressed);
            |r.requests| > 0 &&
            (forall i :: 0 <= i < |r.requests| ==> r.requests[i].path in MovePaths + IdlePaths) &&
            !Includes(Requested(ap, r.requests).path, "attack") && !Includes(Requested(ap, r.requests).path, "roll")
  {
    var r := MoveStep(s, input, attackPressed, rollPressed);
    RequestedEnd(ap, r.requests);
    RunOrIdlePathGuards(r.requests[|r.requests| - 1].path);
  }

  /**
   * The first attack tick starts an attack animation with the end callback
   * from its first frame, after which the guard holds and further attack
   * ticks do nothing.
   */
  lemma AttackStepSettles(s: ScriptState, ap: AL.PlayerState)
    requires s.mode == Attacking && Heading(s.lastDirection) && !Includes(ap.path, "attack")
    ensures var r := AttackStep(s, ap.path);
            var ap' := Requested(ap, r.requests);
            ap'.path.Some? && ap'.path.value in AttackPaths && ap'.step == 0 && ap'.elapsed == ap.elapsed &&
            ap'.callback == Some(BackToMove) && Includes(ap'.path, "attack") &&
            AttackStep(s, ap'.path) == Step(s, NoCommand, [])
  {
    var reqs := AttackStep(s, ap.path).requests;
    AttackFacing(s.lastDirection);
    SettlesOn(ap, reqs, "attack");
    var last := reqs[|reqs| - 1].path;
    assert Includes(Requested(ap, reqs).path, "attack");
  }

  /** The attack calls for a heading end on an attack path, after at most one other path. */
  lemma AttackFacing(d: Vec3)
    requires Heading(d)
    ensures var reqs := FacingRequests(d, "attack.up", "attack.down", "attack.right", "attack.left", Some(BackToMove));
            0 < |reqs| <= 2 && reqs[|reqs| - 1].path in AttackPaths && Contains(reqs[|reqs| - 1].path, "attack") &&
            reqs[|reqs| - 1].callback == Some(BackToMove) &&
            (|reqs| == 2 ==> reqs[0].path != reqs[1].path)
  {
    var reqs := FacingRequests(d, "attack.up", "attack.down", "attack.right", "attack.left", Some(BackToMove));
    var last := reqs[|reqs| - 1].path;
    if d.x > 0.0 {
      assert last == "attack.right";
      assert |reqs| == 2 ==> |reqs[0].path| != |last|;
    } else if d.x < 0.0 {
      assert last == "attack.left";
      assert |reqs| == 2 ==> reqs[0].path[7] != last[7];
    } else if d.y > 0.0 {
      assert last == "attack.up";
    } else {
      assert last == "attack.down";
    }
    AttackPathGuards(last);
  }

  /**
   * One or two calls of a tick, ending on a path that names the guard's word
   * and starting from a current path that does not: the last path starts
   * from its first frame.
   */
  lemma SettlesOn(ap: AL.PlayerState, reqs: seq<Request>, word: string)
    requires 0 < |reqs| <= 2 && !Includes(ap.path, word) && Contains(reqs[|reqs| - 1].path, word)
    requires |reqs| == 2 ==> reqs[0].path != reqs[1].path
    ensures Requested(ap, reqs).path == Some(reqs[|reqs| - 1].path) && Requested(ap, reqs).step == 0
    ensures Requested(ap, reqs).elapsed == ap.elapsed
    ensures reqs[|reqs| - 1].callback.Some? ==> Requested(ap, reqs).callback == reqs[|reqs| - 1].callback
  {
    RequestedEnd(ap, reqs);
    if |reqs| == 2 {
      RequestedEnd(ap, reqs[..1]);
    } else {
      assert reqs[..0] == [];
    }
  }

  /** Likewise the first roll tick starts a roll animation once, from its first frame. */
  lemma RollStepSettles(s: ScriptState, ap: AL.PlayerState, rollSpeed: real)
    requires s.mode == Rolling && Heading(s.lastDirection) && !Includes(ap.path, "roll")
    ensures var r := RollStep(s, ap.path, rollSpeed);
            var ap' := Requested(ap, r.requests);
            ap'.path.Some? && ap'.path.value in RollPaths && ap'.step == 0 && ap'.elapsed == ap.elapsed &&
            ap'.callback == Some(BackToMove) && Includes(ap'.path, "roll") &&
            RollStep(s, ap'.path, rollSpeed) == Step(s, NoCommand, [])
  {
    var r := RollStep(s, ap.path, rollSpeed);
    RequestedEnd(ap, r.requests);
    assert r.requests[..0] == [];
    RollPathGuards(r.requests[0].path);
  }

  /**
   * Facing a diagonal, idle and attack show the horizontal animation (the
   * horizontal test comes last) while a roll shows the vertical one (its
   * first test returns).
   */
  lemma DiagonalPreferences(d: Vec3)
    requires Heading(d) && d.x != 0.0 && d.y != 0.0
    ensures var a := FacingRequests(d, "attack.up", "attack.down", "attack.right", "attack.left", Some(BackToMove));
            a[|a| - 1].path == (if d.x > 0.0 then "attack.right" else "attack.left")
    ensures RollRequests(d)[0].path == (if d.y > 0.0 then "roll.up" else "roll.down")
  {
  }

  /**
   * An attack ends: after the first attack tick, animation ticks each longer
   * than the frame duration fire the end callback exactly once within the
   * attack's four frames, which returns the script to "move".
   */
  lemma AttackEndsOnce(s: ScriptState, ap: AL.PlayerState, deltas: seq<real>)
    requires s.mode == Attacking && Heading(s.lastDirection) && !Includes(ap.path, "attack") && 0.0 <= ap.elapsed
    requires forall i :: 0 <= i < |deltas| ==> deltas[i] * 1000.0 > AL.FrameDuration
    requires |deltas| >= 4
    ensures AL.Run(Requested(ap, AttackStep(s, ap.path).requests), SD.PlayerAnimations, deltas).1 == 1
    ensures Ended(s, BackToMove).mode == Moving
  {
    var ap' := Requested(ap, AttackStep(s, ap.path).requests);
    AttackStepSettles(s, ap);
    AttackClip(ap'.path.value);
    ClipEndsOnce(ap', SD.PlayerAnimations, deltas);
  }

  /** A non-looping clip started from its first frame ends once within its frames. */
  lemma ClipEndsOnce(ap: AL.PlayerState, animations: AnimationSet, deltas: seq<real>)
    requires ap.path.Some? && ap.path.value != "" && ap.path.value in animations
    requires animations[ap.path.value].Clip? && !animations[ap.path.value].animation.loop
    requires |animations[ap.path.value].animation.frames| > 0 && ap.step == 0
    requires ap.callback.Some? && 0.0 <= ap.elapsed
    requires forall i :: 0 <= i < |deltas| ==> deltas[i] * 1000.0 > AL.FrameDuration
    requires |deltas| >= |animations[ap.path.value].animation.frames|
    ensures AL.Run(ap, animations, deltas).1 == 1
  {
    AL.NonLoopingEndFiresOnce(ap, animations, deltas);
  }

  /** Each attack path names a four-frame, non-looping clip of the player's table. */
  lemma AttackClip(p: string)
    requires p in AttackPaths
    ensures p != "" && p in SD.PlayerAnimations && SD.PlayerAnimations[p].Clip?
    ensures !SD.PlayerAnimations[p].animation.loop && |SD.PlayerAnimations[p].animation.frames| == 4
  {
    var dir := if p == "attack.up" then "up" else if p == "attack.down" then "down"
               else if p == "attack.right" then "right" else "left";
    assert p == "attack." + dir;
    SD.PlayerAnimationsShape(dir);
  }

  /**
   * A roll ends: after the first roll tick, animation ticks each longer than
   * the frame duration fire the end callback exactly once within the roll's
   * five frames.
   */
  lemma RollEndsOnce(s: ScriptState, ap: AL.PlayerState, deltas: seq<real>, rollSpeed: real)
    requires s.mode == Rolling && Heading(s.lastDirection) && !Includes(ap.path, "roll") && 0.0 <= ap.elapsed
    requires forall i :: 0 <= i < |deltas| ==> deltas[i] * 1000.0 > AL.FrameDuration
    requires |deltas| >= 5
    ensures AL.Run(Requested(ap, RollStep(s, ap.path, rollSpeed).requests), SD.PlayerAnimations, deltas).1 == 1
  {
    var ap' := Requested(ap, RollStep(s, ap.path, rollSpeed).requests);
    RollStepSettles(s, ap, rollSpeed);
    RollClip(ap'.path.value);
    ClipEndsOnce(ap', SD.PlayerAnimations, deltas);
  }

  /** Each roll path names a five-frame, non-looping clip of the player's table. */
  lemma RollClip(p: string)
    requires p in RollPaths
    ensures p != "" && p in SD.PlayerAnimations && SD.PlayerAnimations[p].Clip?
    ensures !SD.PlayerAnimations[p].animation.loop && |SD.PlayerAnimations[p].animation.frames| == 5
  {
    var dir := if p == "roll.up" then "up" else if p == "roll.down" then "down"
               else if p == "roll.right" then "right" else "left";
    assert p == "roll." + dir;
    SD.PlayerAnimationsShape(dir);
  }

  /** `areDirectionsFacing`: the two directions share the sign of x, or the sign of y. */
  predicate AreDirectionsFacing(a: Vec3, b: Vec3)
    ensures AreDirectionsFacing(a, b) <==> a.x * b.x > 0.0 || a.y * b.y > 0.0
  {
    if (a.x > 0.0 && b.x > 0.0) || (a.x < 0.0 && b.x < 0.0) then true
    else if (a.y > 0.0 && b.y > 0.0) || (a.y < 0.0 && b.y < 0.0) then true
    else false
  }

  /** Facing is symmetric, ignores z and positive scaling, and a zero planar direction faces nothing. */
  lemma FacingProperties(a: Vec3, b: Vec3, k: real)
    requires 0.0 < k
    ensures AreDirectionsFacing(a, b) == AreDirectionsFacing(b, a)
    ensures a.x == 0.0 && a.y == 0.0 ==> !AreDirectionsFacing(a, b)
    ensures AreDirectionsFacing(a, b) == AreDirectionsFacing(Vec3(k * a.x, k * a.y, a.z + 1.0), b)
    ensures AreDirectionsFacing(a, a) <==> a.x != 0.0 || a.y != 0.0
  {
    assert k * a.x > 0.0 <==> a.x > 0.0;
    assert k * a.x < 0.0 <==> a.x < 0.0;
    assert k * a.y > 0.0 <==> a.y > 0.0;
    assert k * a.y < 0.0 <==> a.y < 0.0;
  }

  /** The difference of two positions, whose signs are those of the normalised direction between them. */
  function Towards(from: Vec3, to: Vec3): (d: Vec3)
    ensures d.x > 0.0 <==> to.x > from.x
    ensures d.y > 0.0 <==> to.y > from.y
    ensures d.x < 0.0 <==> to.x < from.x
    ensures d.y < 0.0 <==> to.y < from.y
  {
    Vec3(to.x - from.x, to.y - from.y, to.z - from.z)
  }
}

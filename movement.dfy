/** The integer and flag parts of the movement extensions: the eight-way
    direction of a command, the guards of the double jump, dodge, slide and
    wall run with the state each move sets, the bullet-time energy and the
    forced legs animation. Velocities, view angles and traces are floating
    point or engine callbacks and stay outside; where a guard depends on
    one (the horizontal speed, the wall normal) it is a boolean input. */
module Movement {
  import opened CInt

  /** The ground entity of a player touching nothing (q_shared.h). */
  const ENTITYNUM_NONE: int := 1023

  const PM_WALLRUN_DURATION: int := 3000
  const PM_SLIDE_DURATION: int := 1500
  const PM_DODGE_DURATION: int := 400
  const PM_DODGE_COOLDOWN: int := 500
  const PM_BULLETTIME_MAX_ENERGY: int := 100
  const PM_BULLETTIME_DRAIN_RATE: int := 20
  const PM_BULLETTIME_RECHARGE_RATE: int := 10

  /** The length of playerState_t's powerups array (MAX_POWERUPS of
      q_shared.h, which is not part of this model; bg_movement.h:60-61
      also gives 16 slots) and the slots 11..14 the movement code borrows
      from it (bg_movement.h:63-66). */
  const MAX_POWERUPS: int := 16
  const SLOT_DODGE_TIME: int := 14
  const SLOT_WALL_RUN_TIME: int := 13
  const SLOT_SLIDE_TIME: int := 12
  const SLOT_BULLET_TIME_ENERGY: int := 11

  /** The view height while sliding: 26 * 0.6 is 15.6, which the int field
      truncates to 15. */
  const SLIDE_VIEWHEIGHT: int := 15

  /** The legs animation numbers used here (animNumber_t) and the bit that
      marks a restarted animation. */
  const LEGS_JUMP: bv32 := 18
  const LEGS_JUMPB: bv32 := 20
  const LEGS_IDLECR: bv32 := 23
  const ANIM_TOGGLEBIT: bv32 := 128

  /** The pm_flags bits this code reads or writes, and any other bit. */
  datatype PmFlag = DoubleJumped | JumpHeld | Dodging | Sliding | WallRunning | BulletTime | OtherFlag(bit: nat)

  // ---------------------------------------------------------------------
  // Direction of a command

  /** The sign of a move input: -1, 0 or 1. */
  function Sign(x: int): (s: int)
    ensures -1 <= s <= 1 && (s == 0 <==> x == 0) && (s > 0 <==> x > 0)
  {
    if x > 0 then 1 else if x < 0 then -1 else 0
  }

  /** Direction d points forward by FORWARD_SIGNS[d] and right by
      RIGHT_SIGNS[d]: 0 forward, then clockwise in steps of 45 degrees. */
  const FORWARD_SIGNS: seq<int> := [1, 1, 0, -1, -1, -1, 0, 1]
  const RIGHT_SIGNS: seq<int> := [0, 1, 1, 1, 0, -1, -1, -1]

  /** BG_GetMovementDirection: -1 without input, otherwise one of the eight
      directions; the trailing default is never reached. */
  function MovementDirection(forward: int, right: int): (d: int)
    ensures -1 <= d <= 7
    ensures d == -1 <==> forward == 0 && right == 0
  {
    if forward == 0 && right == 0 then -1
    else if forward > 0 && right == 0 then 0
    else if forward > 0 && right > 0 then 1
    else if forward == 0 && right > 0 then 2
    else if forward < 0 && right > 0 then 3
    else if forward < 0 && right == 0 then 4
    else if forward < 0 && right < 0 then 5
    else if forward == 0 && right < 0 then 6
    else if forward > 0 && right < 0 then 7
    else assert false; 0
  }

  /** The direction is the one whose compass signs are the signs of the
      inputs, and no other direction has them. */
  lemma DirectionMatchesSigns(forward: int, right: int)
    requires forward != 0 || right != 0
    ensures var d := MovementDirection(forward, right);
      && FORWARD_SIGNS[d] == Sign(forward) && RIGHT_SIGNS[d] == Sign(right)
      && forall e :: 0 <= e < 8 && FORWARD_SIGNS[e] == Sign(forward) && RIGHT_SIGNS[e] == Sign(right) ==> e == d
  {
  }

  /** Reversing both inputs turns the direction half way round. */
  lemma DirectionOpposite(forward: int, right: int)
    requires forward != 0 || right != 0
    ensures MovementDirection(-forward, -right) == (MovementDirection(forward, right) + 4) % 8
  {
  }

  /** Reversing the sideways input mirrors the direction about forward. */
  lemma DirectionMirror(forward: int, right: int)
    requires forward != 0 || right != 0
    ensures MovementDirection(forward, -right) == (8 - MovementDirection(forward, right)) % 8
  {
  }

  // ---------------------------------------------------------------------
  // Animations

  /** BG_ForceLegsAnim's new legs animation: `anim` with the toggle bit
      flipped from its previous value, so the animation restarts even when
      it is the same one. */
  function ForcedLegsAnim(prev: bv32, anim: bv32): (r: bv32)
    ensures anim & ANIM_TOGGLEBIT == 0 ==>
      && r & ANIM_TOGGLEBIT != prev & ANIM_TOGGLEBIT
      && r & !ANIM_TOGGLEBIT == anim
  {
    ((prev & ANIM_TOGGLEBIT) ^ ANIM_TOGGLEBIT) | anim
  }

  /** Forcing the same animation twice brings the toggle bit back. */
  lemma ForcedTwiceRestoresToggle(prev: bv32, anim: bv32)
    requires anim & ANIM_TOGGLEBIT == 0
    ensures ForcedLegsAnim(ForcedLegsAnim(prev, anim), anim) & ANIM_TOGGLEBIT == prev & ANIM_TOGGLEBIT
  {
  }

  /** The legs animation of a dodge: the backward jump for the three
      backward directions, the forward jump otherwise. */
  function DodgeLegsAnim(direction: int): (anim: bv32)
    ensures anim == LEGS_JUMP || anim == LEGS_JUMPB
    ensures anim == LEGS_JUMPB <==> 3 <= direction <= 5
  {
    if direction == 0 || direction == 1 || direction == 7 then LEGS_JUMP
    else if direction == 4 || direction == 3 || direction == 5 then LEGS_JUMPB
    else LEGS_JUMP
  }

  /** For a command with input, the dodge plays the backward jump exactly
      when the command moves backward. */
  lemma DodgeBackwardWhenMovingBack(forward: int, right: int)
    requires forward != 0 || right != 0
    ensures DodgeLegsAnim(MovementDirection(forward, right)) == LEGS_JUMPB <==> forward < 0
  {
  }

  // ---------------------------------------------------------------------
  // Bullet time

  datatype BulletTimeState = BulletTimeState(energy: int, on: bool)

  /** BG_UpdateBulletTime on the energy slot and the bullet-time flag: an
      inactive player with no energy is first refilled; active play drains
      20 per second down to 0 and keeps the flag only while energy is
      left; inactive play recharges 10 per second up to 100 and clears the
      flag. The per-frame amounts are C int divisions by 1000. */
  function BulletTimeStep(energy: int, msec: int, active: bool): (r: BulletTimeState)
    ensures active ==> r.energy == Max(0, energy - CDiv(PM_BULLETTIME_DRAIN_RATE * msec, 1000)) && (r.on <==> r.energy > 0)
    ensures !active ==>
      && !r.on
      && r.energy == Min(PM_BULLETTIME_MAX_ENERGY,
                         (if energy == 0 then PM_BULLETTIME_MAX_ENERGY else energy) + CDiv(PM_BULLETTIME_RECHARGE_RATE * msec, 1000))
  {
    var e := if energy == 0 && !active then PM_BULLETTIME_MAX_ENERGY else energy;
    if active then
      var drained := e - CDiv(PM_BULLETTIME_DRAIN_RATE * msec, 1000);
      if drained <= 0 then BulletTimeState(0, false) else BulletTimeState(drained, true)
    else
      var recharged := e + CDiv(PM_BULLETTIME_RECHARGE_RATE * msec, 1000);
      BulletTimeState(if recharged > PM_BULLETTIME_MAX_ENERGY then PM_BULLETTIME_MAX_ENERGY else recharged, false)
  }

  /** For a frame of non-negative length, energy in [0, 100] stays there;
      draining never raises it and recharging never lowers it. */
  lemma BulletTimeEnergyInRange(energy: int, msec: int, active: bool)
    requires 0 <= energy <= PM_BULLETTIME_MAX_ENERGY && msec >= 0
    ensures var r := BulletTimeStep(energy, msec, active);
      && 0 <= r.energy <= PM_BULLETTIME_MAX_ENERGY
      && (active ==> r.energy <= energy)
      && (!active ==> r.energy >= energy)
  {
  }

  /** Five seconds of active bullet time empty any energy up to 100 and
      switch it off; an inactive frame leaves energy above zero. */
  lemma BulletTimeRunsOut(energy: int, msec: int)
    requires energy <= PM_BULLETTIME_MAX_ENERGY && msec >= 5000
    ensures BulletTimeStep(energy, msec, true) == BulletTimeState(0, false)
    ensures energy >= 0 ==> BulletTimeStep(energy, msec, false).energy > 0
  {
  }

  // ---------------------------------------------------------------------
  // The player state

  /** The fields of playerState_t that the movement code reads or writes. */
  class PlayerState {
    var groundEntityNum: int
    var pmFlags: set<PmFlag>
    var pmTime: int
    const powerups: array<int>
    var viewheight: int
    var legsTimer: int
    var legsAnim: bv32

    ghost predicate Valid() {
      powerups.Length == MAX_POWERUPS
    }

    constructor(groundEntityNum: int, pmFlags: set<PmFlag>, pmTime: int, powerups: seq<int>,
                viewheight: int, legsTimer: int, legsAnim: bv32)
      requires |powerups| == MAX_POWERUPS
      ensures Valid() && fresh(this.powerups) && this.powerups[..] == powerups
      ensures this.groundEntityNum == groundEntityNum && this.pmFlags == pmFlags && this.pmTime == pmTime
      ensures this.viewheight == viewheight && this.legsTimer == legsTimer && this.legsAnim == legsAnim
    {
      this.groundEntityNum := groundEntityNum;
      this.pmFlags := pmFlags;
      this.pmTime := pmTime;
      this.powerups := new int[MAX_POWERUPS](i requires 0 <= i < MAX_POWERUPS => powerups[i]);
      this.viewheight := viewheight;
      this.legsTimer := legsTimer;
      this.legsAnim := legsAnim;
    }

    /** BG_IsInAir: no ground entity. */
    predicate IsInAir()
      reads this`groundEntityNum
    {
      groundEntityNum == ENTITYNUM_NONE
    }

    /** BG_CanDoubleJump: in the air, not yet double-jumped, and the jump
        button released since the first jump. */
    predicate CanDoubleJump(): (can: bool)
      reads this`groundEntityNum, this`pmFlags
      ensures can <==> IsInAir() && DoubleJumped !in pmFlags && JumpHeld !in pmFlags
    {
      if !IsInAir() then false
      else if DoubleJumped in pmFlags then false
      else if JumpHeld in pmFlags then false
      else true
    }

    /** BG_CanDodge at `time`: not dodging, and at least PM_DODGE_COOLDOWN
        since the last dodge. */
    predicate CanDodge(time: int): (can: bool)
      requires Valid()
      reads this`pmFlags, powerups
      ensures can <==> Dodging !in pmFlags && time >= powerups[SLOT_DODGE_TIME] + PM_DODGE_COOLDOWN
    {
      if Dodging in pmFlags then false
      else if time - powerups[SLOT_DODGE_TIME] < PM_DODGE_COOLDOWN then false
      else true
    }

    /** BG_CanSlide, with the speed test as `moving`: on the ground, moving
        fast enough and not sliding. */
    predicate CanSlide(moving: bool): (can: bool)
      reads this`groundEntityNum, this`pmFlags
      ensures can <==> !IsInAir() && moving && Sliding !in pmFlags
    {
      if IsInAir() then false
      else if !moving then false
      else if Sliding in pmFlags then false
      else true
    }

    /** BG_CanWallRun, with the speed test as `moving` and the wall-normal
        length test as `hasWall`: in the air, moving, not wall running. */
    predicate CanWallRun(moving: bool, hasWall: bool): (can: bool)
      reads this`groundEntityNum, this`pmFlags
      ensures can <==> IsInAir() && moving && hasWall && WallRunning !in pmFlags
    {
      if !IsInAir() then false
      else if !moving then false
      else if WallRunning in pmFlags then false
      else if !hasWall then false
      else true
    }

    /** How the guards relate: the double jump, the dodge and the wall run
        each need their own flag clear, the slide needs the ground and the
        double jump and wall run need the air, so a slide never shares a
        frame with either. */
    lemma GuardsOk(time: int, moving: bool, hasWall: bool)
      requires Valid()
      ensures CanDoubleJump() <==> IsInAir() && DoubleJumped !in pmFlags && JumpHeld !in pmFlags
      ensures CanDodge(time) <==> Dodging !in pmFlags && time >= powerups[SLOT_DODGE_TIME] + PM_DODGE_COOLDOWN
      ensures CanSlide(moving) <==> !IsInAir() && moving && Sliding !in pmFlags
      ensures CanWallRun(moving, hasWall) <==> IsInAir() && moving && hasWall && WallRunning !in pmFlags
      ensures CanSlide(moving) ==> !CanDoubleJump() && !CanWallRun(moving, hasWall)
    {
    }

    /** BG_ForceLegsAnim. */
    method ForceLegsAnim(anim: bv32)
      modifies this`legsTimer, this`legsAnim
      ensures legsTimer == 0 && legsAnim == ForcedLegsAnim(old(legsAnim), anim)
    {
      legsTimer := 0;
      legsAnim := ((legsAnim & ANIM_TOGGLEBIT) ^ ANIM_TOGGLEBIT) | anim;
    }

    /** BG_DoDoubleJump: both jump flags are added, nothing else in
        pm_flags changes, the jump animation restarts, and a second double
        jump is refused until other code clears the flags. */
    method DoDoubleJump()
      modifies this`pmFlags, this`legsTimer, this`legsAnim
      ensures pmFlags == old(pmFlags) + {DoubleJumped, JumpHeld}
      ensures legsTimer == 0 && legsAnim == ForcedLegsAnim(old(legsAnim), LEGS_JUMP)
      ensures !CanDoubleJump()
    {
      pmFlags := pmFlags + {DoubleJumped};
      pmFlags := pmFlags + {JumpHeld};
      ForceLegsAnim(LEGS_JUMP);
    }

    /** BG_DoDodge at command time `serverTime`: the dodging flag is added,
        the dodge time recorded, the move timer set to PM_DODGE_DURATION,
        and the legs play the jump for the direction. No dodge is allowed
        while the flag stays (and, by GuardsOk, none within
        PM_DODGE_COOLDOWN of this one after it is cleared). */
    method DoDodge(serverTime: int, direction: int)
      requires Valid()
      modifies this`pmFlags, powerups, this`pmTime, this`legsTimer, this`legsAnim
      ensures pmFlags == old(pmFlags) + {Dodging}
      ensures powerups[..] == old(powerups[..])[SLOT_DODGE_TIME := serverTime]
      ensures pmTime == PM_DODGE_DURATION
      ensures legsTimer == 0 && legsAnim == ForcedLegsAnim(old(legsAnim), DodgeLegsAnim(direction))
      ensures forall time :: !CanDodge(time)
    {
      pmFlags := pmFlags + {Dodging};
      powerups[SLOT_DODGE_TIME] := serverTime;
      pmTime := PM_DODGE_DURATION;
      if direction == 0 || direction == 1 || direction == 7 {
        ForceLegsAnim(LEGS_JUMP);
      } else if direction == 4 || direction == 3 || direction == 5 {
        ForceLegsAnim(LEGS_JUMPB);
      } else {
        ForceLegsAnim(LEGS_JUMP);
      }
    }

    /** BG_DoSlide at command time `serverTime`: the sliding flag is added,
        the slide time recorded, the move timer set to PM_SLIDE_DURATION,
        the view lowered and the crouched idle played; sliding again is
        refused while the flag stays. */
    method DoSlide(serverTime: int)
      requires Valid()
      modifies this`pmFlags, powerups, this`pmTime, this`viewheight, this`legsTimer, this`legsAnim
      ensures pmFlags == old(pmFlags) + {Sliding}
      ensures powerups[..] == old(powerups[..])[SLOT_SLIDE_TIME := serverTime]
      ensures pmTime == PM_SLIDE_DURATION && viewheight == SLIDE_VIEWHEIGHT
      ensures legsTimer == 0 && legsAnim == ForcedLegsAnim(old(legsAnim), LEGS_IDLECR)
      ensures forall moving :: !CanSlide(moving)
    {
      pmFlags := pmFlags + {Sliding};
      powerups[SLOT_SLIDE_TIME] := serverTime;
      pmTime := PM_SLIDE_DURATION;
      viewheight := SLIDE_VIEWHEIGHT;
      ForceLegsAnim(LEGS_IDLECR);
    }

    /** BG_DoWallRun at command time `serverTime`: the wall-running flag is
        added, the wall-run time recorded and the move timer set to
        PM_WALLRUN_DURATION; wall running again is refused while the flag
        stays. */
    method DoWallRun(serverTime: int)
      requires Valid()
      modifies this`pmFlags, powerups, this`pmTime
      ensures pmFlags == old(pmFlags) + {WallRunning}
      ensures powerups[..] == old(powerups[..])[SLOT_WALL_RUN_TIME := serverTime]
      ensures pmTime == PM_WALLRUN_DURATION
      ensures forall moving, hasWall :: !CanWallRun(moving, hasWall)
    {
      pmFlags := pmFlags + {WallRunning};
      powerups[SLOT_WALL_RUN_TIME] := serverTime;
      pmTime := PM_WALLRUN_DURATION;
    }

    /** BG_UpdateBulletTime for a frame of `msec` milliseconds: the energy
        slot and the bullet-time flag become those of BulletTimeStep, and
        no other flag or slot changes. */
    method UpdateBulletTime(msec: int, active: bool)
      requires Valid()
      modifies powerups, this`pmFlags
      ensures var r := BulletTimeStep(old(powerups[SLOT_BULLET_TIME_ENERGY]), msec, active);
        && powerups[..] == old(powerups[..])[SLOT_BULLET_TIME_ENERGY := r.energy]
        && pmFlags == if r.on then old(pmFlags) + {BulletTime} else old(pmFlags) - {BulletTime}
    {
      if powerups[SLOT_BULLET_TIME_ENERGY] == 0 && !active {
        powerups[SLOT_BULLET_TIME_ENERGY] := PM_BULLETTIME_MAX_ENERGY;
      }
      if active {
        var drain := CDiv(PM_BULLETTIME_DRAIN_RATE * msec, 1000);
        powerups[SLOT_BULLET_TIME_ENERGY] := powerups[SLOT_BULLET_TIME_ENERGY] - drain;
        if powerups[SLOT_BULLET_TIME_ENERGY] <= 0 {
          powerups[SLOT_BULLET_TIME_ENERGY] := 0;
          pmFlags := pmFlags - {BulletTime};
        } else {
          pmFlags := pmFlags + {BulletTime};
        }
      } else {
        var recharge := CDiv(PM_BULLETTIME_RECHARGE_RATE * msec, 1000);
        powerups[SLOT_BULLET_TIME_ENERGY] := powerups[SLOT_BULLET_TIME_ENERGY] + recharge;
        if powerups[SLOT_BULLET_TIME_ENERGY] > PM_BULLETTIME_MAX_ENERGY {
          powerups[SLOT_BULLET_TIME_ENERGY] := PM_BULLETTIME_MAX_ENERGY;
        }
        pmFlags := pmFlags - {BulletTime};
      }
    }
  }
}

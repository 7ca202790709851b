/**
 * The global state of the RoboSim script as one object: the camera pose,
 * the rates and speeds set from the keyboard, the shot latch, the timestamp
 * of the previous frame, the held-key map and the robot slots. The methods
 * are the script's handlers; each changes only the globals the script's
 * function writes.
 */
module RoboSim {
  import opened Controls
  import Motion
  import Robots

  class Game {
    var pitch: real
    var pitchRate: real
    var yaw: real
    var yawRate: real
    var xPosition: real
    var yPosition: real
    var zPosition: real
    var speed: real
    var sideSpeed: real
    var hasShot: bool
    var joggingAngle: real
    var lastTime: int
    var currentlyPressedKeys: KeyMap
    var arrayRobots: Robots.Slots

    /** The camera pose held in the globals. */
    function CurrentPose(): Motion.Pose
      reads this
    {
      Motion.Pose(xPosition, yPosition, zPosition, yaw, pitch, joggingAngle)
    }

    /** The rates and speeds held in the globals. */
    function CurrentRates(): Controls.Rates
      reads this
    {
      Controls.Rates(pitchRate, yawRate, sideSpeed, speed)
    }

    /** The script's initial values: standing at the origin, one unit up, nothing held, no robots. */
    constructor ()
      ensures CurrentPose() == Motion.Pose(0.0, 1.0, 0.0, 0.0, 0.0, 0.0)
      ensures CurrentRates() == Controls.Rates(0.0, 0.0, 0.0, 0.0)
      ensures !hasShot && lastTime == 0
      ensures currentlyPressedKeys == map[] && arrayRobots == map[]
    {
      pitch, pitchRate, yaw, yawRate := 0.0, 0.0, 0.0, 0.0;
      xPosition, yPosition, zPosition := 0.0, 1.0, 0.0;
      speed, sideSpeed := 0.0, 0.0;
      hasShot := false;
      joggingAngle := 0.0;
      lastTime := 0;
      currentlyPressedKeys := map[];
      arrayRobots := map[];
    }

    /** Key-down event: the key is recorded as held. */
    method HandleKeyDown(keyCode: int)
      modifies this`currentlyPressedKeys
      ensures currentlyPressedKeys == old(currentlyPressedKeys)[keyCode := true]
      ensures Held(currentlyPressedKeys, keyCode)
    {
      currentlyPressedKeys := currentlyPressedKeys[keyCode := true];
    }

    /** Key-up event: the key is recorded as released. */
    method HandleKeyUp(keyCode: int)
      modifies this`currentlyPressedKeys
      ensures currentlyPressedKeys == old(currentlyPressedKeys)[keyCode := false]
      ensures !Held(currentlyPressedKeys, keyCode)
    {
      currentlyPressedKeys := currentlyPressedKeys[keyCode := false];
    }

    /**
     * Reads the held keys once per frame: each opposing pair sets its rate or
     * speed (first-checked side wins), and Space drives the shot latch.
     * `fired` tells whether the HUD was redrawn for a shot.
     */
    method HandleKeys() returns (fired: bool)
      modifies this`pitchRate, this`yawRate, this`sideSpeed, this`speed, this`hasShot
      ensures CurrentRates() == KeyRates(currentlyPressedKeys)
      ensures (fired, hasShot) == Shoot(Held(currentlyPressedKeys, Space), old(hasShot))
      ensures fired <==> Held(currentlyPressedKeys, Space) && !old(hasShot)
      ensures hasShot == Held(currentlyPressedKeys, Space)
    {
      var keys := currentlyPressedKeys;
      pitchRate := Resolve(keys, PitchUpKeys, PitchDownKeys, 0.1);
      yawRate := Resolve(keys, YawLeftKeys, YawRightKeys, 0.15);

      fired := false;
      if Held(keys, Space) {
        if !hasShot {
          fired := true;
          hasShot := true;
        }
      } else {
        hasShot := false;
      }

      sideSpeed := Resolve(keys, StrafeLeftKeys, StrafeRightKeys, -0.004);
      speed := Resolve(keys, ForwardKeys, BackwardKeys, 0.004);
    }

    /** Fills every empty robot slot 0..3 with a robot at its corner. */
    method Repopulate()
      modifies this`arrayRobots
      ensures arrayRobots == Robots.Repopulated(old(arrayRobots))
    {
      if 0 !in arrayRobots {
        arrayRobots := arrayRobots[0 := Robots.NewRobot(10.0, 10.0)];
      }
      if 1 !in arrayRobots {
        arrayRobots := arrayRobots[1 := Robots.NewRobot(10.0, -10.0)];
      }
      if 2 !in arrayRobots {
        arrayRobots := arrayRobots[2 := Robots.NewRobot(-10.0, 10.0)];
      }
      if 3 !in arrayRobots {
        arrayRobots := arrayRobots[3 := Robots.NewRobot(-10.0, -10.0)];
      }
    }

    /**
     * One frame update at clock reading `timeNow`. On the first frame only the
     * timestamp is recorded; afterwards the pose advances by the elapsed time
     * and the robot slots are repopulated.
     */
    method Animate(timeNow: int, sinDeg: real -> real, cosDeg: real -> real)
      modifies this`xPosition, this`yPosition, this`zPosition, this`yaw, this`pitch,
               this`joggingAngle, this`lastTime, this`arrayRobots
      ensures (CurrentPose(), lastTime) == Motion.Animate(old(CurrentPose()), old(lastTime), timeNow, CurrentRates(), sinDeg, cosDeg)
      ensures arrayRobots == if old(lastTime) != 0 then Robots.Repopulated(old(arrayRobots)) else old(arrayRobots)
      ensures lastTime == timeNow
      ensures old(lastTime) == 0 ==> CurrentPose() == old(CurrentPose())
    {
      if lastTime != 0 {
        var elapsed := (timeNow - lastTime) as real;
        Repopulate();
        var next := Motion.Tick(CurrentPose(), CurrentRates(), elapsed, sinDeg, cosDeg);
        xPosition, yPosition, zPosition := next.x, next.y, next.z;
        yaw, pitch, joggingAngle := next.yaw, next.pitch, next.joggingAngle;
      }
      lastTime := timeNow;
    }
  }
}

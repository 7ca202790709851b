/**
 * The enemy robots of RoboSim: four slots, each empty or holding a robot.
 * A robot's fields are set by its constructor and never written again, so a
 * robot is a value; the slot table is a map in which a missing key is an
 * empty slot.
 */
module Robots {

  datatype Robot = Robot(xPosition: real, yPosition: real, zPosition: real, yaw: real, speed: real)

  /** `new Robot(x, z)`: on the ground, facing yaw 0, with speed 0.01. */
  function NewRobot(x: real, z: real): (r: Robot)
    ensures r.xPosition == x && r.zPosition == z
    ensures r.yPosition == 0.0 && r.yaw == 0.0 && r.speed == 0.01
  {
    Robot(x, 0.0, z, 0.0, 0.01)
  }

  /** Slot number -> robot; a slot without a robot has no key. */
  type Slots = map<int, Robot>

  /** The spawn corner of each of the four slots. */
  function Corner(slot: int): (c: (real, real))
    ensures 0 <= slot < 4 ==> (c.0 == 10.0 <==> slot < 2) && (c.1 == 10.0 <==> slot % 2 == 0)
    ensures c.0 == 10.0 || c.0 == -10.0
    ensures c.1 == 10.0 || c.1 == -10.0
  {
    if slot == 0 then (10.0, 10.0)
    else if slot == 1 then (10.0, -10.0)
    else if slot == 2 then (-10.0, 10.0)
    else (-10.0, -10.0)
  }

  /** Puts a new robot at the slot's corner if the slot is empty. */
  function Fill(robots: Slots, slot: int): Slots
  {
    if slot in robots then robots else robots[slot := NewRobot(Corner(slot).0, Corner(slot).1)]
  }

  /**
   * Fills the empty slots among 0..3, in that order. Every slot 0..3 then
   * holds a robot, robots already present are kept as they are, and each new
   * robot stands at its slot's corner.
   */
  function Repopulated(robots: Slots): (r: Slots)
    ensures r.Keys == robots.Keys + {0, 1, 2, 3}
    ensures forall k :: k in robots ==> r[k] == robots[k]
    ensures forall k :: k in r && k !in robots ==>
      0 <= k < 4 && r[k] == NewRobot(Corner(k).0, Corner(k).1)
  {
    Fill(Fill(Fill(Fill(robots, 0), 1), 2), 3)
  }

  /** The four slots spawn at four different corners. */
  lemma CornersDistinct(i: int, j: int)
    requires 0 <= i < 4 && 0 <= j < 4 && i != j
    ensures Corner(i) != Corner(j)
  {
  }

  /** Repopulating twice is repopulating once: a full table is left unchanged. */
  lemma RepopulateIdempotent(robots: Slots)
    ensures Repopulated(Repopulated(robots)) == Repopulated(robots)
  {
    var once := Repopulated(robots);
    assert once.Keys >= {0, 1, 2, 3};
    assert Repopulated(once).Keys == once.Keys;
  }

  /** From an empty table the result is exactly the four corner robots. */
  lemma RepopulateEmpty()
    ensures Repopulated(map[]) == map[
      0 := NewRobot(10.0, 10.0), 1 := NewRobot(10.0, -10.0),
      2 := NewRobot(-10.0, 10.0), 3 := NewRobot(-10.0, -10.0)]
  {
  }
}

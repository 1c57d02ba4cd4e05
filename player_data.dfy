/** The per-player record of the driver: decoded match data plus the eight controller
    inputs, and the process-wide cache of the latest controller inputs per car. */
module PlayerDataModel {
  import opened Common

  /** The eight controller inputs: four signed axes and four buttons. */
  datatype Controls = Controls(
    steer: real, throttle: real, pitch: real, roll: real,
    jump: bool, boost: bool, handbrake: bool, useItem: bool)

  const NeutralControls := Controls(0.0, 0.0, 0.0, 0.0, false, false, false, false)

  /** The value of a PlayerData record at one moment. */
  datatype PlayerView = PlayerView(
    carId: int, teamNum: int,
    matchGoals: int, matchSaves: int, matchShots: int, matchDemolishes: int,
    matchAssists: int, boostPickups: int,
    isDemoed: bool, onGround: bool, ballTouched: bool,
    hasJump: bool, hasJumped: bool, hasFlip: bool, hasFlipped: bool,
    boostAmount: real,
    carData: PhysicsObject, invertedCarData: PhysicsObject,
    inputs: Controls)

  /** A fresh record: identity and counters at -1, flags false, inputs neutral. */
  const FreshView := PlayerView(
    -1, -1,
    -1, -1, -1, -1, -1, -1,
    false, false, false, false, false, false, false,
    -1.0,
    RestingPhysics, RestingPhysics,
    NeutralControls)

  class PlayerData {
    var carId: int
    var teamNum: int
    var matchGoals: int
    var matchSaves: int
    var matchShots: int
    var matchDemolishes: int
    var matchAssists: int
    var boostPickups: int
    var isDemoed: bool
    var onGround: bool
    var ballTouched: bool
    var hasJump: bool
    var hasJumped: bool
    var hasFlip: bool
    var hasFlipped: bool
    var boostAmount: real
    var carData: PhysicsObject
    var invertedCarData: PhysicsObject
    var steerInput: real
    var throttleInput: real
    var pitchInput: real
    var rollInput: real
    var jumpInput: bool
    var boostInput: bool
    var handbrakeInput: bool
    var useItemInput: bool

    function Inputs(): Controls
      reads this
    {
      Controls(steerInput, throttleInput, pitchInput, rollInput,
               jumpInput, boostInput, handbrakeInput, useItemInput)
    }

    function View(): PlayerView
      reads this
    {
      PlayerView(carId, teamNum, matchGoals, matchSaves, matchShots, matchDemolishes,
                 matchAssists, boostPickups, isDemoed, onGround, ballTouched,
                 hasJump, hasJumped, hasFlip, hasFlipped, boostAmount,
                 carData, invertedCarData, Inputs())
    }

    constructor ()
      ensures View() == FreshView
    {
      carId, teamNum := -1, -1;
      matchGoals, matchSaves, matchShots, matchDemolishes := -1, -1, -1, -1;
      matchAssists, boostPickups := -1, -1;
      isDemoed, onGround, ballTouched := false, false, false;
      hasJump, hasJumped, hasFlip, hasFlipped := false, false, false, false;
      boostAmount := -1.0;
      carData, invertedCarData := RestingPhysics, RestingPhysics;
      steerInput, throttleInput, pitchInput, rollInput := 0.0, 0.0, 0.0, 0.0;
      jumpInput, boostInput, handbrakeInput, useItemInput := false, false, false, false;
    }

    // The property setters: each replaces one input and touches no other field; the
    // getter of the same property then yields the value assigned.

    method SetSteerInput(value: real)
      modifies this`steerInput
      ensures Inputs().steer == value
      ensures View() == old(View()).(inputs := old(Inputs()).(steer := value))
    {
      steerInput := value;
    }

    method SetThrottleInput(value: real)
      modifies this`throttleInput
      ensures Inputs().throttle == value
      ensures View() == old(View()).(inputs := old(Inputs()).(throttle := value))
    {
      throttleInput := value;
    }

    method SetPitchInput(value: real)
      modifies this`pitchInput
      ensures Inputs().pitch == value
      ensures View() == old(View()).(inputs := old(Inputs()).(pitch := value))
    {
      pitchInput := value;
    }

    method SetRollInput(value: real)
      modifies this`rollInput
      ensures Inputs().roll == value
      ensures View() == old(View()).(inputs := old(Inputs()).(roll := value))
    {
      rollInput := value;
    }

    method SetJumpInput(value: bool)
      modifies this`jumpInput
      ensures Inputs().jump == value
      ensures View() == old(View()).(inputs := old(Inputs()).(jump := value))
    {
      jumpInput := value;
    }

    method SetBoostInput(value: bool)
      modifies this`boostInput
      ensures Inputs().boost == value
      ensures View() == old(View()).(inputs := old(Inputs()).(boost := value))
    {
      boostInput := value;
    }

    method SetHandbrakeInput(value: bool)
      modifies this`handbrakeInput
      ensures Inputs().handbrake == value
      ensures View() == old(View()).(inputs := old(Inputs()).(handbrake := value))
    {
      handbrakeInput := value;
    }

    method SetUseItemInput(value: bool)
      modifies this`useItemInput
      ensures Inputs().useItem == value
      ensures View() == old(View()).(inputs := old(Inputs()).(useItem := value))
    {
      useItemInput := value;
    }

    /** Indexing a record yields the record itself, whatever the index. */
    function GetItem(index: int): (r: PlayerData)
      ensures r == this
    {
      this
    }

    /** `record[index] = value`: takes the car id from the index and the eight inputs
        from `value` (possibly this record itself); nothing else changes. */
    method SetItem(index: int, value: PlayerData)
      modifies this`carId, this`steerInput, this`throttleInput, this`pitchInput, this`rollInput
      modifies this`jumpInput, this`boostInput, this`handbrakeInput, this`useItemInput
      ensures carId == index && Inputs() == old(value.Inputs())
    {
      var c := value.Inputs();
      carId := index;
      steerInput, throttleInput, pitchInput, rollInput := c.steer, c.throttle, c.pitch, c.roll;
      jumpInput, boostInput, handbrakeInput, useItemInput := c.jump, c.boost, c.handbrake, c.useItem;
    }
  }

  /** What the input cache keeps of each record: the car id the input handler wrote and the
      eight inputs. The other fields of a cached record keep their fresh values and are
      never read. */
  datatype ControlRecord = ControlRecord(carId: int, inputs: Controls)

  /** The record a cache miss creates: a fresh PlayerData, so its car id is -1. */
  const MissRecord := ControlRecord(FreshView.carId, FreshView.inputs)

  /** A dictionary with a default factory: reading a missing key inserts a fresh record. */
  function WithDefault(records: map<int, ControlRecord>, carId: int): (r: map<int, ControlRecord>)
    ensures carId in r
    ensures carId in records ==> r == records
    ensures carId !in records ==> r[carId] == MissRecord
    ensures r.Keys == records.Keys + {carId}
    ensures forall k :: k in records ==> r[k] == records[k]
  {
    if carId in records then records else records[carId := MissRecord]
  }

  /** The process-wide cache of the latest controller inputs of each car. */
  class InputCache {
    var records: map<int, ControlRecord>

    constructor ()
      ensures records == map[]
    {
      records := map[];
    }

    /** `global_player_data[carId]`: the stored record, or a fresh one that is inserted. */
    method Read(carId: int) returns (rec: ControlRecord)
      modifies this
      ensures records == WithDefault(old(records), carId)
      ensures rec == records[carId]
      ensures carId in old(records) ==> rec == old(records)[carId]
      ensures carId !in old(records) ==> rec == MissRecord
    {
      if carId !in records {
        records := records[carId := MissRecord];
      }
      rec := records[carId];
    }

    /** Writing the fields of the record kept for `carId`. */
    method Store(carId: int, rec: ControlRecord)
      modifies this
      ensures records == old(records)[carId := rec]
    {
      records := records[carId := rec];
    }
  }
}

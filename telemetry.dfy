/**
 * The telemetry frame the analysis core reads on every tick, reduced to the
 * fields the core actually uses. Field names follow the game's shared-memory
 * layout (mGameState becomes gameState, and so on).
 */
module Telemetry {

  datatype Option<T> = None | Some(value: T)

  /** One value per wheel, in the order FL, FR, RL, RR. */
  datatype Quad<T> = Quad(fl: T, fr: T, rl: T, rr: T)
  {
    function At(i: Corner): T
    {
      if i == 0 then fl else if i == 1 then fr else if i == 2 then rl else rr
    }

    /** The four values as a list, in wheel order. */
    function Values(): (vs: seq<T>)
      ensures |vs| == 4
      ensures forall i: Corner :: vs[i] == At(i)
    {
      [fl, fr, rl, rr]
    }
  }

  /** A wheel index: 0 = FL, 1 = FR, 2 = RL, 3 = RR. */
  type Corner = i: int | 0 <= i < 4

  predicate IsFront(i: Corner) { i == 0 || i == 1 }
  predicate IsLeftSide(i: Corner) { i == 0 || i == 2 }

  /** Size of the participant table in shared memory (STORED_PARTICIPANTS_MAX). */
  const StoredParticipantsMax: nat := 64

  /** mGameState value for "in game, playing". */
  const GamePlaying: int := 2
  /** mGameState value for "in game, paused". */
  const GamePaused: int := 3
  /** mGameState value for the front-end menu. */
  const GameFrontEnd: int := 1
  /** mSessionState value for a race session. */
  const SessionRace: int := 5

  datatype Position = Position(x: real, y: real, z: real)

  datatype Participant = Participant(currentLap: int, worldPosition: Position)

  const EmptyParticipant := Participant(0, Position(0.0, 0.0, 0.0))

  type ParticipantTable = t: seq<Participant> | |t| == StoredParticipantsMax
    witness seq(StoredParticipantsMax, _ => EmptyParticipant)

  /**
   * One telemetry frame. Pedals are taken as received (nominally 0.0..1.0);
   * localAccelerationX is mLocalAcceleration[0], the lateral channel.
   */
  datatype Sample = Sample(
    gameState: int,
    sessionState: int,
    viewedParticipantIndex: int,
    numParticipants: int,
    participants: ParticipantTable,
    unfilteredThrottle: real,
    unfilteredBrake: real,
    lapInvalidated: bool,
    lastLapTime: real,
    pitMode: int,
    fuelLevel: real,
    fuelCapacity: real,
    speed: real,
    steering: real,
    odometerKM: real,
    localAccelerationX: real,
    tyreRPS: Quad<real>,
    tyreRadius: Quad<real>,
    tyreSlipSpeed: Quad<real>,
    tyreTemp: Quad<real>,
    tyreTempLeft: Quad<real>,
    tyreTempCenter: Quad<real>,
    tyreTempRight: Quad<real>,
    tyreWear: Quad<real>)
  {
    /** The guard the monitors use before reading the viewed participant. */
    predicate ViewedIndexValid()
    {
      0 <= viewedParticipantIndex < numParticipants
    }

    /**
     * A guarded index also lies inside the participant table; without this the
     * source's unchecked table access would fail.
     */
    predicate ViewedIndexInTable()
    {
      ViewedIndexValid() ==> viewedParticipantIndex < StoredParticipantsMax
    }

    /** The viewed participant's current lap, or 0 when the index is not valid. */
    function ViewedLap(): (lap: int)
      requires ViewedIndexInTable()
      ensures !ViewedIndexValid() ==> lap == 0
    {
      if ViewedIndexValid() then participants[viewedParticipantIndex].currentLap else 0
    }
  }

  function Abs(x: real): (r: real)
    ensures r >= 0.0 && (r == x || r == -x)
  {
    if x < 0.0 then -x else x
  }

  function Max(a: real, b: real): (r: real)
    ensures r >= a && r >= b && (r == a || r == b)
  {
    if a >= b then a else b
  }
}

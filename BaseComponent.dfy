/**
 * The base component's game-speed state machine: the current speed, never
 * negative, and the speed saved by the last pause; plus the screen-DPI
 * fallback applied at start-up.
 */
module BaseComponents {

  /** The DPI assumed when the screen reports none. */
  const DefaultDpi: real := 96.0

  /** The DPI used by the framework: the reported one when positive, else the default. */
  function EffectiveDpi(screenDpi: real): (dpi: real)
    ensures dpi > 0.0
    ensures screenDpi > 0.0 ==> dpi == screenDpi
    ensures screenDpi <= 0.0 ==> dpi == DefaultDpi
  {
    if screenDpi <= 0.0 then DefaultDpi else screenDpi
  }

  /** The speed and the speed saved before the last pause. */
  datatype SpeedState = SpeedState(gameSpeed: real, speedBeforePause: real)

  /** Both start at normal speed. */
  const Initial := SpeedState(1.0, 1.0)

  /** The value the `GameSpeed` setter stores. */
  function Clamp(value: real): (r: real)
    ensures r >= 0.0
    ensures value >= 0.0 ==> r == value
    ensures value < 0.0 ==> r == 0.0
  {
    if value >= 0.0 then value else 0.0
  }

  predicate IsPaused(s: SpeedState) {
    s.gameSpeed <= 0.0
  }

  predicate IsNormal(s: SpeedState) {
    s.gameSpeed == 1.0
  }

  /** The states the machine can reach: speed not negative, saved speed positive. */
  predicate Reachable(s: SpeedState) {
    s.gameSpeed >= 0.0 && s.speedBeforePause > 0.0
  }

  function SetSpeed(s: SpeedState, value: real): (t: SpeedState)
    ensures t.gameSpeed == Clamp(value) && t.speedBeforePause == s.speedBeforePause
    ensures IsPaused(t) <==> value <= 0.0
  {
    s.(gameSpeed := Clamp(value))
  }

  function Paused(s: SpeedState): (t: SpeedState)
    ensures IsPaused(t)
    ensures IsPaused(s) ==> t == s
    ensures !IsPaused(s) ==> t.speedBeforePause == s.gameSpeed && t.gameSpeed == 0.0
  {
    if IsPaused(s) then s else SetSpeed(s.(speedBeforePause := s.gameSpeed), 0.0)
  }

  function Resumed(s: SpeedState): (t: SpeedState)
    ensures !IsPaused(s) ==> t == s
    ensures IsPaused(s) ==> t == SetSpeed(s, s.speedBeforePause)
    ensures Reachable(s) ==> !IsPaused(t)
  {
    if !IsPaused(s) then s else SetSpeed(s, s.speedBeforePause)
  }

  function NormalSpeed(s: SpeedState): (t: SpeedState)
    ensures IsNormal(t) && t.speedBeforePause == s.speedBeforePause
    ensures IsNormal(s) ==> t == s
  {
    if IsNormal(s) then s else SetSpeed(s, 1.0)
  }

  /** Every operation keeps the state reachable. */
  lemma ReachableIsInvariant(s: SpeedState, value: real)
    requires Reachable(s)
    ensures Reachable(Initial)
    ensures Reachable(SetSpeed(s, value)) && Reachable(Paused(s))
    ensures Reachable(Resumed(s)) && Reachable(NormalSpeed(s))
  {
  }

  /** Pausing a running game and resuming it restores its speed; the saved speed keeps that speed. */
  lemma PauseThenResume(s: SpeedState)
    requires Reachable(s) && !IsPaused(s)
    ensures Resumed(Paused(s)) == s.(speedBeforePause := s.gameSpeed)
    ensures Resumed(Paused(s)).gameSpeed == s.gameSpeed
  {
  }

  /** A second pause changes nothing and, in particular, does not overwrite the saved speed. */
  lemma PauseIsIdempotent(s: SpeedState)
    ensures Paused(Paused(s)) == Paused(s)
  {
  }

  class BaseComponent {
    var gameSpeed: real
    var gameSpeedBeforePause: real

    function State(): SpeedState
      reads this
    {
      SpeedState(gameSpeed, gameSpeedBeforePause)
    }

    ghost predicate Valid()
      reads this
    {
      Reachable(State())
    }

    /**
     * The speed field is serialised, so it starts at whatever value the scene
     * holds (the declared default is `Initial`); the saved speed starts at 1.
     * The setter's clamp has not run yet, so a negative value is kept.
     */
    constructor (serializedSpeed: real)
      ensures State() == SpeedState(serializedSpeed, 1.0)
      ensures Valid() <==> serializedSpeed >= 0.0
    {
      gameSpeed := serializedSpeed;
      gameSpeedBeforePause := 1.0;
    }

    /** `IsGamePaused`. */
    predicate IsGamePaused(): (paused: bool)
      reads this
      ensures paused <==> IsPaused(State())
      ensures Valid() ==> (paused <==> gameSpeed == 0.0)
    {
      gameSpeed <= 0.0
    }

    /** `IsNormalGameSpeed`. */
    predicate IsNormalGameSpeed(): (normal: bool)
      reads this
      ensures normal <==> IsNormal(State())
      ensures normal ==> !IsGamePaused()
    {
      gameSpeed == 1.0
    }

    /** The `GameSpeed` setter: a negative value is stored as zero. */
    method SetGameSpeed(value: real)
      modifies this
      ensures old(Valid()) ==> Valid()
      ensures State() == SetSpeed(old(State()), value)
    {
      gameSpeed := if value >= 0.0 then value else 0.0;
    }

    /** `PauseGame`: saves the running speed, then stops; does nothing when already paused. */
    method PauseGame()
      modifies this
      ensures old(Valid()) ==> Valid()
      ensures State() == Paused(old(State()))
    {
      if IsGamePaused() {
        return;
      }
      gameSpeedBeforePause := gameSpeed;
      SetGameSpeed(0.0);
    }

    /** `ResumeGame`: restores the saved speed; does nothing when not paused. */
    method ResumeGame()
      modifies this
      ensures old(Valid()) ==> Valid()
      ensures State() == Resumed(old(State()))
    {
      if !IsGamePaused() {
        return;
      }
      SetGameSpeed(gameSpeedBeforePause);
    }

    /** `ResetNormalGameSpeed`: back to speed one, the saved speed untouched. */
    method ResetNormalGameSpeed()
      modifies this
      ensures old(Valid()) ==> Valid()
      ensures State() == NormalSpeed(old(State()))
    {
      if IsNormalGameSpeed() {
        return;
      }
      SetGameSpeed(1.0);
    }
  }
}

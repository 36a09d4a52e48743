/**
 * The platform audio service as the overlay sees it (an external
 * collaborator): a level in [0, max] per stream, relative raise/lower
 * steps, the ringer mode and whether do-not-disturb policy access was
 * granted. How the platform answers each step is not under the overlay's
 * control, so it is an explicit input: `script` lists the answers to the
 * coming adjust calls, and once it is used up every step moves.
 */
module Audio {

  datatype Stream = Music | Ring | Notification | Alarm

  datatype Direction = Raise | Lower

  datatype RingerMode = Silent | Vibrate | Normal

  /** The platform's answer to one `adjustStreamVolume` call. */
  datatype StepOutcome =
    | Moved   // the level moves one step in the requested direction, capped to [0, max]
    | Capped  // the platform silently leaves the level where it is
    | Denied  // the platform throws SecurityException and leaves the level where it is

  /** A state-changing call made on the platform, in order. */
  datatype AudioCall = Adjust(stream: Stream, direction: Direction) | RingerToNormal

  /** One integer per stream. */
  datatype Volumes = Volumes(music: int, ring: int, notification: int, alarm: int)
  {
    function Of(s: Stream): int {
      match s
      case Music => music
      case Ring => ring
      case Notification => notification
      case Alarm => alarm
    }

    function With(s: Stream, v: int): (r: Volumes)
      ensures r.Of(s) == v
      ensures forall t :: t != s ==> r.Of(t) == Of(t)
    {
      match s
      case Music => this.(music := v)
      case Ring => this.(ring := v)
      case Notification => this.(notification := v)
      case Alarm => this.(alarm := v)
    }
  }

  datatype AudioState = AudioState(
    levels: Volumes,
    maxes: Volumes,
    ringer: RingerMode,
    policyAccess: bool,
    script: seq<StepOutcome>,
    log: seq<AudioCall>)
  {
    /** Every stream has a level, and it lies in [0, max]. */
    ghost predicate Valid() {
      forall s: Stream :: 0 <= levels.Of(s) <= maxes.Of(s)
    }
  }

  function NextOutcome(script: seq<StepOutcome>): StepOutcome {
    if script == [] then Moved else script[0]
  }

  function Rest(script: seq<StepOutcome>): seq<StepOutcome> {
    if script == [] then [] else script[1..]
  }

  /** The level after a step that moves: one step in direction `d`, never leaving [0, max]. */
  function MovedLevel(level: int, max: int, d: Direction): (r: int)
    requires 0 <= level <= max
    ensures 0 <= r <= max
    ensures d == Raise ==> level <= r <= level + 1
    ensures d == Lower ==> level - 1 <= r <= level
    ensures r != level <==> (d == Raise && level < max) || (d == Lower && 0 < level)
  {
    match d
    case Raise => if level < max then level + 1 else max
    case Lower => if 0 < level then level - 1 else 0
  }

  /** One `adjustStreamVolume(s, d)` call: it consumes one scripted answer and is logged. */
  function Step(a: AudioState, s: Stream, d: Direction): (r: AudioState)
    requires a.Valid()
    ensures r.Valid()
    ensures r.maxes == a.maxes && r.ringer == a.ringer && r.policyAccess == a.policyAccess
    ensures r.log == a.log + [Adjust(s, d)] && r.script == Rest(a.script)
    ensures forall t :: t != s ==> r.levels.Of(t) == a.levels.Of(t)
    ensures NextOutcome(a.script) != Moved ==> r.levels == a.levels
    ensures NextOutcome(a.script) == Moved ==> r.levels.Of(s) == MovedLevel(a.levels.Of(s), a.maxes.Of(s), d)
  {
    var level := if NextOutcome(a.script) == Moved then MovedLevel(a.levels.Of(s), a.maxes.Of(s), d) else a.levels.Of(s);
    a.(levels := a.levels.With(s, level), script := Rest(a.script), log := a.log + [Adjust(s, d)])
  }

  /** The platform audio service object; every call reads or replaces its state. */
  class AudioBackend {
    var state: AudioState

    ghost predicate Valid()
      reads this
    {
      state.Valid()
    }

    constructor (initial: AudioState)
      requires initial.Valid()
      ensures state == initial && Valid()
    {
      state := initial;
    }

    method GetStreamVolume(s: Stream) returns (v: int)
      requires Valid()
      ensures v == state.levels.Of(s) && 0 <= v <= state.maxes.Of(s)
    {
      v := state.levels.Of(s);
    }

    method GetStreamMaxVolume(s: Stream) returns (m: int)
      requires Valid()
      ensures m == state.maxes.Of(s) && 0 <= m
    {
      m := state.maxes.Of(s);
    }

    /** Returns true where the platform throws SecurityException. */
    method AdjustStreamVolume(s: Stream, d: Direction) returns (denied: bool)
      requires Valid()
      modifies this
      ensures Valid() && state == Step(old(state), s, d)
      ensures denied <==> NextOutcome(old(state.script)) == Denied
    {
      denied := NextOutcome(state.script) == Denied;
      state := Step(state, s, d);
    }

    method SetRingerModeNormal()
      requires Valid()
      modifies this
      ensures Valid() && state == old(state).(ringer := Normal, log := old(state.log) + [RingerToNormal])
    {
      state := state.(ringer := Normal, log := state.log + [RingerToNormal]);
    }
  }
}

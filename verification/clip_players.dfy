/**
 The clip-player factory (daw/core/clip/SampleClipPlayerFactory.java) and
 its SampleClipPlayer: a small state machine over {paused, position, cut
 active, cut time}. Stopping pauses and rewinds to the cut time when the cut
 is active, otherwise to the clip's content position.
 */
module ClipPlayers {
  import opened Outcomes
  import opened ProcessingUnits
  import opened ChannelFactory

  /** The runtime class of an RPClip. */
  datatype ClipClass = SampleClipClass | SampleClipSubclass | OtherClipClass

  /** An RPClip as far as the player uses it. */
  datatype RPClip = RPClip(runtimeClass: ClipClass, contentPosition: real)

  /**
   A SampleClipPlayer: the Beads SamplePlayer (its UGen, paused flag and
   position) plus the clip's content position and the cut state.
   */
  datatype Player = Player(
    ugen: UGen,
    paused: bool,
    position: real,
    contentPosition: real,
    cutTime: real,
    cutActive: bool)

  /** A created player together with the channel it was connected to. */
  datatype Created = Created(player: Player, channel: RPChannel)

  /** `pause()`. */
  function Pause(p: Player): (r: Player)
    ensures r.paused
    ensures r.(paused := p.paused) == p
  {
    p.(paused := true)
  }

  /** `play()`. */
  function Play(p: Player): (r: Player)
    ensures !r.paused
    ensures r.(paused := p.paused) == p
  {
    p.(paused := false)
  }

  /** `setPlaybackPosition(ms)`. */
  function SetPlaybackPosition(p: Player, ms: real): (r: Player)
    ensures r.position == ms
    ensures r.(position := p.position) == p
  {
    p.(position := ms)
  }

  /**
   `stop()`: pauses, then rewinds to the cut time if the cut is active and
   to the content position otherwise; the cut itself is untouched.
   */
  function Stop(p: Player): (r: Player)
    ensures r.paused
    ensures r.position == (if p.cutActive then p.cutTime else p.contentPosition)
    ensures r.cutActive == p.cutActive && r.cutTime == p.cutTime
    ensures r.ugen == p.ugen && r.contentPosition == p.contentPosition
  {
    var q := Pause(p);
    if q.cutActive then SetPlaybackPosition(q, q.cutTime)
    else SetPlaybackPosition(q, q.contentPosition)
  }

  /** `setCut(t)`: stores `t` and activates the cut. */
  function SetCut(p: Player, t: real): (r: Player)
    ensures r.cutActive && r.cutTime == t
    ensures r.paused == p.paused && r.position == p.position
    ensures r.ugen == p.ugen && r.contentPosition == p.contentPosition
  {
    p.(cutTime := t, cutActive := true)
  }

  /** `disableCut()`: deactivates the cut and keeps the stored time. */
  function DisableCut(p: Player): (r: Player)
    ensures !r.cutActive
    ensures r.cutTime == p.cutTime
    ensures r.paused == p.paused && r.position == p.position
    ensures r.ugen == p.ugen && r.contentPosition == p.contentPosition
  {
    p.(cutActive := false)
  }

  /** `getCutTime()`: throws when the cut is inactive. */
  function CutTime(p: Player): (r: Result<real>)
    ensures r.Ok? <==> p.cutActive
    ensures r.Ok? ==> r.value == p.cutTime
    ensures r.Throw? ==> r.exception == IllegalState
  {
    if !p.cutActive then Throw(IllegalState) else Ok(p.cutTime)
  }

  /**
   The SampleClipPlayer constructor, given the UGen of the SamplePlayer it
   loaded: position at the content position, cut inactive (its time at the
   Java default 0), then `stop()`.
   */
  function NewSampleClipPlayer(clip: RPClip, ugen: UGen): (p: Player)
    ensures p.ugen == ugen
    ensures p.paused
    ensures p.position == clip.contentPosition
    ensures p.contentPosition == clip.contentPosition
    ensures !p.cutActive
  {
    var loaded := Player(ugen, false, clip.contentPosition, clip.contentPosition, 0.0, false);
    Stop(loaded)
  }

  /**
   `createClipPlayer(clip, channel)`. `sample` is the outcome of loading the
   clip's audio file into a new SamplePlayer: its fresh UGen, or the I/O
   failure. A clip whose runtime class is not exactly SampleClip is refused
   before anything is loaded or connected; on success the player's UGen
   becomes a source of the channel.
   */
  function CreateClipPlayer(clip: RPClip, channel: RPChannel, sample: Result<UGen>): (r: Result<Created>)
    ensures clip.runtimeClass != SampleClipClass ==> r == Throw(IllegalArgument)
    ensures clip.runtimeClass == SampleClipClass && sample.Throw? ==> r == Throw(sample.exception)
    ensures r.Ok? <==> clip.runtimeClass == SampleClipClass && sample.Ok?
    ensures r.Ok? ==> r.value.channel.sources == channel.sources + [r.value.player.ugen]
    ensures r.Ok? ==> r.value.channel.(sources := channel.sources) == channel
    ensures r.Ok? ==> r.value.player.ugen == sample.value
    ensures r.Ok? ==> r.value.player.paused && !r.value.player.cutActive
    ensures r.Ok? ==> r.value.player.position == clip.contentPosition
    ensures r.Ok? ==> r.value.player.contentPosition == clip.contentPosition
  {
    if clip.runtimeClass != SampleClipClass then
      Throw(IllegalArgument)
    else
      match sample
      case Throw(e) => Throw(e)
      case Ok(u) =>
        var player := NewSampleClipPlayer(clip, u);
        Ok(Created(player, ConnectSource(channel, player.ugen)))
  }

  /**
   `createClipPlayerWithActiveCut(clip, channel, t)`: the cut is active at
   `t`, but the position stays at the content position until a `stop()`.
   */
  function CreateClipPlayerWithActiveCut(clip: RPClip, channel: RPChannel, sample: Result<UGen>, t: real): (r: Result<Created>)
    ensures r.Ok? <==> CreateClipPlayer(clip, channel, sample).Ok?
    ensures r.Throw? ==> r == CreateClipPlayer(clip, channel, sample)
    ensures r.Ok? ==> r.value.player.cutActive && r.value.player.cutTime == t
    ensures r.Ok? ==> r.value.player.position == clip.contentPosition
    ensures r.Ok? ==> r.value.player.paused
    ensures r.Ok? ==> Stop(r.value.player).position == t
    ensures r.Ok? ==> CutTime(r.value.player) == Ok(t)
    ensures r.Ok? ==> r.value.channel == CreateClipPlayer(clip, channel, sample).value.channel
    ensures r.Ok? ==> r.value.player.ugen == sample.value && r.value.player.contentPosition == clip.contentPosition
  {
    match CreateClipPlayer(clip, channel, sample)
    case Throw(e) => Throw(e)
    case Ok(c) => Ok(c.(player := SetCut(c.player, t)))
  }

  // ---------------------------------------------------------------- histories

  /** One call on a player. */
  datatype Op = PlayOp | PauseOp | StopOp | SeekOp(ms: real) | SetCutOp(t: real) | DisableCutOp

  function Step(p: Player, op: Op): Player {
    match op
    case PlayOp => Play(p)
    case PauseOp => Pause(p)
    case StopOp => Stop(p)
    case SeekOp(ms) => SetPlaybackPosition(p, ms)
    case SetCutOp(t) => SetCut(p, t)
    case DisableCutOp => DisableCut(p)
  }

  /** The player after a history of calls, oldest first. */
  function Replay(p: Player, ops: seq<Op>): Player
    decreases |ops|
  {
    if ops == [] then p else Step(Replay(p, ops[..|ops| - 1]), ops[|ops| - 1])
  }

  /**
   Reference: what the latest cut call of a history left behind — None when
   the history holds no cut call, Some(Some(t)) after `setCut(t)`,
   Some(None) after `disableCut()`.
   */
  function LatestCut(ops: seq<Op>): Option<Option<real>>
    decreases |ops|
  {
    if ops == [] then None
    else match ops[|ops| - 1]
      case SetCutOp(t) => Some(Some(t))
      case DisableCutOp => Some(None)
      case _ => LatestCut(ops[..|ops| - 1])
  }

  /**
   `getCutTime()` after any history returns the time of the most recent
   `setCut`, unless a `disableCut()` came after it (then it throws); with no
   cut call at all the answer is the starting player's.
   */
  lemma {:induction false} CutTimeAfterHistory(p: Player, ops: seq<Op>)
    ensures LatestCut(ops).None? ==> CutTime(Replay(p, ops)) == CutTime(p)
    ensures LatestCut(ops) == Some(None) ==> CutTime(Replay(p, ops)) == Throw(IllegalState)
    ensures forall t :: LatestCut(ops) == Some(Some(t)) ==> CutTime(Replay(p, ops)) == Ok(t)
    decreases |ops|
  {
    if ops != [] {
      var init := ops[..|ops| - 1];
      CutTimeAfterHistory(p, init);
      var before := Replay(p, init);
      match ops[|ops| - 1]
      case SetCutOp(t) =>
      case DisableCutOp =>
      case PlayOp =>
        assert CutTime(Play(before)) == CutTime(before);
      case PauseOp =>
        assert CutTime(Pause(before)) == CutTime(before);
      case StopOp =>
        assert CutTime(Stop(before)) == CutTime(before);
      case SeekOp(ms) =>
        assert CutTime(SetPlaybackPosition(before, ms)) == CutTime(before);
    }
  }

  /** A history never changes the player's UGen or its content position. */
  lemma {:induction false} HistoryKeepsClip(p: Player, ops: seq<Op>)
    ensures Replay(p, ops).ugen == p.ugen
    ensures Replay(p, ops).contentPosition == p.contentPosition
    decreases |ops|
  {
    if ops != [] {
      HistoryKeepsClip(p, ops[..|ops| - 1]);
    }
  }
}

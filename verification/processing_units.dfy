/**
 The processing-chain builder (daw/core/audioprocessing/
 BasicProcessingUnitBuilder.java). It collects effects in call order and at
 most one sidechain; `build` refuses an empty effect list. The sidechain is
 not an effect and never enters the list.
 */
module ProcessingUnits {
  import opened Outcomes

  /** An opaque Beads UGen, identified only by its allocation. */
  datatype UGen = UGen(id: nat)

  /** The five effects the builder can append; cutoffs are Java floats. */
  datatype Effect =
    | LowPassFilter(channels: int, cutoff: real)
    | HighPassFilter(channels: int, cutoff: real)
    | Reverb(channels: int)
    | Gate(channels: int)
    | Compression(channels: int)

  /** A sidechain input: the UGen that drives it and its channel count. */
  datatype Sidechaining = Sidechaining(source: UGen, channels: int)

  /** A built processing unit: its ordered effects and optional sidechain. */
  datatype ProcessingUnit = ProcessingUnit(effects: seq<Effect>, sidechain: Option<Sidechaining>)

  /** The builder's state. */
  datatype Builder = Builder(sidechain: Option<Sidechaining>, effects: seq<Effect>)

  /** A freshly constructed builder: no sidechain and no effects. */
  const NewBuilder := Builder(None, [])

  /** The builder `b` after appending `e`: one more effect, at the end. */
  predicate Appended(b: Builder, e: Effect, r: Builder) {
    && |r.effects| == |b.effects| + 1
    && r.effects[..|b.effects|] == b.effects
    && r.effects[|b.effects|] == e
    && r.sidechain == b.sidechain
  }

  function Append(b: Builder, e: Effect): (r: Builder)
    ensures Appended(b, e, r)
  {
    var r := b.(effects := b.effects + [e]);
    assert r.effects[..|b.effects|] == b.effects;
    r
  }

  /** `sidechain(u, channels)`: only the first call takes effect. */
  function Sidechain(b: Builder, u: UGen, channels: int): (r: Builder)
    ensures r.effects == b.effects
    ensures b.sidechain.Some? ==> r.sidechain == b.sidechain
    ensures b.sidechain.None? ==> r.sidechain == Some(Sidechaining(u, channels))
  {
    if b.sidechain.None? then b.(sidechain := Some(Sidechaining(u, channels))) else b
  }

  function LowPass(b: Builder, channels: int, cutoff: real): (r: Builder)
    ensures Appended(b, LowPassFilter(channels, cutoff), r)
  {
    Append(b, LowPassFilter(channels, cutoff))
  }

  function HighPass(b: Builder, channels: int, cutoff: real): (r: Builder)
    ensures Appended(b, HighPassFilter(channels, cutoff), r)
  {
    Append(b, HighPassFilter(channels, cutoff))
  }

  function AddReverb(b: Builder, channels: int): (r: Builder)
    ensures Appended(b, Reverb(channels), r)
  {
    Append(b, Reverb(channels))
  }

  function AddGate(b: Builder, channels: int): (r: Builder)
    ensures Appended(b, Gate(channels), r)
  {
    Append(b, Gate(channels))
  }

  function AddCompressor(b: Builder, channels: int): (r: Builder)
    ensures Appended(b, Compression(channels), r)
  {
    Append(b, Compression(channels))
  }

  /**
   `build`: a unit holding the effects in insertion order, with the
   sidechain attached when one was set; no effects means IllegalState,
   whether or not a sidechain was set.
   */
  function Build(b: Builder): (r: Result<ProcessingUnit>)
    ensures r.Throw? <==> b.effects == []
    ensures r.Throw? ==> r.exception == IllegalState
    ensures r.Ok? ==> r.value.effects == b.effects
    ensures r.Ok? ==> r.value.sidechain == b.sidechain
  {
    if b.effects != [] then
      Ok(ProcessingUnit(b.effects, b.sidechain))
    else
      Throw(IllegalState)
  }

  // ---------------------------------------------------------------- call sequences

  /** One call on the builder. */
  datatype Call = SidechainCall(u: UGen, channels: int) | EffectCall(effect: Effect)

  /** Dispatches one call to the builder method it names. */
  function Apply(b: Builder, c: Call): Builder {
    match c
    case SidechainCall(u, n) => Sidechain(b, u, n)
    case EffectCall(LowPassFilter(n, f)) => LowPass(b, n, f)
    case EffectCall(HighPassFilter(n, f)) => HighPass(b, n, f)
    case EffectCall(Reverb(n)) => AddReverb(b, n)
    case EffectCall(Gate(n)) => AddGate(b, n)
    case EffectCall(Compression(n)) => AddCompressor(b, n)
  }

  /** The builder after a chain of calls, made left to right. */
  function Run(b: Builder, calls: seq<Call>): Builder
    decreases |calls|
  {
    if calls == [] then b else Run(Apply(b, calls[0]), calls[1..])
  }

  /** Reference: the effects named by a call sequence, in call order. */
  function EffectsOf(calls: seq<Call>): seq<Effect>
    decreases |calls|
  {
    if calls == [] then []
    else if calls[0].EffectCall? then [calls[0].effect] + EffectsOf(calls[1..])
    else EffectsOf(calls[1..])
  }

  /** Reference: the sidechain of the first sidechain call, if any. */
  function FirstSidechain(calls: seq<Call>): Option<Sidechaining>
    decreases |calls|
  {
    if calls == [] then None
    else if calls[0].SidechainCall? then Some(Sidechaining(calls[0].u, calls[0].channels))
    else FirstSidechain(calls[1..])
  }

  /**
   Effect order equals call order, sidechain calls add no effect, and only
   the first sidechain call is kept.
   */
  lemma {:induction false} RunMatchesCalls(b: Builder, calls: seq<Call>)
    ensures Run(b, calls).effects == b.effects + EffectsOf(calls)
    ensures Run(b, calls).sidechain == (if b.sidechain.Some? then b.sidechain else FirstSidechain(calls))
    decreases |calls|
  {
    if calls != [] {
      var b' := Apply(b, calls[0]);
      RunMatchesCalls(b', calls[1..]);
      if calls[0].EffectCall? {
        assert b'.effects == b.effects + [calls[0].effect];
      }
    }
  }

  /**
   Building after any chain of calls fails exactly when no effect call was
   made; otherwise the unit holds the called effects in order and the first
   sidechain.
   */
  lemma BuildAfterCalls(calls: seq<Call>)
    ensures Build(Run(NewBuilder, calls)).Throw? <==> EffectsOf(calls) == []
    ensures Build(Run(NewBuilder, calls)).Ok? ==>
      Build(Run(NewBuilder, calls)).value == ProcessingUnit(EffectsOf(calls), FirstSidechain(calls))
  {
    RunMatchesCalls(NewBuilder, calls);
  }
}

/**
 The channel factory (daw/core/channel/BasicChannelFactory.java): fixed
 construction recipes for mixer channels, each built on the processing-unit
 builder. Every recipe starts from volume 40 out of 100 and a fresh panner.
 */
module ChannelFactory {
  import opened Outcomes
  import opened ProcessingUnits

  const DefaultVolume: int := 40
  const DefaultMaxVolume: int := 100

  /** BasicVolume as a (value, maximum) pair. */
  datatype Volume = Volume(value: int, max: int)

  /** A Beads Panner in its default state. */
  datatype Panner = DefaultPanner

  /** RPChannel.Type, as far as the factory uses it. */
  datatype ChannelType = Audio | Return | Master

  /**
   A mixer channel: volume, panner, type, the processing units added to it
   and the UGens connected to it as sources.
   */
  datatype RPChannel = RPChannel(
    volume: Volume,
    panner: Panner,
    kind: ChannelType,
    units: seq<ProcessingUnit>,
    sources: seq<UGen>)

  /** A fresh BasicChannel of the given type. */
  function NewBasicChannel(kind: ChannelType): RPChannel {
    RPChannel(Volume(DefaultVolume, DefaultMaxVolume), DefaultPanner, kind, [], [])
  }

  /** RPChannel.addProcessingUnit: appends a unit to the channel. */
  function AddProcessingUnit(c: RPChannel, u: ProcessingUnit): RPChannel {
    c.(units := c.units + [u])
  }

  /** RPChannel.connectSource: connects a UGen as a further source. */
  function ConnectSource(c: RPChannel, u: UGen): RPChannel {
    c.(sources := c.sources + [u])
  }

  /** The state every recipe starts from. */
  predicate Fresh(c: RPChannel) {
    c.volume == Volume(DefaultVolume, DefaultMaxVolume) && c.panner == DefaultPanner && c.sources == []
  }

  /** `basic()`: an audio channel with no processing unit. */
  function Basic(): (c: RPChannel)
    ensures Fresh(c)
    ensures c.kind == Audio
    ensures c.units == []
  {
    NewBasicChannel(Audio)
  }

  /** `gated()`: an audio channel with one unit holding exactly one gate. */
  function Gated(): (r: Result<RPChannel>)
    ensures r.Ok?
    ensures Fresh(r.value)
    ensures r.value.kind == Audio
    ensures r.value.units == [ProcessingUnit([Gate(1)], None)]
  {
    var bc := NewBasicChannel(Audio);
    match Build(AddGate(NewBuilder, 1))
    case Throw(e) => Throw(e)
    case Ok(unit) => Ok(AddProcessingUnit(bc, unit))
  }

  /**
   `sidechained(u)`: the builder gets a sidechain but no effect, so `build`
   always throws and no channel is ever returned.
   */
  function Sidechained(u: UGen): (r: Result<RPChannel>)
    ensures r == Throw(IllegalState)
  {
    var bc := NewBasicChannel(Audio);
    match Build(Sidechain(NewBuilder, u, 1))
    case Throw(e) => Throw(e)
    case Ok(unit) => Ok(AddProcessingUnit(bc, unit))
  }

  /** `returnChannel()`: a return channel whose unit is one high-pass at 100. */
  function ReturnChannel(): (r: Result<RPChannel>)
    ensures r.Ok?
    ensures Fresh(r.value)
    ensures r.value.kind == Return
    ensures r.value.units == [ProcessingUnit([HighPassFilter(1, 100.0)], None)]
  {
    var bc := NewBasicChannel(Return);
    match Build(HighPass(NewBuilder, 1, 100.0))
    case Throw(e) => Throw(e)
    case Ok(unit) => Ok(AddProcessingUnit(bc, unit))
  }

  /** `masterChannel()`: a master channel whose unit is one compressor. */
  function MasterChannel(): (r: Result<RPChannel>)
    ensures r.Ok?
    ensures Fresh(r.value)
    ensures r.value.kind == Master
    ensures r.value.units == [ProcessingUnit([Compression(1)], None)]
  {
    var bc := NewBasicChannel(Master);
    match Build(AddCompressor(NewBuilder, 1))
    case Throw(e) => Throw(e)
    case Ok(unit) => Ok(AddProcessingUnit(bc, unit))
  }
}

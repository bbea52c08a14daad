/**
 Session metadata: what `LockstepConfig::metadata` announces and what the Python client's
 `validate_metadata` accepts.
 */
module Negotiation {
  import opened Wrappers

  const PROTOCOL_VERSION := 4
  const SELF_STRIDE := 8
  const FIELD_COUNT := 3
  const NEIGHBOR_STRIDE := 15
  const ACTION_STRIDE := 7
  const SNAPSHOT_SCHEMA_VERSION := 2
  const U32 := 0x1_0000_0000
  const U64 := 0x1_0000_0000_0000_0000
  const U128 := U64 * U64

  datatype Config = Config(
    physicsTicks: nat, worldSeed: nat, worldId: nat, sessionId: nat, stableAgentId: nat,
    resumeToken: string, maxNeighbors: nat, fieldSamples: nat, fieldChannels: nat, sensorRadius: Float)

  /** The widths of the Rust fields. */
  predicate Typed(config: Config) {
    && config.physicsTicks < U32
    && config.worldSeed < U64 && config.worldId < U128 && config.sessionId < U128
    && config.stableAgentId < U64
    && config.maxNeighbors < U64 && config.fieldSamples < U64 && config.fieldChannels < U64
  }

  datatype Metadata = Metadata(
    protocolVersion: nat, schemaVersion: nat, fixedTimestep: Float, physicsTicks: nat,
    observationFloats: nat, actionFloats: nat, selfStride: nat, neighborStride: nat, fieldCount: nat,
    maxNeighbors: nat, fieldSamples: nat, fieldChannels: nat, sensorRadius: Float,
    actionMin: seq<real>, actionMax: seq<real>, lockstep: bool,
    worldSeed: nat, worldTick: nat, worldId: nat, sessionId: nat, resumeToken: string,
    stableAgentId: nat, snapshotSchemaVersion: nat, physicalDeltas: bool)

  function ObservationFloats(samples: nat, channels: nat, neighbors: nat): nat {
    SELF_STRIDE + FIELD_COUNT * (samples * channels) + neighbors * NEIGHBOR_STRIDE
  }

  /** `observation_len` is computed in 64-bit words and wraps. */
  function MetadataOf(config: Config, tick: nat): Metadata {
    Metadata(
      PROTOCOL_VERSION, 1, Finite(1.0 / 60.0), if config.physicsTicks < 1 then 1 else config.physicsTicks,
      ObservationFloats(config.fieldSamples, config.fieldChannels, config.maxNeighbors) % U64,
      ACTION_STRIDE, SELF_STRIDE, NEIGHBOR_STRIDE, FIELD_COUNT,
      config.maxNeighbors, config.fieldSamples, config.fieldChannels, config.sensorRadius,
      [-1.0, -1.0, -1.0, 0.0, 0.0, -16.0, 0.0], [1.0, 1.0, 1.0, 1.0, 1.0, 16.0, 6.28318530], true,
      config.worldSeed, tick, config.worldId, config.sessionId, config.resumeToken,
      config.stableAgentId, SNAPSHOT_SCHEMA_VERSION, true)
  }

  predicate ValidMetadata(m: Metadata) {
    && m.protocolVersion == PROTOCOL_VERSION && m.actionFloats == ACTION_STRIDE
    && m.selfStride == SELF_STRIDE && m.neighborStride == NEIGHBOR_STRIDE
    && m.fieldCount == FIELD_COUNT && m.lockstep
    && m.maxNeighbors < U32 && m.fieldSamples < U32 && m.fieldChannels < U32
    && m.observationFloats < U32 && m.physicsTicks < U32
    && m.sessionId < U128 && m.stableAgentId < U64
    && 1 <= m.schemaVersion < 0x1_0000 && 1 <= m.snapshotSchemaVersion < 0x1_0000
    && m.worldSeed < U64 && m.worldTick < U64 && m.worldId < U128
    && m.maxNeighbors > 0 && m.fieldSamples > 0 && m.fieldChannels > 0 && m.physicsTicks > 0
    && m.observationFloats == ObservationFloats(m.fieldSamples, m.fieldChannels, m.maxNeighbors)
    && m.resumeToken != ""
    && PositiveFinite(m.fixedTimestep) && PositiveFinite(m.sensorRadius)
    && |m.actionMin| == ACTION_STRIDE && |m.actionMax| == ACTION_STRIDE
    && (forall i | 0 <= i < ACTION_STRIDE :: m.actionMin[i] <= m.actionMax[i])
  }

  /** What a caller can check about a configuration before it opens a session. */
  predicate Announceable(config: Config) {
    && 0 < config.maxNeighbors < U32 && 0 < config.fieldSamples < U32 && 0 < config.fieldChannels < U32
    && ObservationFloats(config.fieldSamples, config.fieldChannels, config.maxNeighbors) < U32
    && config.resumeToken != ""
    && PositiveFinite(config.sensorRadius)
  }

  /** The client accepts the announced metadata for exactly the announceable configurations. */
  lemma MetadataAccepted(config: Config, tick: nat)
    requires Typed(config) && tick < U64
    ensures ValidMetadata(MetadataOf(config, tick)) <==> Announceable(config)
  {
  }

  /** The session that metadata describes, if it is one that can be announced. */
  function ConfigOf(m: Metadata): Config {
    Config(m.physicsTicks, m.worldSeed, m.worldId, m.sessionId, m.stableAgentId, m.resumeToken, m.maxNeighbors,
           m.fieldSamples, m.fieldChannels, m.sensorRadius)
  }

  /** What the client leaves to the server: schema versions, the time step, the bounds, and whether deltas come. */
  function WithOwn(m: Metadata, own: Metadata): Metadata {
    m.(schemaVersion := own.schemaVersion, snapshotSchemaVersion := own.snapshotSchemaVersion,
       fixedTimestep := own.fixedTimestep, actionMin := own.actionMin, actionMax := own.actionMax,
       physicalDeltas := own.physicalDeltas)
  }

  predicate InOrder(low: seq<real>, high: seq<real>) {
    |low| == 7 && |high| == 7 && forall i | 0 <= i < 7 :: low[i] <= high[i]
  }

  /**
   The metadata that the client accepts, whoever sends it: exactly what a session that can be
   announced announces, but for versions from 1 to 65535, any positive time step, and bounds in order.
   */
  lemma MetadataExactly(m: Metadata)
    ensures ValidMetadata(m) <==>
              && (exists config, tick: nat ::
                    Typed(config) && Announceable(config) && tick < U64 && m == WithOwn(MetadataOf(config, tick), m))
              && 1 <= m.schemaVersion <= 65535 && 1 <= m.snapshotSchemaVersion <= 65535
              && PositiveFinite(m.fixedTimestep) && InOrder(m.actionMin, m.actionMax)
  {
    if ValidMetadata(m) {
      var config := ConfigOf(m);
      assert Typed(config) && Announceable(config);
      assert m == WithOwn(MetadataOf(config, m.worldTick), m);
    } else if config, tick: nat :|
        Typed(config) && Announceable(config) && tick < U64 && m == WithOwn(MetadataOf(config, tick), m) {
      MetadataAccepted(config, tick);
    }
  }

  /** Nothing about a session is lost on the way: metadata tells its tick and all of its configuration. */
  lemma MetadataTells(a: Config, b: Config, s: nat, t: nat)
    ensures MetadataOf(a, s) == MetadataOf(b, t) <==>
            && s == t && b == a.(physicsTicks := b.physicsTicks)
            && (a.physicsTicks == b.physicsTicks || (a.physicsTicks <= 1 && b.physicsTicks <= 1))
  {
  }

  /** A client that already holds metadata demands the same again, up to the world tick. */
  predicate SameSession(previous: Metadata, current: Metadata) {
    previous.(worldTick := 0) == current.(worldTick := 0)
  }
}

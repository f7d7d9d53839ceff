# Particle emitters: wire layout, type dispatch and emitter attachment

This project models the particle-emitter part of the Minetest client
(`src/particle.cpp`, `src/particle.h`) and proves properties of the model in
Dafny 4.11.

What is modelled:

- **Streams** (`wire.dfy`, module `Wire`). The binary primitives
  `writeF1000`/`readF1000`, `writeU32`/`readU32`, `writeS32`/`readS32` and
  `serializeString`/`deSerializeString` are modelled one level above bytes: a
  stream is a sequence of tokens `F1000(thousandths)`, `U32`, `S32`, `Str`.
  `OutStream` (an `ostringstream`) appends one token per write. `InStream`
  (an `istringstream`) consumes one token per read. A read that finds no token
  of the kind it expects fails and consumes nothing.
- **Values** (`geometry.dfy`, module `Geometry`). `vector3df`, `dimension2df`
  and `aabbox3df` have integer coordinates in thousandths. Scaling by the
  world-unit factor `BS` uses an abstract parameter `bs`.
- **`ParticleEmitterDef`** (`particle_def.dfy`, module `ParticleDef`).
  `DefTokens` is what `serialize` writes: three F1000 direction components,
  four u32 rates and lifetimes, one s32 angle, four F1000 sizes, then the
  texture name. `ParseDef` is what `deserialize` reads. `Serialize` and
  `Deserialize` are the imperative versions over the stream classes; their
  contracts tie them to `DefTokens` and `ParseDef`. Lemmas prove the round
  trip, that `deserialize` accepts exactly the streams of the right layout,
  that it consumes exactly the serialised tokens, and that serialisation is
  injective.
- **Shape extra data** (`extra_data.dfy`, module `ExtraData`). Box and
  sphere `serializeExtraData` write six and one F1000 values. The
  constructors' decoding reads the same number in the same order and
  multiplies each by `BS`. There are round-trip, acceptance and inverse lemmas
  for both shapes.
- **Emitters** (`emitters.dfy`, module `Emitters`). This covers:
  - the type codes and the factory `create`;
  - the three concrete emitter classes as one class `ConcreteEmitter` with a
    constant `kind`, whose `GetType` is `TypeCode(kind)`;
  - the scene node's emitter slot, which `Suspend` empties and `Resume`
    refills;
  - `UpdateLight`, which does nothing without an engine emitter and otherwise
    sets both start colours to the same opaque grey.

  `decode_light` is a parameter `decodeLight: u8 -> u8`.

## Model

| member | source | states |
|---|---|---|
| `ParticleDef.DefTokens` | src/particle.cpp:56-71 | serialize writes exactly 13 tokens whose kinds are, in order, F1000 ×3, U32 ×4, S32, F1000 ×4, string, and the last is the texture name |
| `ParticleDef.Serialize` | src/particle.cpp:56-71 | the stream afterwards is the stream before followed by exactly the definition's 13 tokens |
| `ParticleDef.ParseDef` | src/particle.cpp:73-92 | what deserialize reads: it accepts a stream if and only if its first 13 tokens have the kinds serialize writes, in the same order |
| `ParticleDef.Deserialize` | src/particle.cpp:73-92 | succeeds exactly when the remaining stream parses; then every field of the out-parameter comes from the stream (none from its old value) and exactly 13 tokens are consumed; on failure the texture name, read last, keeps its old value |
| `ParticleDef.DefRoundTrip` | src/particle.cpp:56-92 | deserialising the serialisation of any definition, whatever follows it, gives back every field: u32/s32 fields and texture name exactly, F1000 fields as their fixed-point values |
| `ParticleDef.ParseDefInverse` | src/particle.cpp:73-92 | a stream that deserialises to d starts with exactly the serialisation of d |
| `ParticleDef.DefTokensInjective` | src/particle.cpp:56-71 | two definitions with the same serialisation are equal |
| `ExtraData.BoxTokens` | src/particle.cpp:201-211 | box extra data is six F1000 tokens |
| `ExtraData.SerializeBoxExtraData` | src/particle.cpp:201-211 | returns min corner X, Y, Z then max corner X, Y, Z as F1000 tokens |
| `ExtraData.DecodeBoxExtraData` | src/particle.cpp:163-171 | reads six F1000 values through a stream and returns the box they give, each coordinate times BS, or fails when a read fails |
| `ExtraData.ParseBox` | src/particle.cpp:164-171 | the box the Box constructor decodes: it accepts the extra data if and only if the data starts with six F1000 values |
| `ExtraData.BoxRoundTrip` | src/particle.cpp:164-211 | decoding serialised box extra data gives the original corners scaled by BS, whatever follows |
| `ExtraData.ParseBoxInverse` | src/particle.cpp:164-171 | data the box decoding accepts starts with the serialisation of some box, and the decoded box is that box scaled by BS |
| `ExtraData.SphereTokens` | src/particle.cpp:252-257 | sphere extra data is exactly one F1000 token |
| `ExtraData.SerializeSphereExtraData` | src/particle.cpp:252-257 | returns the radius as one F1000 token |
| `ExtraData.DecodeSphereExtraData` | src/particle.cpp:219-221 | reads one F1000 value and returns it times BS, or fails when the read fails |
| `ExtraData.ParseSphere` | src/particle.cpp:220-221 | the radius the Sphere constructor decodes: it accepts the extra data if and only if the data starts with an F1000 value |
| `ExtraData.SphereRoundTrip` | src/particle.cpp:216-257 | decoding serialised sphere extra data gives the radius scaled by BS |
| `ExtraData.ParseSphereInverse` | src/particle.cpp:219-221 | data the sphere decoding accepts starts with the serialisation of some radius, and the result is that radius times BS |
| `Emitters.TypeCode` | src/particle.h:78-109 | getType of the point, box and sphere emitters is one of the codes 1..3, never NONE |
| `Emitters.ConcreteEmitter.GetType` | src/particle.h:78-109 | an emitter's getType is never NONE and the factory maps it back to the emitter's own kind |
| `Emitters.KindForCode` | src/particle.cpp:35-51 | the factory builds nothing exactly for codes other than 1, 2, 3 (NONE included); for those it builds the kind whose type code is the given code |
| `Emitters.TypeCodesDistinct` | src/particle.h:30-33 | NONE, POINT, BOX and SPHERE are pairwise distinct |
| `Emitters.TypeCodeRoundTrip` | src/particle.h:78-109 | every concrete emitter reports a code other than NONE, the factory maps it back to the same kind, and different kinds report different codes |
| `Emitters.ShapeFor` | src/particle.cpp:160-221 | the shape decoded for a kind is always a shape of that kind |
| `Emitters.PointIgnoresExtraData` | src/particle.cpp:127-149 | the point emitter's shape is the same for any extra data |
| `Emitters.SettingsFor` | src/particle.cpp:135-144 | the engine parameters taken from the definition: direction, rates, lifetimes and angle passed through unchanged, both sizes scaled by BS (the same call shape at src/particle.cpp:179-188 and 230-239) |
| `Emitters.LightColor` | src/particle.cpp:118-119 | the colour for a light level is opaque (alpha 255) with red, green and blue all equal to the decoded light |
| `Emitters.CommonSetup` | src/particle.cpp:98-110 | sets the node's position and texture and leaves its emitter slot alone |
| `Emitters.ConcreteEmitter.Point` | src/particle.cpp:127-149 | a new node with a new point emitter attached, white start colours, the definition's settings with sizes scaled by BS, position and texture set |
| `Emitters.ConcreteEmitter.Box` | src/particle.cpp:160-193 | as Point, with a box emitter over the decoded box |
| `Emitters.ConcreteEmitter.Sphere` | src/particle.cpp:216-244 | as Point, with a sphere emitter centred at the origin with the decoded radius |
| `Emitters.ConcreteEmitter.Suspend` | src/particle.h:79 | the node's emitter slot becomes empty; the emitter's node and engine emitter and the node's other state are unchanged |
| `Emitters.ConcreteEmitter.Resume` | src/particle.h:80 | the node's emitter slot holds the stored engine emitter; nothing else changes |
| `Emitters.ConcreteEmitter.UpdateLight` | src/particle.cpp:115-155 | without an engine emitter nothing changes; otherwise min and max start colour become the same colour, alpha 255 and three channels equal to the decoded light |
| `Emitters.Create` | src/particle.cpp:35-51 | no emitter exactly for codes other than 1..3; a decoding failure exactly when the box or sphere extra data does not decode; otherwise a fresh, attached emitter whose type code is the requested code, whose shape is the one decoded from the extra data, whose settings come from the definition, whose start colours are white, and whose node is at `pos` with the definition's texture |
| `Emitters.SuspendThenResume` | src/particle.h:79-80 | suspending an attached emitter and then resuming it restores the node's slot and leaves its position and texture as they were |
| `Emitters.ResumeTwice` | src/particle.h:80 | resuming twice leaves the node as resuming once does |

## Left out

- `src/socket.h` (addresses, UDP sockets, socket errors) is not part of this model. It holds only declarations of operating-system datagram I/O.
- The byte layout of `writeF1000`, `writeU32`, `writeS32` and `serializeString` is not modelled. These primitives live in `util/serialize.h`, which is not part of this model. Streams are token sequences. The failure of a read is a modelling choice: a read that finds no token of the expected kind fails and stops the decoding, as an exception would. The C++ shown has no failure path of its own: for codes 1..3 `create` always constructs an emitter. `Create`'s `BadExtraData` result and `Deserialize`'s `ok == false` exist only because reads are modelled as able to fail. The length limit of `serializeString` is not modelled.
- Floating point is not modelled. F1000 values are integers in thousandths, so the rounding of `writeF1000` is absent. The range of an F1000 value is not modelled either: `F1000` tokens carry any integer, while `U32` and `S32` tokens are bounded to their widths. So `DefRoundTrip` and `BoxRoundTrip` also hold for values a fixed-width encoder could not carry. `BS` is an abstract integer parameter, and `* BS` is integer multiplication.
- Rendering-engine calls are not modelled: `addParticleSystemSceneNode`, the `create*Emitter` calls, material flags and material type, `getTextureRaw`, and `drop`/`remove` in the destructors. The node keeps only its emitter slot, position and texture name. The engine emitter keeps only its creation parameters and two start colours.
- `decode_light` (in `light.h`) is an uninterpreted parameter `decodeLight: u8 -> u8`.
- The abstract base class `ParticleEmitter` is not modelled separately; `ConcreteEmitter` stands for the three classes derived from it. Its `getType` returns NONE and its `updateLight` does nothing (src/particle.h:63, 66). The base class has pure virtual `suspend` and `resume`, so it has no instances, and every concrete class overrides both members. The three concrete classes are one class with a constant `kind`, and virtual dispatch is a match on that kind.
- `Emitters.ConcreteEmitter.Box` and `Emitters.ConcreteEmitter.Sphere`: the decoding at the top of the C++ constructors is the separate methods `DecodeBoxExtraData` and `DecodeSphereExtraData`. These can fail in the token model, and `Create` calls them before the constructor. The constructors take the decoded, scaled values.
- `Emitters.ConcreteEmitter.UpdateLight`: the renderer's later use of the start colours is not modelled.

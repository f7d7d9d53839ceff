/** ParticleEmitterDef, the data sent to build an emitter, and its wire
    layout: twelve numeric tokens followed by the texture name. */
module ParticleDef {
  import opened Wire
  import opened Geometry

  datatype EmitterDef = EmitterDef(
    direction: Vec3,                  // the direction particles travel in
    minParticlesPerSec: u32,
    maxParticlesPerSec: u32,
    minLifeMillis: u32,
    maxLifeMillis: u32,
    maxAngleDifferenceDegrees: s32,   // largest deviation from `direction`
    minSize: Size2,                   // smallest particle start size
    maxSize: Size2,                   // largest particle start size
    textureName: string)

  /** The kinds of the tokens of a serialised definition, in stream order. */
  const DefLayout: seq<Kind> :=
    [KF1000, KF1000, KF1000,
     KU32, KU32, KU32, KU32,
     KS32,
     KF1000, KF1000, KF1000, KF1000,
     KStr]

  /** What serialize writes: twelve numeric tokens, then the string. */
  function DefTokens(d: EmitterDef): (r: seq<Token>)
    ensures |r| == |DefLayout| == 13
    ensures forall i :: 0 <= i < |r| ==> KindOf(r[i]) == DefLayout[i]
    ensures r[12] == Str(d.textureName)
  {
    [F1000(d.direction.x), F1000(d.direction.y), F1000(d.direction.z),
     U32(d.minParticlesPerSec), U32(d.maxParticlesPerSec),
     U32(d.minLifeMillis), U32(d.maxLifeMillis),
     S32(d.maxAngleDifferenceDegrees),
     F1000(d.minSize.width), F1000(d.minSize.height),
     F1000(d.maxSize.width), F1000(d.maxSize.height),
     Str(d.textureName)]
  }

  /** What deserialize reads: one token per field, in field order, each of
      the kind its reader expects; any mismatch fails. So it accepts a stream
      exactly when its first thirteen tokens have the kinds serialize writes,
      in the same order. */
  function ParseDef(ts: seq<Token>): (r: Option<EmitterDef>)
    ensures r.Some? <==>
            |ts| >= |DefLayout| && forall i :: 0 <= i < |DefLayout| ==> KindOf(ts[i]) == DefLayout[i]
  {
    var x :- F1000At(ts, 0);
    var y :- F1000At(ts, 1);
    var z :- F1000At(ts, 2);
    var minPps :- U32At(ts, 3);
    var maxPps :- U32At(ts, 4);
    var minLife :- U32At(ts, 5);
    var maxLife :- U32At(ts, 6);
    var angle :- S32At(ts, 7);
    var minw :- F1000At(ts, 8);
    var minh :- F1000At(ts, 9);
    var maxw :- F1000At(ts, 10);
    var maxh :- F1000At(ts, 11);
    var texture :- StrAt(ts, 12);
    Some(EmitterDef(Vec3(x, y, z), minPps, maxPps, minLife, maxLife, angle,
                    Size2(minw, minh), Size2(maxw, maxh), texture))
  }

  /** Deserialising what was serialised gives back every field, whatever
      follows it in the stream. */
  lemma DefRoundTrip(d: EmitterDef, rest: seq<Token>)
    ensures ParseDef(DefTokens(d) + rest) == Some(d)
  {
  }

  /** A stream that deserialises to d starts with exactly the tokens that
      serialising d writes: the reader consumes nothing else. */
  lemma ParseDefInverse(ts: seq<Token>)
    requires ParseDef(ts).Some?
    ensures |ts| >= 13 && ts[..13] == DefTokens(ParseDef(ts).value)
  {
  }

  /** Distinct definitions never serialise to the same tokens. */
  lemma DefTokensInjective(a: EmitterDef, b: EmitterDef)
    requires DefTokens(a) == DefTokens(b)
    ensures a == b
  {
  }

  /** ParticleEmitterDef::serialize: thirteen writes, in field order. */
  method Serialize(d: EmitterDef, os: OutStream)
    modifies os
    ensures os.written == old(os.written) + DefTokens(d)
  {
    os.WriteF1000(d.direction.x);
    os.WriteF1000(d.direction.y);
    os.WriteF1000(d.direction.z);
    os.WriteU32(d.minParticlesPerSec);
    os.WriteU32(d.maxParticlesPerSec);
    os.WriteU32(d.minLifeMillis);
    os.WriteU32(d.maxLifeMillis);
    os.WriteS32(d.maxAngleDifferenceDegrees);
    os.WriteF1000(d.minSize.width);
    os.WriteF1000(d.minSize.height);
    os.WriteF1000(d.maxSize.width);
    os.WriteF1000(d.maxSize.height);
    os.WriteString(d.textureName);
  }

  /** ParticleEmitterDef::deserialize. The out-parameter is passed in as
      `def` and handed back updated field by field, in the order of the
      reads; a failed read stops at once, leaving the fields read so far
      assigned. On success every field comes from the stream, so the result
      does not depend on the incoming `def`. */
  method Deserialize(input: InStream, def: EmitterDef) returns (ok: bool, out: EmitterDef)
    modifies input
    ensures ok <==> ParseDef(old(input.rest)).Some?
    ensures ok ==> out == ParseDef(old(input.rest)).value && input.rest == old(input.rest)[13..]
    ensures !ok ==> out.textureName == def.textureName
  {
    out := def;
    ok := false;
    var x := input.ReadF1000();
    if x.None? { return; }
    var y := input.ReadF1000();
    if y.None? { return; }
    var z := input.ReadF1000();
    if z.None? { return; }
    out := out.(direction := Vec3(x.value, y.value, z.value));
    var minPps := input.ReadU32();
    if minPps.None? { return; }
    out := out.(minParticlesPerSec := minPps.value);
    var maxPps := input.ReadU32();
    if maxPps.None? { return; }
    out := out.(maxParticlesPerSec := maxPps.value);
    var minLife := input.ReadU32();
    if minLife.None? { return; }
    out := out.(minLifeMillis := minLife.value);
    var maxLife := input.ReadU32();
    if maxLife.None? { return; }
    out := out.(maxLifeMillis := maxLife.value);
    var angle := input.ReadS32();
    if angle.None? { return; }
    out := out.(maxAngleDifferenceDegrees := angle.value);
    var minw := input.ReadF1000();
    if minw.None? { return; }
    var minh := input.ReadF1000();
    if minh.None? { return; }
    out := out.(minSize := Size2(minw.value, minh.value));
    var maxw := input.ReadF1000();
    if maxw.None? { return; }
    var maxh := input.ReadF1000();
    if maxh.None? { return; }
    out := out.(maxSize := Size2(maxw.value, maxh.value));
    var texture := input.ReadString();
    if texture.None? { return; }
    out := out.(textureName := texture.value);
    ok := true;
  }
}

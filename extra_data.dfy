/** The shape-specific "extra data" of the box and sphere emitters: the
    encoders serializeExtraData and the decoding at the top of the
    BoxParticleEmitter and SphereParticleEmitter constructors, which scale
    every value they read by BS. */
module ExtraData {
  import opened Wire
  import opened Geometry

  /** BoxParticleEmitter::serializeExtraData writes six F1000 values:
      the minimum corner X, Y, Z, then the maximum corner X, Y, Z. */
  function BoxTokens(b: Box): (r: seq<Token>)
    ensures |r| == 6
    ensures forall i :: 0 <= i < |r| ==> KindOf(r[i]) == KF1000
  {
    [F1000(b.minEdge.x), F1000(b.minEdge.y), F1000(b.minEdge.z),
     F1000(b.maxEdge.x), F1000(b.maxEdge.y), F1000(b.maxEdge.z)]
  }

  /** The box the Box constructor builds from its extra data: six F1000
      reads in corner order, each multiplied by BS. It accepts the data
      exactly when it starts with six F1000 values. */
  function ParseBox(ts: seq<Token>, bs: int): (r: Option<Box>)
    ensures r.Some? <==> |ts| >= 6 && forall i :: 0 <= i < 6 ==> KindOf(ts[i]) == KF1000
  {
    var minx :- F1000At(ts, 0);
    var miny :- F1000At(ts, 1);
    var minz :- F1000At(ts, 2);
    var maxx :- F1000At(ts, 3);
    var maxy :- F1000At(ts, 4);
    var maxz :- F1000At(ts, 5);
    Some(Box(Vec3(minx * bs, miny * bs, minz * bs), Vec3(maxx * bs, maxy * bs, maxz * bs)))
  }

  /** Decoding the serialised box gives its corners scaled by BS; anything
      after the six values is ignored. */
  lemma BoxRoundTrip(b: Box, bs: int, rest: seq<Token>)
    ensures ParseBox(BoxTokens(b) + rest, bs) == Some(ScaleBox(b, bs))
  {
  }

  /** Extra data the Box constructor accepts starts with the serialisation
      of some box, and the constructor's box is that box scaled by BS. */
  lemma ParseBoxInverse(ts: seq<Token>, bs: int)
    requires ParseBox(ts, bs).Some?
    ensures exists b :: ts[..6] == BoxTokens(b) && ParseBox(ts, bs) == Some(ScaleBox(b, bs))
  {
    var b := Box(Vec3(ts[0].milli, ts[1].milli, ts[2].milli), Vec3(ts[3].milli, ts[4].milli, ts[5].milli));
    assert ts[..6] == BoxTokens(b);
  }

  /** SphereParticleEmitter::serializeExtraData writes the radius as one
      F1000 value. */
  function SphereTokens(radius: int): (r: seq<Token>)
    ensures |r| == 1 && KindOf(r[0]) == KF1000
  {
    [F1000(radius)]
  }

  /** The radius the Sphere constructor reads: one F1000 value times BS.
      It accepts the data exactly when it starts with an F1000 value. */
  function ParseSphere(ts: seq<Token>, bs: int): (r: Option<int>)
    ensures r.Some? <==> |ts| >= 1 && KindOf(ts[0]) == KF1000
  {
    var radius :- F1000At(ts, 0);
    Some(radius * bs)
  }

  /** Decoding serialised sphere extra data gives the radius scaled by BS. */
  lemma SphereRoundTrip(radius: int, bs: int, rest: seq<Token>)
    ensures ParseSphere(SphereTokens(radius) + rest, bs) == Some(radius * bs)
  {
  }

  /** Extra data the Sphere constructor accepts starts with the
      serialisation of some radius, and its radius is that one times BS. */
  lemma ParseSphereInverse(ts: seq<Token>, bs: int)
    requires ParseSphere(ts, bs).Some?
    ensures exists radius :: ts[..1] == SphereTokens(radius) && ParseSphere(ts, bs) == Some(radius * bs)
  {
  }

  /** serializeExtraData for a box, through a local output stream. */
  method SerializeBoxExtraData(b: Box) returns (data: seq<Token>)
    ensures data == BoxTokens(b)
  {
    var os := new OutStream();
    os.WriteF1000(b.minEdge.x);
    os.WriteF1000(b.minEdge.y);
    os.WriteF1000(b.minEdge.z);
    os.WriteF1000(b.maxEdge.x);
    os.WriteF1000(b.maxEdge.y);
    os.WriteF1000(b.maxEdge.z);
    data := os.written;
  }

  /** The decoding step of the Box constructor, through a local input stream
      over the extra data. A read that fails stops the decoding. */
  method DecodeBoxExtraData(extradata: seq<Token>, bs: int) returns (r: Option<Box>)
    ensures r == ParseBox(extradata, bs)
  {
    var input := new InStream(extradata);
    var minx := input.ReadF1000();
    if minx.None? { return None; }
    var miny := input.ReadF1000();
    if miny.None? { return None; }
    var minz := input.ReadF1000();
    if minz.None? { return None; }
    var maxx := input.ReadF1000();
    if maxx.None? { return None; }
    var maxy := input.ReadF1000();
    if maxy.None? { return None; }
    var maxz := input.ReadF1000();
    if maxz.None? { return None; }
    r := Some(Box(Vec3(minx.value * bs, miny.value * bs, minz.value * bs),
                  Vec3(maxx.value * bs, maxy.value * bs, maxz.value * bs)));
  }

  /** serializeExtraData for a sphere. */
  method SerializeSphereExtraData(radius: int) returns (data: seq<Token>)
    ensures data == SphereTokens(radius)
  {
    var os := new OutStream();
    os.WriteF1000(radius);
    data := os.written;
  }

  /** The decoding step of the Sphere constructor. */
  method DecodeSphereExtraData(extradata: seq<Token>, bs: int) returns (r: Option<int>)
    ensures r == ParseSphere(extradata, bs)
  {
    var input := new InStream(extradata);
    var radius := input.ReadF1000();
    if radius.None? { return None; }
    r := Some(radius.value * bs);
  }
}

/** The particle emitters: type codes and the factory, the three concrete
    emitter kinds, the scene node's emitter slot that suspend and resume
    switch, and the light update of the start colours.

    The rendering engine's objects are reduced to the state the emitters
    touch: a scene node with its emitter slot, position and texture, and an
    engine emitter that records the parameters it was created with and its
    two start colours. */
module Emitters {
  import opened Wire
  import opened Geometry
  import opened ParticleDef
  import opened ExtraData

  /** The emitter type codes carried on the wire. */
  const TypeNone: u8 := 0
  const TypePoint: u8 := 1
  const TypeBox: u8 := 2
  const TypeSphere: u8 := 3

  datatype EmitterKind = PointKind | BoxKind | SphereKind

  /** getType of each concrete emitter class: one of the three codes of a
      real emitter, never TypeNone. */
  function TypeCode(k: EmitterKind): (t: u8)
    ensures t != TypeNone && TypePoint <= t <= TypeSphere
  {
    match k
    case PointKind => TypePoint
    case BoxKind => TypeBox
    case SphereKind => TypeSphere
  }

  /** The kind of emitter the factory builds for a type code: none for
      TypeNone and for every code it does not know. */
  function KindForCode(t: u8): (r: Option<EmitterKind>)
    ensures r.None? <==> t != TypePoint && t != TypeBox && t != TypeSphere
    ensures r.Some? ==> TypeCode(r.value) == t
  {
    if t == TypePoint then Some(PointKind)
    else if t == TypeBox then Some(BoxKind)
    else if t == TypeSphere then Some(SphereKind)
    else None
  }

  /** The four type codes are pairwise distinct. */
  lemma TypeCodesDistinct()
    ensures TypeNone != TypePoint && TypeNone != TypeBox && TypeNone != TypeSphere
    ensures TypePoint != TypeBox && TypePoint != TypeSphere && TypeBox != TypeSphere
  {
  }

  /** Every emitter reports a code other than TypeNone, the factory maps that
      code back to the emitter's kind, and different kinds report different
      codes. */
  lemma TypeCodeRoundTrip(k: EmitterKind, k': EmitterKind)
    ensures TypeCode(k) != TypeNone
    ensures KindForCode(TypeCode(k)) == Some(k)
    ensures TypeCode(k) == TypeCode(k') ==> k == k'
  {
  }

  /** An engine colour (alpha, red, green, blue). */
  datatype Color = Color(alpha: u8, red: u8, green: u8, blue: u8)

  const White := Color(255, 255, 255, 255)

  /** The start colour for a light level: opaque, three equal channels. */
  function LightColor(light: u8, decodeLight: u8 -> u8): (c: Color)
    ensures c.alpha == 255
    ensures c.red == c.green == c.blue == decodeLight(light)
  {
    var l := decodeLight(light);
    Color(255, l, l, l)
  }

  /** Where an engine emitter spawns particles. */
  datatype Shape = PointShape | BoxShape(box: Box) | SphereShape(center: Vec3, radius: int)

  function KindOfShape(s: Shape): (k: EmitterKind) {
    match s
    case PointShape => PointKind
    case BoxShape(_) => BoxKind
    case SphereShape(_, _) => SphereKind
  }

  /** The shape an emitter of kind k gets from its extra data: the point
      emitter ignores the data, the box and sphere emitters decode it. */
  function ShapeFor(k: EmitterKind, extradata: seq<Token>, bs: int): (r: Option<Shape>)
    ensures r.Some? ==> KindOfShape(r.value) == k
  {
    match k
    case PointKind => Some(PointShape)
    case BoxKind =>
      var b :- ParseBox(extradata, bs);
      Some(BoxShape(b))
    case SphereKind =>
      var radius :- ParseSphere(extradata, bs);
      Some(SphereShape(Vec3(0, 0, 0), radius))
  }

  /** The point emitter's shape does not depend on the extra data. */
  lemma PointIgnoresExtraData(a: seq<Token>, b: seq<Token>, bs: int)
    ensures ShapeFor(PointKind, a, bs) == ShapeFor(PointKind, b, bs) == Some(PointShape)
  {
  }

  /** The parameters, besides shape and colours, that every constructor
      passes to the engine. */
  datatype EmitterSettings = EmitterSettings(
    direction: Vec3,
    minParticlesPerSec: u32,
    maxParticlesPerSec: u32,
    minLifeMillis: u32,
    maxLifeMillis: u32,
    maxAngleDifferenceDegrees: s32,
    minStartSize: Size2,
    maxStartSize: Size2)

  /** The settings taken from a definition: every field passed through,
      except that both sizes are scaled by BS. */
  function SettingsFor(def: EmitterDef, bs: int): (r: EmitterSettings)
    ensures r.direction == def.direction
    ensures r.minParticlesPerSec == def.minParticlesPerSec && r.maxParticlesPerSec == def.maxParticlesPerSec
    ensures r.minLifeMillis == def.minLifeMillis && r.maxLifeMillis == def.maxLifeMillis
    ensures r.maxAngleDifferenceDegrees == def.maxAngleDifferenceDegrees
    ensures r.minStartSize == Size2(def.minSize.width * bs, def.minSize.height * bs)
    ensures r.maxStartSize == Size2(def.maxSize.width * bs, def.maxSize.height * bs)
  {
    EmitterSettings(def.direction, def.minParticlesPerSec, def.maxParticlesPerSec,
                    def.minLifeMillis, def.maxLifeMillis, def.maxAngleDifferenceDegrees,
                    ScaleSize(def.minSize, bs), ScaleSize(def.maxSize, bs))
  }

  /** An emitter object of the rendering engine. */
  class EngineEmitter {
    const shape: Shape
    const settings: EmitterSettings
    var minStartColor: Color
    var maxStartColor: Color

    /** What the engine's create*Emitter calls return: both start colours
        are white. */
    constructor (shape: Shape, settings: EmitterSettings)
      ensures this.shape == shape && this.settings == settings
      ensures minStartColor == White && maxStartColor == White
    {
      this.shape := shape;
      this.settings := settings;
      minStartColor := White;
      maxStartColor := White;
    }
  }

  /** A particle system scene node of the rendering engine. */
  class SceneNode {
    var emitter: EngineEmitter?
    var position: Vec3
    var textureName: string

    /** A new node has no emitter attached. */
    constructor ()
      ensures emitter == null
    {
      emitter := null;
      position := Vec3(0, 0, 0);
      textureName := "";
    }
  }

  /** The common setup of a new emitter's node: its position and its
      texture. The emitter slot is left alone. */
  method CommonSetup(pos: Vec3, node: SceneNode, def: EmitterDef)
    modifies node
    ensures node.position == pos && node.textureName == def.textureName
    ensures node.emitter == old(node.emitter)
  {
    node.position := pos;
    node.textureName := def.textureName;
  }

  /** The three concrete emitter classes (point, box, sphere), told apart by
      `kind`. */
  class ConcreteEmitter {
    const kind: EmitterKind
    var node: SceneNode
    var emitter: EngineEmitter?

    /** The engine emitter exists and its shape is the one of this kind. */
    ghost predicate Valid()
      reads this
    {
      emitter != null && KindOfShape(emitter.shape) == kind
    }

    /** The node's emitter slot holds this object's emitter. */
    ghost predicate Attached()
      reads this, node
    {
      node.emitter == emitter
    }

    /** getType: the factory maps the reported code back to this kind. */
    function GetType(): (t: u8)
      ensures t != TypeNone && KindForCode(t) == Some(kind)
    {
      TypeCode(kind)
    }

    /** PointParticleEmitter's constructor: the extra data is not read. */
    constructor Point(pos: Vec3, def: EmitterDef, extradata: seq<Token>, bs: int)
      ensures Valid() && Attached() && fresh(node) && fresh(emitter)
      ensures kind == PointKind && emitter.shape == PointShape
      ensures emitter.settings == SettingsFor(def, bs)
      ensures emitter.minStartColor == White && emitter.maxStartColor == White
      ensures node.position == pos && node.textureName == def.textureName
    {
      kind := PointKind;
      node := new SceneNode();
      emitter := new EngineEmitter(PointShape, SettingsFor(def, bs));
      new;
      node.emitter := emitter;
      CommonSetup(pos, node, def);
    }

    /** BoxParticleEmitter's constructor, given the box decoded (and scaled)
        from its extra data. */
    constructor Box(pos: Vec3, def: EmitterDef, box: Geometry.Box, bs: int)
      ensures Valid() && Attached() && fresh(node) && fresh(emitter)
      ensures kind == BoxKind && emitter.shape == BoxShape(box)
      ensures emitter.settings == SettingsFor(def, bs)
      ensures emitter.minStartColor == White && emitter.maxStartColor == White
      ensures node.position == pos && node.textureName == def.textureName
    {
      kind := BoxKind;
      node := new SceneNode();
      emitter := new EngineEmitter(BoxShape(box), SettingsFor(def, bs));
      new;
      node.emitter := emitter;
      CommonSetup(pos, node, def);
    }

    /** SphereParticleEmitter's constructor, given the radius decoded (and
        scaled) from its extra data; the sphere is centred at the origin. */
    constructor Sphere(pos: Vec3, def: EmitterDef, radius: int, bs: int)
      ensures Valid() && Attached() && fresh(node) && fresh(emitter)
      ensures kind == SphereKind && emitter.shape == SphereShape(Vec3(0, 0, 0), radius)
      ensures emitter.settings == SettingsFor(def, bs)
      ensures emitter.minStartColor == White && emitter.maxStartColor == White
      ensures node.position == pos && node.textureName == def.textureName
    {
      kind := SphereKind;
      node := new SceneNode();
      emitter := new EngineEmitter(SphereShape(Vec3(0, 0, 0), radius), SettingsFor(def, bs));
      new;
      node.emitter := emitter;
      CommonSetup(pos, node, def);
    }

    /** Detaches the emitter: the node's slot becomes empty. Neither this
        object's node nor its emitter changes, nor anything else the node
        holds. */
    method Suspend()
      modifies node
      ensures node == old(node) && emitter == old(emitter)
      ensures node.emitter == null
      ensures node.position == old(node.position) && node.textureName == old(node.textureName)
      ensures old(Valid()) ==> Valid()
    {
      node.emitter := null;
    }

    /** Reattaches the emitter: the node's slot holds this object's emitter
        again. */
    method Resume()
      modifies node
      ensures node == old(node) && emitter == old(emitter)
      ensures Attached()
      ensures node.position == old(node.position) && node.textureName == old(node.textureName)
      ensures old(Valid()) ==> Valid()
    {
      node.emitter := emitter;
    }

    /** With no emitter nothing happens; otherwise both start colours are
        set to the colour of the light level. */
    method UpdateLight(light: u8, decodeLight: u8 -> u8)
      modifies emitter
      ensures emitter == old(emitter)
      ensures old(Valid()) ==> Valid()
      ensures emitter != null ==> emitter.minStartColor == emitter.maxStartColor == LightColor(light, decodeLight)
      ensures emitter != null ==> emitter.minStartColor.alpha == 255
      ensures emitter != null ==> emitter.minStartColor.red == emitter.minStartColor.green == emitter.minStartColor.blue
    {
      if emitter != null {
        var color := LightColor(light, decodeLight);
        emitter.minStartColor := color;
        emitter.maxStartColor := color;
      }
    }
  }

  /** What the factory hands back: no emitter, a new emitter, or a failure
      to decode the extra data. */
  datatype Created = NoEmitter | Made(emitter: ConcreteEmitter) | BadExtraData

  /** ParticleEmitter::create: a switch over the type code. */
  method Create(t: u8, pos: Vec3, def: EmitterDef, extradata: seq<Token>, bs: int) returns (r: Created)
    ensures r.NoEmitter? <==> KindForCode(t).None?
    ensures r.BadExtraData? <==> KindForCode(t).Some? && ShapeFor(KindForCode(t).value, extradata, bs).None?
    ensures r.Made? ==> && fresh(r.emitter) && fresh(r.emitter.node) && fresh(r.emitter.emitter)
                        && r.emitter.Valid() && r.emitter.Attached()
                        && r.emitter.GetType() == t
                        && Some(r.emitter.emitter.shape) == ShapeFor(r.emitter.kind, extradata, bs)
                        && r.emitter.emitter.settings == SettingsFor(def, bs)
                        && r.emitter.emitter.minStartColor == White
                        && r.emitter.emitter.maxStartColor == White
                        && r.emitter.node.position == pos
                        && r.emitter.node.textureName == def.textureName
  {
    if t == TypeNone {
      r := NoEmitter;
    } else if t == TypePoint {
      var e := new ConcreteEmitter.Point(pos, def, extradata, bs);
      r := Made(e);
    } else if t == TypeBox {
      var box := DecodeBoxExtraData(extradata, bs);
      if box.None? {
        r := BadExtraData;
      } else {
        var e := new ConcreteEmitter.Box(pos, def, box.value, bs);
        r := Made(e);
      }
    } else if t == TypeSphere {
      var radius := DecodeSphereExtraData(extradata, bs);
      if radius.None? {
        r := BadExtraData;
      } else {
        var e := new ConcreteEmitter.Sphere(pos, def, radius.value, bs);
        r := Made(e);
      }
    } else {
      r := NoEmitter;
    }
  }

  /** Suspending an attached emitter and resuming it restores the node's
      slot to the emitter it held. */
  method SuspendThenResume(p: ConcreteEmitter)
    requires p.Attached()
    modifies p.node
    ensures p.node.emitter == old(p.node.emitter) == p.emitter
    ensures p.node.position == old(p.node.position) && p.node.textureName == old(p.node.textureName)
  {
    p.Suspend();
    p.Resume();
  }

  /** Resuming twice leaves the node as resuming once does. */
  method ResumeTwice(p: ConcreteEmitter)
    modifies p.node
    ensures p.Attached()
    ensures p.node.position == old(p.node.position) && p.node.textureName == old(p.node.textureName)
  {
    p.Resume();
    ghost var once := p.node.emitter;
    p.Resume();
    assert p.node.emitter == once;
  }
}

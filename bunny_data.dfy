/** The two shader-data types of the bunnymark example: `Globals` (bind group 0) and `Locals`
    (bind group 1, one per bunny). */
module BunnyData {
  import opened GpuTypes
  import opened ShaderDataProtocol

  // The slot names both sides of the shader interface agree on.
  const MVP_TRANSFORM: string := "mvp_transform"
  const SPRITE_SIZE: string := "sprite_size"
  const SPRITE_TEXTURE: string := "sprite_texture"
  const SPRITE_SAMPLER: string := "sprite_sampler"
  const POSITION: string := "position"
  const VELOCITY: string := "velocity"
  const COLOR: string := "color"

  datatype Globals = Globals(
    mvpTransform: Mat4,
    spriteSize: Vec2,
    spriteTexture: TextureView,
    spriteSampler: Sampler)

  datatype Locals = Locals(position: Vec2, velocity: Vec2, color: bv32)

  function GlobalsLayout(): ShaderDataLayout {
    ShaderDataLayout([
      (MVP_TRANSFORM, Plain(F32, Matrix(Quad, Quad))),
      (SPRITE_SIZE, Plain(F32, Vector(Bi))),
      (SPRITE_TEXTURE, Texture(D2)),
      (SPRITE_SAMPLER, Sampler(false))
    ])
  }

  function LocalsLayout(): ShaderDataLayout {
    ShaderDataLayout([
      (POSITION, Plain(F32, Vector(Bi))),
      (VELOCITY, Plain(F32, Vector(Bi))),
      (COLOR, Plain(U32, Scalar))
    ])
  }

  /** The calls `Globals::fill` makes: they conform to `GlobalsLayout`, and each field lands in
      the slot of the same name. */
  function GlobalsFillCalls(g: Globals): (r: seq<DataCall>)
    ensures Conforms(GlobalsLayout(), r)
    ensures r[0].PlainCall? && r[0].value == Mat4Value(g.mvpTransform)
    ensures r[1].PlainCall? && r[1].value == Vec2Value(g.spriteSize)
    ensures r[2].TextureCall? && r[2].view == g.spriteTexture
    ensures r[3].SamplerCall? && r[3].sampler == g.spriteSampler
  {
    [ PlainCall(0, Mat4Value(g.mvpTransform)),
      PlainCall(1, Vec2Value(g.spriteSize)),
      TextureCall(2, g.spriteTexture),
      SamplerCall(3, g.spriteSampler) ]
  }

  /** The calls `Locals::fill` makes: they conform to `LocalsLayout`, every one of them is a plain
      write, and each field lands in the slot of the same name. */
  function LocalsFillCalls(l: Locals): (r: seq<DataCall>)
    ensures Conforms(LocalsLayout(), r)
    ensures forall c :: c in r ==> c.PlainCall?
    ensures r[0].value == Vec2Value(l.position)
    ensures r[1].value == Vec2Value(l.velocity)
    ensures r[2].value == U32Value(l.color)
  {
    [ PlainCall(0, Vec2Value(l.position)),
      PlainCall(1, Vec2Value(l.velocity)),
      PlainCall(2, U32Value(l.color)) ]
  }

  method GlobalsFill(g: Globals, encoder: DataEncoder)
    modifies encoder
    ensures encoder.trace == old(encoder.trace) + GlobalsFillCalls(g)
  {
    encoder.SetPlain(0, Mat4Value(g.mvpTransform));
    encoder.SetPlain(1, Vec2Value(g.spriteSize));
    encoder.SetTexture(2, g.spriteTexture);
    encoder.SetSampler(3, g.spriteSampler);
  }

  method LocalsFill(l: Locals, encoder: DataEncoder)
    modifies encoder
    ensures encoder.trace == old(encoder.trace) + LocalsFillCalls(l)
  {
    encoder.SetPlain(0, Vec2Value(l.position));
    encoder.SetPlain(1, Vec2Value(l.velocity));
    encoder.SetPlain(2, U32Value(l.color));
  }

  /** The layouts handed to `create_shader`, indexed by bind group. */
  function ShaderLayouts(): seq<Option<ShaderDataLayout>> {
    [Some(GlobalsLayout()), Some(LocalsLayout())]
  }
}

/** Value types of the GPU library as the bunnymark example sees them: opaque float payloads,
    the binding kinds a shader-data layout is made of, and opaque copyable handles. */
module GpuTypes {

  datatype Option<T> = None | Some(value: T)

  /** The set holding the value of an Option, or nothing. */
  function OptionSet<T>(o: Option<T>): set<T> {
    if o.Some? then {o.value} else {}
  }

  const U32_LIMIT: nat := 0x1_0000_0000

  /** `!0` as a `u32` timeout: wait without limit. */
  const WAIT_FOREVER: nat := 0xFFFF_FFFF

  /** A 32-bit float, kept as its IEEE-754 bit pattern: an opaque payload. */
  datatype Float32 = Float32(bits: bv32)

  datatype Vec2 = Vec2(x: Float32, y: Float32)
  datatype Vec4 = Vec4(x: Float32, y: Float32, z: Float32, w: Float32)
  /** `[[f32; 4]; 4]`: four rows of four floats. */
  datatype Mat4 = Mat4(r0: Vec4, r1: Vec4, r2: Vec4, r3: Vec4)

  datatype PlainType = F32 | U32
  datatype VectorSize = Bi | Tri | Quad
  datatype PlainContainer = Scalar | Vector(size: VectorSize) | Matrix(rows: VectorSize, cols: VectorSize)
  datatype TextureViewDimension = D1 | D2 | D3 | Cube

  /** The kind of one slot of a shader-data layout. */
  datatype ShaderBinding =
    | Plain(ty: PlainType, container: PlainContainer)
    | Texture(dimension: TextureViewDimension)
    | Sampler(comparison: bool)

  /** An ordered list of named slots. */
  datatype ShaderDataLayout = ShaderDataLayout(bindings: seq<(string, ShaderBinding)>)

  /** The plain values the example pushes: `[[f32; 4]; 4]`, `[f32; 2]` and `u32`. */
  datatype PlainValue = Mat4Value(m: Mat4) | Vec2Value(v: Vec2) | U32Value(u: bv32)

  /** The binding kind the library assigns to each plain value type. */
  function PlainShape(v: PlainValue): (b: ShaderBinding)
    ensures b.Plain?
  {
    match v
    case Mat4Value(_) => Plain(F32, Matrix(Quad, Quad))
    case Vec2Value(_) => Plain(F32, Vector(Bi))
    case U32Value(_) => Plain(U32, Scalar)
  }

  // Opaque handles: small copyable values compared by identity only.
  datatype Buffer = Buffer(id: nat)
  datatype Texture = TextureHandle(id: nat)
  datatype TextureView = TextureView(id: nat)
  datatype Sampler = SamplerHandle(id: nat)
  datatype Shader = Shader(id: nat)
  datatype RenderPipeline = RenderPipeline(id: nat)
  datatype Frame = Frame(id: nat)

  /** A point in the GPU timeline; `n` is its position among the device's submissions. */
  datatype SyncPoint = SyncPoint(n: nat)

  datatype TextureFormat = Rgba8Unorm | SurfaceFormat(code: nat)
  datatype Memory = Device | Upload | Download

  datatype Extent = Extent(width: nat, height: nat, depth: nat)
}

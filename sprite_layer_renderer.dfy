/**
 * The CPU side of the decorative sprite layer: the placed sprites, their grid
 * cells, the derived info record and the texture coordinates that are pushed to
 * the GPU, together with the order in which `render` binds its buffers.
 */
module SpriteLayer {
  import opened Wrappers

  /** Swift's `Int32`. */
  newtype int32 = x: int | InInt32Range(x)

  predicate InInt32Range(x: int) {
    -0x8000_0000 <= x < 0x8000_0000
  }

  /** The setup record a sprite layer is created from. */
  datatype SpriteLayerSetup = SpriteLayerSetup(
    textureName: string,
    width: int32,
    height: int32,
    textureWidth: int32,
    textureHeight: int32,
    viewDiffRatio: real)

  /** The fixed-layout record the vertex shader reads beside the two arrays. */
  datatype SpriteLayerInfo = SpriteLayerInfo(
    gridWidth: int32,
    gridHeight: int32,
    viewDiffRatio: real,
    numVertices: int32)

  /**
   * A GPU buffer handle: its label (`name`), the element count it was created for (None
   * when the creating call takes no count) and the data last pushed into it
   * (None until something is pushed).
   */
  datatype GpuBuffer<T> = GpuBuffer(name: string, count: Option<nat>, pushed: Option<seq<T>>)

  /** The four buffers `render` hands to the vertex stage. */
  datatype BufferSlot = VertexBuffer | TexCoordBuffer | GridPositionsBuffer | InfoBuffer

  /** What `render` issues on its command encoder, in order. */
  datatype RenderCommand =
    | SetPipelineState(name: string)
    | SetVertexBuffer(slot: BufferSlot, index: nat)
    | SetFragmentTexture(index: nat)
    | DrawPrimitives(vertexCount: int)

  /** The order of the buffer array that `render` enumerates: element i is bound at index i. */
  const BindOrder: seq<BufferSlot> := [VertexBuffer, TexCoordBuffer, GridPositionsBuffer, InfoBuffer]

  /** The in-order concatenation of every sprite's texture coordinates. */
  function Concat<S>(sprites: seq<S>, spriteUpdate: S -> seq<real>): seq<real>
  {
    if sprites == [] then []
    else Concat(sprites[..|sprites| - 1], spriteUpdate) + spriteUpdate(sprites[|sprites| - 1])
  }

  /** Concatenating two runs of sprites concatenates their coordinates. */
  lemma {:induction false} ConcatAppend<S>(a: seq<S>, b: seq<S>, spriteUpdate: S -> seq<real>)
    ensures Concat(a + b, spriteUpdate) == Concat(a, spriteUpdate) + Concat(b, spriteUpdate)
  {
    if b != [] {
      var n := |b| - 1;
      assert (a + b)[..|a + b| - 1] == a + b[..n];
      assert (a + b)[|a + b| - 1] == b[n];
      ConcatAppend(a, b[..n], spriteUpdate);
    } else {
      assert a + b == a;
    }
  }

  /** The coordinates of sprite i start right after those of the sprites before it. */
  lemma {:induction false} ConcatAt<S>(sprites: seq<S>, i: nat, spriteUpdate: S -> seq<real>)
    requires i < |sprites|
    ensures Concat(sprites, spriteUpdate)
         == Concat(sprites[..i], spriteUpdate) + spriteUpdate(sprites[i]) + Concat(sprites[i + 1..], spriteUpdate)
  {
    assert sprites == sprites[..i] + [sprites[i]] + sprites[i + 1..];
    ConcatAppend(sprites[..i] + [sprites[i]], sprites[i + 1..], spriteUpdate);
    ConcatAppend(sprites[..i], [sprites[i]], spriteUpdate);
    assert [sprites[i]][..0] == [];
  }

  /** When every sprite reports k coordinates, n sprites give n * k of them. */
  lemma {:induction false} ConcatUniformLength<S>(sprites: seq<S>, spriteUpdate: S -> seq<real>, k: nat)
    requires forall i :: 0 <= i < |sprites| ==> |spriteUpdate(sprites[i])| == k
    ensures |Concat(sprites, spriteUpdate)| == |sprites| * k
  {
    if sprites != [] {
      var n := |sprites| - 1;
      assert forall i :: 0 <= i < n ==> sprites[..n][i] == sprites[i];
      ConcatUniformLength(sprites[..n], spriteUpdate, k);
      assert |Concat(sprites, spriteUpdate)| == n * k + k;
      assert n * k + k == (n + 1) * k;
    }
  }

  /**
   * SpriteLayerRenderer. `gridPositionOf` stands for `sprite.gridPosition()` and
   * `verticesPerRectangle` for `renderUtils.numVerticesInARectangle()`; both are
   * fixed when the renderer is made.
   */
  class SpriteLayerRenderer<S> {
    const verticesPerRectangle: int32
    const gridPositionOf: S -> int32
    const textureName: string

    var sprites: seq<S>
    var gridPositions: seq<int32>
    var info: SpriteLayerInfo
    var textureCoordinates: Option<seq<real>>

    var spriteVertexBuffer: Option<GpuBuffer<real>>
    var gridPositionsBuffer: Option<GpuBuffer<int32>>
    var spriteInfoBuffer: Option<GpuBuffer<SpriteLayerInfo>>
    var textCoordBuffer: Option<GpuBuffer<real>>

    /**
     * The two arrays run in parallel (entry i of `gridPositions` is the cell of
     * sprite i) and the vertex count is one rectangle per sprite.
     */
    ghost predicate Valid()
      reads this
    {
      |gridPositions| == |sprites| &&
      (forall i :: 0 <= i < |sprites| ==> gridPositions[i] == gridPositionOf(sprites[i])) &&
      info.numVertices as int == |sprites| * verticesPerRectangle as int
    }

    constructor (setup: SpriteLayerSetup, verticesPerRectangle: int32, gridPositionOf: S -> int32)
      ensures Valid()
      ensures this.verticesPerRectangle == verticesPerRectangle && this.gridPositionOf == gridPositionOf
      ensures textureName == setup.textureName
      ensures sprites == [] && gridPositions == [] && textureCoordinates == None
      ensures info == SpriteLayerInfo(setup.width, setup.height, setup.viewDiffRatio, 0)
      ensures spriteVertexBuffer == None && gridPositionsBuffer == None
      ensures spriteInfoBuffer == None && textCoordBuffer == None
    {
      this.verticesPerRectangle := verticesPerRectangle;
      this.gridPositionOf := gridPositionOf;
      textureName := setup.textureName;
      sprites := [];
      gridPositions := [];
      info := SpriteLayerInfo(setup.width, setup.height, setup.viewDiffRatio, 0);
      textureCoordinates := None;
      spriteVertexBuffer := None;
      gridPositionsBuffer := None;
      spriteInfoBuffer := None;
      textCoordBuffer := None;
    }

    /** Appends the sprite and its cell at the same index and adds one rectangle's vertices. */
    method AddSprite(sprite: S)
      requires Valid()
      requires InInt32Range(info.numVertices as int + verticesPerRectangle as int)
      modifies this`sprites, this`gridPositions, this`info
      ensures Valid()
      ensures sprites == old(sprites) + [sprite]
      ensures gridPositions == old(gridPositions) + [gridPositionOf(sprite)]
      ensures info == old(info).(numVertices := old(info).numVertices + verticesPerRectangle)
    {
      sprites := sprites + [sprite];
      gridPositions := gridPositions + [gridPositionOf(sprite)];
      info := info.(numVertices := info.numVertices + verticesPerRectangle);
    }

    /**
     * Rebuilds the texture coordinates from every sprite in order and pushes them
     * to the texture-coordinate buffer when that buffer exists. `spriteUpdate(s)`
     * is what `s.update()` returns on this call.
     */
    method Update(spriteUpdate: S -> seq<real>)
      requires Valid()
      modifies this`textureCoordinates, this`textCoordBuffer
      ensures Valid()
      ensures textureCoordinates == Some(Concat(sprites, spriteUpdate))
      ensures old(textCoordBuffer) == None ==> textCoordBuffer == None
      ensures old(textCoordBuffer) != None ==>
        textCoordBuffer == Some(old(textCoordBuffer).value.(pushed := Some(Concat(sprites, spriteUpdate))))
    {
      textureCoordinates := Some([]);
      for i := 0 to |sprites|
        invariant textureCoordinates == Some(Concat(sprites[..i], spriteUpdate))
        invariant textCoordBuffer == old(textCoordBuffer)
      {
        assert sprites[..i + 1][..i] == sprites[..i];
        textureCoordinates := Some(textureCoordinates.value + spriteUpdate(sprites[i]));
      }
      assert sprites[..|sprites|] == sprites;
      if textCoordBuffer.Some? {
        textCoordBuffer := Some(textCoordBuffer.value.(pushed := Some(textureCoordinates.value)));
      }
    }

    /**
     * Creates the layer's buffers and then updates the coordinates. The sprites
     * must have been added and `Update` called before, so that the texture
     * coordinates exist to size their buffer.
     */
    method LoadAssets(spriteUpdate: S -> seq<real>)
      requires Valid()
      requires textureCoordinates != None
      modifies this`spriteVertexBuffer, this`gridPositionsBuffer, this`spriteInfoBuffer,
               this`textCoordBuffer, this`textureCoordinates
      ensures Valid()
      ensures spriteVertexBuffer == Some(GpuBuffer("sprite layer vertices", None, None))
      ensures gridPositionsBuffer == Some(GpuBuffer("grid positions", Some(|gridPositions|), None))
      ensures textCoordBuffer == Some(GpuBuffer("text coords tiles", Some(|old(textureCoordinates).value|),
                                                Some(Concat(sprites, spriteUpdate))))
      ensures spriteInfoBuffer == Some(GpuBuffer("sprite layer info", None, None))
      ensures textureCoordinates == Some(Concat(sprites, spriteUpdate))
    {
      spriteVertexBuffer := Some(GpuBuffer("sprite layer vertices", None, None));
      gridPositionsBuffer := Some(GpuBuffer("grid positions", Some(|gridPositions|), None));
      textCoordBuffer := Some(GpuBuffer("text coords tiles", Some(|textureCoordinates.value|), None));
      spriteInfoBuffer := Some(GpuBuffer("sprite layer info", None, None));
      Update(spriteUpdate);
    }

    /**
     * The commands `render` issues: the pipeline state, the four vertex buffers
     * at indices 0 to 3 in `BindOrder`, the texture, and one draw of exactly
     * `info.numVertices` vertices.
     */
    method Render() returns (commands: seq<RenderCommand>)
      ensures |commands| == 7
      ensures commands[0] == SetPipelineState("sprite layer")
      ensures forall i :: 0 <= i < 4 ==> commands[1 + i] == SetVertexBuffer(BindOrder[i], i)
      ensures commands[5] == SetFragmentTexture(0)
      ensures commands[6] == DrawPrimitives(info.numVertices as int)
      ensures Valid() ==> commands[6] == DrawPrimitives(|sprites| * verticesPerRectangle as int)
    {
      commands := [SetPipelineState("sprite layer")];
      var buffers := BindOrder;
      for i := 0 to |buffers|
        invariant |commands| == 1 + i
        invariant commands[0] == SetPipelineState("sprite layer")
        invariant forall j :: 0 <= j < i ==> commands[1 + j] == SetVertexBuffer(BindOrder[j], j)
      {
        commands := commands + [SetVertexBuffer(buffers[i], i)];
      }
      commands := commands + [SetFragmentTexture(0)];
      commands := commands + [DrawPrimitives(info.numVertices as int)];
    }
  }
}

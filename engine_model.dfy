/** A mesh: the OBJ corner stream de-duplicated into a vertex list and an
    index list, the vertex and index buffers built from them, the draw that
    replays them, and the vertex input layout the pipeline reads. */
module EngineModel {
  import opened Vk
  import opened Glm
  import opened Wrappers

  // ---------------------------------------------------------------------
  // vertices and the loader's output
  // ---------------------------------------------------------------------

  datatype Vertex = Vertex(position: Vec3, color: Vec3, normal: Vec3, uv: Vec2)

  /** A value-initialised vertex: every attribute zero. */
  const DefaultVertex := Vertex(Zero3, Zero3, Zero3, Zero2)

  /** One face corner as the OBJ loader reports it; a negative index means
      the attribute is absent. */
  datatype ObjIndex = ObjIndex(vertexIndex: int, normalIndex: int, texcoordIndex: int)

  /** The flat attribute arrays: three reals per position, color and normal,
      two per texture coordinate. */
  datatype Attrib = Attrib(vertices: seq<real>, colors: seq<real>, normals: seq<real>, texcoords: seq<real>)

  datatype ObjData = ObjData(attrib: Attrib, shapes: seq<seq<ObjIndex>>)

  /** The loader guarantees that every non-negative index addresses a whole
      tuple of its attribute array. */
  predicate IndexInRange(a: Attrib, ix: ObjIndex)
  {
    && (ix.vertexIndex >= 0 ==> 3 * ix.vertexIndex + 2 < |a.vertices| && 3 * ix.vertexIndex + 2 < |a.colors|)
    && (ix.normalIndex >= 0 ==> 3 * ix.normalIndex + 2 < |a.normals|)
    && (ix.texcoordIndex >= 0 ==> 2 * ix.texcoordIndex + 1 < |a.texcoords|)
  }

  predicate ShapesInRange(a: Attrib, shapes: seq<seq<ObjIndex>>)
  {
    forall s, k :: 0 <= s < |shapes| && 0 <= k < |shapes[s]| ==> IndexInRange(a, shapes[s][k])
  }

  predicate WellFormed(d: ObjData)
  {
    ShapesInRange(d.attrib, d.shapes)
  }

  /** The vertex of one corner: each attribute is read from its array when
      its index is non-negative and otherwise stays zero. */
  function CornerVertex(a: Attrib, ix: ObjIndex): (v: Vertex)
    requires IndexInRange(a, ix)
    ensures ix.vertexIndex < 0 ==> v.position == Zero3 && v.color == Zero3
    ensures ix.normalIndex < 0 ==> v.normal == Zero3
    ensures ix.texcoordIndex < 0 ==> v.uv == Zero2
  {
    var vi := ix.vertexIndex;
    var ni := ix.normalIndex;
    var ti := ix.texcoordIndex;
    Vertex(
      if vi >= 0 then Vec3(a.vertices[3 * vi], a.vertices[3 * vi + 1], a.vertices[3 * vi + 2]) else Zero3,
      if vi >= 0 then Vec3(a.colors[3 * vi], a.colors[3 * vi + 1], a.colors[3 * vi + 2]) else Zero3,
      if ni >= 0 then Vec3(a.normals[3 * ni], a.normals[3 * ni + 1], a.normals[3 * ni + 2]) else Zero3,
      if ti >= 0 then Vec2(a.texcoords[2 * ti], a.texcoords[2 * ti + 1]) else Zero2)
  }

  /** The corner vertices of one shape, in index order. */
  function ShapeCorners(a: Attrib, shape: seq<ObjIndex>): (c: seq<Vertex>)
    requires forall k :: 0 <= k < |shape| ==> IndexInRange(a, shape[k])
    ensures |c| == |shape|
    ensures forall k :: 0 <= k < |shape| ==> c[k] == CornerVertex(a, shape[k])
  {
    seq(|shape|, k requires 0 <= k < |shape| => CornerVertex(a, shape[k]))
  }

  /** The number of indices in the first n shapes. */
  function IndexCount(shapes: seq<seq<ObjIndex>>, n: nat): (count: nat)
    requires n <= |shapes|
  {
    if n == 0 then 0 else IndexCount(shapes, n - 1) + |shapes[n - 1]|
  }

  /** The corner vertices of the first n shapes, shape after shape: one
      corner per index. */
  function CornersOf(a: Attrib, shapes: seq<seq<ObjIndex>>, n: nat): (c: seq<Vertex>)
    requires ShapesInRange(a, shapes)
    requires n <= |shapes|
    ensures |c| == IndexCount(shapes, n)
  {
    if n == 0 then []
    else
      var shape := shapes[n - 1];
      assert forall k :: 0 <= k < |shape| ==> IndexInRange(a, shape[k]);
      CornersOf(a, shapes, n - 1) + ShapeCorners(a, shape)
  }

  // ---------------------------------------------------------------------
  // de-duplication
  // ---------------------------------------------------------------------

  predicate Distinct<T(==)>(s: seq<T>)
  {
    forall i, j :: 0 <= i < j < |s| ==> s[i] != s[j]
  }

  /** The position of the first occurrence of x in s. */
  function IndexOf<T(==)>(s: seq<T>, x: T): (r: nat)
    requires x in s
    ensures r < |s| && s[r] == x
    ensures forall j :: 0 <= j < r ==> s[j] != x
  {
    if s[0] == x then 0 else 1 + IndexOf(s[1..], x)
  }

  /** The first occurrence of x within a prefix is its first occurrence in
      the whole sequence. */
  lemma {:induction false} IndexOfPrefix<T>(s: seq<T>, n: nat, x: T)
    requires n <= |s|
    requires x in s[..n]
    ensures IndexOf(s, x) == IndexOf(s[..n], x)
  {
    assert s[..n][0] == s[0];
    if s[0] != x {
      assert s[..n][1..] == s[1..][..n - 1];
      IndexOfPrefix(s[1..], n - 1, x);
    }
  }

  /** The unique-vertex list and the index list the loader's hash map
      produces from a corner stream: a corner whose vertex is new is appended
      and gets the list's length (cast to uint32) as its index; a corner
      whose vertex was seen gets the index stored on its first sighting. */
  function Dedup(c: seq<Vertex>): (r: (seq<Vertex>, seq<nat>))
    ensures |r.1| == |c|
    ensures |r.0| <= |c|
  {
    if c == [] then ([], [])
    else
      var (vs, ix) := Dedup(c[..|c| - 1]);
      var v := c[|c| - 1];
      if v in vs then (vs, ix + [ToU32(IndexOf(vs, v))])
      else (vs + [v], ix + [ToU32(|vs|)])
  }

  /** What the two lists mean, independently of how they are built: the
      vertex list holds every corner's vertex exactly once, and each corner's
      index is the (uint32) position of its vertex in that list. */
  ghost predicate DedupSpec(c: seq<Vertex>, vs: seq<Vertex>, ix: seq<nat>)
  {
    && Distinct(vs)
    && (forall v :: v in vs <==> v in c)
    && |ix| == |c|
    && (forall k :: 0 <= k < |c| ==> c[k] in vs && ix[k] == ToU32(IndexOf(vs, c[k])))
  }

  /** Dedup(c + [v]) in terms of Dedup(c). */
  lemma DedupSnoc(c: seq<Vertex>, v: Vertex)
    ensures var (vs, ix) := Dedup(c);
      Dedup(c + [v]) == if v in vs then (vs, ix + [ToU32(IndexOf(vs, v))]) else (vs + [v], ix + [ToU32(|vs|)])
  {
    assert (c + [v])[..|c|] == c;
  }

  lemma IndexOfExtended(vs: seq<Vertex>, v: Vertex, x: Vertex)
    requires x in vs
    ensures IndexOf(vs + [v], x) == IndexOf(vs, x)
  {
    assert (vs + [v])[..|vs|] == vs;
    IndexOfPrefix(vs + [v], |vs|, x);
  }

  /** The vertex list holds exactly the corners' vertices. */
  lemma {:induction false} DedupSameVertices(c: seq<Vertex>)
    ensures forall v :: v in Dedup(c).0 <==> v in c
  {
    if c != [] {
      var p := c[..|c| - 1];
      var v := c[|c| - 1];
      assert c == p + [v];
      DedupSameVertices(p);
      DedupSnoc(p, v);
    }
  }

  /** No vertex is stored twice. */
  lemma {:induction false} DedupDistinct(c: seq<Vertex>)
    ensures Distinct(Dedup(c).0)
  {
    if c != [] {
      var p := c[..|c| - 1];
      var v := c[|c| - 1];
      assert c == p + [v];
      DedupDistinct(p);
      DedupSnoc(p, v);
    }
  }

  /** Each corner's index is the position of its vertex. */
  lemma {:induction false} DedupIndices(c: seq<Vertex>)
    ensures forall k :: 0 <= k < |c| ==> c[k] in Dedup(c).0 && Dedup(c).1[k] == ToU32(IndexOf(Dedup(c).0, c[k]))
  {
    if c != [] {
      var p := c[..|c| - 1];
      var v := c[|c| - 1];
      assert c == p + [v];
      DedupIndices(p);
      forall k | 0 <= k < |c|
        ensures c[k] in Dedup(c).0 && Dedup(c).1[k] == ToU32(IndexOf(Dedup(c).0, c[k]))
      {
        if k < |p| {
          assert c[k] == p[k];
          DedupIndexEarlier(p, v, k);
        } else if v in Dedup(p).0 {
          DedupIndexSeen(p, v);
        } else {
          DedupIndexFresh(p, v);
        }
      }
    }
  }

  /** Appending a corner leaves the earlier corners' indices valid. */
  lemma DedupIndexEarlier(p: seq<Vertex>, v: Vertex, k: nat)
    requires k < |p|
    requires p[k] in Dedup(p).0 && Dedup(p).1[k] == ToU32(IndexOf(Dedup(p).0, p[k]))
    ensures p[k] in Dedup(p + [v]).0
    ensures Dedup(p + [v]).1[k] == ToU32(IndexOf(Dedup(p + [v]).0, p[k]))
  {
    DedupSnoc(p, v);
    if v !in Dedup(p).0 {
      IndexOfExtended(Dedup(p).0, v, p[k]);
    }
  }

  /** An appended corner whose vertex was seen gets that vertex's index. */
  lemma DedupIndexSeen(p: seq<Vertex>, v: Vertex)
    requires v in Dedup(p).0
    ensures Dedup(p + [v]).1[|p|] == ToU32(IndexOf(Dedup(p + [v]).0, v))
  {
    DedupSnoc(p, v);
  }

  /** An appended corner with a new vertex gets the new last position. */
  lemma DedupIndexFresh(p: seq<Vertex>, v: Vertex)
    requires v !in Dedup(p).0
    ensures Dedup(p + [v]).1[|p|] == ToU32(IndexOf(Dedup(p + [v]).0, v))
  {
    DedupSnoc(p, v);
    IndexOfAppended(Dedup(p).0, v);
  }

  lemma IndexOfAppended(vs: seq<Vertex>, v: Vertex)
    requires v !in vs
    ensures IndexOf(vs + [v], v) == |vs|
  {
    assert (vs + [v])[|vs|] == v;
  }

  /** The de-duplication meets its meaning. */
  lemma DedupCorrect(c: seq<Vertex>)
    ensures DedupSpec(c, Dedup(c).0, Dedup(c).1)
  {
    DedupSameVertices(c);
    DedupDistinct(c);
    DedupIndices(c);
  }

  /** The round trip: while the vertex count fits the uint32 index type,
      every index addresses a stored vertex and that vertex is the corner
      it came from. */
  lemma DedupRoundTrip(c: seq<Vertex>)
    requires |Dedup(c).0| <= U32
    ensures var (vs, ix) := Dedup(c);
      forall k :: 0 <= k < |c| ==> ix[k] < |vs| && vs[ix[k]] == c[k]
  {
    DedupCorrect(c);
  }

  /** The stored vertices keep the order in which each was first seen. */
  lemma {:induction false} DedupFirstSeenOrder(c: seq<Vertex>)
    ensures var vs := Dedup(c).0;
      forall i, j :: 0 <= i < j < |vs| ==> vs[i] in c && vs[j] in c && IndexOf(c, vs[i]) < IndexOf(c, vs[j])
  {
    DedupSameVertices(c);
    if c != [] {
      var p := c[..|c| - 1];
      var v := c[|c| - 1];
      assert c == p + [v];
      DedupFirstSeenOrder(p);
      DedupSameVertices(p);
      DedupSnoc(p, v);
      var vs := Dedup(p).0;
      var vs' := Dedup(c).0;
      forall i, j | 0 <= i < j < |vs'|
        ensures IndexOf(c, vs'[i]) < IndexOf(c, vs'[j])
      {
        assert vs'[i] == vs[i] && vs[i] in p;
        IndexOfPrefix(c, |p|, vs'[i]);
        if j < |vs| {
          assert vs'[j] == vs[j] && vs[j] in p;
          IndexOfPrefix(c, |p|, vs'[j]);
        } else {
          assert vs'[j] == v && v !in p;
        }
      }
    }
  }

  /** The loader's hash map from vertex to index agrees with the vertex
      list: its keys are the list's vertices and each maps to its (uint32)
      position. */
  ghost predicate Indexed(u: map<Vertex, nat>, vs: seq<Vertex>)
  {
    && (forall v :: v in u <==> v in vs)
    && (forall i :: 0 <= i < |vs| ==> u[vs[i]] == ToU32(i))
  }

  lemma IndexedAdd(u: map<Vertex, nat>, vs: seq<Vertex>, v: Vertex)
    requires Indexed(u, vs) && v !in vs
    ensures Indexed(u[v := ToU32(|vs|)], vs + [v])
  {
    var u' := u[v := ToU32(|vs|)];
    var vs' := vs + [v];
    forall i | 0 <= i < |vs'|
      ensures u'[vs'[i]] == ToU32(i)
    {
      if i < |vs| {
        assert vs'[i] == vs[i] != v;
      }
    }
  }

  lemma IndexedLookup(u: map<Vertex, nat>, vs: seq<Vertex>, v: Vertex)
    requires Indexed(u, vs) && v in u
    ensures v in vs && u[v] == ToU32(IndexOf(vs, v))
  {
    var at := IndexOf(vs, v);
    assert u[vs[at]] == ToU32(at);
  }

  /** The model builder: the corner stream's vertex and index lists. */
  class Builder {
    var vertices: seq<Vertex>
    var indices: seq<nat>

    constructor()
      ensures vertices == [] && indices == []
    {
      vertices := [];
      indices := [];
    }

    /** Builder::LoadModel after the loader ran. A loader failure throws
        before anything is cleared; otherwise the lists are cleared and
        rebuilt corner by corner through the uniqueVertices map. */
    method LoadModel(loaded: Result<ObjData, string>) returns (r: Outcome<string>)
      requires loaded.Ok? ==> WellFormed(loaded.value)
      modifies this
      ensures loaded.Err? ==> r == Fail(loaded.error) && vertices == old(vertices) && indices == old(indices)
      ensures loaded.Ok? ==> r.Pass? && (vertices, indices) == Dedup(CornersOf(loaded.value.attrib, loaded.value.shapes, |loaded.value.shapes|))
    {
      if loaded.Err? {
        return Fail(loaded.error);
      }
      var attrib := loaded.value.attrib;
      var shapes := loaded.value.shapes;
      // the cleared lists, filled locally and stored once complete
      var vs: seq<Vertex> := [];
      var ix: seq<nat> := [];
      var uniqueVertices: map<Vertex, nat> := map[];
      ghost var seen: seq<Vertex> := [];
      var s := 0;
      while s < |shapes|
        invariant 0 <= s <= |shapes|
        invariant seen == CornersOf(attrib, shapes, s)
        invariant (vs, ix) == Dedup(seen)
        invariant Indexed(uniqueVertices, vs)
      {
        var shape := shapes[s];
        assert forall k :: 0 <= k < |shape| ==> IndexInRange(attrib, shape[k]);
        vs, ix, uniqueVertices := AddShape(seen, vs, ix, uniqueVertices, attrib, shape);
        seen := seen + ShapeCorners(attrib, shape);
        s := s + 1;
      }
      vertices := vs;
      indices := ix;
      r := Pass;
    }
  }

  /** The corners of one shape, in order, through the uniqueVertices map. */
  method AddShape(ghost seen: seq<Vertex>, vs: seq<Vertex>, ix: seq<nat>, u: map<Vertex, nat>, attrib: Attrib, shape: seq<ObjIndex>)
    returns (vs': seq<Vertex>, ix': seq<nat>, u': map<Vertex, nat>)
    requires forall k :: 0 <= k < |shape| ==> IndexInRange(attrib, shape[k])
    requires (vs, ix) == Dedup(seen) && Indexed(u, vs)
    ensures (vs', ix') == Dedup(seen + ShapeCorners(attrib, shape)) && Indexed(u', vs')
  {
    ghost var corners := ShapeCorners(attrib, shape);
    ghost var done := seen;
    vs', ix', u' := vs, ix, u;
    assert done + corners[..0] == done;
    var k := 0;
    while k < |shape|
      invariant 0 <= k <= |shape|
      invariant (vs', ix') == Dedup(done + corners[..k])
      invariant Indexed(u', vs')
    {
      var vertex := CornerVertex(attrib, shape[k]);
      assert corners[k] == vertex;
      TakeSnoc(done, corners, k);
      vs', ix', u' := AddCorner(done + corners[..k], vs', ix', u', vertex);
      k := k + 1;
    }
    assert corners[..k] == corners;
  }

  /** One corner through the uniqueVertices map: a vertex not yet in the
      map is appended and mapped to its position; the corner's index is the
      map's entry for its vertex. */
  method AddCorner(ghost seen: seq<Vertex>, vs: seq<Vertex>, ix: seq<nat>, u: map<Vertex, nat>, vertex: Vertex)
    returns (vs': seq<Vertex>, ix': seq<nat>, u': map<Vertex, nat>)
    requires (vs, ix) == Dedup(seen) && Indexed(u, vs)
    ensures (vs', ix') == Dedup(seen + [vertex]) && Indexed(u', vs')
  {
    DedupSnoc(seen, vertex);
    if vertex !in u {
      IndexedAdd(u, vs, vertex);
      u' := u[vertex := ToU32(|vs|)];
      vs' := vs + [vertex];
    } else {
      IndexedLookup(u, vs, vertex);
      u' := u;
      vs' := vs;
    }
    ix' := ix + [u'[vertex]];
  }

  lemma TakeSnoc<T>(p: seq<T>, s: seq<T>, k: nat)
    requires k < |s|
    ensures p + s[..k + 1] == (p + s[..k]) + [s[k]]
  {
    assert s[..k + 1] == s[..k] + [s[k]];
  }

  // ---------------------------------------------------------------------
  // buffers
  // ---------------------------------------------------------------------

  /** sizeof(Vertex): eleven 4-byte floats. */
  const VertexSize: nat := 44
  /** sizeof(uint32_t). */
  const IndexSize: nat := 4
  /** VkDeviceSize is 64 bits wide. */
  const U64: nat := 0x1_0000_0000_0000_0000

  /** The byte count as the buffer code computes it: both operands are
      uint32, so the product wraps at 2^32 before it is widened to
      VkDeviceSize. */
  function DeviceSizeAsWritten(count: nat, size: nat): (bytes: nat)
    ensures bytes < U32
  {
    ToU32(count * size)
  }

  /** A vertex count the uint32 product wraps on: the copy would move 40
      bytes of a 4294967336-byte vertex buffer. */
  lemma VertexBufferSizeWraps()
    ensures 97612894 < U32
    ensures DeviceSizeAsWritten(97612894, VertexSize) == 40 != 97612894 * VertexSize
  {
  }

  /** An index count the uint32 product wraps on: 2^30 indices copy zero
      bytes. */
  lemma IndexBufferSizeWraps()
    ensures 0x4000_0000 < U32
    ensures DeviceSizeAsWritten(IndexSize, 0x4000_0000) == 0 != IndexSize * 0x4000_0000
  {
  }

  /** The byte count with the multiplication carried out in VkDeviceSize. */
  function DeviceSize(count: nat, size: nat): (bytes: nat)
    ensures bytes < U64
  {
    (count * size) % U64
  }

  /** Widened before multiplying, the product of two uint32 values is
      exact. */
  lemma DeviceSizeExact(count: nat, size: nat)
    requires count < U32 && size < U32
    ensures DeviceSize(count, size) == count * size
  {
    assert count * size <= (U32 - 1) * (U32 - 1) < U64 by {
      MulBound(count, size, U32 - 1);
    }
  }

  lemma MulBound(a: nat, b: nat, m: nat)
    requires a <= m && b <= m
    ensures a * b <= m * m
  {
    assert a * b <= a * m <= m * m;
  }

  /** A device-local buffer: element size, element count, and the number of
      bytes copied into it from the staging buffer. */
  datatype DeviceBuffer = DeviceBuffer(instanceSize: nat, instanceCount: nat, bytesCopied: nat)

  /** The commands Bind and Draw record. */
  datatype ModelCommand =
    | BindVertexBuffers(firstBinding: nat, bindingCount: nat)
    | BindIndexBuffer(offset: nat)
    | DrawIndexed(indexCount: nat, instanceCount: nat, firstIndex: nat, vertexOffset: int, firstInstance: nat)
    | DrawPlain(vertexCount: nat, instanceCount: nat, firstVertex: nat, firstInstance: nat)

  /** A model on the device. */
  class Model {
    var vertexCount: nat
    var vertexBuffer: Option<DeviceBuffer>
    var indexCount: nat
    var hasIndexBuffer: bool
    var indexBuffer: Option<DeviceBuffer>

    ghost predicate Valid()
      reads this
    {
      && 3 <= vertexCount < U32
      && vertexBuffer.Some? && vertexBuffer.value.instanceCount == vertexCount
      && indexCount < U32
      && (hasIndexBuffer <==> indexCount > 0)
      && (hasIndexBuffer ==> indexBuffer.Some? && indexBuffer.value.instanceCount == indexCount)
    }

    /** EngineModel(device, builder): the vertex buffer, then the index
        buffer, from the builder's lists. */
    constructor(vertices: seq<Vertex>, indices: seq<nat>)
      requires ToU32(|vertices|) >= 3
      ensures Valid()
      ensures vertexCount == ToU32(|vertices|) && indexCount == ToU32(|indices|)
      ensures vertexBuffer == Some(DeviceBuffer(VertexSize, vertexCount, vertexCount * VertexSize))
      ensures hasIndexBuffer ==> indexBuffer == Some(DeviceBuffer(IndexSize, indexCount, indexCount * IndexSize))
      ensures !hasIndexBuffer ==> indexBuffer == None
    {
      vertexBuffer := None;
      indexBuffer := None;
      new;
      CreateVertexBuffers(vertices);
      CreateIndexBuffers(indices);
    }

    /** createVertexBuffers: the vertex count is the list's size cast to
        uint32 and must be at least 3; the whole list is copied into a
        device-local buffer of that many vertices. */
    method CreateVertexBuffers(vertices: seq<Vertex>)
      requires ToU32(|vertices|) >= 3
      modifies this
      ensures vertexCount == ToU32(|vertices|)
      ensures vertexBuffer == Some(DeviceBuffer(VertexSize, vertexCount, DeviceSize(vertexCount, VertexSize)))
      ensures vertexBuffer.value.bytesCopied == vertexCount * VertexSize
      ensures vertexCount * VertexSize < U32 ==>
        vertexBuffer.value.bytesCopied == DeviceSizeAsWritten(vertexCount, VertexSize)
      ensures indexCount == old(indexCount) && hasIndexBuffer == old(hasIndexBuffer) && indexBuffer == old(indexBuffer)
    {
      vertexCount := ToU32(|vertices|);
      var bufferSize := DeviceSize(vertexCount, VertexSize);
      DeviceSizeExact(vertexCount, VertexSize);
      vertexBuffer := Some(DeviceBuffer(VertexSize, vertexCount, bufferSize));
    }

    /** createIndexBuffers: hasIndexBuffer holds exactly when the list is
        non-empty, and only then is an index buffer created and filled. */
    method CreateIndexBuffers(indices: seq<nat>)
      modifies this
      ensures indexCount == ToU32(|indices|)
      ensures hasIndexBuffer <==> indexCount > 0
      ensures hasIndexBuffer ==> indexBuffer == Some(DeviceBuffer(IndexSize, indexCount, DeviceSize(IndexSize, indexCount)))
      ensures hasIndexBuffer ==> indexBuffer.value.bytesCopied == indexCount * IndexSize
      ensures hasIndexBuffer && indexCount * IndexSize < U32 ==>
        indexBuffer.value.bytesCopied == DeviceSizeAsWritten(IndexSize, indexCount)
      ensures !hasIndexBuffer ==> indexBuffer == old(indexBuffer)
      ensures vertexCount == old(vertexCount) && vertexBuffer == old(vertexBuffer)
    {
      indexCount := ToU32(|indices|);
      hasIndexBuffer := indexCount > 0;
      if !hasIndexBuffer {
        return;
      }
      var bufferSize := DeviceSize(IndexSize, indexCount);
      DeviceSizeExact(IndexSize, indexCount);
      indexBuffer := Some(DeviceBuffer(IndexSize, indexCount, bufferSize));
    }

    /** Bind: the vertex buffer at binding 0, and the uint32 index buffer
        exactly when Draw will issue an indexed draw. */
    function Bind(): (cmds: seq<ModelCommand>)
      reads this
      ensures 1 <= |cmds| <= 2 && cmds[0] == BindVertexBuffers(0, 1)
      ensures (|cmds| == 2) <==> Draw().DrawIndexed?
    {
      [BindVertexBuffers(0, 1)] + (if hasIndexBuffer then [BindIndexBuffer(0)] else [])
    }

    /** Draw: one instance of the model, indexed when there is an index
        buffer. */
    function Draw(): (cmd: ModelCommand)
      reads this
      ensures Valid() ==> (cmd.DrawIndexed? <==> indexCount > 0)
      ensures Valid() ==> DrawCount(cmd) > 0
      ensures Valid() ==> DrawCount(cmd) == if indexCount > 0 then indexCount else vertexCount
      ensures InstanceCount(cmd) == 1
    {
      if hasIndexBuffer then DrawIndexed(indexCount, 1, 0, 0, 0) else DrawPlain(vertexCount, 1, 0, 0)
    }
  }

  function DrawCount(cmd: ModelCommand): (n: nat)
  {
    match cmd
    case DrawIndexed(n, _, _, _, _) => n
    case DrawPlain(n, _, _, _) => n
    case _ => 0
  }

  function InstanceCount(cmd: ModelCommand): (n: nat)
  {
    match cmd
    case DrawIndexed(_, n, _, _, _) => n
    case DrawPlain(_, n, _, _) => n
    case _ => 0
  }

  /** End to end: a model built from a de-duplicated corner stream whose
      corner count fits uint32 issues one indexed draw over every corner,
      and the vertex the shader fetches for index slot k is corner k. */
  lemma DrawReproducesCorners(c: seq<Vertex>, m: Model)
    requires |c| < U32
    requires m.Valid()
    requires m.vertexCount == ToU32(|Dedup(c).0|) && m.indexCount == ToU32(|Dedup(c).1|)
    ensures m.Draw() == DrawIndexed(|c|, 1, 0, 0, 0)
    ensures forall k :: 0 <= k < |c| ==> Dedup(c).1[k] < |Dedup(c).0| && Dedup(c).0[Dedup(c).1[k]] == c[k]
  {
    assert |Dedup(c).0| <= |c|;
    DedupRoundTrip(c);
  }

  // ---------------------------------------------------------------------
  // vertex input layout
  // ---------------------------------------------------------------------

  datatype Format = R32G32B32SFloat | R32G32SFloat

  function FormatSize(f: Format): (size: nat)
  {
    match f
    case R32G32B32SFloat => 12
    case R32G32SFloat => 8
  }

  datatype InputRate = PerVertex
  datatype BindingDescription = BindingDescription(binding: nat, stride: nat, inputRate: InputRate)
  datatype AttributeDescription = AttributeDescription(location: nat, binding: nat, format: Format, offset: nat)

  /** One binding, 0, advancing one Vertex per vertex. */
  function GetBindingDescriptions(): (r: seq<BindingDescription>)
    ensures |r| == 1 && r[0].binding == 0 && r[0].stride == VertexSize
  {
    [BindingDescription(0, VertexSize, PerVertex)]
  }

  /** Position, color, normal and uv at locations 0 to 3 of binding 0; each
      attribute lies inside the vertex stride, no two overlap, and together
      they cover the whole vertex. */
  function GetAttributeDescriptions(): (r: seq<AttributeDescription>)
    ensures |r| == 4
    ensures forall i :: 0 <= i < |r| ==> r[i].location == i && r[i].binding == GetBindingDescriptions()[0].binding
    ensures forall i :: 0 <= i < |r| ==> r[i].offset + FormatSize(r[i].format) <= VertexSize
    ensures forall i, j :: 0 <= i < j < |r| ==> r[i].offset + FormatSize(r[i].format) <= r[j].offset
    ensures FormatSize(r[0].format) + FormatSize(r[1].format) + FormatSize(r[2].format) + FormatSize(r[3].format) == VertexSize
  {
    [ AttributeDescription(0, 0, R32G32B32SFloat, 0),
      AttributeDescription(1, 0, R32G32B32SFloat, 12),
      AttributeDescription(2, 0, R32G32B32SFloat, 24),
      AttributeDescription(3, 0, R32G32SFloat, 36) ]
  }
}

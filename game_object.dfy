/** Scene objects: identity handed out by a process-wide counter, optional
    mesh and point-light components, and the id-keyed collection that the
    render systems iterate. */
module GameObjects {
  import opened Vk
  import opened Glm
  import opened Wrappers

  /** EngineGameObject::id_t is an unsigned int. */
  type Id = n: nat | n < U32

  /** The EngineModel a shared_ptr points at, as a handle into an arena of
      meshes. */
  type ModelHandle = nat

  datatype PointLightComponent = PointLightComponent(lightIntensity: real)

  datatype TransformComponent = TransformComponent(translation: Vec3, scale: Vec3, rotation: Vec3)

  /** The member initialisers of TransformComponent. */
  const DefaultTransform: TransformComponent := TransformComponent(Zero3, Vec3(1.0, 1.0, 1.0), Zero3)

  /** An EngineGameObject. The id is fixed at construction: no operation of
      the model produces an object with a different id from an existing one. */
  datatype GameObject = GameObject(
    id: Id,
    model: Option<ModelHandle>,
    color: Vec3,
    transform: TransformComponent,
    pointLight: Option<PointLightComponent>)
  {
    function GetId(): (objId: Id)
      ensures objId == id
    {
      id
    }

    predicate IsLight()
    {
      pointLight.Some?
    }
  }

  /** The private constructor EngineGameObject(objId) together with the
      member initialisers of the other fields. */
  function NewObject(id: Id): (obj: GameObject)
    ensures obj.GetId() == id && !obj.IsLight() && obj.model.None?
    ensures obj.color == Zero3 && obj.transform.translation == Zero3 && obj.transform.scale == Vec3(1.0, 1.0, 1.0)
  {
    GameObject(id, None, Zero3, DefaultTransform, None)
  }

  /** The ids that n successive calls of CreateGameObject hand out: the
      counter starts at 0 and is incremented as an unsigned int. */
  function IssuedIds(n: nat): (ids: seq<Id>)
    ensures |ids| == n
    ensures forall i :: 0 <= i < n ==> ids[i] < U32
    ensures n <= U32 ==> forall i :: 0 <= i < n ==> ids[i] == i
  {
    seq(n, i => i % U32)
  }

  /** Ids strictly increase, so they are pairwise distinct, for as long as
      fewer than 2^32 objects have been created. */
  lemma IssuedIdsIncrease(n: nat)
    requires n <= U32
    ensures forall i, j :: 0 <= i < j < n ==> IssuedIds(n)[i] < IssuedIds(n)[j]
  {
    forall i, j | 0 <= i < j < n
      ensures IssuedIds(n)[i] < IssuedIds(n)[j]
    {
      assert IssuedIds(n)[i] == i;
      assert IssuedIds(n)[j] == j;
    }
  }

  /** The counter is an unsigned int: the (2^32+1)-th object gets the id of
      the first one again. */
  lemma IssuedIdsWrapAround()
    ensures IssuedIds(U32 + 1)[U32] == IssuedIds(U32 + 1)[0] == 0
  {
  }

  /** The function-local static counter behind CreateGameObject. */
  class IdCounter {
    var currentId: Id
    /** Every id handed out so far, in order. */
    ghost var issued: seq<Id>

    ghost predicate Valid()
      reads this
    {
      && issued == IssuedIds(|issued|)
      && currentId == |issued| % U32
    }

    /** static id_t currentId = 0; */
    constructor ()
      ensures Valid()
      ensures currentId == 0 && issued == []
    {
      currentId := 0;
      issued := [];
    }

    /** Returns a default object carrying the current counter value, then
        increments the counter (wrapping at 2^32). */
    method CreateGameObject() returns (obj: GameObject)
      requires Valid()
      modifies this
      ensures Valid()
      ensures obj == NewObject(old(currentId))
      ensures obj.GetId() == old(currentId)
      ensures obj.model.None? && obj.pointLight.None? && obj.transform.scale == Vec3(1.0, 1.0, 1.0)
      ensures currentId == (old(currentId) + 1) % U32
      ensures issued == old(issued) + [obj.id]
      ensures |old(issued)| < U32 ==> obj.id !in old(issued)
    {
      obj := NewObject(currentId);
      IssuedIdsSnoc(|issued|);
      SuccessorMod(|issued|);
      currentId := (currentId + 1) % U32;
      issued := issued + [obj.id];
    }
  }

  /** One more call hands out the counter value n mod 2^32, which is new
      while fewer than 2^32 ids have been handed out. */
  lemma IssuedIdsSnoc(n: nat)
    ensures IssuedIds(n + 1) == IssuedIds(n) + [n % U32]
    ensures n < U32 ==> n !in IssuedIds(n)
  {
    assert IssuedIds(n + 1) == IssuedIds(n) + [n % U32];
    if n < U32 {
      forall i | 0 <= i < n
        ensures IssuedIds(n)[i] != n
      {
        assert IssuedIds(n)[i] == i;
      }
    }
  }

  /** Incrementing the wrapped counter wraps the incremented count. */
  lemma SuccessorMod(n: nat)
    ensures (n % U32 + 1) % U32 == (n + 1) % U32
  {
    var q := n / U32;
    assert n == q * U32 + n % U32;
    if n % U32 + 1 == U32 {
      assert n + 1 == (q + 1) * U32;
    } else {
      assert n + 1 == q * U32 + (n % U32 + 1);
    }
  }

  /** EngineGameObject::Map, an unordered_map from id to object, as its
      entries in the map's iteration order. */
  type ObjectMap = seq<(Id, GameObject)>

  /** The keys of an unordered_map are unique. */
  predicate DistinctKeys(m: ObjectMap)
  {
    forall i, j :: 0 <= i < j < |m| ==> m[i].0 != m[j].0
  }

  /** Every object is stored under its own id, as the application's
      gameObjects.emplace(obj.GetId(), std::move(obj)) does. */
  predicate KeyedById(m: ObjectMap)
  {
    forall i :: 0 <= i < |m| ==> m[i].0 == m[i].1.id
  }

  /** unordered_map::at: the object stored under key, or None where at()
      throws std::out_of_range. */
  function At(m: ObjectMap, key: Id): (r: Option<GameObject>)
    ensures r.None? <==> forall i :: 0 <= i < |m| ==> m[i].0 != key
  {
    if m == [] then None
    else if m[0].0 == key then Some(m[0].1)
    else
      assert forall i :: 1 <= i < |m| ==> m[i] == m[1..][i - 1];
      At(m[1..], key)
  }

  /** With unique keys, at() finds exactly the entry stored under the key. */
  lemma {:induction false} AtFindsEntry(m: ObjectMap, i: nat)
    requires DistinctKeys(m)
    requires i < |m|
    ensures At(m, m[i].0) == Some(m[i].1)
  {
    if i > 0 {
      assert m[1..][i - 1] == m[i];
      AtFindsEntry(m[1..], i - 1);
    }
  }
}

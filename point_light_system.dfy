/** The point-light render system: the update pass that packs every light
    object into the global uniform block, and the render pass that draws the
    lights back to front through a distance-keyed ordered map. */
module PointLightSystem {
  import opened Vk
  import opened Glm
  import opened Wrappers
  import opened GameObjects
  import opened EngineFrameInfo
  import opened OrderedMap

  // ---------------------------------------------------------------------
  // update: bounded light collection
  // ---------------------------------------------------------------------

  /** The objects of a collection that carry a point-light component, in the
      collection's iteration order. */
  function LightObjects(m: ObjectMap): (r: seq<GameObject>)
    ensures |r| <= |m|
    ensures forall o :: o in r ==> o.IsLight()
  {
    if m == [] then []
    else LightObjects(m[..|m| - 1]) + (if m[|m| - 1].1.IsLight() then [m[|m| - 1].1] else [])
  }

  /** The light objects are exactly the objects of the collection whose
      pointLight is non-null, no more and no fewer. */
  lemma {:induction false} LightObjectsExact(m: ObjectMap)
    ensures forall o :: o in LightObjects(m) <==> o.IsLight() && exists i :: 0 <= i < |m| && m[i].1 == o
  {
    if m != [] {
      var p := m[..|m| - 1];
      LightObjectsExact(p);
      assert forall i :: 0 <= i < |p| ==> p[i] == m[i];
      forall o: GameObject | o.IsLight() && exists i :: 0 <= i < |m| && m[i].1 == o
        ensures o in LightObjects(m)
      {
        var i :| 0 <= i < |m| && m[i].1 == o;
        if i < |p| {
          assert p[i].1 == o;
        }
      }
    }
  }

  /** Scanning one more entry adds that entry's object when it is a light. */
  lemma LightObjectsSnoc(m: ObjectMap, i: nat)
    requires i < |m|
    ensures LightObjects(m[..i + 1]) == LightObjects(m[..i]) + (if m[i].1.IsLight() then [m[i].1] else [])
  {
    assert m[..i + 1][..i] == m[..i];
  }

  /** Scanning a prefix of the collection collects a prefix of the lights. */
  lemma {:induction false} LightObjectsPrefix(m: ObjectMap, k: nat)
    requires k <= |m|
    ensures LightObjects(m[..k]) <= LightObjects(m)
    decreases |m| - k
  {
    if k < |m| {
      LightObjectsPrefix(m, k + 1);
      assert m[..k + 1][..k] == m[..k];
    } else {
      assert m[..k] == m;
    }
  }

  /** The uniform-block slot for one light: position = (translation, 1) and
      color = (object color, light intensity). */
  function LightSlot(o: GameObject): (slot: PointLight)
    requires o.IsLight()
    ensures slot.position == Vec4(o.transform.translation.x, o.transform.translation.y, o.transform.translation.z, 1.0)
    ensures slot.color == Vec4(o.color.x, o.color.y, o.color.z, o.pointLight.value.lightIntensity)
  {
    PointLight(Extend(o.transform.translation, 1.0), Extend(o.color, o.pointLight.value.lightIntensity))
  }

  /** The light array after the given lights were written to the leading
      slots of init. */
  function Filled(lights: seq<GameObject>, init: seq<PointLight>): (r: seq<PointLight>)
    requires forall o :: o in lights ==> o.IsLight()
    ensures |r| == |init|
    ensures forall j :: |lights| <= j < |init| ==> r[j] == init[j]
  {
    seq(|init|, j requires 0 <= j < |init| => if j < |lights| then LightSlot(lights[j]) else init[j])
  }

  /** Writing the next light is one slot update. */
  lemma FilledSnoc(lights: seq<GameObject>, o: GameObject, init: seq<PointLight>)
    requires forall x :: x in lights + [o] ==> x.IsLight()
    requires |lights| < |init|
    ensures Filled(lights + [o], init) == Filled(lights, init)[|lights| := LightSlot(o)]
  {
    assert forall x :: x in lights ==> x in lights + [o];
    var a := Filled(lights + [o], init);
    var b := Filled(lights, init)[|lights| := LightSlot(o)];
    forall j | 0 <= j < |init|
      ensures a[j] == b[j]
    {
      if j < |lights| {
        assert (lights + [o])[j] == lights[j];
      }
    }
  }

  /** Lights beyond the last slot are never written. */
  lemma FilledPrefix(lights: seq<GameObject>, more: seq<GameObject>, init: seq<PointLight>)
    requires forall o :: o in more ==> o.IsLight()
    requires lights <= more && |init| <= |lights|
    ensures forall o :: o in lights ==> o.IsLight()
    ensures Filled(lights, init) == Filled(more, init)
  {
    assert forall j :: 0 <= j < |lights| ==> lights[j] == more[j];
    assert forall o :: o in lights ==> o in more;
  }

  /** A light found once every slot is filled: there are more lights than
      slots, and the array already holds what all of them would give. */
  lemma OverflowFilled(m: ObjectMap, i: nat, init: seq<PointLight>)
    requires i < |m| && m[i].1.IsLight()
    requires |LightObjects(m[..i])| == |init|
    ensures |LightObjects(m)| > |init|
    ensures Filled(LightObjects(m[..i]), init) == Filled(LightObjects(m), init)
  {
    LightObjectsSnoc(m, i);
    LightObjectsPrefix(m, i + 1);
    LightObjectsPrefix(m, i);
    FilledPrefix(LightObjects(m[..i]), LightObjects(m), init);
  }

  datatype UpdateError = TooManyLights

  /** PointLightSystem::update. Slot i receives the i-th light object; with
      more than MAX_LIGHTS lights the assertion before the eleventh write
      fails, after the first MAX_LIGHTS slots were written and before
      numLights is set. Object transforms are left alone (the collection is
      passed by value here and nothing is written back). */
  method Update(frame: FrameInfo, ubo: GlobalUbo) returns (r: Outcome<UpdateError>)
    requires ubo.Valid()
    modifies ubo, ubo.pointLights
    ensures ubo.Valid() && ubo.pointLights == old(ubo.pointLights)
    ensures r.Pass? <==> |LightObjects(frame.gameObjects)| <= MAX_LIGHTS
    ensures r.Pass? ==> ubo.numLights == |LightObjects(frame.gameObjects)|
    ensures r.Fail? ==> ubo.numLights == old(ubo.numLights)
    ensures ubo.pointLights[..] == Filled(LightObjects(frame.gameObjects), old(ubo.pointLights[..]))
  {
    var lightIndex, fits := PackLights(frame.gameObjects, ubo.pointLights);
    if !fits {
      return Fail(TooManyLights);
    }
    ubo.numLights := lightIndex;
    r := Pass;
  }

  /** The loop of update: each light object, in iteration order, fills the
      next slot; the loop stops at the first light beyond the last slot. */
  method PackLights(m: ObjectMap, slots: array<PointLight>) returns (lightIndex: nat, fits: bool)
    requires slots.Length == MAX_LIGHTS
    modifies slots
    ensures fits <==> |LightObjects(m)| <= MAX_LIGHTS
    ensures fits ==> lightIndex == |LightObjects(m)|
    ensures slots[..] == Filled(LightObjects(m), old(slots[..]))
  {
    ghost var init := slots[..];
    ghost var lights: seq<GameObject> := [];
    lightIndex := 0;
    var i := 0;
    while i < |m|
      invariant 0 <= i <= |m|
      invariant lights == LightObjects(m[..i])
      invariant lightIndex == |lights| <= MAX_LIGHTS
      invariant slots[..] == Filled(lights, init)
    {
      LightObjectsSnoc(m, i);
      var obj := m[i].1;
      if obj.pointLight.Some? {
        if lightIndex >= MAX_LIGHTS {
          OverflowFilled(m, i, init);
          return lightIndex, false;
        }
        FilledSnoc(lights, obj, init);
        slots[lightIndex] := LightSlot(obj);
        lights := lights + [obj];
        lightIndex := lightIndex + 1;
      }
      i := i + 1;
    }
    assert m[..i] == m;
    fits := true;
  }

  // ---------------------------------------------------------------------
  // render: back-to-front drawing through an ordered map
  // ---------------------------------------------------------------------

  /** The squared distance from the camera that keys a light. */
  function DistanceKey(camera: Vec3, o: GameObject): (key: real)
    ensures key >= 0.0
    ensures o.transform.translation == camera ==> key == 0.0
  {
    DistSquared(camera, o.transform.translation)
  }

  /** The first loop of render: sorted[distSquared] = obj.GetId() for every
      light in iteration order, so a later light overwrites an earlier one
      at the same distance. */
  function SortedLights(m: ObjectMap, camera: Vec3): (s: seq<(real, Id)>)
    ensures Ascending(s)
  {
    if m == [] then []
    else
      var rest := SortedLights(m[..|m| - 1], camera);
      var o := m[|m| - 1].1;
      if o.IsLight() then Assign(rest, DistanceKey(camera, o), o.GetId()) else rest
  }

  /** Reference definition: the position of the last light object in
      iteration order at squared distance d, or -1 when there is none. */
  function LastLightAt(m: ObjectMap, camera: Vec3, d: real): (r: int)
    ensures -1 <= r < |m|
    ensures r >= 0 ==> m[r].1.IsLight() && DistanceKey(camera, m[r].1) == d
    ensures forall j :: r < j < |m| ==> !(m[j].1.IsLight() && DistanceKey(camera, m[j].1) == d)
  {
    if m == [] then -1
    else if m[|m| - 1].1.IsLight() && DistanceKey(camera, m[|m| - 1].1) == d then |m| - 1
    else
      var p := m[..|m| - 1];
      assert forall j :: 0 <= j < |p| ==> p[j] == m[j];
      LastLightAt(p, camera, d)
  }

  /** What the ordered map holds under each distance: the id of the last
      light at that distance, and nothing at a distance no light has. */
  lemma {:induction false} SortedLightsLastWins(m: ObjectMap, camera: Vec3, d: real)
    ensures var r := LastLightAt(m, camera, d);
      Get(SortedLights(m, camera), d) == if r < 0 then None else Some(m[r].1.id)
  {
    if m != [] {
      var p := m[..|m| - 1];
      SortedLightsLastWins(p, camera, d);
      var r := LastLightAt(p, camera, d);
      if r >= 0 {
        assert p[r] == m[r];
      }
    }
  }

  /** Two lights at the same squared distance share one entry, and it
      holds the id of a light at or after the later one. */
  lemma SortedLightsCollision(m: ObjectMap, camera: Vec3, i: nat, j: nat)
    requires i < j < |m|
    requires m[i].1.IsLight() && m[j].1.IsLight()
    requires DistanceKey(camera, m[i].1) == DistanceKey(camera, m[j].1)
    ensures var d := DistanceKey(camera, m[i].1);
      && Get(SortedLights(m, camera), d).Some?
      && Get(SortedLights(m, camera), d).value == m[LastLightAt(m, camera, d)].1.id
      && LastLightAt(m, camera, d) >= j
  {
    SortedLightsLastWins(m, camera, DistanceKey(camera, m[i].1));
  }

  /** With pairwise distinct distances no light is lost: the map has one
      entry per light object. */
  lemma {:induction false} SortedLightsDistinct(m: ObjectMap, camera: Vec3)
    requires forall i, j :: 0 <= i < j < |m| && m[i].1.IsLight() && m[j].1.IsLight() ==>
      DistanceKey(camera, m[i].1) != DistanceKey(camera, m[j].1)
    ensures |SortedLights(m, camera)| == |LightObjects(m)|
  {
    if m != [] {
      var p := m[..|m| - 1];
      assert forall j :: 0 <= j < |p| ==> p[j] == m[j];
      SortedLightsDistinct(p, camera);
      var o := m[|m| - 1].1;
      if o.IsLight() {
        var d := DistanceKey(camera, o);
        SortedLightsLastWins(p, camera, d);
        if d in Keys(SortedLights(p, camera)) {
          var e :| 0 <= e < |SortedLights(p, camera)| && SortedLights(p, camera)[e].0 == d;
          GetEntry(SortedLights(p, camera), e);
          assert false;
        }
      }
    }
  }

  /** One light's push constants: position and color as in the update pass,
      radius = scale.x. */
  datatype PointLightPushConstants = PointLightPushConstants(position: Vec4, color: Vec4, radius: real)

  function LightPush(o: GameObject): (push: PointLightPushConstants)
    requires o.IsLight()
    ensures push.position == LightSlot(o).position && push.color == LightSlot(o).color
    ensures push.radius == o.transform.scale.x
  {
    PointLightPushConstants(
      Extend(o.transform.translation, 1.0),
      Extend(o.color, o.pointLight.value.lightIntensity),
      o.transform.scale.x)
  }

  /** The commands render records into the frame's command buffer. */
  datatype LightCommand =
    | BindPipeline
    | BindGlobalDescriptorSet(firstSet: nat, descriptorSet: nat)
    | PushConstants(push: PointLightPushConstants)
    | Draw(vertexCount: nat, instanceCount: nat)

  /** Every entry's id names an object (at() does not throw) whose pointLight
      is non-null (the dereference is defined). */
  predicate Drawable(m: ObjectMap, s: seq<(real, Id)>): (ok: bool)
    ensures ok <==> forall i :: 0 <= i < |s| ==> At(m, s[i].1).Some? && At(m, s[i].1).value.IsLight()
  {
    s == [] || (At(m, s[0].1).Some? && At(m, s[0].1).value.IsLight() && Drawable(m, s[1..]))
  }

  /** The objects the reverse walk visits: from the last (farthest) entry of
      the ordered map to the first. */
  function DrawnLights(m: ObjectMap, s: seq<(real, Id)>): (r: seq<GameObject>)
    requires Drawable(m, s)
    ensures |r| == |s|
    ensures forall o :: o in r ==> o.IsLight()
  {
    if s == [] then []
    else DrawnLights(m, s[1..]) + [At(m, s[0].1).value]
  }

  lemma {:induction false} DrawnLightsAt(m: ObjectMap, s: seq<(real, Id)>, i: nat)
    requires Drawable(m, s)
    requires i < |s|
    ensures DrawnLights(m, s)[i] == At(m, s[|s| - 1 - i].1).value
  {
    if i < |s| - 1 {
      DrawnLightsAt(m, s[1..], i);
      assert s[1..][|s| - 2 - i] == s[|s| - 1 - i];
    }
  }

  /** One push-constant update and one 6-vertex, 1-instance draw per light. */
  function LightDraws(objs: seq<GameObject>): (r: seq<LightCommand>)
    requires forall o :: o in objs ==> o.IsLight()
    ensures |r| == 2 * |objs|
  {
    if objs == [] then []
    else LightDraws(objs[..|objs| - 1]) + [PushConstants(LightPush(objs[|objs| - 1])), Draw(6, 1)]
  }

  /** Draw k of the stream is the 6-vertex draw of the k-th drawn light,
      preceded by that light's push constants. */
  lemma {:induction false} LightDrawsAt(objs: seq<GameObject>, k: nat)
    requires forall o :: o in objs ==> o.IsLight()
    requires k < |objs|
    ensures LightDraws(objs)[2 * k] == PushConstants(LightPush(objs[k]))
    ensures LightDraws(objs)[2 * k + 1] == Draw(6, 1)
  {
    if k < |objs| - 1 {
      var p := objs[..|objs| - 1];
      assert p[k] == objs[k];
      LightDrawsAt(p, k);
    }
  }

  datatype RenderError =
    | ObjectNotFound  // gameObjects.at(id) throws std::out_of_range
    | NullPointLight  // obj.pointLight-> dereferences a null pointer

  /** The first loop of render: every light, in iteration order, is
      assigned into the ordered map under its squared camera distance. */
  method SortByDistance(m: ObjectMap, camera: Vec3) returns (sorted: seq<(real, Id)>)
    ensures sorted == SortedLights(m, camera)
  {
    sorted := [];
    var i := 0;
    while i < |m|
      invariant 0 <= i <= |m|
      invariant sorted == SortedLights(m[..i], camera)
    {
      assert m[..i + 1][..i] == m[..i];
      var obj := m[i].1;
      if obj.pointLight.None? {
        i := i + 1;
        continue;
      }
      var distSquared := DistSquared(camera, obj.transform.translation);
      sorted := Assign(sorted, distSquared, obj.GetId());
      i := i + 1;
    }
    assert m[..i] == m;
  }

  /** PointLightSystem::render: bind the pipeline and the global descriptor
      set, key every light by its squared camera distance in an ordered map,
      then walk the map in reverse and push and draw each light. */
  method Render(frame: FrameInfo) returns (r: Result<seq<LightCommand>, RenderError>)
    ensures var s := SortedLights(frame.gameObjects, frame.cameraPosition);
      && (r.Ok? <==> Drawable(frame.gameObjects, s))
      && (r.Ok? ==>
            r.value == [BindPipeline, BindGlobalDescriptorSet(0, frame.globalDescriptorSet)]
                       + LightDraws(DrawnLights(frame.gameObjects, s)))
  {
    var m := frame.gameObjects;
    var sorted := SortByDistance(m, frame.cameraPosition);

    var commands := [BindPipeline, BindGlobalDescriptorSet(0, frame.globalDescriptorSet)];
    ghost var binds := commands;
    var k := |sorted|;
    while k > 0
      invariant 0 <= k <= |sorted|
      invariant Drawable(m, sorted[k..])
      invariant commands == binds + LightDraws(DrawnLights(m, sorted[k..]))
    {
      var found := At(m, sorted[k - 1].1);
      if found.None? {
        return Err(ObjectNotFound);
      }
      var obj := found.value;
      if obj.pointLight.None? {
        return Err(NullPointLight);
      }
      RenderStep(m, sorted, k, obj);
      ghost var step := [PushConstants(LightPush(obj)), Draw(6, 1)];
      assert binds + LightDraws(DrawnLights(m, sorted[k - 1..])) == commands + step;
      commands := commands + [PushConstants(LightPush(obj)), Draw(6, 1)];
      k := k - 1;
    }
    r := Ok(commands);
  }

  /** One step of the reverse walk: the entry before s[k..] resolves to a
      light, so one more entry is drawable and adds that light's push and
      draw to the stream. */
  lemma RenderStep(m: ObjectMap, s: seq<(real, Id)>, k: nat, obj: GameObject)
    requires 0 < k <= |s|
    requires Drawable(m, s[k..])
    requires At(m, s[k - 1].1) == Some(obj) && obj.IsLight()
    ensures Drawable(m, s[k - 1..])
    ensures LightDraws(DrawnLights(m, s[k - 1..])) ==
      LightDraws(DrawnLights(m, s[k..])) + [PushConstants(LightPush(obj)), Draw(6, 1)]
  {
    var before := DrawnLights(m, s[k..]);
    assert s[k - 1..][1..] == s[k..];
    assert Drawable(m, s[k - 1..]);
    assert DrawnLights(m, s[k - 1..]) == before + [obj];
    assert (before + [obj])[..|before|] == before;
  }

  /** Painter's order: when every object is stored under its own id, render
      succeeds and draws its lights in strictly decreasing squared distance
      from the camera, each drawn light sitting at its map entry's distance. */
  lemma RenderBackToFront(m: ObjectMap, camera: Vec3)
    requires DistinctKeys(m) && KeyedById(m)
    ensures Drawable(m, SortedLights(m, camera))
    ensures var objs := DrawnLights(m, SortedLights(m, camera));
      forall i, j :: 0 <= i < j < |objs| ==> DistanceKey(camera, objs[i]) > DistanceKey(camera, objs[j])
  {
    var s := SortedLights(m, camera);
    forall e | 0 <= e < |s|
      ensures At(m, s[e].1).Some? && At(m, s[e].1).value.IsLight()
      ensures DistanceKey(camera, At(m, s[e].1).value) == s[e].0
    {
      EntryIsLight(m, camera, e);
    }
    var objs := DrawnLights(m, s);
    forall i, j | 0 <= i < j < |objs|
      ensures DistanceKey(camera, objs[i]) > DistanceKey(camera, objs[j])
    {
      DrawnLightsAt(m, s, i);
      DrawnLightsAt(m, s, j);
    }
  }

  /** Each entry of the ordered map leads back, through at(), to a light at
      the entry's distance. */
  lemma EntryIsLight(m: ObjectMap, camera: Vec3, e: nat)
    requires DistinctKeys(m) && KeyedById(m)
    requires e < |SortedLights(m, camera)|
    ensures var s := SortedLights(m, camera);
      && At(m, s[e].1).Some? && At(m, s[e].1).value.IsLight()
      && DistanceKey(camera, At(m, s[e].1).value) == s[e].0
  {
    var s := SortedLights(m, camera);
    GetEntry(s, e);
    SortedLightsLastWins(m, camera, s[e].0);
    var r := LastLightAt(m, camera, s[e].0);
    AtFindsEntry(m, r);
  }
}

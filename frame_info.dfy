/** The per-frame data the render systems consume: the global uniform block
    that the light pass fills, and FrameInfo. */
module EngineFrameInfo {
  import opened Vk
  import opened Glm
  import opened GameObjects

  /** #define MAX_LIGHTS 10 */
  const MAX_LIGHTS: nat := 10

  /** One slot of the uniform block's light array. */
  datatype PointLight = PointLight(position: Vec4, color: Vec4)

  /** A value-initialised slot. */
  const NoLight: PointLight := PointLight(Zero4, Zero4)

  /** GlobalUbo: the fixed-capacity light array and the active light count.
      The projection, view and inverse-view matrices and the ambient colour
      are not modelled. */
  class GlobalUbo {
    var pointLights: array<PointLight>
    var numLights: int

    ghost predicate Valid()
      reads this
    {
      pointLights.Length == MAX_LIGHTS
    }

    /** GlobalUbo ubo{}: every slot and the count are zero. */
    constructor ()
      ensures Valid() && fresh(pointLights)
      ensures numLights == 0
      ensures forall i :: 0 <= i < MAX_LIGHTS ==> pointLights[i] == NoLight
    {
      pointLights := new PointLight[MAX_LIGHTS](_ => NoLight);
      numLights := 0;
    }
  }

  /** FrameInfo: built fresh each frame, it refers to the frame's command
      buffer, descriptor set and the whole object collection. The camera is
      represented by its position, the only thing the core reads from it. */
  datatype FrameInfo = FrameInfo(
    frameIndex: int,
    frameTime: real,
    commandBuffer: CommandBuffer,
    cameraPosition: Vec3,
    globalDescriptorSet: nat,
    gameObjects: ObjectMap)
}

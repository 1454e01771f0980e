/** The light values of light.hpp, passed by value to the uniform-binding protocol. */
module Lights {
  import opened Glm

  datatype LightInfo = LightInfo(ambient: Vec3, specular: Vec3, diffuse: Vec3)

  datatype AttenuationInfo = AttenuationInfo(constant: real, linear: real, quadratic: real)

  datatype PointLight = PointLight(position: Vec3, attenuation: AttenuationInfo, info: LightInfo)

  datatype DirectionalLight = DirectionalLight(direction: Vec3, info: LightInfo)

  datatype SpotLight = SpotLight(
    position: Vec3, direction: Vec3, innerCutOff: real, outerCutOff: real, info: LightInfo)
}

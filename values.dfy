// Small value types shared by the scene and view models.
module Values {

  /** An optional value: used for results that an external collaborator may fail to produce. */
  datatype Option<T> = None | Some(value: T)

  /** A three-component vector; the source's 32-bit floats are idealised as reals. */
  datatype Vec3 = Vec3(x: real, y: real, z: real)
}

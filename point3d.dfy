/** A point of world space. Every transform builds a new one; it has no identity
    beyond its three coordinates. */
module Points {

  datatype Point3D = Point3D(x: real, y: real, z: real)
}

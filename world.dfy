/**
 * The physics space that placement probes: points in 3D space and the
 * `IntersectRay` query of a direct space state, as an oracle.
 */
module World {
  import opened Wrappers

  datatype Vector3 = Vector3(x: real, y: real, z: real)

  /**
   * `IntersectRay` on collision mask 1: a ray from `origin` to `target` and
   * the nearest hit point, or `None` when the result dictionary is empty.
   */
  type SpaceState = (Vector3, Vector3) -> Option<Vector3>

  function Lower(a: real, b: real): real { if a <= b then a else b }
  function Upper(a: real, b: real): real { if a <= b then b else a }

  /** On a vertical ray, a reported hit lies on the ray segment. */
  ghost predicate HitsOnRay(space: SpaceState) {
    forall origin: Vector3, target: Vector3 ::
      origin.x == target.x && origin.z == target.z && space(origin, target).Some? ==>
        var hit := space(origin, target).value;
        hit.x == origin.x && hit.z == origin.z &&
        Lower(origin.y, target.y) <= hit.y <= Upper(origin.y, target.y)
  }
}

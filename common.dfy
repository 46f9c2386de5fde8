/**
 * Values shared by the game and the environment: optional values, results with an
 * error channel, planar points, and the extended reals that `float('inf')` needs.
 */
module Common {

  datatype Option<+T> = None | Some(value: T)

  /** The Python exceptions the modelled code can raise on its own. */
  datatype Error =
    | KeyError(key: int)   // `action_mapping[action]` with an unknown action
    | IndexError           // `some_list[0]` on an empty sprite list

  datatype Result<+T> = Ok(value: T) | Err(error: Error)

  /** A coordinate pair; also used for force and impulse vectors. */
  datatype Point = Point(x: real, y: real)

  /**
   * The extremes of a sprite's adjusted hit box, relative to its centre: arcade's
   * `left`, `right`, `bottom` and `top` are the centre plus these offsets. They come
   * from the texture's pixels, so they need not be symmetric nor span the whole image.
   */
  datatype Extent = Extent(minX: real, maxX: real, minY: real, maxY: real) {

    /** The hit box of the texture drawn at `scale`. */
    function Scaled(scale: real): Extent {
      Extent(minX * scale, maxX * scale, minY * scale, maxY * scale)
    }
  }

  /** A float that may be `float('inf')`. */
  datatype Extended = Finite(value: real) | Infinity {

    /** `self < bound` in Python's float order. */
    predicate Below(bound: real) {
      Finite? && value < bound
    }

    /** `self <= d` in Python's float order. */
    predicate AtMost(d: real) {
      Finite? && value <= d
    }
  }

  /**
   * What the model assumes of Euclidean distance (`math.dist`, `math.sqrt` of a sum of
   * squares): it is never negative and does not depend on the order of its arguments.
   */
  ghost predicate IsMetric(dist: (Point, Point) -> real) {
    forall p, q :: dist(p, q) >= 0.0 && dist(p, q) == dist(q, p)
  }
}

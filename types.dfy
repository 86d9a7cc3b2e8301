/** Values that travel between the stages of the pipeline. */
module Types {

  datatype Option<T> = None | Some(value: T)

  /** A captured video frame. Pixels are not modelled: a frame is known by
      an identity and by its shape (frame.shape[:2] in the source). */
  datatype Frame = Frame(id: nat, height: nat, width: nat)

  /** One raw detector output box: float corners and a confidence. */
  datatype Detection = Detection(x1: real, y1: real, x2: real, y2: real, confidence: real)

  /** A kept bounding box: the corners after int() truncation. */
  datatype Box = Box(x1: int, y1: int, x2: int, y2: int)

  /** One observation of the smoothed count at a video time. */
  datatype Sample = Sample(count: int, timeMs: int)

  /** An integer or +inf (the source's float('inf') sentinel). */
  datatype Bound = Finite(n: int) | Infinity
}

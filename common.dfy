/** Small value types shared by the modules of the drawing page. */
module Common {

  /** An optional value; `None` also stands for a handler that throws before doing anything. */
  datatype Option<T> = None | Some(value: T)

  /** A point in canvas-local pixel coordinates. */
  datatype Point = Point(x: int, y: int)
}

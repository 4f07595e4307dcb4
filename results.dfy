// The ["ok", value] / ["error", reason] pairs of scripts/canvas_widget.mjs as a sum type.
module Results {

  /** The failure reasons the resolution pipeline reports. */
  datatype Error = InvalidSize | NotAnInteger | WidthNotInRange | HeightNotInRange

  /** The message string the widget attaches to each failure. */
  function Message(e: Error): string {
    match e
    case InvalidSize => "Invalid size"
    case NotAnInteger => "Not an integer"
    case WidthNotInRange => "Resolution width not in range"
    case HeightNotInRange => "Resolution height not in range"
  }

  datatype Result<T> = Ok(value: T) | Err(error: Error)
}

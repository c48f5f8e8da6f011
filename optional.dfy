/** Absent values made explicit: the JavaScript `null` / `undefined` the chart state starts with. */
module Optional {

  datatype Option<+T> = None | Some(value: T)
  {
    /** The value, or `default` when there is none: JavaScript's `??` operator. */
    function GetOr(default: T): T
    {
      if Some? then value else default
    }
  }
}

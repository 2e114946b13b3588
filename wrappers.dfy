/** SQL NULL and Python None, as an optional value. */
module Wrappers {
  datatype Option<+T> = None | Some(value: T)
  {
    /** COALESCE(this, d): the value when present, `d` for NULL. */
    function GetOr(d: T): T
    {
      if Some? then value else d
    }
  }
}

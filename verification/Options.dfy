/** An optional value: the source's nil results and error returns. */
module Options {

  datatype Option<+T> = None | Some(value: T) {
    function GetOr(d: T): T {
      if Some? then value else d
    }
  }
}

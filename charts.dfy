/** The chart families both pages can draw. */
module Charts {

  datatype Family = Scatter | Line | Bar

  /** The string each page stores as its plot type and shows in labels. */
  function Name(f: Family): (s: string)
    ensures s in {"scatter", "line", "bar"}
  {
    match f
    case Scatter => "scatter"
    case Line => "line"
    case Bar => "bar"
  }
}

/**
 * The drawing surface the graph routine talks to. Only the part the routine
 * uses is modelled: a mutable path that records `moveTo` / `lineTo` commands
 * in the order they are issued. Rendering the path is not modelled.
 */
module Canvas {

  /** One path command with its target point (x to the right, y downwards). */
  datatype PathCommand =
    | MoveTo(x: real, y: real)
    | LineTo(x: real, y: real)

  /** A path under construction: the commands issued so far, oldest first. */
  class Path {
    var commands: seq<PathCommand>

    constructor ()
      ensures commands == []
    {
      commands := [];
    }

    method MoveTo(x: real, y: real)
      modifies this
      ensures commands == old(commands) + [PathCommand.MoveTo(x, y)]
    {
      commands := commands + [PathCommand.MoveTo(x, y)];
    }

    method LineTo(x: real, y: real)
      modifies this
      ensures commands == old(commands) + [PathCommand.LineTo(x, y)]
    {
      commands := commands + [PathCommand.LineTo(x, y)];
    }
  }

}

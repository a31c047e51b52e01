/**
 * `\fcolorbox{frame}{background}{body}`: the command reads its two colour
 * arguments when it starts, then frames the body it receives.
 */
module CommandFColorBox {
  import opened Atoms
  import opened Parser

  class CommandFColorBox {
    var frame: Option<Color>
    var bg: Option<Color>

    /** `new CommandFColorBox()`: no colour yet. */
    constructor ()
      ensures frame == None && bg == None
    {
      frame, bg := None, None;
    }

    /** `new CommandFColorBox(frame, bg)`: both colours stored as given. */
    constructor WithColors(frame: Option<Color>, bg: Option<Color>)
      ensures this.frame == frame && this.bg == bg
    {
      this.frame, this.bg := frame, bg;
    }

    /**
     * `init(tp)`: the first colour argument becomes the frame colour, the
     * second the background, and the command answers true. A missing
     * argument stops it, leaving what was read before stored.
     */
    method Init(tp: TeXParser) returns (r: Result<bool, Error>)
      requires tp.Valid()
      modifies this, tp
      ensures tp.Valid()
      ensures var args := old(tp.colorArgs);
        && (|args| >= 2 ==>
              && r == Ok(true) && frame == Some(args[0]) && bg == Some(args[1])
              && tp.State() == old(tp.State()).(colorArgs := args[2..]))
        && (|args| == 1 ==>
              && r == Err(MissingArgument) && frame == Some(args[0]) && bg == old(bg)
              && tp.State() == old(tp.State()).(colorArgs := []))
        && (|args| == 0 ==>
              && r == Err(MissingArgument) && frame == old(frame) && bg == old(bg)
              && tp.State() == old(tp.State()))
    {
      var f := tp.GetArgAsColor();
      if f.Err? {
        return Err(f.error);
      }
      frame := Some(f.value);
      var b := tp.GetArgAsColor();
      if b.Err? {
        return Err(b.error);
      }
      bg := Some(b.value);
      r := Ok(true);
    }

    /** `newI(tp, a)`: the body framed, with the background first and the frame colour second. */
    function NewI(a: Atom): (r: Atom)
      reads this
      ensures r.FBoxAtom? && r.body == a
      ensures r.background == bg && r.frame == frame
    {
      FBoxAtom(a, bg, frame)
    }

    /** `duplicate()`: a new command with the same two colours. */
    method Duplicate() returns (c: CommandFColorBox)
      ensures fresh(c) && c.frame == frame && c.bg == bg
    {
      c := new CommandFColorBox.WithColors(frame, bg);
    }
  }

  /**
   * `\fcolorbox` from start to finish on a parser whose next colour
   * arguments are those of `s`: the first read becomes the frame, the
   * second the background, whatever was there before.
   */
  method FColorBox(s: ParserState, grammar: Grammar, body: Atom) returns (r: Result<(bool, Atom), Error>)
    requires WellFormed(s)
    ensures |s.colorArgs| < 2 ==> r == Err(MissingArgument)
    ensures |s.colorArgs| >= 2 ==> r == Ok((true, FBoxAtom(body, Some(s.colorArgs[1]), Some(s.colorArgs[0]))))
  {
    var tp := new TeXParser.Resume(s, grammar);
    var com := new CommandFColorBox();
    var started := com.Init(tp);
    if started.Err? {
      return Err(started.error);
    }
    r := Ok((started.value, com.NewI(body)));
  }

  /** A duplicate builds the same atom as the command it was made from. */
  method DuplicateBuildsSame(com: CommandFColorBox, body: Atom) returns (original: Atom, copy: Atom)
    ensures original == copy
    ensures copy == FBoxAtom(body, com.bg, com.frame)
  {
    original := com.NewI(body);
    var dup := com.Duplicate();
    copy := dup.NewI(body);
  }
}

/**
 * `\color{c}`: a style command that reads its colour when it starts and
 * then colours what follows it.
 */
module CommandColor {
  import opened Atoms
  import opened Parser

  class CommandColor {
    /** The row the style was stolen from, kept by the style command. */
    var size: Option<Atom>
    var fg: Option<Color>

    /** `new CommandColor()`: no foreground until init runs. */
    constructor ()
      ensures size == None && fg == None
    {
      size, fg := None, None;
    }

    /** `new CommandColor(size, fg)`: both stored as given. */
    constructor WithColor(size: Option<Atom>, fg: Option<Color>)
      ensures this.size == size && this.fg == fg
    {
      this.size, this.fg := size, fg;
    }

    /**
     * The style command's `init(tp)`: the command becomes the consumer on
     * top, collecting the atoms that follow, and answers false.
     */
    method StyleInit(tp: TeXParser) returns (r: bool)
      requires tp.Valid()
      modifies tp
      ensures tp.Valid()
      ensures !r && tp.State() == Push(old(tp.State()), Group([]))
    {
      tp.AddConsumer(Group([]));
      r := false;
    }

    /**
     * `init(tp)`: the foreground is read first; then the style command's
     * init runs and its answer is returned. A missing colour stops it
     * before the style command starts.
     */
    method Init(tp: TeXParser) returns (r: Result<bool, Error>)
      requires tp.Valid()
      modifies this, tp
      ensures tp.Valid() && size == old(size)
      ensures var args := old(tp.colorArgs);
        && (|args| == 0 ==> r == Err(MissingArgument) && fg == old(fg) && tp.State() == old(tp.State()))
        && (|args| > 0 ==>
              && r == Ok(false) && fg == Some(args[0])
              && tp.State() == Push(old(tp.State()).(colorArgs := args[1..]), Group([])))
    {
      var c := tp.GetArgAsColor();
      if c.Err? {
        return Err(c.error);
      }
      fg := Some(c.value);
      var inherited := StyleInit(tp);
      r := Ok(inherited);
    }

    /** `newI(tp, a)`: the atom coloured with the foreground and no background. */
    function NewI(a: Atom): (r: Atom)
      reads this
      ensures r.ColorAtom? && r.body == a
      ensures r.background == None && r.foreground == fg
      ensures UsesColor(r)
    {
      ColorAtom(a, None, fg)
    }
  }

  /**
   * `\color` from start to finish on a parser whose next colour argument
   * is that of `s`: init answers what the style command answers, and the
   * atom built carries the colour read.
   */
  method ColorCommand(s: ParserState, grammar: Grammar, body: Atom) returns (r: Result<(bool, Atom), Error>)
    requires WellFormed(s)
    ensures |s.colorArgs| == 0 ==> r == Err(MissingArgument)
    ensures |s.colorArgs| > 0 ==> r == Ok((false, ColorAtom(body, None, Some(s.colorArgs[0]))))
  {
    var tp := new TeXParser.Resume(s, grammar);
    var com := new CommandColor();
    var started := com.Init(tp);
    if started.Err? {
      return Err(started.error);
    }
    r := Ok((started.value, com.NewI(body)));
  }
}

/**
 * The line splitting getAsText applies to its text: Java's
 * `String.split` with the pattern `\n|\\\\|\\cr`, that is, a break is a
 * newline, two backslashes, or a backslash followed by `cr`. The scan
 * takes the leftmost break first and never overlaps two breaks; split
 * then drops the empty pieces at the end of the result. The empty text,
 * where the pattern matches nowhere, splits into the one empty piece.
 */
module LineSplit {

  /** The length of the break that starts `s`, or 0 when `s` does not start with one. */
  function BreakAt(s: string): (k: nat)
    ensures k <= |s| && k <= 3
  {
    if |s| >= 1 && s[0] == '\n' then 1
    else if |s| >= 2 && s[0] == '\\' && s[1] == '\\' then 2
    else if |s| >= 3 && s[0] == '\\' && s[1] == 'c' && s[2] == 'r' then 3
    else 0
  }

  predicate IsBreak(t: string)
  {
    t == "\n" || t == "\\\\" || t == "\\cr"
  }

  /** The pieces between the breaks, in order, every empty piece kept. */
  function Pieces(s: string): (r: seq<string>)
    ensures |r| >= 1
    decreases |s|
  {
    if |s| == 0 then [""]
    else if BreakAt(s) > 0 then [""] + Pieces(s[BreakAt(s)..])
    else
      var rest := Pieces(s[1..]);
      [[s[0]] + rest[0]] + rest[1..]
  }

  /** The breaks the scan cuts at, in order. */
  function Breaks(s: string): seq<string>
    decreases |s|
  {
    if |s| == 0 then []
    else if BreakAt(s) > 0 then [s[..BreakAt(s)]] + Breaks(s[BreakAt(s)..])
    else Breaks(s[1..])
  }

  /** The pieces with the breaks put back between them. */
  function Join(pieces: seq<string>, breaks: seq<string>): string
    requires |pieces| == |breaks| + 1
    decreases |breaks|
  {
    if |breaks| == 0 then pieces[0]
    else pieces[0] + breaks[0] + Join(pieces[1..], breaks[1..])
  }

  /** The pieces without the empty ones at the end. */
  function DropTrailingEmpty(pieces: seq<string>): (r: seq<string>)
    ensures |r| <= |pieces| && r == pieces[..|r|]
    ensures |r| > 0 ==> r[|r| - 1] != ""
    ensures forall i :: |r| <= i < |pieces| ==> pieces[i] == ""
    decreases |pieces|
  {
    if |pieces| > 0 && pieces[|pieces| - 1] == "" then DropTrailingEmpty(pieces[..|pieces| - 1])
    else pieces
  }

  /** `text.split("\n|\\\\\\\\|\\\\cr")`. */
  function JavaSplit(s: string): seq<string>
  {
    if |s| == 0 then [""] else DropTrailingEmpty(Pieces(s))
  }

  /** A text made of breaks alone, nothing between or around them. */
  predicate OnlyBreaks(s: string)
    decreases |s|
  {
    |s| == 0 || (BreakAt(s) > 0 && OnlyBreaks(s[BreakAt(s)..]))
  }

  /** One piece more than breaks, and every break is one of the three. */
  lemma PiecesAroundBreaks(s: string)
    ensures |Pieces(s)| == |Breaks(s)| + 1
    ensures forall i :: 0 <= i < |Breaks(s)| ==> IsBreak(Breaks(s)[i])
  {
    OnePieceMore(s);
    BreaksAreBreaks(s);
  }

  /** There is one piece more than breaks. */
  lemma {:induction false} OnePieceMore(s: string)
    ensures |Pieces(s)| == |Breaks(s)| + 1
    decreases |s|
  {
    if |s| == 0 {
    } else if BreakAt(s) > 0 {
      OnePieceMore(s[BreakAt(s)..]);
    } else {
      OnePieceMore(s[1..]);
    }
  }

  /** What the scan cuts at the start of a text is one of the three breaks. */
  lemma BreakIsBreak(s: string)
    requires BreakAt(s) > 0
    ensures IsBreak(s[..BreakAt(s)])
  {
    var k := BreakAt(s);
    if k == 1 {
      assert s[..k] == ['\n'];
    } else if k == 2 {
      assert s[..k] == ['\\', '\\'];
    } else {
      assert s[..k] == ['\\', 'c', 'r'];
    }
  }

  /** Every break the scan cuts at is a newline, `\\` or `\cr`. */
  lemma {:induction false} BreaksAreBreaks(s: string)
    ensures forall i :: 0 <= i < |Breaks(s)| ==> IsBreak(Breaks(s)[i])
    decreases |s|
  {
    if |s| == 0 {
    } else if BreakAt(s) > 0 {
      var k := BreakAt(s);
      BreaksAreBreaks(s[k..]);
      BreakIsBreak(s);
      var bs := Breaks(s[k..]);
      assert Breaks(s) == [s[..k]] + bs;
      assert forall i :: 1 <= i < |Breaks(s)| ==> Breaks(s)[i] == bs[i - 1];
    } else {
      BreaksAreBreaks(s[1..]);
    }
  }

  /** Putting the breaks back between the pieces gives the text again. */
  lemma {:induction false} SplitRejoins(s: string)
    ensures |Pieces(s)| == |Breaks(s)| + 1
    ensures Join(Pieces(s), Breaks(s)) == s
    decreases |s|
  {
    PiecesAroundBreaks(s);
    if |s| == 0 {
    } else if BreakAt(s) > 0 {
      var k := BreakAt(s);
      SplitRejoins(s[k..]);
      JoinAfterBreak(s, k, Pieces(s[k..]), Breaks(s[k..]));
    } else {
      SplitRejoins(s[1..]);
      JoinConsFirst(s[0], Pieces(s[1..]), Breaks(s[1..]));
      assert [s[0]] + s[1..] == s;
    }
  }

  /** The step of SplitRejoins where the text starts with a break. */
  lemma JoinAfterBreak(s: string, k: nat, ps: seq<string>, bs: seq<string>)
    requires k <= |s|
    requires |ps| == |bs| + 1 && Join(ps, bs) == s[k..]
    ensures Join([""] + ps, [s[..k]] + bs) == s
  {
    var p, b := [""] + ps, [s[..k]] + bs;
    assert p[1..] == ps && b[1..] == bs;
    assert Join(p, b) == p[0] + b[0] + Join(ps, bs);
    assert p[0] + b[0] == s[..k];
    assert s[..k] + s[k..] == s;
  }

  /** Putting a character in front of the first piece puts it in front of the joined text. */
  lemma JoinConsFirst(c: char, pieces: seq<string>, breaks: seq<string>)
    requires |pieces| == |breaks| + 1
    ensures Join([[c] + pieces[0]] + pieces[1..], breaks) == [c] + Join(pieces, breaks)
  {
    var p := [[c] + pieces[0]] + pieces[1..];
    assert p[0] == [c] + pieces[0];
    if |breaks| > 0 {
      assert p[1..] == pieces[1..];
    }
  }

  /** A break at the start of a prefix of `u` is a break at the start of `u`. */
  lemma BreakAtPrefix(t: string, u: string)
    requires |t| <= |u| && t == u[..|t|]
    ensures BreakAt(t) > 0 ==> BreakAt(u) == BreakAt(t)
  {
    if |t| >= 1 { assert t[0] == u[0]; }
    if |t| >= 2 { assert t[1] == u[1]; }
    if |t| >= 3 { assert t[2] == u[2]; }
  }

  /** The first piece is a prefix of the text. */
  lemma {:induction false} FirstPieceIsPrefix(s: string)
    ensures |Pieces(s)[0]| <= |s| && Pieces(s)[0] == s[..|Pieces(s)[0]|]
    decreases |s|
  {
    if |s| > 0 && BreakAt(s) == 0 {
      FirstPieceIsPrefix(s[1..]);
    }
  }

  /** No piece contains a break: the scan cut at every one. */
  /** No break starts anywhere inside `p`. */
  predicate HoldsNoBreak(p: string) { forall j :: 0 <= j < |p| ==> BreakAt(p[j..]) == 0 }

  lemma {:induction false} PiecesHoldNoBreak(s: string)
    ensures forall i :: 0 <= i < |Pieces(s)| ==> HoldsNoBreak(Pieces(s)[i])
    decreases |s|
  {
    if |s| == 0 {
    } else if BreakAt(s) > 0 {
      PiecesHoldNoBreak(s[BreakAt(s)..]);
    } else {
      var rest := Pieces(s[1..]);
      PiecesHoldNoBreak(s[1..]);
      FirstPieceIsPrefix(s[1..]);
      var first := [s[0]] + rest[0];
      assert HoldsNoBreak(rest[0]);
      forall j | 0 <= j < |first|
        ensures BreakAt(first[j..]) == 0
      {
        if j == 0 {
          assert first == s[..|first|];
          BreakAtPrefix(first, s);
        } else {
          assert first[j..] == rest[0][j - 1..];
        }
      }
      assert HoldsNoBreak(first);
      assert Pieces(s) == [first] + rest[1..];
    }
  }

  /** The first piece runs up to the first position where a break starts, or to the end. */
  lemma {:induction false} FirstPieceStopsAtBreak(s: string)
    ensures var n := |Pieces(s)[0]|;
      && n <= |s| && Pieces(s)[0] == s[..n]
      && (forall j :: 0 <= j < n ==> BreakAt(s[j..]) == 0)
      && (n < |s| ==> BreakAt(s[n..]) > 0)
    decreases |s|
  {
    FirstPieceIsPrefix(s);
    if |s| > 0 && BreakAt(s) == 0 {
      var t := s[1..];
      FirstPieceStopsAtBreak(t);
      var m := |Pieces(t)[0]|;
      assert |Pieces(s)[0]| == m + 1;
      assert s[0..] == s;
      forall j | 1 <= j < m + 1
        ensures BreakAt(s[j..]) == 0
      {
        assert t[j - 1..] == s[j..];
      }
      if m < |t| {
        assert t[m..] == s[m + 1..];
      }
    } else if |s| > 0 {
      assert s[0..] == s;
    }
  }

  /** Skipping a prefix in which no break starts: it joins the first piece, and the breaks are those after it. */
  lemma {:induction false} SkipNoBreak(s: string, n: nat)
    requires n <= |s| && forall j :: 0 <= j < n ==> BreakAt(s[j..]) == 0
    ensures Pieces(s) == [s[..n] + Pieces(s[n..])[0]] + Pieces(s[n..])[1..]
    ensures Breaks(s) == Breaks(s[n..])
    decreases n
  {
    if n == 0 {
      var ps := Pieces(s);
      assert s[0..] == s && s[..0] + ps[0] == ps[0];
      assert [ps[0]] + ps[1..] == ps;
    } else {
      assert s[0..] == s;
      var t := s[1..];
      forall j | 0 <= j < n - 1
        ensures BreakAt(t[j..]) == 0
      {
        assert t[j..] == s[j + 1..];
      }
      SkipNoBreak(t, n - 1);
      assert t[n - 1..] == s[n..];
      var rest, after := Pieces(t), Pieces(s[n..]);
      assert rest[0] == t[..n - 1] + after[0] && rest[1..] == after[1..];
      assert [s[0]] + t[..n - 1] == s[..n];
      assert [s[0]] + rest[0] == s[..n] + after[0];
    }
  }

  /** A text that starts with a break: an empty first piece, that break, then the split of the rest. */
  lemma CutAtBreak(u: string)
    requires BreakAt(u) > 0
    ensures Pieces(u)[1..] == Pieces(u[BreakAt(u)..])
    ensures Breaks(u) == [u[..BreakAt(u)]] + Breaks(u[BreakAt(u)..])
  {
    var v := u[BreakAt(u)..];
    assert Pieces(u) == [""] + Pieces(v);
  }

  /** A slice of a suffix is a slice of the text. */
  lemma SliceOfSuffix(s: string, n: nat, k: nat)
    requires n + k <= |s|
    ensures s[n..][k..] == s[n + k..] && s[n..][..k] == s[n..n + k]
  {
  }

  /**
   * The scan cuts at the leftmost break: the first piece runs up to the
   * first position of the text where a break starts (to the end when
   * there is none, and then it is the only piece), the first break is the
   * whole break found there, and the remaining pieces and breaks are those
   * of the text after it.
   */
  lemma ScanTakesLeftmostBreak(s: string)
    ensures var n := |Pieces(s)[0]|;
      && n <= |s| && Pieces(s)[0] == s[..n]
      && (forall j :: 0 <= j < n ==> BreakAt(s[j..]) == 0)
      && (|Pieces(s)| == 1 <==> n == |s|)
      && (n < |s| ==>
            var k := BreakAt(s[n..]);
            && k > 0 && |Breaks(s)| > 0 && Breaks(s)[0] == s[n..n + k]
            && Pieces(s)[1..] == Pieces(s[n + k..]) && Breaks(s)[1..] == Breaks(s[n + k..]))
  {
    FirstPieceStopsAtBreak(s);
    var n := |Pieces(s)[0]|;
    if n == |s| {
      NoBreakOnePiece(s);
    } else {
      CutAtFirstBreak(s, n);
    }
  }

  /** Where the first break starts after a break-free prefix, the scan cuts there. */
  lemma CutAtFirstBreak(s: string, n: nat)
    requires n < |s| && BreakAt(s[n..]) > 0
    requires forall j :: 0 <= j < n ==> BreakAt(s[j..]) == 0
    ensures var k := BreakAt(s[n..]);
      && n + k <= |s|
      && Pieces(s)[1..] == Pieces(s[n + k..])
      && Breaks(s) == [s[n..n + k]] + Breaks(s[n + k..])
  {
    var u := s[n..];
    var k := BreakAt(u);
    SkipNoBreak(s, n);
    var ps := Pieces(s);
    assert ps[1..] == Pieces(u)[1..];
    CutAtBreak(u);
    SliceOfSuffix(s, n, k);
  }

  /** Every piece in the list is empty. */
  predicate AllEmpty(ps: seq<string>)
  {
    forall i :: 0 <= i < |ps| ==> ps[i] == ""
  }

  /** Every piece is empty exactly when the text is made of breaks alone. */
  lemma {:induction false} AllPiecesEmptyIffOnlyBreaks(s: string)
    ensures AllEmpty(Pieces(s)) <==> OnlyBreaks(s)
    decreases |s|
  {
    if |s| == 0 {
    } else if BreakAt(s) > 0 {
      var rest := Pieces(s[BreakAt(s)..]);
      AllPiecesEmptyIffOnlyBreaks(s[BreakAt(s)..]);
      assert Pieces(s) == [""] + rest;
      assert forall i :: 1 <= i < |Pieces(s)| ==> Pieces(s)[i] == rest[i - 1];
      assert forall i :: 0 <= i < |rest| ==> rest[i] == Pieces(s)[i + 1];
    } else {
      assert Pieces(s)[0] != "";
    }
  }

  /**
   * Java's split yields no piece at all exactly when the text is not empty
   * and made of breaks alone.
   */
  lemma SplitEmptyIffOnlyBreaks(s: string)
    ensures JavaSplit(s) == [] <==> |s| > 0 && OnlyBreaks(s)
  {
    if |s| > 0 {
      var ps := Pieces(s);
      AllPiecesEmptyIffOnlyBreaks(s);
      DropsToNothingIffAllEmpty(ps);
      assert JavaSplit(s) == DropTrailingEmpty(ps);
    }
  }

  /** Dropping the trailing empty pieces leaves nothing exactly when every piece is empty. */
  lemma DropsToNothingIffAllEmpty(ps: seq<string>)
    ensures DropTrailingEmpty(ps) == [] <==> AllEmpty(ps)
  {
    var r := DropTrailingEmpty(ps);
    if |r| > 0 {
      assert r[|r| - 1] == ps[|r| - 1] != "";
    }
  }

  /** A text with no break anywhere is one piece. */
  lemma {:induction false} NoBreakOnePiece(s: string)
    requires forall j :: 0 <= j < |s| ==> BreakAt(s[j..]) == 0
    ensures Pieces(s) == [s]
    decreases |s|
  {
    if |s| > 0 {
      assert s[0..] == s;
      assert forall j :: 0 <= j < |s| - 1 ==> s[1..][j..] == s[j + 1..];
      NoBreakOnePiece(s[1..]);
      assert [s[0]] + s[1..] == s;
    }
  }

  /** A text with no break anywhere is not split. */
  lemma NoBreakNoSplit(s: string)
    requires forall j :: 0 <= j < |s| ==> BreakAt(s[j..]) == 0
    ensures JavaSplit(s) == [s]
  {
    NoBreakOnePiece(s);
  }
}

/** One line of the board (a row, or a column read in move order) and what a move
    does to it: keep the tiles in order, merge equal neighbours pairwise, pad with
    empty cells. Everything here is a specification function or a lemma about one. */
module Lines {
  import opened Grid

  /** The values a cell contributes: its tile's value, or none for an empty cell. */
  function CellValues(c: Cell): seq<int> {
    if c.Tile? then [c.value] else []
  }

  /** The values of the line's tiles, in order: the empty cells are dropped. */
  function Values(line: Line): (f: seq<int>)
    ensures |f| <= |line|
  {
    if line == [] then []
    else Values(line[..|line| - 1]) + (if line[|line| - 1].Tile? then [line[|line| - 1].value] else [])
  }

  /** A tile for each value, in order. */
  function Tiles(m: seq<int>): Line {
    seq(|m|, k requires 0 <= k < |m| => Tile(m[k]))
  }

  /** `n` empty cells. */
  function Empties(n: nat): Line {
    seq(n, _ => Empty)
  }

  /** The line with empty cells appended until it is BoardSize long. */
  function PadEnd(m: Line): Line {
    if |m| < BoardSize then m + Empties(BoardSize - |m|) else m
  }

  /** The line with empty cells prepended until it is BoardSize long. */
  function PadStart(m: Line): Line {
    if |m| < BoardSize then Empties(BoardSize - |m|) + m else m
  }

  function Sum(s: seq<int>): int {
    if s == [] then 0 else s[0] + Sum(s[1..])
  }

  /** The sum of the values of the line's tiles. */
  function LineSum(line: Line): int {
    Sum(Values(line))
  }

  /** Scanning from the front, each value equal to the next one is replaced, with
      it, by their double, and the scan continues after the pair; otherwise the
      value is kept. A doubled value is never looked at again. */
  function MergeForward(f: seq<int>): (m: seq<int>)
    ensures |m| <= |f|
  {
    if |f| >= 2 && f[0] == f[1] then [2 * f[0]] + MergeForward(f[2..])
    else if f == [] then []
    else [f[0]] + MergeForward(f[1..])
  }

  /** The same scan run from the back towards the front. */
  function MergeBackward(f: seq<int>): (m: seq<int>)
    ensures |m| <= |f|
  {
    if |f| >= 2 && f[|f| - 1] == f[|f| - 2] then MergeBackward(f[..|f| - 2]) + [2 * f[|f| - 1]]
    else if f == [] then []
    else MergeBackward(f[..|f| - 1]) + [f[|f| - 1]]
  }

  /** A line after a move towards its start (left for a row, up for a column). */
  function SlideLeft(line: Line): (r: Line)
    ensures |line| <= BoardSize ==> |r| == BoardSize
  {
    PadEnd(Tiles(MergeForward(Values(line))))
  }

  /** A line after a move towards its end (right for a row, down for a column). */
  function SlideRight(line: Line): (r: Line)
    ensures |line| <= BoardSize ==> |r| == BoardSize
  {
    PadStart(Tiles(MergeBackward(Values(line))))
  }

  function Reverse<T>(s: seq<T>): seq<T> {
    seq(|s|, k requires 0 <= k < |s| => s[|s| - 1 - k])
  }

  /** No empty cell stands before a tile: the tiles are packed at the start. */
  predicate LeftPacked(line: Line) {
    forall i, j :: 0 <= i < j < |line| && line[i].Empty? ==> line[j].Empty?
  }

  /** No empty cell stands after a tile: the tiles are packed at the end. */
  predicate RightPacked(line: Line) {
    forall i, j :: 0 <= i < j < |line| && line[j].Empty? ==> line[i].Empty?
  }

  /** No two neighbouring values are equal. */
  ghost predicate NoAdjacentEqual(f: seq<int>) {
    forall i, j :: 0 <= i < j < |f| && j == i + 1 ==> f[i] != f[j]
  }

  predicate AllNonNegative(f: seq<int>) {
    forall x :: x in f ==> x >= 0
  }

  // ---------------------------------------------------------------------------
  // Values, Tiles and padding

  lemma {:induction false} ValuesAppend(a: Line, b: Line)
    ensures Values(a + b) == Values(a) + Values(b)
  {
    if b == [] {
      assert a + b == a;
    } else {
      var b' := b[..|b| - 1];
      assert (a + b)[..|a + b| - 1] == a + b';
      ValuesAppend(a, b');
    }
  }

  lemma {:induction false} ValuesOfTiles(m: seq<int>)
    ensures Values(Tiles(m)) == m
  {
    if m != [] {
      assert Tiles(m)[..|m| - 1] == Tiles(m[..|m| - 1]);
      ValuesOfTiles(m[..|m| - 1]);
      assert m == m[..|m| - 1] + [m[|m| - 1]];
    }
  }

  lemma {:induction false} ValuesOfEmpties(n: nat)
    ensures Values(Empties(n)) == []
  {
    if n > 0 {
      assert Empties(n)[..n - 1] == Empties(n - 1);
      ValuesOfEmpties(n - 1);
    }
  }

  /** Padding a run of tiles at either end adds no value. */
  lemma ValuesOfPadded(m: seq<int>)
    ensures Values(PadEnd(Tiles(m))) == m
    ensures Values(PadStart(Tiles(m))) == m
  {
    ValuesOfTiles(m);
    if |m| < BoardSize {
      ValuesAppend(Tiles(m), Empties(BoardSize - |m|));
      ValuesAppend(Empties(BoardSize - |m|), Tiles(m));
      ValuesOfEmpties(BoardSize - |m|);
    }
  }

  /** A value is kept by Values exactly when a tile holds it. */
  lemma {:induction false} ValuesMembers(line: Line)
    ensures forall x :: x in Values(line) <==> Tile(x) in line
  {
    if line != [] {
      var init := line[..|line| - 1];
      ValuesMembers(init);
      assert line == init + [line[|line| - 1]];
    }
  }

  /** The tiles of a line come back as Values in reverse when the line is reversed. */
  lemma {:induction false} ValuesOfReverse(line: Line)
    ensures Values(Reverse(line)) == Reverse(Values(line))
  {
    if line != [] {
      var init, last := line[..|line| - 1], line[|line| - 1];
      assert Reverse(line) == [last] + Reverse(init);
      ValuesAppend([last], Reverse(init));
      ValuesOfReverse(init);
      assert Values([last]) == CellValues(last) by {
        assert [last][..0] == [];
      }
      ReverseAppend(Values(init), CellValues(last));
    }
  }

  /** The values of a line without empty cells are its cells' values, in place. */
  lemma {:induction false} FullLineValues(line: Line)
    requires forall k :: 0 <= k < |line| ==> line[k].Tile?
    ensures |Values(line)| == |line|
    ensures forall k :: 0 <= k < |line| ==> Values(line)[k] == line[k].value
  {
    if line != [] {
      var init := line[..|line| - 1];
      FullLineValues(init);
      assert Values(line) == Values(init) + [line[|line| - 1].value];
    }
  }

  // ---------------------------------------------------------------------------
  // Reversal

  lemma ReverseAppend<T>(a: seq<T>, b: seq<T>)
    ensures Reverse(a + b) == Reverse(b) + Reverse(a)
  {
  }

  lemma ReverseMembers<T>(s: seq<T>)
    ensures forall x :: x in Reverse(s) <==> x in s
  {
    forall x | x in s
      ensures x in Reverse(s)
    {
      var k :| 0 <= k < |s| && s[k] == x;
      assert Reverse(s)[|s| - 1 - k] == x;
    }
  }

  lemma ReverseTwice<T>(s: seq<T>)
    ensures Reverse(Reverse(s)) == s
  {
  }

  lemma ReversePadEnd(m: seq<int>)
    ensures Reverse(PadEnd(Tiles(m))) == PadStart(Tiles(Reverse(m)))
  {
    if |m| < BoardSize {
      ReverseAppend(Tiles(m), Empties(BoardSize - |m|));
    }
  }

  /** Merging from the back is merging from the front on the reversed values,
      read backwards. */
  lemma {:induction false} MergeBackwardMirror(f: seq<int>)
    ensures MergeBackward(f) == Reverse(MergeForward(Reverse(f)))
    decreases |f|
  {
    var n := |f|;
    var r := Reverse(f);
    if n >= 2 && f[n - 1] == f[n - 2] {
      assert r[2..] == Reverse(f[..n - 2]);
      MergeBackwardMirror(f[..n - 2]);
      ReverseAppend([2 * f[n - 1]], MergeForward(r[2..]));
    } else if n > 0 {
      assert r[1..] == Reverse(f[..n - 1]);
      MergeBackwardMirror(f[..n - 1]);
      ReverseAppend([f[n - 1]], MergeForward(r[1..]));
    }
  }

  /** A move to the right is a move to the left on the reversed line, reversed back. */
  lemma SlideRightMirror(line: Line)
    ensures SlideRight(line) == Reverse(SlideLeft(Reverse(line)))
  {
    var v := Values(line);
    ValuesOfReverse(line);
    MergeBackwardMirror(v);
    ReversePadEnd(MergeForward(Reverse(v)));
  }

  lemma RightPackedMirror(line: Line)
    ensures RightPacked(line) <==> LeftPacked(Reverse(line))
  {
    var r := Reverse(line);
    var n := |line|;
    if RightPacked(line) {
      forall i, j | 0 <= i < j < n && r[i].Empty?
        ensures r[j].Empty?
      {
        assert line[n - 1 - i] == r[i] && line[n - 1 - j] == r[j];
      }
    }
    if LeftPacked(r) {
      forall i, j | 0 <= i < j < n && line[j].Empty?
        ensures line[i].Empty?
      {
        assert r[n - 1 - j] == line[j] && r[n - 1 - i] == line[i];
      }
    }
  }

  lemma NoAdjacentEqualMirror(f: seq<int>)
    ensures NoAdjacentEqual(Reverse(f)) <==> NoAdjacentEqual(f)
  {
    var r := Reverse(f);
    var n := |f|;
    if NoAdjacentEqual(f) {
      forall i, j | 0 <= i < j < n && j == i + 1
        ensures r[i] != r[j]
      {
        assert r[i] == f[n - 1 - i] && r[j] == f[n - 1 - j];
        assert f[n - 1 - j] != f[n - 1 - i];
      }
    }
    if NoAdjacentEqual(r) {
      forall i, j | 0 <= i < j < n && j == i + 1
        ensures f[i] != f[j]
      {
        assert f[i] == r[n - 1 - i] && f[j] == r[n - 1 - j];
        assert r[n - 1 - j] != r[n - 1 - i];
      }
    }
  }

  // ---------------------------------------------------------------------------
  // Conservation of the tile sum

  lemma {:induction false} SumAppend(a: seq<int>, b: seq<int>)
    ensures Sum(a + b) == Sum(a) + Sum(b)
  {
    if a == [] {
      assert a + b == b;
    } else {
      assert (a + b)[1..] == a[1..] + b;
      SumAppend(a[1..], b);
    }
  }

  lemma {:induction false} SumReverse(f: seq<int>)
    ensures Sum(Reverse(f)) == Sum(f)
  {
    if f != [] {
      assert Reverse(f) == Reverse(f[1..]) + [f[0]];
      SumAppend(Reverse(f[1..]), [f[0]]);
      SumReverse(f[1..]);
    }
  }

  /** A merge replaces `v, v` by `2 * v`, so the sum is kept. */
  lemma {:induction false} MergeForwardSum(f: seq<int>)
    ensures Sum(MergeForward(f)) == Sum(f)
  {
    if |f| >= 2 && f[0] == f[1] {
      MergeForwardSum(f[2..]);
      assert f[1..][1..] == f[2..];
    } else if f != [] {
      MergeForwardSum(f[1..]);
    }
  }

  /** A move to the left keeps the sum of the line's tiles. */
  lemma SlideLeftSum(line: Line)
    ensures LineSum(SlideLeft(line)) == LineSum(line)
  {
    ValuesOfPadded(MergeForward(Values(line)));
    MergeForwardSum(Values(line));
  }

  /** A move to the right keeps the sum of the line's tiles. */
  lemma SlideRightSum(line: Line)
    ensures LineSum(SlideRight(line)) == LineSum(line)
  {
    var v := Values(line);
    ValuesOfPadded(MergeBackward(v));
    MergeBackwardMirror(v);
    SumReverse(MergeForward(Reverse(v)));
    MergeForwardSum(Reverse(v));
    SumReverse(v);
  }

  // ---------------------------------------------------------------------------
  // Shape of a moved line

  /** After a move to the left the tiles are packed at the start, and there are
      no more tiles than before. */
  lemma SlideLeftPacked(line: Line)
    ensures LeftPacked(SlideLeft(line))
    ensures |Values(SlideLeft(line))| <= |Values(line)|
  {
    ValuesOfPadded(MergeForward(Values(line)));
  }

  /** After a move to the right the tiles are packed at the end, and there are
      no more tiles than before. */
  lemma SlideRightPacked(line: Line)
    ensures RightPacked(SlideRight(line))
    ensures |Values(SlideRight(line))| <= |Values(line)|
  {
    ValuesOfPadded(MergeBackward(Values(line)));
  }

  /** A line whose tiles are packed at the start is its tiles followed by empty cells. */
  lemma {:induction false} LeftPackedSplit(line: Line)
    requires LeftPacked(line)
    ensures |Values(line)| <= |line|
    ensures line == Tiles(Values(line)) + Empties(|line| - |Values(line)|)
  {
    if line != [] {
      var init, last := line[..|line| - 1], line[|line| - 1];
      LeftPackedSplit(init);
      var v := Values(init);
      assert line == init + [last];
      if last.Tile? {
        if |v| < |init| {
          assert false;
        }
        assert Tiles(v + [last.value]) == Tiles(v) + [last];
      } else {
        assert Empties(|line| - |v|) == Empties(|init| - |v|) + [Empty];
      }
    }
  }

  /** Merging leaves the values as they are exactly when no two neighbours are equal;
      otherwise it makes the sequence shorter. */
  lemma {:induction false} MergeForwardIdentity(f: seq<int>)
    ensures MergeForward(f) == f <==> NoAdjacentEqual(f)
    ensures !NoAdjacentEqual(f) ==> |MergeForward(f)| < |f|
  {
    if |f| >= 2 && f[0] == f[1] {
      assert !NoAdjacentEqual(f) by { assert f[0] == f[1]; }
      MergeForwardIdentity(f[2..]);
    } else if f != [] {
      MergeForwardIdentity(f[1..]);
      if NoAdjacentEqual(f) {
        assert NoAdjacentEqual(f[1..]) by {
          forall i, j | 0 <= i < j < |f| - 1 && j == i + 1
            ensures f[1..][i] != f[1..][j]
          {
            assert f[i + 1] != f[j + 1];
          }
        }
        assert f == [f[0]] + f[1..];
      } else {
        var i, j :| 0 <= i < j < |f| && j == i + 1 && f[i] == f[j];
        assert i > 0;
        assert f[1..][i - 1] == f[1..][j - 1];
      }
    }
  }

  /** A line of BoardSize cells comes back unchanged from a move to the left
      exactly when its tiles are packed at the start and no two neighbouring
      tiles are equal. */
  lemma SlideLeftFixedPoint(line: Line)
    requires |line| == BoardSize
    ensures SlideLeft(line) == line <==> LeftPacked(line) && NoAdjacentEqual(Values(line))
  {
    var v := Values(line);
    MergeForwardIdentity(v);
    if SlideLeft(line) == line {
      SlideLeftPacked(line);
      ValuesOfPadded(MergeForward(v));
    }
    if LeftPacked(line) && NoAdjacentEqual(v) {
      LeftPackedSplit(line);
      if |v| == BoardSize {
        assert Empties(0) == [];
      }
    }
  }

  /** The mirror image: a line comes back unchanged from a move to the right
      exactly when its tiles are packed at the end and no two neighbouring tiles
      are equal. */
  lemma SlideRightFixedPoint(line: Line)
    requires |line| == BoardSize
    ensures SlideRight(line) == line <==> RightPacked(line) && NoAdjacentEqual(Values(line))
  {
    var r := Reverse(line);
    SlideRightMirror(line);
    SlideLeftFixedPoint(r);
    RightPackedMirror(line);
    ValuesOfReverse(line);
    NoAdjacentEqualMirror(Values(line));
    ReverseTwice(line);
    ReverseTwice(SlideLeft(r));
  }

  /** A line packed at both ends is all tiles or all empty cells. */
  lemma PackedBothWays(line: Line)
    requires LeftPacked(line) && RightPacked(line)
    ensures (forall k :: 0 <= k < |line| ==> line[k].Empty?) || (forall k :: 0 <= k < |line| ==> line[k].Tile?)
  {
    if exists k :: 0 <= k < |line| && line[k].Empty? {
      var e :| 0 <= e < |line| && line[e].Empty?;
      forall k | 0 <= k < |line|
        ensures line[k].Empty?
      {
        if k < e {
          assert line[k].Empty?;
        } else if e < k {
          assert line[k].Empty?;
        }
      }
    }
  }

  // ---------------------------------------------------------------------------
  // Values stay non-negative

  lemma {:induction false} MergeForwardNonNegative(f: seq<int>)
    requires AllNonNegative(f)
    ensures AllNonNegative(MergeForward(f))
  {
    if |f| >= 2 && f[0] == f[1] {
      forall x | x in f[2..]
        ensures x >= 0
      {
        var k :| 0 <= k < |f| - 2 && f[2..][k] == x;
        assert f[k + 2] in f;
      }
      MergeForwardNonNegative(f[2..]);
      assert f[0] in f;
    } else if f != [] {
      forall x | x in f[1..]
        ensures x >= 0
      {
        var k :| 0 <= k < |f| - 1 && f[1..][k] == x;
        assert f[k + 1] in f;
      }
      MergeForwardNonNegative(f[1..]);
      assert f[0] in f;
    }
  }

  lemma PaddedNonNegative(m: seq<int>)
    requires AllNonNegative(m)
    ensures LineNonNegative(PadEnd(Tiles(m)))
    ensures LineNonNegative(PadStart(Tiles(m)))
  {
    ValuesOfPadded(m);
    ValuesMembers(PadEnd(Tiles(m)));
    ValuesMembers(PadStart(Tiles(m)));
  }

  /** A move to the left keeps every tile value non-negative. */
  lemma SlideLeftNonNegative(line: Line)
    requires LineNonNegative(line)
    ensures LineNonNegative(SlideLeft(line))
  {
    ValuesMembers(line);
    MergeForwardNonNegative(Values(line));
    PaddedNonNegative(MergeForward(Values(line)));
  }

  /** A move to the right keeps every tile value non-negative. */
  lemma SlideRightNonNegative(line: Line)
    requires LineNonNegative(line)
    ensures LineNonNegative(SlideRight(line))
  {
    var v := Values(line);
    ValuesMembers(line);
    ReverseMembers(v);
    MergeForwardNonNegative(Reverse(v));
    MergeBackwardMirror(v);
    ReverseMembers(MergeForward(Reverse(v)));
    PaddedNonNegative(MergeBackward(v));
  }
}

/**
 * Coordinate helpers: the on-board test, a bounds-checked board lookup and the
 * conversion between a position and its two-character square name ("e4").
 * Row 0 is rank 8 and column 0 is file a.
 */
module BoardUtils {
  import opened Wrappers
  import opened ChessTypes

  const Files: string := "abcdefgh"
  const Ranks: string := "87654321"

  /** The position lies on the 8x8 board. */
  predicate IsValidPosition(p: Position) {
    0 <= p.row < 8 && 0 <= p.col < 8
  }

  /** The square with row-major index `i`. */
  function SquareAt(i: int): Position {
    Position(i / 8, i % 8)
  }

  /** The on-board positions are exactly the 64 squares numbered row by row. */
  lemma ValidPositionsAreSquares(p: Position)
    ensures IsValidPosition(p) <==> exists i :: 0 <= i < 64 && SquareAt(i) == p
  {
    if IsValidPosition(p) {
      assert SquareAt(8 * p.row + p.col) == p;
    }
  }

  /**
   * `grid[row][col]` for an on-board position and `None` (undefined) otherwise.
   * An on-board position past the end of a short row also reads as undefined;
   * an on-board position whose row is missing is the engine's `TypeError`.
   */
  function SafeGetPosition<T>(grid: seq<seq<T>>, p: Position): (r: Option<T>)
    requires IsValidPosition(p) ==> p.row < |grid|
    ensures !IsValidPosition(p) ==> r == None
    ensures IsValidPosition(p) && p.col < |grid[p.row]| ==> r == Some(grid[p.row][p.col])
    ensures IsValidPosition(p) && p.col >= |grid[p.row]| ==> r == None
  {
    if !IsValidPosition(p) then None
    else if p.col < |grid[p.row]| then Some(grid[p.row][p.col])
    else None
  }

  /** The name of a square: file letter 'a'..'h' for the column, rank digit '8'..'1' for the row. */
  function PositionToString(p: Position): (s: string)
    ensures s == "invalid" <==> !IsValidPosition(p)
    ensures IsValidPosition(p) ==>
      |s| == 2 && s[0] as int == 'a' as int + p.col && s[1] as int == '8' as int - p.row
  {
    if !IsValidPosition(p) then "invalid" else [Files[p.col], Ranks[p.row]]
  }

  /** The first index of `ch` in `s`, or -1 when `s` does not contain it (`String.prototype.indexOf`). */
  function IndexOf(s: string, ch: char): (i: int)
    ensures -1 <= i < |s|
    ensures i == -1 <==> ch !in s
    ensures 0 <= i ==> s[i] == ch && forall j :: 0 <= j < i ==> s[j] != ch
  {
    if s == [] then -1
    else if s[0] == ch then 0
    else var i := IndexOf(s[1..], ch); if i == -1 then -1 else i + 1
  }

  /**
   * Lower-casing of one character; only the ASCII letters have a case here.
   * The result is a file letter exactly when the character is one, in either case.
   */
  function ToLower(ch: char): (r: char)
    ensures 'A' <= ch <= 'Z' ==> r as int == ch as int + 32
    ensures !('A' <= ch <= 'Z') ==> r == ch
    ensures r in Files <==> ch in Files || ch in "ABCDEFGH"
  {
    if 'A' <= ch <= 'Z' then (ch as int + 32) as char else ch
  }

  /** Parses a square name; the file letter may be upper-case, the rank digit must be one of '1'..'8'. */
  function StringToPosition(s: string): (r: Option<Position>)
    ensures r.Some? ==> IsValidPosition(r.value)
    ensures r.Some? <==> |s| == 2 && ToLower(s[0]) in Files && s[1] in Ranks
  {
    if |s| != 2 then None
    else
      var col := IndexOf(Files, ToLower(s[0]));
      var row := IndexOf(Ranks, s[1]);
      if col == -1 || row == -1 then None else Some(Position(row, col))
  }

  /** In a string of distinct characters, the index of its i-th character is i. */
  lemma IndexOfDistinct(s: string, i: int)
    requires forall j, k :: 0 <= j < k < |s| ==> s[j] != s[k]
    requires 0 <= i < |s|
    ensures IndexOf(s, s[i]) == i
  {
  }

  /** The file letters are distinct, so the letter of column c is found at index c. */
  lemma FileIndex(c: int)
    requires 0 <= c < 8
    ensures IndexOf(Files, Files[c]) == c
  {
    IndexOfDistinct(Files, c);
  }

  /** The rank digits are distinct, so the digit of row r is found at index r. */
  lemma RankIndex(r: int)
    requires 0 <= r < 8
    ensures IndexOf(Ranks, Ranks[r]) == r
  {
    IndexOfDistinct(Ranks, r);
  }

  /** Parsing the name of an on-board square gives the square back. */
  lemma ParseNameRoundTrip(p: Position)
    requires IsValidPosition(p)
    ensures StringToPosition(PositionToString(p)) == Some(p)
  {
    var s := PositionToString(p);
    assert s == [Files[p.col], Ranks[p.row]];
    assert ToLower(s[0]) == Files[p.col];
    FileIndex(p.col);
    RankIndex(p.row);
  }

  /** A parsed square prints as the lower-cased input: the other half of the round trip. */
  lemma PrintParsedName(s: string)
    requires StringToPosition(s).Some?
    ensures PositionToString(StringToPosition(s).value) == [ToLower(s[0]), s[1]]
  {
    var p := StringToPosition(s).value;
    assert Files[p.col] == ToLower(s[0]);
    assert Ranks[p.row] == s[1];
  }

  /** The file letter is read case-insensitively: "E2" names the same square as "e2". */
  lemma FileCaseInsensitive(s: string)
    requires |s| == 2 && 'A' <= s[0] <= 'Z'
    ensures StringToPosition(s) == StringToPosition([(s[0] as int + 32) as char, s[1]])
  {
    var t := [(s[0] as int + 32) as char, s[1]];
    assert ToLower(t[0]) == ToLower(s[0]);
  }

  /** The rank has no case: a character outside '1'..'8' in second place is always refused. */
  lemma RankNotFolded(s: string)
    requires |s| == 2 && !('1' <= s[1] <= '8')
    ensures StringToPosition(s) == None
  {
  }
}

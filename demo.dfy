/** The text layout of the post preview: the length line of each post and the
    wrapping of its text into rows of the preview box. The box's frame characters,
    the header lines and the console output are not modelled. */
module Demo {
  import opened Common
  import opened Text
  import Formatter

  /** The width of a row of post text inside the preview box. */
  const ROW_WIDTH: nat := 66

  /** The pieces a line is cut into: 66 characters at a time while more than 66
      remain, then the rest (which may be empty). */
  function Chunks(line: string): (chunks: seq<string>)
    ensures |chunks| >= 1
    decreases |line|
  {
    if |line| > ROW_WIDTH then [line[..ROW_WIDTH]] + Chunks(line[ROW_WIDTH..]) else [line]
  }

  /** The pieces, put back together. */
  function Flatten(parts: seq<string>): string
    decreases |parts|
  {
    if |parts| == 0 then "" else parts[0] + Flatten(parts[1..])
  }

  /** Cutting a line loses and adds nothing. */
  lemma {:induction false} ChunksRoundTrip(line: string)
    ensures Flatten(Chunks(line)) == line
    decreases |line|
  {
    if |line| > ROW_WIDTH {
      ChunksRoundTrip(line[ROW_WIDTH..]);
      assert Chunks(line)[1..] == Chunks(line[ROW_WIDTH..]);
      assert line[..ROW_WIDTH] + line[ROW_WIDTH..] == line;
    }
  }

  /** Every piece fits a row, every piece but the last fills it, and the number of
      pieces is one for a line of at most 66 characters (the empty line included)
      and the number of rows the line needs otherwise. */
  lemma {:induction false} ChunksShape(line: string)
    ensures forall i :: 0 <= i < |Chunks(line)| ==> |Chunks(line)[i]| <= ROW_WIDTH
    ensures forall i :: 0 <= i < |Chunks(line)| - 1 ==> |Chunks(line)[i]| == ROW_WIDTH
    ensures |line| <= ROW_WIDTH ==> Chunks(line) == [line]
    ensures |Chunks(line)| == if |line| == 0 then 1 else (|line| + ROW_WIDTH - 1) / ROW_WIDTH
    decreases |line|
  {
    if |line| > ROW_WIDTH {
      ChunksShape(line[ROW_WIDTH..]);
      var rest := Chunks(line[ROW_WIDTH..]);
      assert Chunks(line) == [line[..ROW_WIDTH]] + rest;
      forall i | 1 <= i < |Chunks(line)|
        ensures Chunks(line)[i] == rest[i - 1]
      {
      }
    }
  }

  /** The rows one line of post text prints: the pieces of the line, the last one
      padded with spaces to the full width. */
  function LineRows(line: string): seq<string> {
    var chunks := Chunks(line);
    chunks[..|chunks| - 1] + [Ljust(chunks[|chunks| - 1], ROW_WIDTH, ' ')]
  }

  /** One row per piece: rows cut from a long line are printed as they are, the last
      row is its piece padded, and every row is exactly as wide as the box. */
  lemma LineRowsShape(line: string)
    ensures |LineRows(line)| == |Chunks(line)|
    ensures forall i :: 0 <= i < |LineRows(line)| - 1 ==> LineRows(line)[i] == Chunks(line)[i]
    ensures LineRows(line)[|LineRows(line)| - 1] == Ljust(Chunks(line)[|Chunks(line)| - 1], ROW_WIDTH, ' ')
    ensures forall i :: 0 <= i < |LineRows(line)| ==> |LineRows(line)[i]| == ROW_WIDTH
  {
    ChunksShape(line);
    var chunks := Chunks(line);
    assert |Ljust(chunks[|chunks| - 1], ROW_WIDTH, ' ')| == ROW_WIDTH;
  }

  /** The inner loop of print_post: cut 66 characters at a time while more than 66
      remain, then pad what is left. */
  method WrapLine(line: string) returns (rows: seq<string>)
    ensures rows == LineRows(line)
  {
    rows := [];
    var rest := line;
    while |rest| > ROW_WIDTH
      invariant Chunks(line) == rows + Chunks(rest)
      decreases |rest|
    {
      rows := rows + [rest[..ROW_WIDTH]];
      rest := rest[ROW_WIDTH..];
    }
    assert Chunks(line) == rows + [rest];
    assert (rows + [rest])[..|rows|] == rows;
    rows := rows + [Ljust(rest, ROW_WIDTH, ' ')];
  }

  /** A padded row gives back its piece once the trailing spaces added by the
      padding are dropped. */
  lemma PaddingKeepsPiece(piece: string)
    requires |piece| <= ROW_WIDTH
    ensures |Ljust(piece, ROW_WIDTH, ' ')| == ROW_WIDTH
    ensures Ljust(piece, ROW_WIDTH, ' ')[..|piece|] == piece
    ensures forall i :: |piece| <= i < ROW_WIDTH ==> Ljust(piece, ROW_WIDTH, ' ')[i] == ' '
  {
  }

  /** The rows of a whole post text: each line of text.split('\n') in turn. */
  function TextRows(lines: seq<string>): (rows: seq<string>)
    decreases |lines|
  {
    if |lines| == 0 then []
    else
      LineRows(lines[0]) + TextRows(lines[1..])
  }

  /** Every row of a preview is exactly as wide as the box. */
  lemma {:induction false} TextRowsWidth(lines: seq<string>)
    ensures forall i :: 0 <= i < |TextRows(lines)| ==> |TextRows(lines)[i]| == ROW_WIDTH
    decreases |lines|
  {
    if |lines| > 0 {
      TextRowsWidth(lines[1..]);
      LineRowsShape(lines[0]);
      var head := LineRows(lines[0]);
      forall i | 0 <= i < |TextRows(lines)|
        ensures |TextRows(lines)[i]| == ROW_WIDTH
      {
        if i < |head| {
          assert TextRows(lines)[i] == head[i];
        } else {
          assert TextRows(lines)[i] == TextRows(lines[1..])[i - |head|];
        }
      }
    }
  }

  /** A text with n lines prints at least n rows. */
  lemma {:induction false} TextRowsCount(lines: seq<string>)
    ensures |TextRows(lines)| >= |lines|
    decreases |lines|
  {
    if |lines| > 0 {
      TextRowsCount(lines[1..]);
    }
  }

  /** The loop of print_post over the lines of the text. */
  method WrapText(lines: seq<string>) returns (rows: seq<string>)
    ensures rows == TextRows(lines)
  {
    rows := [];
    var i := 0;
    while i < |lines|
      invariant 0 <= i <= |lines|
      invariant rows + TextRows(lines[i..]) == TextRows(lines)
    {
      var lineRows := WrapLine(lines[i]);
      assert lines[i..][1..] == lines[i + 1..];
      rows := rows + lineRows;
      i := i + 1;
    }
  }

  /** What print_post shows of a post: its length, the characters left under the
      limit, the first 50 characters of its image URL when it has one, and the
      rows of its text. */
  datatype Preview = Preview(length: nat, remaining: int, image: Option<string>, rows: seq<string>)

  /** print_post(post_num, post_data, platform, limit), without the box drawing. */
  method PrintPost(post: Formatter.Post, limit: int) returns (preview: Preview)
    ensures preview.length == |post.text|
    ensures preview.length + preview.remaining == limit
    ensures preview.remaining < 0 <==> |post.text| > limit
    ensures preview.image.Some? <==> post.imageUrl.Some? && post.imageUrl.value != ""
    ensures preview.image.Some? ==> preview.image.value == Take(post.imageUrl.value, 50)
    ensures preview.image.Some? ==> preview.image.value <= post.imageUrl.value
                                    && |preview.image.value| == (if |post.imageUrl.value| < 50 then |post.imageUrl.value| else 50)
    ensures preview.rows == TextRows(Split(post.text, '\n'))
  {
    var length := |post.text|;
    var remaining := limit - length;
    var image := None;
    if post.imageUrl.Some? && post.imageUrl.value != "" {
      image := Some(Take(post.imageUrl.value, 50));
    }
    var rows := WrapText(Split(post.text, '\n'));
    preview := Preview(length, remaining, image, rows);
  }
}

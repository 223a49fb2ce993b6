/** The pump that turns redirected output, read in arbitrary pieces, into log records. */
module LogPump {

  type byte = b: nat | b < 256

  const LIMIT: nat := 1024

  /** One read of the pipe: bytes, an interrupted call to repeat, or the end (or any other error). */
  datatype Read = Data(bytes: seq<byte>) | Interrupted | Ended

  /** A submitted record: a line's text, or the marker that stands for an oversized one. */
  datatype Record = Text(bytes: seq<byte>) | Omitted

  predicate Breaks(c: byte) {
    c == 10 || c == 13
  }

  ghost predicate Unbroken(s: seq<byte>) {
    forall i :: 0 <= i < |s| ==> !Breaks(s[i])
  }

  /** What a C string made of the line holds: everything before its first NUL. */
  function CString(line: seq<byte>): seq<byte> {
    if line == [] || line[0] == 0 then [] else [line[0]] + CString(line[1..])
  }

  /** The records of a piece that a break ends. */
  function Terminated(piece: seq<byte>): seq<Record> {
    if |piece| >= LIMIT then [Omitted] else if piece == [] then [] else [Text(CString(piece))]
  }

  /** The records of what is left at the end. */
  function Unterminated(piece: seq<byte>): seq<Record> {
    if |piece| >= LIMIT || piece == [] then [] else [Text(CString(piece))]
  }

  function FirstBreak(s: seq<byte>): (k: nat)
    ensures k <= |s| && (k < |s| ==> Breaks(s[k])) && Unbroken(s[..k])
  {
    if s == [] || Breaks(s[0]) then 0
    else
      var k := FirstBreak(s[1..]);
      assert s[..k + 1] == [s[0]] + s[1..][..k];
      k + 1
  }

  /** Splitting a whole stream on CR and LF. */
  function Records(s: seq<byte>): seq<Record>
    decreases |s|
  {
    var k := FirstBreak(s);
    if k == |s| then Unterminated(s) else Terminated(s[..k]) + Records(s[k + 1..])
  }

  /** The bytes read before the end. */
  function Stream(chunks: seq<Read>): seq<byte>
    decreases |chunks|
  {
    if chunks == [] || chunks[0] == Ended then []
    else
      var bytes := if chunks[0].Data? then chunks[0].bytes else [];
      bytes + Stream(chunks[1..])
  }

  lemma {:induction false} FirstBreakAt(piece: seq<byte>, c: byte, rest: seq<byte>)
    requires Unbroken(piece) && Breaks(c)
    ensures FirstBreak(piece + [c] + rest) == |piece|
    decreases |piece|
  {
    if piece != [] {
      FirstBreakAt(piece[1..], c, rest);
      assert (piece + [c] + rest)[1..] == piece[1..] + [c] + rest;
    }
  }

  lemma {:induction false} NoBreak(piece: seq<byte>)
    requires Unbroken(piece)
    ensures FirstBreak(piece) == |piece|
    decreases |piece|
  {
    if piece != [] {
      NoBreak(piece[1..]);
    }
  }

  lemma RecordsAtBreak(piece: seq<byte>, c: byte, rest: seq<byte>)
    requires Unbroken(piece) && Breaks(c)
    ensures Records(piece + [c] + rest) == Terminated(piece) + Records(rest)
  {
    var s := piece + [c] + rest;
    FirstBreakAt(piece, c, rest);
    assert s[..|piece|] == piece && s[|piece| + 1..] == rest;
  }

  /** The pump's two variables hold the current piece, or only that it is oversized. */
  ghost predicate Keeps(piece: seq<byte>, line: seq<byte>, oversized: bool) {
    Unbroken(piece) && oversized == (|piece| >= LIMIT) && line == if oversized then [] else piece
  }

  method PumpByte(c: byte, line: seq<byte>, oversized: bool, ghost piece: seq<byte>)
    returns (line': seq<byte>, oversized': bool, submitted: seq<Record>)
    requires Keeps(piece, line, oversized)
    ensures Keeps(if Breaks(c) then [] else piece + [c], line', oversized')
    ensures submitted == if Breaks(c) then Terminated(piece) else []
  {
    line', oversized', submitted := line, oversized, [];
    if c == 10 || c == 13 {
      if oversized' {
        submitted := submitted + [Omitted];
        oversized' := false;
      }
      if line' != [] {
        submitted := submitted + [Text(CString(line'))];
        line' := [];
      }
      return;
    }
    if oversized' {
      return;
    }
    line' := line' + [c];
    if |line'| >= LIMIT {
      oversized' := true;
      line' := [];
    }
  }

  /** The records of a stream whose next byte is c, piece being what came before it since the last break. */
  lemma RecordsNext(piece: seq<byte>, c: byte, rest: seq<byte>)
    requires Unbroken(piece)
    ensures Records(piece + [c] + rest)
            == if Breaks(c) then Terminated(piece) + Records([] + rest) else Records((piece + [c]) + rest)
  {
    assert [] + rest == rest;
    if Breaks(c) {
      RecordsAtBreak(piece, c, rest);
    }
  }

  method PumpChunk(bytes: seq<byte>, line: seq<byte>, oversized: bool, records: seq<Record>, ghost piece: seq<byte>,
                   ghost rest: seq<byte>)
    returns (line': seq<byte>, oversized': bool, records': seq<Record>, ghost piece': seq<byte>)
    requires Keeps(piece, line, oversized)
    ensures Keeps(piece', line', oversized')
    ensures records' + Records(piece' + rest) == records + Records(piece + (bytes + rest))
  {
    hide Records, Terminated, Keeps, Unbroken;
    line', oversized', records', piece' := line, oversized, records, piece;
    assert bytes[0..] == bytes;
    for i := 0 to |bytes|
      invariant Keeps(piece', line', oversized')
      invariant records' + Records(piece' + (bytes[i..] + rest)) == records + Records(piece + (bytes + rest))
    {
      ghost var after := bytes[i + 1..] + rest;
      assert piece' + (bytes[i..] + rest) == piece' + [bytes[i]] + after;
      KeepsUnbroken(piece', line', oversized');
      RecordsNext(piece', bytes[i], after);
      var submitted;
      line', oversized', submitted := PumpByte(bytes[i], line', oversized', piece');
      records' := records' + submitted;
      piece' := if Breaks(bytes[i]) then [] else piece' + [bytes[i]];
    }
    assert bytes[|bytes|..] + rest == rest;
  }

  lemma KeepsUnbroken(piece: seq<byte>, line: seq<byte>, oversized: bool)
    requires Keeps(piece, line, oversized)
    ensures Unbroken(piece)
  {
  }

  /** The pump: whatever the division into reads, the records are those of the whole stream. */
  method Pump(chunks: seq<Read>) returns (records: seq<Record>)
    ensures records == Records(Stream(chunks))
  {
    hide Records, CString, Unbroken;
    records := [];
    var line: seq<byte> := [];
    var oversized := false;
    ghost var piece: seq<byte> := [];
    NothingKept();
    var r := 0;
    assert chunks[0..] == chunks && [] + Stream(chunks) == Stream(chunks);
    while r < |chunks| && chunks[r] != Ended
      invariant r <= |chunks| && Keeps(piece, line, oversized)
      invariant records + Records(piece + Stream(chunks[r..])) == Records(Stream(chunks))
    {
      assert chunks[r..][1..] == chunks[r + 1..];
      var bytes := if chunks[r].Data? then chunks[r].bytes else [];
      line, oversized, records, piece := PumpChunk(bytes, line, oversized, records, piece, Stream(chunks[r + 1..]));
      r := r + 1;
    }
    RecordsAtEnd(piece);
    assert Stream(chunks[r..]) == [] && piece + [] == piece;
    if line != [] {
      records := records + [Text(CString(line))];
    }
  }

  lemma NothingKept()
    ensures Keeps([], [], false)
  {
  }

  lemma RecordsAtEnd(piece: seq<byte>)
    requires Unbroken(piece)
    ensures Records(piece) == Unterminated(piece)
  {
    NoBreak(piece);
  }

  // ---- What splitting means, piece by piece

  function Joined(pieces: seq<seq<byte>>, breaks: seq<byte>): seq<byte>
    requires |pieces| == |breaks|
  {
    if pieces == [] then [] else pieces[0] + [breaks[0]] + Joined(pieces[1..], breaks[1..])
  }

  function EachTerminated(pieces: seq<seq<byte>>): seq<Record> {
    if pieces == [] then [] else Terminated(pieces[0]) + EachTerminated(pieces[1..])
  }

  /** Any pieces free of breaks, each ended by one, and any tail free of them: every piece gives its own record, an
      oversized one the marker, and the tail its record only when it is not oversized. */
  lemma {:induction false} RecordsPieceByPiece(pieces: seq<seq<byte>>, breaks: seq<byte>, tail: seq<byte>)
    requires |pieces| == |breaks| && Unbroken(tail)
    requires forall i :: 0 <= i < |pieces| ==> Unbroken(pieces[i]) && Breaks(breaks[i])
    ensures Records(Joined(pieces, breaks) + tail) == EachTerminated(pieces) + Unterminated(tail)
    decreases |pieces|
  {
    if pieces == [] {
      assert Joined(pieces, breaks) + tail == tail;
      NoBreak(tail);
    } else {
      var rest := Joined(pieces[1..], breaks[1..]) + tail;
      RecordsPieceByPiece(pieces[1..], breaks[1..], tail);
      RecordsAtBreak(pieces[0], breaks[0], rest);
      assert Joined(pieces, breaks) + tail == pieces[0] + [breaks[0]] + rest;
    }
  }

  // ---- What the C string loses

  /** The text a piece is submitted as, if it is: itself, were it not for the C string. */
  function Whole(piece: seq<byte>): seq<Record> {
    if |piece| >= LIMIT || piece == [] then [] else [Text(piece)]
  }

  /** The splitter that hands every piece over whole. */
  function WholeRecords(s: seq<byte>): seq<Record>
    decreases |s|
  {
    var k := FirstBreak(s);
    if k == |s| then Whole(s) else (if k >= LIMIT then [Omitted] else Whole(s[..k])) + WholeRecords(s[k + 1..])
  }

  /** The pieces submitted as text. */
  function Submitted(s: seq<byte>): seq<seq<byte>>
    decreases |s|
  {
    var k := FirstBreak(s);
    (if 0 < k < LIMIT then [s[..k]] else []) + if k == |s| then [] else Submitted(s[k + 1..])
  }

  lemma {:induction false} CStringWhole(piece: seq<byte>)
    ensures CString(piece) == piece <==> 0 !in piece
    decreases |piece|
  {
    if piece != [] {
      CStringWhole(piece[1..]);
      assert piece == [piece[0]] + piece[1..];
      assert 0 in piece <==> piece[0] == 0 || 0 in piece[1..];
    }
  }

  ghost predicate NoNul(pieces: seq<seq<byte>>) {
    forall i :: 0 <= i < |pieces| ==> 0 !in pieces[i]
  }

  lemma NoNulAppend(x: seq<seq<byte>>, y: seq<seq<byte>>)
    ensures NoNul(x + y) <==> NoNul(x) && NoNul(y)
  {
    if NoNul(x + y) {
      assert forall i :: 0 <= i < |x| ==> x[i] == (x + y)[i];
      assert forall i :: 0 <= i < |y| ==> y[i] == (x + y)[|x| + i];
    }
  }

  lemma SameApart(a: seq<Record>, b: seq<Record>, x: seq<Record>, y: seq<Record>)
    requires |a| == |b|
    ensures a + x == b + y <==> a == b && x == y
  {
    if a + x == b + y {
      assert a == (a + x)[..|a|] && b == (b + y)[..|a|] && x == (a + x)[|a|..] && y == (b + y)[|a|..];
    }
  }

  /** One piece's record is the piece exactly when it is not submitted as text or holds no NUL. */
  lemma PieceWhole(piece: seq<byte>)
    ensures Unterminated(piece) == Whole(piece) <==> NoNul(if 0 < |piece| < LIMIT then [piece] else [])
    ensures Terminated(piece) == (if |piece| >= LIMIT then [Omitted] else Whole(piece)) <==>
            NoNul(if 0 < |piece| < LIMIT then [piece] else [])
    ensures |Terminated(piece)| == if piece == [] then 0 else 1
  {
    hide CString, NoNul;
    CStringWhole(piece);
    OneNoNul(piece);
  }

  /** The records are the whole pieces exactly when no piece submitted as text holds a NUL. */
  lemma {:induction false} WholeExactlyWithoutNul(s: seq<byte>)
    ensures Records(s) == WholeRecords(s) <==> NoNul(Submitted(s))
    decreases |s|
  {
    hide NoNul, CString, Terminated, Unterminated, Whole;
    var k := FirstBreak(s);
    var piece := s[..k];
    PieceWhole(piece);
    if k < |s| {
      WholeExactlyWithoutNul(s[k + 1..]);
      AfterBreak(s);
    } else {
      assert piece == s;
      assert Submitted(s) == if 0 < |piece| < LIMIT then [piece] else [];
    }
  }

  /** The step over the first break. */
  lemma AfterBreak(s: seq<byte>)
    requires FirstBreak(s) < |s|
    ensures var k := FirstBreak(s);
            var piece, rest := s[..k], s[k + 1..];
            var first := if 0 < k < LIMIT then [piece] else [];
            var whole := if k >= LIMIT then [Omitted] else Whole(piece);
            && (Records(s) == WholeRecords(s) <==> Terminated(piece) == whole && Records(rest) == WholeRecords(rest))
            && (NoNul(Submitted(s)) <==> NoNul(first) && NoNul(Submitted(rest)))
  {
    hide NoNul, CString;
    var k := FirstBreak(s);
    var piece, rest := s[..k], s[k + 1..];
    NoNulAppend(if 0 < k < LIMIT then [piece] else [], Submitted(rest));
    SameApart(Terminated(piece), if k >= LIMIT then [Omitted] else Whole(piece), Records(rest), WholeRecords(rest));
  }

  lemma OneNoNul(piece: seq<byte>)
    ensures NoNul([piece]) <==> 0 !in piece
    ensures NoNul([])
  {
    assert NoNul([piece]) ==> 0 !in [piece][0];
  }
}

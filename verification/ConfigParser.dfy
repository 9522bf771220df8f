/** Looking up a parameter in a config file, line buffer by line buffer. The C library calls are the ones of
    ISO/IEC 9899:2011: fgets in section 7.21.7.2, sscanf in section 7.21.6.7. */
module ConfigParser {
  import opened Text

  const MAX_LINE_LENGTH: nat := 512

  // ----- library calls ------------------------------------------------------------------------------

  /** How many characters fgets takes when it has room for `room`: up to a newline, and that too. */
  function PieceLength(rest: string, room: nat): (n: nat)
    ensures n <= |rest| && n <= room
    ensures rest != "" && room > 0 ==> n > 0
    ensures forall i | 0 <= i < n - 1 :: rest[i] != '\n'
    ensures n < |rest| && n < room ==> n > 0 && rest[n - 1] == '\n'
  {
    if rest == "" || room == 0 then 0
    else if rest[0] == '\n' then 1
    else 1 + PieceLength(rest[1..], room - 1)
  }

  predicate IsSpace(c: char) {
    c == ' ' || c == '\t' || c == '\n' || c == '\U{0b}' || c == '\U{0c}' || c == '\r'
  }

  predicate Spaces(s: string) {
    forall i | 0 <= i < |s| :: IsSpace(s[i])
  }

  /** A string that %s can read in one go. */
  predicate Token(s: string) {
    s != "" && forall i | 0 <= i < |s| :: !IsSpace(s[i])
  }

  function SkipSpaces(s: string): string {
    if s != "" && IsSpace(s[0]) then SkipSpaces(s[1..]) else s
  }

  function TakeToken(s: string): string {
    if s == "" || IsSpace(s[0]) then "" else [s[0]] + TakeToken(s[1..])
  }

  /** What sscanf(line, "%s %s", first, second) returns and stores; -1 stands for EOF. */
  datatype Scanned = Scanned(count: int, first: string, second: string)

  function Scan(line: string): Scanned {
    var s := SkipSpaces(line);
    if s == "" then Scanned(-1, "", "")
    else
      var first := TakeToken(s);
      var t := SkipSpaces(s[Min(|s|, |first|)..]);
      if t == "" then Scanned(1, first, "") else Scanned(2, first, TakeToken(t))
  }

  /** strncmp(a, b, n) == 0 on NUL-free strings. */
  predicate EqualUpTo(a: string, b: string, n: nat) {
    a[..Min(|a|, n)] == b[..Min(|b|, n)]
  }

  lemma {:induction false} SkipSpacesIs(lead: string, s: string)
    requires Spaces(lead) && (s == "" || !IsSpace(s[0]))
    ensures SkipSpaces(lead + s) == s
  {
    if lead == "" {
      assert lead + s == s;
    } else {
      assert (lead + s)[1..] == lead[1..] + s;
      SkipSpacesIs(lead[1..], s);
    }
  }

  lemma {:induction false} SkipSpacesSplits(s: string)
    ensures var t := SkipSpaces(s);
            |t| <= |s| && Spaces(s[..|s| - |t|]) && s[|s| - |t|..] == t && (t == "" || !IsSpace(t[0]))
  {
    if s != "" && IsSpace(s[0]) {
      SkipSpacesSplits(s[1..]);
    }
  }

  lemma {:induction false} TakeTokenIs(token: string, s: string)
    requires token == "" || Token(token)
    requires s == "" || IsSpace(s[0])
    ensures TakeToken(token + s) == token
  {
    if token == "" {
      assert token + s == s;
    } else {
      assert (token + s)[1..] == token[1..] + s;
      TakeTokenIs(token[1..], s);
    }
  }

  lemma {:induction false} TakeTokenSplits(s: string)
    ensures var t := TakeToken(s);
            && |t| <= |s| && s[..|t|] == t && (t == "" || Token(t))
            && (|t| == |s| || IsSpace(s[|t|])) && (s != "" && !IsSpace(s[0]) ==> t != "")
  {
    if s != "" && !IsSpace(s[0]) {
      TakeTokenSplits(s[1..]);
    }
  }

  /** Two tokens are scanned exactly from lines of this shape. */
  lemma ScanTwo(line: string, lead: string, first: string, gap: string, second: string, tail: string)
    requires line == lead + first + gap + second + tail
    requires Spaces(lead) && Token(first) && Spaces(gap) && gap != "" && Token(second)
    requires tail == "" || IsSpace(tail[0])
    ensures Scan(line) == Scanned(2, first, second)
  {
    var s := first + (gap + (second + tail));
    assert line == lead + s;
    SkipSpacesIs(lead, s);
    TakeTokenIs(first, gap + (second + tail));
    assert s[|first|..] == gap + (second + tail);
    SkipSpacesIs(gap, second + tail);
    TakeTokenIs(second, tail);
  }

  lemma ScanOne(line: string, lead: string, first: string, tail: string)
    requires line == lead + first + tail && Spaces(lead) && Token(first) && Spaces(tail)
    ensures Scan(line) == Scanned(1, first, "")
  {
    assert line == lead + (first + tail);
    SkipSpacesIs(lead, first + tail);
    TakeTokenIs(first, tail);
    assert (first + tail)[|first|..] == tail + "";
    SkipSpacesIs(tail, "");
  }

  /** The characters that separate tokens are the six white-space characters of the C locale, and no others. */
  lemma Separators(c: char)
    ensures Scan("k" + [c] + "v") == Scanned(2, "k", "v")
            <==> c in {' ', '\t', '\n', '\U{0b}', '\U{0c}', '\r'}
  {
    var line := "k" + [c] + "v";
    if IsSpace(c) {
      assert line == "" + "k" + [c] + "v" + "";
      ScanTwo(line, "", "k", [c], "v", "");
    } else {
      assert line == "" + line + "";
      ScanOne(line, "", line, "");
    }
  }

  lemma ScanNone(line: string)
    requires Spaces(line)
    ensures Scan(line) == Scanned(-1, "", "")
  {
    assert line == line + "";
    SkipSpacesIs(line, "");
  }

  /** The spaces around the tokens of a line. */
  ghost predicate Shaped(line: string, lead: string, first: string, gap: string, second: string, tail: string) {
    && line == lead + first + gap + second + tail
    && Spaces(lead) && Spaces(gap) && (tail == "" || IsSpace(tail[0])) && (second != "" ==> gap != "")
  }

  /** Every line has the shape its scan says. */
  lemma ScanShape(line: string) returns (lead: string, gap: string, tail: string)
    ensures var r := Scan(line);
            && (r.count == -1 || r.count == 1 || r.count == 2)
            && (if r.count == -1 then Spaces(line)
                else Token(r.first) && Shaped(line, lead, r.first, gap, r.second, tail))
            && (if r.count == 2 then Token(r.second) else r.second == "")
  {
    hide Token, SkipSpaces, TakeToken;
    var s := SkipSpaces(line);
    lead, gap, tail := "", "", "";
    SkipSpacesSplits(line);
    if s == "" {
      assert line == line[..|line| - |s|];
    } else {
      lead := line[..|line| - |s|];
      TakeTokenSplits(s);
      var first := TakeToken(s);
      gap, tail := RestShape(s[|first|..]);
      var second := TakeToken(SkipSpaces(s[|first|..]));
      assert s == first + (gap + second + tail);
      Regroup(lead, first, gap, second, tail);
    }
  }

  lemma Regroup(a: string, b: string, c: string, d: string, e: string)
    ensures a + (b + (c + d + e)) == a + b + c + d + e
  {
    assert b + (c + d + e) == b + c + d + e;
    assert a + (b + c + d + e) == a + b + c + d + e;
  }

  /** What follows the first token. */
  lemma RestShape(rest: string) returns (gap: string, tail: string)
    requires rest == "" || IsSpace(rest[0])
    ensures var t := SkipSpaces(rest); var second := TakeToken(t);
            && rest == gap + second + tail && Spaces(gap) && (tail == "" || IsSpace(tail[0]))
            && (if t == "" then second == "" else Token(second) && gap != "")
  {
    hide Token, SkipSpaces, TakeToken;
    var t := SkipSpaces(rest);
    SkipSpacesSplits(rest);
    TakeTokenSplits(t);
    var second := TakeToken(t);
    gap, tail := rest[..|rest| - |t|], t[|second|..];
    assert rest == gap + t;
    AfterToken(gap, t, second);
  }

  lemma AfterToken(gap: string, t: string, second: string)
    requires |second| <= |t| && t[..|second|] == second
    ensures gap + t == gap + second + t[|second|..]
  {
    assert t == second + t[|second|..];
    assert gap + (second + t[|second|..]) == gap + second + t[|second|..];
  }

  /** With room left for the separator: two tokens fit in a line with it. */
  lemma ScanFits(line: string)
    ensures var r := Scan(line);
            && |r.first| <= |line|
            && (r.count == 2 ==> |r.first| + 1 + |r.second| <= |line| && Token(r.first) && Token(r.second))
  {
    var lead, gap, tail := ScanShape(line);
  }

  /** The newline at the end of a line does not matter to the scan. */
  lemma ScanNewline(line: string)
    ensures Scan(line + "\n") == Scan(line)
  {
    var lead, gap, tail := ScanShape(line);
    var r := Scan(line);
    if r.count == -1 {
      ScanNone(line + "\n");
    } else {
      if r.count == 2 {
        assert line + "\n" == lead + r.first + gap + r.second + (tail + "\n");
        ScanTwo(line + "\n", lead, r.first, gap, r.second, tail + "\n");
      } else {
        OneTokenTail(line, lead, r.first, gap, tail);
        assert line + "\n" == lead + r.first + (gap + tail + "\n");
        ScanOne(line + "\n", lead, r.first, gap + tail + "\n");
      }
    }
  }

  lemma OneTokenTail(line: string, lead: string, first: string, gap: string, tail: string)
    requires Scan(line) == Scanned(1, first, "") && Shaped(line, lead, first, gap, "", tail) && Token(first)
    ensures Spaces(gap + tail)
  {
    var rest := gap + tail;
    assert line == lead + (first + rest);
    SkipSpacesIs(lead, first + rest);
    TakeTokenIs(first, rest);
    assert (first + rest)[|first|..] == rest;
    SkipSpacesSplits(rest);
  }

  // ----- the file as fgets cuts it --------------------------------------------------------------------

  function Pieces(text: string): seq<string> {
    if text == "" then []
    else
      var n := PieceLength(text, MAX_LINE_LENGTH - 1);
      [text[..n]] + Pieces(text[n..])
  }

  /** A nonempty buffer of at most 511 characters with a newline at most at its end. */
  predicate IsPiece(piece: string) {
    && 1 <= |piece| < MAX_LINE_LENGTH
    && forall i | 0 <= i < |piece| - 1 :: piece[i] != '\n'
  }

  /** A piece that fgets ended at a newline, or because its room was used up. */
  predicate IsFull(piece: string) {
    |piece| == MAX_LINE_LENGTH - 1 || (piece != "" && piece[|piece| - 1] == '\n')
  }

  ghost predicate Cut(pieces: seq<string>) {
    && (forall i | 0 <= i < |pieces| :: IsPiece(pieces[i]))
    && (forall i | 0 <= i < |pieces| - 1 :: IsFull(pieces[i]))
  }

  /** The pieces are the file, cut after each newline, and after 511 characters without one. */
  lemma {:induction false} Segmentation(text: string)
    ensures Flatten(Pieces(text)) == text && Cut(Pieces(text))
  {
    hide Flatten, Cut;
    if text == "" {
      NoPieces();
    } else {
      var n := PieceLength(text, MAX_LINE_LENGTH - 1);
      FirstPiece(text);
      hide PieceLength, Pieces;
      Segmentation(text[n..]);
      FlattenCons(text[..n], Pieces(text[n..]));
      CutCons(text[..n], Pieces(text[n..]));
    }
  }

  lemma NoPieces()
    ensures Flatten(Pieces("")) == "" && Cut(Pieces(""))
  {
  }

  lemma FirstPiece(text: string)
    requires text != ""
    ensures var n := PieceLength(text, MAX_LINE_LENGTH - 1);
            && n > 0 && Pieces(text) == [text[..n]] + Pieces(text[n..]) && text == text[..n] + text[n..]
            && IsPiece(text[..n]) && (Pieces(text[n..]) != [] ==> IsFull(text[..n]))
  {
    var n := PieceLength(text, MAX_LINE_LENGTH - 1);
    PieceIs(text, n);
    hide PieceLength, IsPiece, IsFull;
    assert text == text[..n] + text[n..];
    assert n == |text| ==> text[n..] == "";
  }

  lemma PieceIs(text: string, n: nat)
    requires text != "" && n == PieceLength(text, MAX_LINE_LENGTH - 1)
    ensures 0 < n <= |text| && IsPiece(text[..n]) && (n < |text| ==> IsFull(text[..n]))
  {
  }

  lemma CutCons(piece: string, pieces: seq<string>)
    requires Cut(pieces) && IsPiece(piece) && (pieces != [] ==> IsFull(piece))
    ensures Cut([piece] + pieces)
  {
    hide IsPiece, IsFull;
    var all := [piece] + pieces;
    forall i | 0 <= i < |all| ensures IsPiece(all[i]) && (i < |all| - 1 ==> IsFull(all[i])) {
      if i > 0 {
        assert all[i] == pieces[i - 1];
      }
    }
  }

  /** The tokens of any piece fit their buffers, terminators and the ": " after a username included. */
  lemma BuffersSuffice(piece: string)
    requires IsPiece(piece)
    ensures var r := Scan(piece);
            && |r.first| + 1 <= MAX_LINE_LENGTH
            && (r.count == 2 ==> |r.second + ": "| + 1 <= MAX_LINE_LENGTH + 10)
  {
    ScanFits(piece);
  }

  // ----- lookup ---------------------------------------------------------------------------------------

  /** What parseConfigFile returns, and what it leaves in the caller's buffer, which held `value`. */
  datatype Answer = Answer(result: int, value: string)

  /** The first piece of two tokens whose first is `key` answers; the second token of every earlier piece of
      two tokens has passed through the caller's buffer. */
  function Lookup(pieces: seq<string>, key: string, value: string): Answer {
    if pieces == [] then Answer(-1, value)
    else
      var r := Scan(pieces[0]);
      if r.count != 2 then Lookup(pieces[1..], key, value)
      else if r.first == key then Answer(0, r.second)
      else Lookup(pieces[1..], key, r.second)
  }

  /** What a lookup returns is a binding of some piece, the first for the key; and none exists otherwise. */
  lemma {:induction false} LookupFindsFirst(pieces: seq<string>, key: string, value: string)
    ensures var a := Lookup(pieces, key, value);
            && (a.result == 0 || a.result == -1)
            && (a.result == 0 ==> exists i | 0 <= i < |pieces| ::
                  Scan(pieces[i]) == Scanned(2, key, a.value) && NotBound(pieces[..i], key))
            && (a.result == -1 ==> NotBound(pieces, key))
  {
    if pieces != [] {
      var r := Scan(pieces[0]);
      if r.count == 2 && r.first == key {
        assert Scan(pieces[0]) == Scanned(2, key, r.second) && NotBound(pieces[..0], key);
      } else {
        var passed := if r.count == 2 then r.second else value;
        var a := Lookup(pieces[1..], key, passed);
        LookupFindsFirst(pieces[1..], key, passed);
        if a.result == 0 {
          var i :| 0 <= i < |pieces[1..]|
                   && Scan(pieces[1..][i]) == Scanned(2, key, a.value) && NotBound(pieces[1..][..i], key);
          assert pieces[i + 1] == pieces[1..][i];
          var earlier := pieces[..i + 1];
          forall j | 0 <= j < |earlier| ensures !Binds(earlier[j], key) {
            assert j > 0 ==> earlier[j] == pieces[1..][..i][j - 1];
          }
          assert Scan(pieces[i + 1]) == Scanned(2, key, a.value) && NotBound(pieces[..i + 1], key);
        } else {
          forall j | 0 <= j < |pieces| ensures !Binds(pieces[j], key) {
            assert j > 0 ==> pieces[j] == pieces[1..][j - 1];
          }
        }
      }
    }
  }

  /** When nothing is found the caller's buffer holds the second token of the last piece that had two. */
  lemma {:induction false} LookupLeaves(pieces: seq<string>, key: string, value: string)
    requires Lookup(pieces, key, value).result == -1
    ensures var left := Lookup(pieces, key, value).value;
            && ((forall i | 0 <= i < |pieces| :: Scan(pieces[i]).count != 2) ==> left == value)
            && (forall i | 0 <= i < |pieces| && Scan(pieces[i]).count == 2
                           && (forall j | i < j < |pieces| :: Scan(pieces[j]).count != 2) ::
                  left == Scan(pieces[i]).second)
  {
    hide Scan;
    if pieces != [] {
      var r, rest := Scan(pieces[0]), pieces[1..];
      LookupLeaves(rest, key, if r.count == 2 then r.second else value);
      var left := Lookup(pieces, key, value).value;
      forall i | 0 <= i < |pieces| && Scan(pieces[i]).count == 2
                 && (forall j | i < j < |pieces| :: Scan(pieces[j]).count != 2)
        ensures left == Scan(pieces[i]).second
      {
        if i > 0 {
          assert rest[i - 1] == pieces[i];
          forall j | i - 1 < j < |rest| ensures Scan(rest[j]).count != 2 {
            assert rest[j] == pieces[j + 1];
          }
        } else {
          forall j | 0 <= j < |rest| ensures Scan(rest[j]).count != 2 {
            assert rest[j] == pieces[j + 1];
          }
        }
      }
    }
  }

  predicate Binds(piece: string, key: string) {
    Scan(piece).count == 2 && Scan(piece).first == key
  }

  ghost predicate NotBound(pieces: seq<string>, key: string) {
    forall i | 0 <= i < |pieces| :: !Binds(pieces[i], key)
  }

  // ----- the code -------------------------------------------------------------------------------------

  /** An open config file. */
  class Stream {
    var rest: string

    constructor (contents: string)
      ensures rest == contents
    {
      rest := contents;
    }

    /** None at end of file. */
    method Fgets(size: nat) returns (buffer: Option<string>)
      requires size > 0
      modifies this
      ensures buffer.None? <==> old(rest) == "" || size == 1
      ensures buffer.None? ==> rest == old(rest)
      ensures buffer.Some? ==> buffer.value == old(rest)[..PieceLength(old(rest), size - 1)]
      ensures buffer.Some? ==> old(rest) == buffer.value + rest
    {
      if rest == "" || size == 1 {
        return None;
      }
      var n := PieceLength(rest, size - 1);
      buffer := Some(rest[..n]);
      rest := rest[n..];
    }
  }

  lemma PiecesStep(text: string)
    ensures text != "" ==>
              var n := PieceLength(text, MAX_LINE_LENGTH - 1);
              n > 0 && Pieces(text) == [text[..n]] + Pieces(text[n..]) && Pieces(text)[1..] == Pieces(text[n..])
  {
  }

  /** 0: the parameter was found; 1: not on this line; -1: no more lines. */
  method ParseLine(fs: Stream, configParameter: string, returnValue: string) returns (stop: int, newValue: string)
    modifies fs
    ensures old(fs.rest) == "" <==> stop == -1
    ensures stop == -1 ==> fs.rest == "" && newValue == returnValue
    ensures stop != -1 ==> |fs.rest| < |old(fs.rest)| && Pieces(old(fs.rest))[1..] == Pieces(fs.rest)
    ensures stop != -1 ==>
              var r := Scan(Pieces(old(fs.rest))[0]);
              && newValue == (if r.count == 2 then r.second else returnValue)
              && (if r.count == 2 && r.first == configParameter then stop == 0 else stop == 1)
  {
    hide Scan, PieceLength;
    ghost var text := fs.rest;
    var buffer := fs.Fgets(MAX_LINE_LENGTH);
    PiecesStep(text);
    if buffer.None? {
      return -1, returnValue;
    }
    var r := Scan(buffer.value);
    ScanFits(buffer.value);
    if r.count != 2 {
      return 1, returnValue;
    }
    if !EqualUpTo(r.first, configParameter, MAX_LINE_LENGTH) {
      return 1, r.second;
    }
    return 0, r.second;
  }

  /** The whole lookup; -1 also when the file cannot be opened or there is no memory for the line buffer. */
  method ParseConfigFile(contents: Option<string>, memory: bool, configParameter: string, returnValue: string)
      returns (result: int, newValue: string)
    ensures contents.Some? && memory ==>
              Answer(result, newValue) == Lookup(Pieces(contents.value), configParameter, returnValue)
    ensures contents.None? || !memory ==> result == -1 && newValue == returnValue
  {
    if contents.None? {
      return -1, returnValue;
    }
    var fs := new Stream(contents.value);
    if !memory {
      return -1, returnValue;
    }
    newValue := returnValue;
    while true
      invariant Lookup(Pieces(fs.rest), configParameter, newValue)
                == Lookup(Pieces(contents.value), configParameter, returnValue)
      decreases |fs.rest|
    {
      var stop;
      stop, newValue := ParseLine(fs, configParameter, newValue);
      if stop == -1 {
        return -1, newValue;
      }
      if stop == 0 {
        return 0, newValue;
      }
    }
  }

  // ----- round trip -----------------------------------------------------------------------------------

  /** A binding is two tokens with white space between them, and perhaps around them. */
  datatype Line =
    | Comment(text: string)
    | Binding(lead: string, key: string, gap: string, value: string, tail: string)

  function Content(line: Line): string {
    match line
    case Comment(text) => "# " + text
    case Binding(lead, key, gap, value, tail) => lead + key + gap + value + tail
  }

  predicate NoNewline(s: string) {
    forall i | 0 <= i < |s| :: s[i] != '\n'
  }

  /** Two tokens, and white space other than newlines. */
  predicate IsBinding(line: Line) {
    && line.Binding? && Token(line.key) && Token(line.value)
    && Spaces(line.lead) && Spaces(line.gap) && Spaces(line.tail) && line.gap != ""
    && NoNewline(line.lead) && NoNewline(line.gap) && NoNewline(line.tail)
  }

  /** A line as a config file holds it, at most as long as fgets reads at once. */
  predicate WellFormed(line: Line) {
    && |Content(line)| < MAX_LINE_LENGTH
    && if line.Comment? then NoNewline(line.text) else IsBinding(line)
  }

  function Print(lines: seq<Line>): string {
    if lines == [] then "" else Content(lines[0]) + "\n" + Print(lines[1..])
  }

  /** The value of the first line that binds `key`. */
  function FirstValue(lines: seq<Line>, key: string): Option<string> {
    if lines == [] then None
    else if lines[0].Binding? && lines[0].key == key then Some(lines[0].value)
    else FirstValue(lines[1..], key)
  }

  lemma {:induction false} PieceOfLine(content: string, rest: string, room: nat)
    requires forall i | 0 <= i < |content| :: content[i] != '\n'
    ensures PieceLength(content + "\n" + rest, room) == Min(|content| + 1, room)
  {
    var text := content + "\n" + rest;
    if content != "" && room > 0 {
      assert text[1..] == content[1..] + "\n" + rest;
      PieceOfLine(content[1..], rest, room - 1);
    }
  }

  /** A line of up to 511 characters is looked up as a whole, even when its newline comes in a piece of its own. */
  lemma LookupLine(content: string, rest: string, key: string, value: string)
    requires |content| < MAX_LINE_LENGTH && forall i | 0 <= i < |content| :: content[i] != '\n'
    ensures Lookup(Pieces(content + "\n" + rest), key, value) == Lookup([content] + Pieces(rest), key, value)
  {
    var text := content + "\n" + rest;
    PieceOfLine(content, rest, MAX_LINE_LENGTH - 1);
    ScanNewline(content);
    var n := PieceLength(text, MAX_LINE_LENGTH - 1);
    assert ([content] + Pieces(rest))[1..] == Pieces(rest);
    if |content| < MAX_LINE_LENGTH - 1 {
      assert text[..n] == content + "\n" && text[n..] == rest;
      assert Pieces(text) == [content + "\n"] + Pieces(rest);
      SameScan(content + "\n", content, Pieces(rest), key, value);
    } else {
      assert text[..n] == content && text[n..] == "\n" + rest;
      BlankLine(rest);
      assert Pieces(text) == [content] + (["\n"] + Pieces(rest));
      SkipBlank(content, Pieces(rest), key, value);
    }
  }

  lemma BlankLine(rest: string)
    ensures Pieces("\n" + rest) == ["\n"] + Pieces(rest)
  {
    assert PieceLength("\n" + rest, MAX_LINE_LENGTH - 1) == 1;
    assert ("\n" + rest)[1..] == rest && ("\n" + rest)[..1] == "\n";
  }

  lemma SameScan(a: string, b: string, pieces: seq<string>, key: string, value: string)
    requires Scan(a) == Scan(b)
    ensures Lookup([a] + pieces, key, value) == Lookup([b] + pieces, key, value)
  {
    assert ([a] + pieces)[1..] == pieces && ([b] + pieces)[1..] == pieces;
  }

  lemma SkipBlank(content: string, pieces: seq<string>, key: string, value: string)
    ensures Lookup([content] + (["\n"] + pieces), key, value) == Lookup([content] + pieces, key, value)
  {
    ScanNone("\n");
    assert (["\n"] + pieces)[1..] == pieces && ([content] + pieces)[1..] == pieces;
    assert ([content] + (["\n"] + pieces))[1..] == ["\n"] + pieces;
    assert forall v :: Lookup(["\n"] + pieces, key, v) == Lookup(pieces, key, v);
  }

  lemma ScanBinding(line: Line)
    requires IsBinding(line)
    ensures Scan(Content(line)) == Scanned(2, line.key, line.value)
    ensures NoNewline(Content(line))
  {
    ScanTwo(Content(line), line.lead, line.key, line.gap, line.value, line.tail);
    TokenNoNewline(line.key);
    TokenNoNewline(line.value);
    hide Token, Spaces, NoNewline;
    NoNewlineJoined(line.lead, line.key);
    NoNewlineJoined(line.lead + line.key, line.gap);
    NoNewlineJoined(line.lead + line.key + line.gap, line.value);
    NoNewlineJoined(line.lead + line.key + line.gap + line.value, line.tail);
  }

  lemma TokenNoNewline(s: string)
    requires Token(s)
    ensures NoNewline(s)
  {
  }

  lemma NoNewlineJoined(a: string, b: string)
    requires NoNewline(a) && NoNewline(b)
    ensures NoNewline(a + b)
  {
  }

  lemma ScanComment(text: string)
    ensures var r := Scan("# " + text); r.count == 2 ==> r.first == "#"
  {
    assert "# " + text == "" + ("#" + (" " + text));
    SkipSpacesIs("", "#" + (" " + text));
    TakeTokenIs("#", " " + text);
  }

  lemma ScanLine(line: Line)
    requires WellFormed(line)
    ensures var r := Scan(Content(line));
            if line.Comment? then r.count == 2 ==> r.first == "#" else r == Scanned(2, line.key, line.value)
    ensures NoNewline(Content(line))
  {
    hide Scan;
    if line.Binding? {
      ScanBinding(line);
    } else {
      ScanComment(line.text);
      NoNewlineJoined("# ", line.text);
    }
  }

  /** Printing any list of comment and binding lines, whatever white space is in them, and parsing for a key
      gives the first binding's value, and fails exactly when there is no binding. */
  lemma {:induction false} RoundTrip(lines: seq<Line>, key: string, value: string)
    requires (forall i | 0 <= i < |lines| :: WellFormed(lines[i])) && key != "#"
    ensures var a, bound := Lookup(Pieces(Print(lines)), key, value), FirstValue(lines, key);
            if bound.Some? then a == Answer(0, bound.value) else a.result == -1
  {
    if lines != [] {
      var content, rest := Content(lines[0]), Print(lines[1..]);
      ScanLine(lines[0]);
      LookupLine(content, rest, key, value);
      assert ([content] + Pieces(rest))[1..] == Pieces(rest);
      RoundTrip(lines[1..], key, value);
      RoundTrip(lines[1..], key, Scan(content).second);
    }
  }

  /** The limit of 511 characters is exact: a binding alone in its file comes back if and only if it is kept. */
  lemma RoundTripExactly(line: Line, value: string)
    requires IsBinding(line) && line.key != "#" && line.lead == "" && |line.gap| == 1 && line.tail == ""
    ensures Lookup(Pieces(Print([line])), line.key, value) == Answer(0, line.value)
            <==> |Content(line)| < MAX_LINE_LENGTH
  {
    var key, v := line.key, line.value;
    var pieces := Pieces(Print([line]));
    if |Content(line)| < MAX_LINE_LENGTH {
      RoundTrip([line], key, value);
      assert FirstValue([line], key) == Some(v);
    } else if Lookup(pieces, key, value) == Answer(0, v) {
      LookupFindsFirst(pieces, key, value);
      var i :| 0 <= i < |pieces| && Scan(pieces[i]) == Scanned(2, key, v);
      Segmentation(Print([line]));
      assert IsPiece(pieces[i]);
      ScanFits(pieces[i]);
    }
  }
}

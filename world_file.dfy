/**
 * The world-file reader of RoboSim: the text of the world description is cut
 * into lines, every line is cut into whitespace-separated fields, and each
 * line of exactly five fields whose first field is not the comment marker
 * "//" contributes one vertex: three position values and two texture
 * coordinates, in file order.
 *
 * The text operations are modelled with the JavaScript semantics the reader
 * relies on: `split("\n")`, `replace(/^\s+/, "")` and `split(/\s+/)`, where
 * `\s` is the JavaScript whitespace class. `parseFloat` is a parameter.
 */
module WorldFile {

  /** The JavaScript regular-expression class `\s`: WhiteSpace and LineTerminator characters. */
  predicate IsSpace(c: char) {
    c == '\t' || c == '\n' || c == '\U{B}' || c == '\U{C}' || c == '\r' || c == ' '
    || c == '\U{A0}' || c == '\U{1680}' || ('\U{2000}' <= c <= '\U{200A}')
    || c == '\U{2028}' || c == '\U{2029}' || c == '\U{202F}' || c == '\U{205F}'
    || c == '\U{3000}' || c == '\U{FEFF}'
  }

  predicate SpaceFree(s: string) {
    forall i :: 0 <= i < |s| ==> !IsSpace(s[i])
  }

  /** Length of the longest prefix of `s` made of whitespace. */
  function LeadingSpaces(s: string): (n: nat)
    ensures n <= |s|
    ensures forall i :: 0 <= i < n ==> IsSpace(s[i])
    ensures n < |s| ==> !IsSpace(s[n])
  {
    if s == [] || !IsSpace(s[0]) then 0 else 1 + LeadingSpaces(s[1..])
  }

  /** `line.replace(/^\s+/, "")`: the line without its leading whitespace. */
  function StripLeading(s: string): (r: string)
    ensures r == [] || !IsSpace(r[0])
    ensures |r| <= |s| && r == s[|s| - |r|..]
    ensures forall i :: 0 <= i < |s| - |r| ==> IsSpace(s[i])
  {
    s[LeadingSpaces(s)..]
  }

  /**
   * `s.split(/\s+/)`: the pieces of `s` between maximal runs of whitespace.
   * A string that starts (ends) with whitespace yields an empty first (last)
   * piece, and the empty string yields one empty piece.
   */
  function Fields(s: string): (fs: seq<string>)
    ensures |fs| >= 1
  {
    if s == [] then [""]
    else
      var rest := Fields(s[1..]);
      if !IsSpace(s[0]) then [[s[0]] + rest[0]] + rest[1..]
      else if |s| > 1 && IsSpace(s[1]) then rest
      else [""] + rest
  }

  /** `data.split("\n")`. */
  function SplitLines(s: string): (ls: seq<string>)
    ensures |ls| >= 1
  {
    if s == [] then [""]
    else
      var rest := SplitLines(s[1..]);
      if s[0] == '\n' then [""] + rest
      else [[s[0]] + rest[0]] + rest[1..]
  }

  /** The inverse of SplitLines: the lines put back together with "\n" between them. */
  function JoinLines(ls: seq<string>): string
  {
    if ls == [] then ""
    else if |ls| == 1 then ls[0]
    else ls[0] + "\n" + JoinLines(ls[1..])
  }

  /**
   * The fields of one line of the world file. Because the indentation is
   * stripped first, the first field is empty only when nothing is left of
   * the line, and then it is the only field.
   */
  function Values(line: string): (vs: seq<string>)
    ensures |vs| >= 1
    ensures vs[0] == "" <==> StripLeading(line) == []
    ensures vs[0] == "" ==> |vs| == 1
  {
    Fields(StripLeading(line))
  }

  /** Whether a line describes a vertex: five fields, the first not "//". A vertex line is not blank. */
  predicate Accepted(line: string)
    ensures Accepted(line) ==> |Values(line)| == 5 && Values(line)[0] != "" && StripLeading(line) != []
  {
    var vals := Values(line);
    |vals| == 5 && vals[0] != "//"
  }

  /** What one line contributes to the vertex lines: itself, if it describes a vertex. */
  function KeptRow(line: string): seq<string>
  {
    if Accepted(line) then [line] else []
  }

  /** The position values one line contributes: its first three fields, if it describes a vertex. */
  function PositionRow(line: string, parse: string -> real): seq<real>
  {
    if Accepted(line) then [parse(Values(line)[0]), parse(Values(line)[1]), parse(Values(line)[2])] else []
  }

  /** The texture coordinates one line contributes: its last two fields, if it describes a vertex. */
  function TexCoordRow(line: string, parse: string -> real): seq<real>
  {
    if Accepted(line) then [parse(Values(line)[3]), parse(Values(line)[4])] else []
  }

  /** What `row` gives for each line of `ls`, concatenated in file order. */
  function Collect<T>(ls: seq<string>, row: string -> seq<T>): seq<T>
  {
    if ls == [] then []
    else Collect(ls[..|ls| - 1], row) + row(ls[|ls| - 1])
  }

  /** The vertex lines of `ls`, in file order. */
  function Kept(ls: seq<string>): seq<string>
  {
    Collect(ls, KeptRow)
  }

  /** The position values contributed by the lines `ls`. */
  function Positions(ls: seq<string>, parse: string -> real): seq<real>
  {
    Collect(ls, line => PositionRow(line, parse))
  }

  /** The texture coordinates contributed by the lines `ls`. */
  function TexCoords(ls: seq<string>, parse: string -> real): seq<real>
  {
    Collect(ls, line => TexCoordRow(line, parse))
  }

  /** What the reader hands to a vertex buffer: the flat data, values per item, item count. */
  datatype VertexBuffer = VertexBuffer(items: seq<real>, itemSize: nat, numItems: nat)

  /**
   * Reads a world description. The two results are the contents of the
   * position buffer (three values per vertex) and of the texture-coordinate
   * buffer (two values per vertex); both record the vertex count.
   */
  method HandleLoadedWorld(data: string, parse: string -> real)
    returns (positionBuffer: VertexBuffer, texCoordBuffer: VertexBuffer)
    ensures positionBuffer.items == Positions(SplitLines(data), parse)
    ensures texCoordBuffer.items == TexCoords(SplitLines(data), parse)
    ensures positionBuffer.itemSize == 3 && texCoordBuffer.itemSize == 2
    ensures positionBuffer.numItems == texCoordBuffer.numItems == |Kept(SplitLines(data))|
    ensures |positionBuffer.items| == 3 * positionBuffer.numItems
    ensures |texCoordBuffer.items| == 2 * texCoordBuffer.numItems
  {
    var lines := SplitLines(data);
    var vertexCount := 0;
    var vertexPositions := [];
    var vertexTextureCoords := [];
    var i := 0;
    while i < |lines|
      invariant 0 <= i <= |lines|
      invariant vertexPositions == Positions(lines[..i], parse)
      invariant vertexTextureCoords == TexCoords(lines[..i], parse)
      invariant vertexCount == |Kept(lines[..i])|
    {
      assert lines[..i + 1][..i] == lines[..i];
      var vals := Values(lines[i]);
      if |vals| == 5 && vals[0] != "//" {
        vertexPositions := vertexPositions + [parse(vals[0]), parse(vals[1]), parse(vals[2])];
        vertexTextureCoords := vertexTextureCoords + [parse(vals[3]), parse(vals[4])];
        vertexCount := vertexCount + 1;
      }
      i := i + 1;
    }
    assert lines[..i] == lines;
    BufferSizes(lines, parse);
    positionBuffer := VertexBuffer(vertexPositions, 3, vertexCount);
    texCoordBuffer := VertexBuffer(vertexTextureCoords, 2, vertexCount);
  }

  // ---------------------------------------------------------------------------
  // Properties of the line and field splitting

  /** Splitting on "\n" loses nothing: joining the lines gives back the text. */
  lemma {:induction false} SplitLinesRoundTrip(s: string)
    ensures JoinLines(SplitLines(s)) == s
  {
    if s != [] {
      var rest := SplitLines(s[1..]);
      SplitLinesRoundTrip(s[1..]);
      if s[0] == '\n' {
        JoinNewline(rest);
      } else {
        JoinConsChar(s[0], rest);
      }
      assert s == [s[0]] + s[1..];
    }
  }

  lemma JoinNewline(ls: seq<string>)
    requires |ls| >= 1
    ensures JoinLines([""] + ls) == "\n" + JoinLines(ls)
  {
    assert ([""] + ls)[1..] == ls;
  }

  lemma JoinConsChar(c: char, ls: seq<string>)
    requires |ls| >= 1
    ensures JoinLines([[c] + ls[0]] + ls[1..]) == [c] + JoinLines(ls)
  {
    var joined := [[c] + ls[0]] + ls[1..];
    assert joined[0] == [c] + ls[0];
    if |ls| > 1 {
      assert joined[1..] == ls[1..];
      var tail := JoinLines(ls[1..]);
      assert JoinLines(joined) == ([c] + ls[0]) + "\n" + tail;
      assert JoinLines(ls) == ls[0] + "\n" + tail;
      Assoc3([c], ls[0], "\n", tail);
    }
  }

  lemma Assoc3(a: string, b: string, c: string, d: string)
    ensures (a + b) + c + d == a + (b + c + d)
  {
  }

  /** No line of the split holds a "\n". */
  lemma {:induction false} SplitLinesNoNewline(s: string)
    ensures forall k :: 0 <= k < |SplitLines(s)| ==> '\n' !in SplitLines(s)[k]
  {
    if s != [] {
      var rest := SplitLines(s[1..]);
      SplitLinesNoNewline(s[1..]);
      var ls := SplitLines(s);
      forall k | 0 <= k < |ls| ensures '\n' !in ls[k] {
        if s[0] == '\n' {
          assert ls == [""] + rest;
          if k > 0 { assert ls[k] == rest[k - 1]; }
        } else if k > 0 {
          assert ls[k] == rest[k];
        } else {
          assert ls[0] == [s[0]] + rest[0];
        }
      }
    }
  }

  /** The number of lines is one more than the number of "\n" characters. */
  lemma {:induction false} SplitLinesCount(s: string)
    ensures |SplitLines(s)| == multiset(s)['\n'] + 1
  {
    if s != [] {
      SplitLinesCount(s[1..]);
      assert s == [s[0]] + s[1..];
      assert multiset(s) == multiset{s[0]} + multiset(s[1..]);
    }
  }

  /** No field holds whitespace. */
  lemma {:induction false} FieldsSpaceFree(s: string)
    ensures forall k :: 0 <= k < |Fields(s)| ==> SpaceFree(Fields(s)[k])
  {
    if s != [] {
      var rest := Fields(s[1..]);
      FieldsSpaceFree(s[1..]);
      var fs := Fields(s);
      if !IsSpace(s[0]) {
        forall k | 0 <= k < |fs| ensures SpaceFree(fs[k]) {
          if k == 0 {
            assert SpaceFree(rest[0]);
            assert fs[0] == [s[0]] + rest[0];
          } else {
            assert fs[k] == rest[k];
          }
        }
      } else if !(|s| > 1 && IsSpace(s[1])) {
        forall k | 0 <= k < |fs| ensures SpaceFree(fs[k]) {
          if k > 0 { assert fs[k] == rest[k - 1]; }
        }
      }
    }
  }

  /** The non-whitespace characters of `s`, in order. */
  function NonSpace(s: string): string
  {
    if s == [] then []
    else (if IsSpace(s[0]) then [] else [s[0]]) + NonSpace(s[1..])
  }

  /** The concatenation of a sequence of strings. */
  function Concat(fs: seq<string>): string
  {
    if fs == [] then [] else fs[0] + Concat(fs[1..])
  }

  /** Splitting drops exactly the whitespace: the fields, put together, are the non-whitespace characters of `s`. */
  lemma {:induction false} FieldsKeepText(s: string)
    ensures Concat(Fields(s)) == NonSpace(s)
  {
    if s != [] {
      var rest := Fields(s[1..]);
      FieldsKeepText(s[1..]);
      var fs := Fields(s);
      if !IsSpace(s[0]) {
        assert fs[1..] == rest[1..];
        assert rest == [rest[0]] + rest[1..];
        assert Concat(rest) == rest[0] + Concat(rest[1..]);
        assert Concat(fs) == [s[0]] + rest[0] + Concat(rest[1..]);
      } else if !(|s| > 1 && IsSpace(s[1])) {
        assert fs[1..] == rest;
        assert Concat(fs) == "" + Concat(rest);
      }
    }
  }

  /** A non-empty string without whitespace is a single field. */
  lemma {:induction false} FieldsOfWord(s: string)
    requires s != [] && SpaceFree(s)
    ensures Fields(s) == [s]
  {
    if |s| == 1 {
      assert Fields(s[1..]) == [""];
      assert [s[0]] + "" == s;
    } else {
      FieldsOfWord(s[1..]);
      assert [s[0]] + s[1..] == s;
    }
  }

  /** Whitespace in front of a string that starts with a non-whitespace character gives one empty field. */
  lemma {:induction false} FieldsAfterSpace(ws: string, b: string)
    requires ws != [] && forall i :: 0 <= i < |ws| ==> IsSpace(ws[i])
    requires b != [] && !IsSpace(b[0])
    ensures Fields(ws + b) == [""] + Fields(b)
  {
    assert (ws + b)[1..] == ws[1..] + b;
    if |ws| > 1 {
      FieldsAfterSpace(ws[1..], b);
    }
  }

  /** One step of the split: a non-whitespace first character joins the first field of the rest. */
  lemma FieldsConsWord(c: char, s: string)
    requires !IsSpace(c)
    ensures Fields([c] + s) == [[c] + Fields(s)[0]] + Fields(s)[1..]
  {
    assert ([c] + s)[1..] == s;
  }

  /** One step of the split: whitespace followed by whitespace adds nothing. */
  lemma FieldsConsSpaceSpace(c: char, s: string)
    requires IsSpace(c) && s != [] && IsSpace(s[0])
    ensures Fields([c] + s) == Fields(s)
  {
    assert ([c] + s)[1..] == s;
  }

  /** One step of the split: the last whitespace character of a run ends a field. */
  lemma FieldsConsSpaceWord(c: char, s: string)
    requires IsSpace(c) && !(s != [] && IsSpace(s[0]))
    ensures Fields([c] + s) == [""] + Fields(s)
  {
    assert ([c] + s)[1..] == s;
  }

  /** A first character put in front of two strings that start alike joins their fields alike. */
  lemma FieldsConsSame(c: char, x: string, t: string, tailFields: seq<string>)
    requires x != [] && t != [] && t[0] == x[0]
    requires Fields(t) == Fields(x) + tailFields
    ensures Fields([c] + t) == Fields([c] + x) + tailFields
  {
    if !IsSpace(c) {
      FieldsConsSameWord(c, x, t, tailFields);
    } else if IsSpace(x[0]) {
      FieldsConsSpaceSpace(c, t);
      FieldsConsSpaceSpace(c, x);
    } else {
      FieldsConsSameSpace(c, x, t, tailFields);
    }
  }

  lemma FieldsConsSameWord(c: char, x: string, t: string, tailFields: seq<string>)
    requires !IsSpace(c) && x != []
    requires Fields(t) == Fields(x) + tailFields
    ensures Fields([c] + t) == Fields([c] + x) + tailFields
  {
    FieldsConsWord(c, t);
    FieldsConsWord(c, x);
    JoinHead([c], Fields(x), Fields(t), tailFields);
  }

  /** Joining a prefix onto the first field commutes with appending further fields. */
  lemma JoinHead(h: string, fx: seq<string>, ft: seq<string>, tailFields: seq<string>)
    requires |fx| >= 1 && ft == fx + tailFields
    ensures [h + ft[0]] + ft[1..] == ([h + fx[0]] + fx[1..]) + tailFields
  {
    assert ft[1..] == fx[1..] + tailFields;
  }

  lemma FieldsConsSameSpace(c: char, x: string, t: string, tailFields: seq<string>)
    requires IsSpace(c) && x != [] && t != [] && !IsSpace(x[0]) && t[0] == x[0]
    requires Fields(t) == Fields(x) + tailFields
    ensures Fields([c] + t) == Fields([c] + x) + tailFields
  {
    var fx := Fields(x);
    FieldsConsSpaceWord(c, t);
    FieldsConsSpaceWord(c, x);
    assert [""] + (fx + tailFields) == ([""] + fx) + tailFields;
  }

  /**
   * Fields break exactly at whitespace runs: a run of whitespace between two
   * non-whitespace characters separates the fields before it from those after.
   */
  lemma {:induction false} FieldsJoin(a: string, ws: string, b: string)
    requires a != [] && !IsSpace(a[|a| - 1])
    requires ws != [] && forall i :: 0 <= i < |ws| ==> IsSpace(ws[i])
    requires b != [] && !IsSpace(b[0])
    ensures Fields(a + ws + b) == Fields(a) + Fields(b)
  {
    if |a| == 1 {
      FieldsJoinChar(a[0], ws, b);
      assert [a[0]] == a;
    } else {
      assert a[1..][|a| - 2] == a[|a| - 1];
      FieldsJoin(a[1..], ws, b);
      assert a[1..] + ws + b == a[1..] + (ws + b);
      FieldsJoinStep(a, ws + b, Fields(b));
      assert a + ws + b == a + (ws + b);
    }
  }

  lemma FieldsJoinChar(c: char, ws: string, b: string)
    requires !IsSpace(c)
    requires ws != [] && forall i :: 0 <= i < |ws| ==> IsSpace(ws[i])
    requires b != [] && !IsSpace(b[0])
    ensures Fields([c] + ws + b) == Fields([c]) + Fields(b)
  {
    var rest := ws + b;
    FieldsAfterSpace(ws, b);
    assert Fields([]) == [""];
    FieldsConsWord(c, rest);
    FieldsConsWord(c, []);
    JoinHead([c], Fields([]), Fields(rest), Fields(b));
    assert [c] + [] == [c];
    assert [c] + ws + b == [c] + rest;
  }

  /** The inductive step of FieldsJoin: one more character in front of the first part. */
  lemma FieldsJoinStep(a: string, rest: string, restFields: seq<string>)
    requires |a| > 1 && rest != []
    requires Fields(a[1..] + rest) == Fields(a[1..]) + restFields
    ensures Fields(a + rest) == Fields(a) + restFields
  {
    var a' := a[1..];
    assert (a' + rest)[0] == a'[0];
    FieldsConsSame(a[0], a', a' + rest, restFields);
    assert [a[0]] + a' == a;
    assert [a[0]] + (a' + rest) == a + rest;
  }

  /** A string that ends in whitespace splits into at least two fields, the last of them empty. */
  lemma {:induction false} TrailingSpaceGivesEmptyField(s: string)
    requires |s| > 0 && IsSpace(s[|s| - 1])
    ensures |Fields(s)| >= 2 && Fields(s)[|Fields(s)| - 1] == ""
  {
    if |s| == 1 {
      assert Fields(s[1..]) == [""];
    } else {
      var rest := Fields(s[1..]);
      assert s[1..][|s| - 2] == s[|s| - 1];
      TrailingSpaceGivesEmptyField(s[1..]);
      var fs := Fields(s);
      if !IsSpace(s[0]) || !IsSpace(s[1]) {
        assert fs[|fs| - 1] == rest[|rest| - 1];
      }
    }
  }

  // ---------------------------------------------------------------------------
  // Properties of the vertex filter

  /** A line is kept exactly when it occurs in the file and describes a vertex. */
  lemma {:induction false} KeptIff(ls: seq<string>, line: string)
    ensures line in Kept(ls) <==> line in ls && Accepted(line)
  {
    if ls != [] {
      var init := ls[..|ls| - 1];
      var last := ls[|ls| - 1];
      KeptIff(init, line);
      KeptRowIff(last, line);
      assert ls == init + [last];
      assert Kept(ls) == Kept(init) + KeptRow(last);
    }
  }

  lemma KeptRowIff(x: string, line: string)
    ensures line in KeptRow(x) <==> line == x && Accepted(x)
  {
  }

  /** Collecting over two parts of a file is collecting over each part in turn. */
  lemma {:induction false} CollectAppend<T>(a: seq<string>, b: seq<string>, row: string -> seq<T>)
    ensures Collect(a + b, row) == Collect(a, row) + Collect(b, row)
  {
    if b == [] {
      assert a + b == a;
    } else {
      var init := b[..|b| - 1];
      CollectAppend(a, init, row);
      assert (a + b)[..|a + b| - 1] == a + init;
      assert (a + b)[|a + b| - 1] == b[|b| - 1];
    }
  }

  /**
   * The filter works line by line in file order: the vertices of a file made
   * of two parts are those of the first part followed by those of the second.
   */
  lemma AppendLines(a: seq<string>, b: seq<string>, parse: string -> real)
    ensures Kept(a + b) == Kept(a) + Kept(b)
    ensures Positions(a + b, parse) == Positions(a, parse) + Positions(b, parse)
    ensures TexCoords(a + b, parse) == TexCoords(a, parse) + TexCoords(b, parse)
  {
    CollectAppend(a, b, KeptRow);
    CollectAppend(a, b, line => PositionRow(line, parse));
    CollectAppend(a, b, line => TexCoordRow(line, parse));
  }

  /** Three position values and two texture coordinates per kept line. */
  lemma {:induction false} BufferSizes(ls: seq<string>, parse: string -> real)
    ensures |Positions(ls, parse)| == 3 * |Kept(ls)|
    ensures |TexCoords(ls, parse)| == 2 * |Kept(ls)|
  {
    if ls != [] {
      var init := ls[..|ls| - 1];
      var last := ls[|ls| - 1];
      BufferSizes(init, parse);
      assert Kept(ls) == Kept(init) + KeptRow(last);
      assert Positions(ls, parse) == Positions(init, parse) + PositionRow(last, parse);
      assert TexCoords(ls, parse) == TexCoords(init, parse) + TexCoordRow(last, parse);
    }
  }

  /** The k-th kept line supplies positions 3k..3k+2 and texture coordinates 2k..2k+1. */
  lemma {:induction false} InFileOrder(ls: seq<string>, parse: string -> real, k: nat)
    requires k < |Kept(ls)|
    ensures |Positions(ls, parse)| == 3 * |Kept(ls)| && |TexCoords(ls, parse)| == 2 * |Kept(ls)|
    ensures var vals := Values(Kept(ls)[k]);
      |vals| == 5
      && Positions(ls, parse)[3 * k .. 3 * k + 3] == [parse(vals[0]), parse(vals[1]), parse(vals[2])]
      && TexCoords(ls, parse)[2 * k .. 2 * k + 2] == [parse(vals[3]), parse(vals[4])]
  {
    var init := ls[..|ls| - 1];
    var last := ls[|ls| - 1];
    BufferSizes(ls, parse);
    BufferSizes(init, parse);
    var positions, texCoords := Positions(init, parse), TexCoords(init, parse);
    assert Positions(ls, parse) == positions + PositionRow(last, parse);
    assert TexCoords(ls, parse) == texCoords + TexCoordRow(last, parse);
    assert Kept(ls) == Kept(init) + KeptRow(last);
    if k < |Kept(init)| {
      InFileOrder(init, parse, k);
      assert Kept(ls)[k] == Kept(init)[k];
      assert Positions(ls, parse)[3 * k .. 3 * k + 3] == positions[3 * k .. 3 * k + 3];
      assert TexCoords(ls, parse)[2 * k .. 2 * k + 2] == texCoords[2 * k .. 2 * k + 2];
    } else {
      assert Accepted(last) && Kept(ls)[k] == last;
      assert Positions(ls, parse)[3 * k .. 3 * k + 3] == PositionRow(last, parse);
      assert TexCoords(ls, parse)[2 * k .. 2 * k + 2] == TexCoordRow(last, parse);
    }
  }

  // ---------------------------------------------------------------------------
  // Whitespace at either end of a line

  lemma {:induction false} LeadingSpacesAppend(ws: string, s: string)
    requires forall i :: 0 <= i < |ws| ==> IsSpace(ws[i])
    ensures LeadingSpaces(ws + s) == |ws| + LeadingSpaces(s)
  {
    if ws != [] {
      assert (ws + s)[1..] == ws[1..] + s;
      LeadingSpacesAppend(ws[1..], s);
    } else {
      assert ws + s == s;
    }
  }

  /** Indentation does not matter: whitespace in front of a line leaves its fields unchanged. */
  lemma LeadingSpaceIgnored(ws: string, line: string)
    requires forall i :: 0 <= i < |ws| ==> IsSpace(ws[i])
    ensures Values(ws + line) == Values(line)
    ensures Accepted(ws + line) == Accepted(line)
  {
    LeadingSpacesAppend(ws, line);
    assert (ws + line)[|ws| + LeadingSpaces(line)..] == line[LeadingSpaces(line)..];
  }

  lemma {:induction false} LeadingSpacesSnoc(s: string, c: char)
    requires LeadingSpaces(s) < |s|
    ensures LeadingSpaces(s + [c]) == LeadingSpaces(s)
  {
    if IsSpace(s[0]) {
      assert (s + [c])[1..] == s[1..] + [c];
      LeadingSpacesSnoc(s[1..], c);
    }
  }

  /** One whitespace character after a non-blank string adds exactly one empty field. */
  lemma {:induction false} FieldsSnocSpace(s: string, c: char)
    requires s != [] && !IsSpace(s[|s| - 1]) && IsSpace(c)
    ensures Fields(s + [c]) == Fields(s) + [""]
  {
    var t := s + [c];
    if |s| == 1 {
      assert t[1..] == [c];
      assert Fields([c]) == [""] + Fields([]);
      assert s[1..] == [];
    } else {
      assert t[1..] == s[1..] + [c];
      assert s[1..][|s| - 2] == s[|s| - 1];
      FieldsSnocSpace(s[1..], c);
      var rest := Fields(s[1..]);
      if !IsSpace(s[0]) {
        assert (rest + [""])[1..] == rest[1..] + [""];
      }
    }
  }

  /** A non-empty run of whitespace alone splits into two empty fields. */
  lemma {:induction false} FieldsOfSpaces(ws: string)
    requires ws != [] && forall i :: 0 <= i < |ws| ==> IsSpace(ws[i])
    ensures Fields(ws) == ["", ""]
  {
    if |ws| == 1 {
      assert Fields(ws[1..]) == [""];
    } else {
      FieldsOfSpaces(ws[1..]);
    }
  }

  /** A trailing whitespace run of any length after a non-blank string adds exactly one empty field. */
  lemma {:induction false} FieldsTrailingRun(s: string, ws: string)
    requires s != [] && !IsSpace(s[|s| - 1])
    requires ws != [] && forall i :: 0 <= i < |ws| ==> IsSpace(ws[i])
    ensures Fields(s + ws) == Fields(s) + [""]
  {
    if |s| == 1 {
      FieldsOfSpaces(ws);
      FieldsConsWord(s[0], ws);
      FieldsConsWord(s[0], []);
      assert Fields([]) == [""];
      assert [s[0]] + ws == s + ws;
      assert [s[0]] + [] == s;
    } else {
      assert s[1..][|s| - 2] == s[|s| - 1];
      FieldsTrailingRun(s[1..], ws);
      FieldsJoinStep(s, ws, [""]);
    }
  }

  /**
   * A vertex line followed by trailing whitespace (a blank, or the "\r" of a
   * CRLF file) is no longer a vertex line: the whitespace makes a sixth, empty
   * field.
   */
  lemma TrailingSpaceRejects(line: string, c: char)
    requires line != [] && Accepted(line) && !IsSpace(line[|line| - 1]) && IsSpace(c)
    ensures |Values(line + [c])| == 6
    ensures !Accepted(line + [c])
  {
    LeadingSpacesSnoc(line, c);
    var stripped := StripLeading(line);
    assert StripLeading(line + [c]) == stripped + [c];
    assert stripped[|stripped| - 1] == line[|line| - 1];
    FieldsSnocSpace(stripped, c);
  }

  /**
   * A line of four values followed by trailing whitespace IS a vertex line:
   * the whitespace makes an empty fifth field.
   */
  lemma TrailingSpaceCompletesShortLine(line: string, c: char)
    requires line != [] && |Values(line)| == 4 && Values(line)[0] != "//"
    requires !IsSpace(line[|line| - 1]) && IsSpace(c)
    ensures Accepted(line + [c]) && Values(line + [c])[4] == ""
  {
    LeadingSpacesSnoc(line, c);
    var stripped := StripLeading(line);
    assert StripLeading(line + [c]) == stripped + [c];
    assert stripped[|stripped| - 1] == line[|line| - 1];
    FieldsSnocSpace(stripped, c);
  }

  /** A line's first field is empty exactly when the line is blank (whitespace only, or empty). */
  lemma BlankLine(line: string)
    ensures Values(line)[0] == "" <==> forall i :: 0 <= i < |line| ==> IsSpace(line[i])
  {
    var n := LeadingSpaces(line);
    if n < |line| {
      assert !IsSpace(line[n]);
    }
  }

  /** No value of a line holds whitespace. */
  lemma ValuesSpaceFree(line: string)
    ensures forall k :: 0 <= k < |Values(line)| ==> SpaceFree(Values(line)[k])
  {
    FieldsSpaceFree(StripLeading(line));
  }

  /** A line of five numbers is a vertex line. */
  lemma VertexLineExample()
    ensures Accepted("1 2 3 4 5")
  {
  }

  /** A line with four fields is dropped. */
  lemma ShortLineExample()
    ensures !Accepted("1 2 3 4")
  {
  }
}

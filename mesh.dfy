/**
  Loading a Wavefront OBJ mesh (src/mesh.c:26-112).

  The file is a character stream. `read_line` cuts it into lines that keep
  their newline (and get a terminating '\0'); `load_mesh_from_file`
  dispatches each line on its prefix into six growing lists, then flattens
  the faces into a vertex array and an index buffer.

  The numbers on a line come from `sscanf`; here they are whatever a given
  `Scanner` returns for the rest of the line, item count included. A C
  `assert` that fails aborts the load: that is the `AssertionFailed` result.
 */
module Mesh {
  import opened Maths

  datatype Option<T> = None | Some(value: T)

  datatype Result<T> = Ok(value: T) | AssertionFailed(line: seq<char>)

  // ---------------------------------------------------------------------
  // read_line (src/mesh.c:26-39)
  // ---------------------------------------------------------------------

  /** The index just past the first '\n' at or after `pos`, or the end of the stream. */
  function LineEnd(s: seq<char>, pos: nat): (e: nat)
    requires pos <= |s|
    ensures pos <= e <= |s|
    ensures pos < |s| ==> pos < e
    ensures e == |s| || s[e - 1] == '\n'
    ensures forall k :: pos <= k < e && s[k] == '\n' ==> k == e - 1
    decreases |s| - pos
  {
    if pos == |s| then pos
    else if s[pos] == '\n' then pos + 1
    else LineEnd(s, pos + 1)
  }

  /** The line read at `pos` and the position after it. */
  function NextLine(s: seq<char>, pos: nat): (r: (Option<seq<char>>, nat))
    requires pos <= |s|
  {
    if pos == |s| then (None, pos)
    else
      var e := LineEnd(s, pos);
      if s[e - 1] == '\n' then (Some(s[pos..e] + ['\0']), e) else (Some(s[pos..e]), e)
  }

  /** read_line: reads characters until a newline or the end of the stream. */
  method ReadLine(stream: seq<char>, pos: nat) returns (line: Option<seq<char>>, next: nat)
    requires pos <= |stream|
    ensures (line, next) == NextLine(stream, pos)
  {
    line := None;
    next := pos;
    while true
      invariant pos <= next <= |stream|
      invariant line == if next == pos then None else Some(stream[pos..next])
      invariant forall k :: pos <= k < next ==> stream[k] != '\n'
      invariant next == pos || LineEnd(stream, pos) == LineEnd(stream, next)
      decreases |stream| - next
    {
      if next == |stream| {
        // fgetc returned EOF
        return;
      }
      var c := stream[next];
      var buffer := if line.Some? then line.value else [];
      assert buffer + [c] == stream[pos..next + 1];
      line := Some(buffer + [c]);
      next := next + 1;
      if c == '\n' {
        assert LineEnd(stream, next - 1) == next;
        line := Some(line.value + ['\0']);
        return;
      }
    }
  }

  /** What `read_line` returns: NULL exactly at the end of the stream; a
      line that has a newline has it last, followed by '\0'; a final line
      without a newline is returned as it is. */
  lemma NextLineShape(s: seq<char>, pos: nat)
    requires pos <= |s|
    ensures NextLine(s, pos).0.None? <==> pos == |s|
    ensures NextLine(s, pos).1 <= |s|
    ensures pos < |s| ==> NextLine(s, pos).1 > pos
    ensures NextLine(s, pos).0.Some? ==>
      var line := NextLine(s, pos).0.value;
      var next := NextLine(s, pos).1;
      || (|line| >= 2 && line[|line| - 2] == '\n' && line[|line| - 1] == '\0'
          && line[..|line| - 1] == s[pos..next])
      || (next == |s| && line == s[pos..] && '\n' !in line)
  {
  }

  /** The lines `read_line` returns from `pos` until it returns NULL. */
  function Lines(s: seq<char>, pos: nat): seq<seq<char>>
    requires pos <= |s|
    decreases |s| - pos
  {
    if pos == |s| then [] else [NextLine(s, pos).0.value] + Lines(s, LineEnd(s, pos))
  }

  /** A line without the '\0' that read_line appended after its newline. */
  function Unterminated(line: seq<char>): seq<char> {
    if |line| >= 2 && line[|line| - 2] == '\n' && line[|line| - 1] == '\0'
    then line[..|line| - 1] else line
  }

  function JoinLines(lines: seq<seq<char>>): seq<char> {
    if |lines| == 0 then [] else Unterminated(lines[0]) + JoinLines(lines[1..])
  }

  /** Removing the terminator gives back the characters read. */
  lemma UnterminatedLine(s: seq<char>, pos: nat)
    requires pos < |s|
    ensures Unterminated(NextLine(s, pos).0.value) == s[pos..LineEnd(s, pos)]
  {
    var e := LineEnd(s, pos);
    var line := NextLine(s, pos).0.value;
    if s[e - 1] == '\n' {
      assert line == s[pos..e] + ['\0'];
      assert line[|line| - 2] == s[e - 1];
    } else if |line| >= 2 {
      assert line[|line| - 2] == s[e - 2];
    }
  }

  /** The stream is exactly the concatenation of its lines, once the added
      terminators are removed: no character is lost or duplicated. */
  lemma {:induction false} LinesRoundTrip(s: seq<char>, pos: nat)
    requires pos <= |s|
    ensures JoinLines(Lines(s, pos)) == s[pos..]
    decreases |s| - pos
  {
    if pos < |s| {
      var e := LineEnd(s, pos);
      LinesRoundTrip(s, e);
      UnterminatedLine(s, pos);
      var ls := Lines(s, pos);
      assert ls[0] == NextLine(s, pos).0.value && ls[1..] == Lines(s, e);
      assert JoinLines(ls) == Unterminated(ls[0]) + JoinLines(ls[1..]);
      assert s[pos..] == s[pos..e] + s[e..];
    }
  }

  // ---------------------------------------------------------------------
  // Line dispatch (src/mesh.c:54-92)
  // ---------------------------------------------------------------------

  /** `strncmp(line, prefix, |prefix|) == 0`. A line shorter than the prefix does not match. */
  predicate HasPrefix(line: seq<char>, prefix: seq<char>) {
    |prefix| <= |line| && line[..|prefix|] == prefix
  }

  datatype LineKind = PositionLine | TexcoordLine | NormalLine | FaceLine | OtherLine

  /** The if-chain of src/mesh.c:58-90, in its order. */
  function Classify(line: seq<char>): LineKind {
    if HasPrefix(line, "v ") then PositionLine
    else if HasPrefix(line, "vt ") then TexcoordLine
    else if HasPrefix(line, "vn ") then NormalLine
    else if HasPrefix(line, "f ") then FaceLine
    else OtherLine
  }

  /** Vertex attributes are never mistaken for positions: "v " needs the space. */
  lemma AttributeLinesAreNotPositions(line: seq<char>)
    requires HasPrefix(line, "vt ") || HasPrefix(line, "vn ")
    ensures Classify(line) != PositionLine
    ensures Classify(line) == (if HasPrefix(line, "vt ") then TexcoordLine else NormalLine)
  {
    assert line[1] != ' ';
  }

  type Ints3 = s: seq<int> | |s| == 3 witness [0, 0, 0]

  datatype Scan3 = Scan3(items: int, value: Vector3)
  datatype Scan2 = Scan2(items: int, value: Vector2)
  /** The nine `%d` fields of a face line, in slot order; fields that sscanf
      did not assign hold whatever the scanner says (uninitialised in C). */
  datatype FaceScan = FaceScan(items: int, position: Ints3, texcoord: Ints3, normal: Ints3)

  /** The results of `sscanf` on the text after a line's prefix. */
  datatype Scanner = Scanner(
    vector3: seq<char> -> Scan3,
    vector2: seq<char> -> Scan2,
    face: seq<char> -> FaceScan)

  /** The six stretchy buffers of load_mesh_from_file (src/mesh.c:45-50). */
  datatype ObjLists = ObjLists(
    positions: seq<Vector3>,
    texcoords: seq<Vector2>,
    normals: seq<Vector3>,
    positionIndex: seq<int>,
    texcoordIndex: seq<int>,
    normalIndex: seq<int>)

  const EmptyLists := ObjLists([], [], [], [], [], [])

  /** The three index lists grow together. */
  predicate IndexListsAligned(l: ObjLists) {
    |l.texcoordIndex| == |l.positionIndex| && |l.normalIndex| == |l.positionIndex|
  }

  /** Face indices are 1-based in the file and 0-based in the lists. */
  function ZeroBased(v: Ints3): (r: seq<int>)
    ensures |r| == 3 && forall i :: 0 <= i < 3 ==> r[i] + 1 == v[i]
  {
    [v[0] - 1, v[1] - 1, v[2] - 1]
  }

  /** One pass of the loop body of src/mesh.c:54-92 on one line. */
  function ApplyLine(l: ObjLists, line: seq<char>, sc: Scanner): Result<ObjLists> {
    match Classify(line)
    case PositionLine =>
      var r := sc.vector3(line[2..]);
      if r.items == 3 then Ok(l.(positions := l.positions + [r.value])) else AssertionFailed(line)
    case TexcoordLine =>
      var r := sc.vector2(line[3..]);
      if r.items == 2 then Ok(l.(texcoords := l.texcoords + [r.value])) else AssertionFailed(line)
    case NormalLine =>
      var r := sc.vector3(line[3..]);
      if r.items == 3 then Ok(l.(normals := l.normals + [r.value])) else AssertionFailed(line)
    case FaceLine =>
      var r := sc.face(line[2..]);
      if r.items == 3 || r.items == 9 then
        Ok(l.(positionIndex := l.positionIndex + ZeroBased(r.position),
              texcoordIndex := l.texcoordIndex + ZeroBased(r.texcoord),
              normalIndex := l.normalIndex + ZeroBased(r.normal)))
      else AssertionFailed(line)
    case OtherLine => Ok(l)
  }

  /** The lines processed in order; the first failed assertion stops the load. */
  function ParseLines(l: ObjLists, lines: seq<seq<char>>, sc: Scanner): Result<ObjLists>
    decreases |lines|
  {
    if |lines| == 0 then Ok(l)
    else
      match ApplyLine(l, lines[0], sc)
      case Ok(l') => ParseLines(l', lines[1..], sc)
      case AssertionFailed(bad) => AssertionFailed(bad)
  }

  /** The lists load_mesh_from_file has built when it closes the file. */
  function ParseObj(stream: seq<char>, sc: Scanner): Result<ObjLists> {
    ParseLines(EmptyLists, Lines(stream, 0), sc)
  }

  /** Lines that match none of the four prefixes change nothing. */
  lemma OtherLinesIgnored(l: ObjLists, line: seq<char>, sc: Scanner)
    requires !HasPrefix(line, "v ") && !HasPrefix(line, "vt ")
    requires !HasPrefix(line, "vn ") && !HasPrefix(line, "f ")
    ensures ApplyLine(l, line, sc) == Ok(l)
  {
  }

  /** A texcoord or normal line never touches the positions. */
  lemma AttributeLinesKeepPositions(l: ObjLists, line: seq<char>, sc: Scanner)
    requires HasPrefix(line, "vt ") || HasPrefix(line, "vn ")
    ensures ApplyLine(l, line, sc).Ok? ==> ApplyLine(l, line, sc).value.positions == l.positions
  {
    AttributeLinesAreNotPositions(line);
  }

  /** An accepted face line appends exactly three entries to each index
      list, each one less than the parsed value, and nothing else changes. */
  lemma FaceLineAppendsThree(l: ObjLists, line: seq<char>, sc: Scanner)
    requires HasPrefix(line, "f ")
    requires sc.face(line[2..]).items == 3 || sc.face(line[2..]).items == 9
    ensures ApplyLine(l, line, sc).Ok?
    ensures var l' := ApplyLine(l, line, sc).value;
            var r := sc.face(line[2..]);
            && |l'.positionIndex| == |l.positionIndex| + 3
            && |l'.texcoordIndex| == |l.texcoordIndex| + 3
            && |l'.normalIndex| == |l.normalIndex| + 3
            && l'.positionIndex[..|l.positionIndex|] == l.positionIndex
            && l'.texcoordIndex[..|l.texcoordIndex|] == l.texcoordIndex
            && l'.normalIndex[..|l.normalIndex|] == l.normalIndex
            && (forall i :: 0 <= i < 3 ==>
                  && l'.positionIndex[|l.positionIndex| + i] == r.position[i] - 1
                  && l'.texcoordIndex[|l.texcoordIndex| + i] == r.texcoord[i] - 1
                  && l'.normalIndex[|l.normalIndex| + i] == r.normal[i] - 1)
            && l'.positions == l.positions && l'.texcoords == l.texcoords && l'.normals == l.normals
  {
    assert !HasPrefix(line, "v ") && !HasPrefix(line, "vt ") && !HasPrefix(line, "vn ") by {
      assert line[0] == 'f';
    }
  }

  /** A face line whose scan reports 3 items is accepted although the
      active format has 9 fields. */
  lemma ThreeItemFaceAccepted(l: ObjLists, line: seq<char>, sc: Scanner)
    requires HasPrefix(line, "f ") && sc.face(line[2..]).items == 3
    ensures ApplyLine(l, line, sc).Ok?
  {
    FaceLineAppendsThree(l, line, sc);
  }

  /** The three index lists stay the same length through the whole load. */
  lemma {:induction false} ParseLinesAligned(l: ObjLists, lines: seq<seq<char>>, sc: Scanner)
    requires IndexListsAligned(l)
    ensures ParseLines(l, lines, sc).Ok? ==> IndexListsAligned(ParseLines(l, lines, sc).value)
    decreases |lines|
  {
    if |lines| > 0 {
      match ApplyLine(l, lines[0], sc)
      case Ok(l') =>
        assert IndexListsAligned(l');
        ParseLinesAligned(l', lines[1..], sc);
      case AssertionFailed(_) =>
    }
  }

  /** The body of the first loop of load_mesh_from_file (src/mesh.c:58-90)
      on one line: sscanf, the item-count assertion and the pushes. */
  method DispatchLine(l: ObjLists, text: seq<char>, sc: Scanner) returns (r: Result<ObjLists>)
    ensures r == ApplyLine(l, text, sc)
  {
    var kind := Classify(text);
    if kind == PositionLine {
      var scan := sc.vector3(text[2..]);
      if scan.items != 3 {
        return AssertionFailed(text);
      }
      r := Ok(l.(positions := l.positions + [scan.value]));
    } else if kind == TexcoordLine {
      var scan := sc.vector2(text[3..]);
      if scan.items != 2 {
        return AssertionFailed(text);
      }
      r := Ok(l.(texcoords := l.texcoords + [scan.value]));
    } else if kind == NormalLine {
      var scan := sc.vector3(text[3..]);
      if scan.items != 3 {
        return AssertionFailed(text);
      }
      r := Ok(l.(normals := l.normals + [scan.value]));
    } else if kind == FaceLine {
      var scan := sc.face(text[2..]);
      if !(scan.items == 3 || scan.items == 9) {
        return AssertionFailed(text);
      }
      var positionIndex, texcoordIndex, normalIndex := l.positionIndex, l.texcoordIndex, l.normalIndex;
      for i := 0 to 3
        invariant positionIndex == l.positionIndex + ZeroBased(scan.position)[..i]
        invariant texcoordIndex == l.texcoordIndex + ZeroBased(scan.texcoord)[..i]
        invariant normalIndex == l.normalIndex + ZeroBased(scan.normal)[..i]
      {
        positionIndex := positionIndex + [scan.position[i] - 1];
        texcoordIndex := texcoordIndex + [scan.texcoord[i] - 1];
        normalIndex := normalIndex + [scan.normal[i] - 1];
      }
      assert ZeroBased(scan.position)[..3] == ZeroBased(scan.position);
      assert ZeroBased(scan.texcoord)[..3] == ZeroBased(scan.texcoord);
      assert ZeroBased(scan.normal)[..3] == ZeroBased(scan.normal);
      r := Ok(l.(positionIndex := positionIndex, texcoordIndex := texcoordIndex,
                 normalIndex := normalIndex));
    } else {
      r := Ok(l);
    }
  }

  /** The first loop of load_mesh_from_file (src/mesh.c:54-93): read lines
      until read_line returns NULL. */
  method ReadObjLists(stream: seq<char>, sc: Scanner) returns (r: Result<ObjLists>)
    ensures r == ParseObj(stream, sc)
  {
    var lists := EmptyLists;
    var pos := 0;
    while true
      invariant pos <= |stream|
      invariant ParseObj(stream, sc) == ParseLines(lists, Lines(stream, pos), sc)
      decreases |stream| - pos
    {
      var line, next := ReadLine(stream, pos);
      NextLineShape(stream, pos);
      if line.None? {
        return Ok(lists);
      }
      assert Lines(stream, pos) == [line.value] + Lines(stream, next);
      var applied := DispatchLine(lists, line.value, sc);
      if applied.AssertionFailed? {
        return applied;
      }
      lists := applied.value;
      pos := next;
    }
  }

  // ---------------------------------------------------------------------
  // Flattening (src/mesh.c:95-112)
  // ---------------------------------------------------------------------

  /** struct Vertex (src/mesh.h). */
  datatype Vertex = Vertex(position: Vector3, texcoord: Vector2, normal: Vector3)

  /** The fields of struct Mesh that the loader fills from the file. */
  datatype MeshData = MeshData(vertices: seq<Vertex>, numVertices: nat, indices: seq<nat>, numIndices: nat)

  /** Every face index refers to an existing attribute (the source reads
      out of bounds otherwise). */
  predicate IndicesInRange(l: ObjLists) {
    && IndexListsAligned(l)
    && (forall i :: 0 <= i < |l.positionIndex| ==> 0 <= l.positionIndex[i] < |l.positions|)
    && (forall i :: 0 <= i < |l.texcoordIndex| ==> 0 <= l.texcoordIndex[i] < |l.texcoords|)
    && (forall i :: 0 <= i < |l.normalIndex| ==> 0 <= l.normalIndex[i] < |l.normals|)
  }

  /** Reference definition of the de-indexed mesh: one vertex per position
      index, and the index buffer 0, 1, ..., 3n-1. */
  function Flattened(l: ObjLists): (m: MeshData)
    requires IndicesInRange(l)
  {
    var n := |l.positionIndex|;
    MeshData(
      seq(n, i requires 0 <= i < n =>
        Vertex(l.positions[l.positionIndex[i]], l.texcoords[l.texcoordIndex[i]],
               l.normals[l.normalIndex[i]])),
      n,
      seq(3 * n, j => j),
      3 * n)
  }

  /** The vertex loop of src/mesh.c:96-112, with its running `offset`. */
  method BuildMesh(l: ObjLists) returns (m: MeshData)
    requires IndicesInRange(l)
    ensures m == Flattened(l)
    ensures m.numVertices == |l.positionIndex| && m.numIndices == 3 * m.numVertices
    ensures |m.vertices| == m.numVertices && |m.indices| == m.numIndices
    ensures forall i :: 0 <= i < m.numVertices ==>
      m.vertices[i] == Vertex(l.positions[l.positionIndex[i]], l.texcoords[l.texcoordIndex[i]],
                              l.normals[l.normalIndex[i]])
    ensures forall j :: 0 <= j < m.numIndices ==> m.indices[j] == j
  {
    var numVertices := |l.positionIndex|;
    var numIndices := 3 * numVertices;
    var vertices: seq<Vertex> := [];
    var indices: seq<nat> := [];
    var offset: nat := 0;
    for i := 0 to numVertices
      invariant offset == 3 * i
      invariant vertices == Flattened(l).vertices[..i]
      invariant indices == seq(3 * i, j => j)
    {
      var vertex := Vertex(l.positions[l.positionIndex[i]], l.texcoords[l.texcoordIndex[i]],
                           l.normals[l.normalIndex[i]]);
      vertices := vertices + [vertex];
      indices := indices + [0 + offset];
      indices := indices + [1 + offset];
      indices := indices + [2 + offset];
      offset := offset + 3;
    }
    m := MeshData(vertices, numVertices, indices, numIndices);
  }

  /** The index buffer runs to 3n-1 for n vertices: every index from n on
      points past the vertex array. */
  lemma IndicesExceedVertexCount(l: ObjLists)
    requires IndicesInRange(l)
    requires |l.positionIndex| > 0
    ensures var m := Flattened(l);
            && m.numIndices == 3 * m.numVertices
            && m.indices[m.numIndices - 1] == 3 * m.numVertices - 1
            && (forall j :: m.numVertices <= j < m.numIndices ==> m.indices[j] >= |m.vertices|)
  {
  }

  /** The de-indexing part of load_mesh_from_file: the lists, then the mesh. */
  method LoadMeshFromFile(stream: seq<char>, sc: Scanner) returns (r: Result<MeshData>)
    requires ParseObj(stream, sc).Ok? ==> IndicesInRange(ParseObj(stream, sc).value)
    ensures r.Ok? <==> ParseObj(stream, sc).Ok?
    ensures r.AssertionFailed? ==> r == AssertionFailed(ParseObj(stream, sc).line)
    ensures r.Ok? ==> r.value == Flattened(ParseObj(stream, sc).value)
  {
    var lists := ReadObjLists(stream, sc);
    if lists.AssertionFailed? {
      return AssertionFailed(lists.line);
    }
    var mesh := BuildMesh(lists.value);
    return Ok(mesh);
  }
}

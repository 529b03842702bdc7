/**
 * A surface material and the reader of Wavefront `.mtl` files that fills
 * it. The file is given as its sequence of lines; number parsing and the
 * directory of the file are parameters (`float.Parse` may fail, which the
 * reader reports). The reader takes the first material of the file only.
 */
module Materials {
  import opened Algebra
  import opened Outcomes
  import opened Text

  /** A material; the texture is recorded by the path it is loaded from. */
  datatype Material = Material(
    name: string,
    ambient: Vec3,
    diffuse: Vec3,
    specular: Vec3,
    shininess: real,
    alpha: real,
    texture: Option<string>)

  /** `new Material()`. */
  function NewMaterial(): (m: Material)
    ensures m.name == "" && m.texture == None
    ensures m.ambient == Vec3(0.0, 0.0, 0.0) && m.diffuse == Vec3(1.0, 1.0, 1.0) && m.specular == Vec3(0.4, 0.4, 0.4)
    ensures m.shininess == 1.0 && m.alpha == 1.0
  {
    Material("", Vec3(0.0, 0.0, 0.0), Vec3(1.0, 1.0, 1.0), Vec3(0.4, 0.4, 0.4), 1.0, 1.0, None)
  }

  datatype ParseError =
    | WrongParameterCount(key: string)     // a colour line without exactly three numbers
    | BadNumber(token: string)             // a token `float.Parse` rejects

  /** `float.Parse`: a number, or nothing for a token it rejects. */
  type Parser = string -> Option<real>

  /** The line prefixes the reader acts on. */
  const CommentPrefix := "#"
  const NewMaterialKey := "newmtl "
  const AmbientKey := "Ka "
  const DiffuseKey := "Kd "
  const SpecularKey := "Ks "
  const ShininessKey := "Ns "
  const AlphaKey := "d "
  const TextureKey := "map_Kd "

  /** A line the reader skips before looking at any key: a comment or an empty line. */
  predicate Skipped(line: string) {
    StartsWith(line, CommentPrefix) || line == ""
  }

  /** A line that starts with a key ending in a space has at least two pieces. */
  lemma KeyLineHasTwoPieces(line: string, key: string)
    requires |key| > 0 && key[|key| - 1] == ' ' && StartsWith(line, key)
    ensures |Split(line, ' ')| >= 2
  {
    assert line[|key| - 1] == ' ';
  }

  /** The state after a line: the material so far, and whether reading has stopped. */
  datatype Progress = Progress(material: Material, done: bool)

  /** Parses one token. */
  function Number(token: string, parse: Parser): (r: Result<real, ParseError>)
    ensures r.Success? <==> parse(token).Some?
    ensures r.Success? ==> r.value == parse(token).value
    ensures r.Failure? ==> r.error == BadNumber(token)
  {
    match parse(token)
    case Some(x) => Success(x)
    case None => Failure(BadNumber(token))
  }

  /** A colour line: exactly four pieces, the last three parsed as x, y and z in turn. */
  function Colour(key: string, line: string, parse: Parser): (r: Result<Vec3, ParseError>)
    ensures |Split(line, ' ')| != 4 ==> r == Failure(WrongParameterCount(key))
    ensures r.Success? ==>
      var t := Split(line, ' ');
      && |t| == 4
      && parse(t[1]).Some? && parse(t[2]).Some? && parse(t[3]).Some?
      && r.value == Vec3(parse(t[1]).value, parse(t[2]).value, parse(t[3]).value)
    ensures var t := Split(line, ' ');
      |t| == 4 ==> (r.Success? <==> parse(t[1]).Some? && parse(t[2]).Some? && parse(t[3]).Some?)
    ensures var t := Split(line, ' ');
      |t| == 4 && r.Failure? ==>
        r.error == BadNumber(if parse(t[1]).None? then t[1] else if parse(t[2]).None? then t[2] else t[3])
  {
    var t := Split(line, ' ');
    if |t| != 4 then Failure(WrongParameterCount(key))
    else
      var x :- Number(t[1], parse);
      var y :- Number(t[2], parse);
      var z :- Number(t[3], parse);
      Success(Vec3(x, y, z))
  }

  /** The last piece of a line. */
  function LastPiece(line: string): string {
    var t := Split(line, ' ');
    t[|t| - 1]
  }

  /** The outcome of a line that stores a parsed value: its error, or the material it sets, with reading going on. */
  function Continue<T>(x: Result<T, ParseError>, store: T -> Material): (r: Result<Progress, ParseError>)
    ensures r.Success? <==> x.Success?
    ensures x.Success? ==> r.value == Progress(store(x.value), false)
    ensures x.Failure? ==> r.error == x.error
  {
    match x
    case Success(v) => Success(Progress(store(v), false))
    case Failure(e) => Failure(e)
  }

  /** A line starts with at most one key; the first two characters tell them apart. */
  lemma KeysExclusive(line: string)
    ensures StartsWith(line, NewMaterialKey) ==> line[0] == 'n'
    ensures StartsWith(line, AmbientKey) ==> line[..2] == "Ka"
    ensures StartsWith(line, DiffuseKey) ==> line[..2] == "Kd"
    ensures StartsWith(line, SpecularKey) ==> line[..2] == "Ks"
    ensures StartsWith(line, ShininessKey) ==> line[0] == 'N'
    ensures StartsWith(line, AlphaKey) ==> line[0] == 'd'
    ensures StartsWith(line, TextureKey) ==> line[0] == 'm'
    ensures Skipped(line) ==> line == [] || line[0] == '#'
  {
    if StartsWith(line, AmbientKey) { assert line[..2] == AmbientKey[..2]; }
    if StartsWith(line, DiffuseKey) { assert line[..2] == DiffuseKey[..2]; }
    if StartsWith(line, SpecularKey) { assert line[..2] == SpecularKey[..2]; }
  }

  /**
   * Reads one line into the material (reading has not stopped). A skipped or
   * unknown line changes nothing; `newmtl` names an unnamed material and
   * stops at a named one; each other key stores its parsed value in its own
   * field, or fails the read with the parse error (the lemmas below state
   * each key's outcome).
   */
  function ReadLine(m: Material, line: string, parse: Parser, directory: string): (r: Result<Progress, ParseError>)
    ensures Skipped(line) ==> r == Success(Progress(m, false))
    ensures r.Success? && r.value.done <==> !Skipped(line) && StartsWith(line, NewMaterialKey) && m.name != ""
  {
    if Skipped(line) then Success(Progress(m, false))
    else if StartsWith(line, NewMaterialKey) then
      if m.name != "" then Success(Progress(m, true))
      else
        KeyLineHasTwoPieces(line, NewMaterialKey);
        Success(Progress(m.(name := Split(line, ' ')[1]), false))
    else if StartsWith(line, AmbientKey) then
      var v :- Colour("Ka", line, parse);
      Success(Progress(m.(ambient := v), false))
    else if StartsWith(line, DiffuseKey) then
      var v :- Colour("Kd", line, parse);
      Success(Progress(m.(diffuse := v), false))
    else if StartsWith(line, SpecularKey) then
      var v :- Colour("Ks", line, parse);
      Success(Progress(m.(specular := v), false))
    else if StartsWith(line, ShininessKey) then
      KeyLineHasTwoPieces(line, ShininessKey);
      var q :- Number(Split(line, ' ')[1], parse);
      Success(Progress(m.(shininess := q), false))
    else if StartsWith(line, AlphaKey) then
      var a :- Number(LastPiece(line), parse);
      Success(Progress(m.(alpha := a), false))
    else if StartsWith(line, TextureKey) then
      Success(Progress(m.(texture := Some(directory + LastPiece(line))), false))
    else
      Success(Progress(m, false))
  }

  /** Reads lines until they run out, a second material starts, or a line fails. */
  function Read(m: Material, lines: seq<string>, parse: Parser, directory: string): Result<Progress, ParseError>
    decreases |lines|
  {
    if lines == [] then Success(Progress(m, false))
    else
      var p :- ReadLine(m, lines[0], parse, directory);
      if p.done then Success(p) else Read(p.material, lines[1..], parse, directory)
  }

  /** `Material.FromFile`: the first material the lines describe, over the defaults. */
  function FromLines(lines: seq<string>, parse: Parser, directory: string): (r: Result<Material, ParseError>)
    ensures lines == [] ==> r == Success(NewMaterial())
  {
    var p :- Read(NewMaterial(), lines, parse, directory);
    Success(p.material)
  }

  /** Reading a concatenation reads the first part, then, unless it stopped, the second. */
  lemma {:induction false} ReadAppend(m: Material, a: seq<string>, b: seq<string>, parse: Parser, directory: string)
    ensures Read(m, a + b, parse, directory) ==
      match Read(m, a, parse, directory)
      case Failure(e) => Failure(e)
      case Success(p) => if p.done then Success(p) else Read(p.material, b, parse, directory)
    decreases |a|
  {
    if a == [] {
      assert a + b == b;
    } else {
      assert (a + b)[0] == a[0];
      assert (a + b)[1..] == a[1..] + b;
      var first := ReadLine(m, a[0], parse, directory);
      if first.Success? && !first.value.done {
        ReadAppend(first.value.material, a[1..], b, parse, directory);
      }
    }
  }

  /** A comment or empty line anywhere in the file changes nothing. */
  lemma SkippedLineIsIrrelevant(pre: seq<string>, line: string, post: seq<string>, parse: Parser, directory: string)
    requires Skipped(line)
    ensures FromLines(pre + [line] + post, parse, directory) == FromLines(pre + post, parse, directory)
  {
    var m := NewMaterial();
    assert pre + [line] + post == pre + ([line] + post);
    ReadAppend(m, pre, [line] + post, parse, directory);
    ReadAppend(m, pre, post, parse, directory);
    var r := Read(m, pre, parse, directory);
    if r.Success? && !r.value.done {
      assert ([line] + post)[1..] == post;
    }
  }

  /**
   * Once a material has a name, the next `newmtl` line ends the reading: what
   * follows it is never looked at.
   */
  lemma SecondMaterialIsIgnored(pre: seq<string>, line: string, post: seq<string>, parse: Parser, directory: string)
    requires StartsWith(line, NewMaterialKey)
    requires var r := Read(NewMaterial(), pre, parse, directory);
      r.Success? && !r.value.done && r.value.material.name != ""
    ensures FromLines(pre + [line] + post, parse, directory) == FromLines(pre, parse, directory)
  {
    var m := NewMaterial();
    assert pre + [line] + post == pre + ([line] + post);
    ReadAppend(m, pre, [line] + post, parse, directory);
    assert line[0] == 'n';
    assert !Skipped(line);
  }

  /** A `newmtl` line names a material that has no name yet with its second piece, and reading goes on. */
  lemma NewMaterialNamesUnnamed(m: Material, line: string, parse: Parser, directory: string)
    requires StartsWith(line, NewMaterialKey) && m.name == ""
    ensures |Split(line, ' ')| >= 2
    ensures ReadLine(m, line, parse, directory) == Success(Progress(m.(name := Split(line, ' ')[1]), false))
  {
    KeysExclusive(line);
    KeyLineHasTwoPieces(line, NewMaterialKey);
  }

  /** A colour line stores its colour in the field of its key, or fails the read with the colour's error. */
  lemma ColourLineStores(m: Material, line: string, parse: Parser, directory: string)
    ensures StartsWith(line, AmbientKey) ==>
      ReadLine(m, line, parse, directory) == Continue(Colour("Ka", line, parse), v => m.(ambient := v))
    ensures StartsWith(line, DiffuseKey) ==>
      ReadLine(m, line, parse, directory) == Continue(Colour("Kd", line, parse), v => m.(diffuse := v))
    ensures StartsWith(line, SpecularKey) ==>
      ReadLine(m, line, parse, directory) == Continue(Colour("Ks", line, parse), v => m.(specular := v))
  {
    KeysExclusive(line);
  }

  /** `Ns` stores its second piece as the shininess, and `d` its last piece as the alpha, or the read fails. */
  lemma NumberLineStores(m: Material, line: string, parse: Parser, directory: string)
    ensures StartsWith(line, ShininessKey) ==>
      |Split(line, ' ')| >= 2 &&
      ReadLine(m, line, parse, directory) == Continue(Number(Split(line, ' ')[1], parse), q => m.(shininess := q))
    ensures StartsWith(line, AlphaKey) ==>
      ReadLine(m, line, parse, directory) == Continue(Number(LastPiece(line), parse), a => m.(alpha := a))
  {
    KeysExclusive(line);
    if StartsWith(line, ShininessKey) {
      KeyLineHasTwoPieces(line, ShininessKey);
    }
  }

  /** A `map_Kd` line always succeeds, recording the directory followed by its last piece. */
  lemma TextureLineStores(m: Material, line: string, parse: Parser, directory: string)
    requires StartsWith(line, TextureKey)
    ensures ReadLine(m, line, parse, directory) == Success(Progress(m.(texture := Some(directory + LastPiece(line))), false))
  {
    KeysExclusive(line);
  }

  /** A colour line without exactly four pieces fails the whole read, naming its key. */
  lemma ColourNeedsThreeNumbers(m: Material, line: string, parse: Parser, directory: string)
    requires StartsWith(line, AmbientKey) || StartsWith(line, DiffuseKey) || StartsWith(line, SpecularKey)
    requires |Split(line, ' ')| != 4
    ensures ReadLine(m, line, parse, directory) == Failure(WrongParameterCount(line[..2]))
  {
    KeysExclusive(line);
  }

  /** The pieces of a `d -halo` line. */
  lemma HaloLinePieces(value: string)
    requires ' ' !in value
    ensures Split("d -halo " + value, ' ') == ["d", "-halo", value]
  {
    var pieces := ["d", "-halo", value];
    assert Join([value], ' ') == value;
    assert pieces[1..] == ["-halo", value];
    assert ["-halo", value][1..] == [value];
    assert Join(pieces, ' ') == "d -halo " + value;
    SplitJoin(pieces, ' ');
  }

  /** The alpha line takes its last piece, so a `-halo` flag before the value is passed over. */
  lemma AlphaTakesLastPiece(m: Material, value: string, parse: Parser, directory: string)
    requires ' ' !in value && parse(value).Some?
    ensures ReadLine(m, "d -halo " + value, parse, directory) == Success(Progress(m.(alpha := parse(value).value), false))
  {
    var line := "d -halo " + value;
    HaloLinePieces(value);
    assert LastPiece(line) == value;
    assert line[0] == 'd' && line[1] == ' ';
    assert !Skipped(line) && !StartsWith(line, NewMaterialKey);
    assert !StartsWith(line, AmbientKey) && !StartsWith(line, DiffuseKey) && !StartsWith(line, SpecularKey);
    assert !StartsWith(line, ShininessKey);
    assert StartsWith(line, AlphaKey) by { assert line[..2] == "d "; }
  }

  /** The texture path is the directory name followed directly by the last piece, with no separator added. */
  lemma TexturePathIsConcatenated(m: Material, file: string, parse: Parser, directory: string)
    requires ' ' !in file
    ensures ReadLine(m, "map_Kd " + file, parse, directory) == Success(Progress(m.(texture := Some(directory + file)), false))
  {
    var line := "map_Kd " + file;
    SplitJoin(["map_Kd", file], ' ');
    assert ["map_Kd", file][1..] == [file];
    assert Join(["map_Kd", file], ' ') == line;
    assert line[0] == 'm';
    assert StartsWith(line, TextureKey) by { assert line[..7] == "map_Kd "; }
  }

  /**
   * The key a line sets, or "" for a line that sets none, tested in the order
   * `ReadLine` tests them. The reader does not use it: it only states the two
   * lemmas that follow.
   */
  function KeyOf(line: string): string {
    if Skipped(line) || StartsWith(line, NewMaterialKey) then ""
    else if StartsWith(line, AmbientKey) then AmbientKey
    else if StartsWith(line, DiffuseKey) then DiffuseKey
    else if StartsWith(line, SpecularKey) then SpecularKey
    else if StartsWith(line, ShininessKey) then ShininessKey
    else if StartsWith(line, AlphaKey) then AlphaKey
    else if StartsWith(line, TextureKey) then TextureKey
    else ""
  }

  /** A line that starts with none of the keys leaves the material as it was. */
  lemma UnknownLineIsIgnored(m: Material, line: string, parse: Parser, directory: string)
    requires KeyOf(line) == "" && !StartsWith(line, NewMaterialKey)
    ensures ReadLine(m, line, parse, directory) == Success(Progress(m, false))
  {
  }

  /** Of two lines setting the same key, the later one wins: the earlier one leaves no trace. */
  lemma RepeatedKeyOverwrites(m: Material, first: string, second: string, parse: Parser, directory: string)
    requires KeyOf(first) != "" && KeyOf(first) == KeyOf(second)
    requires ReadLine(m, first, parse, directory).Success?
    ensures ReadLine(ReadLine(m, first, parse, directory).value.material, second, parse, directory) ==
      ReadLine(m, second, parse, directory)
  {
    var m1 := ReadLine(m, first, parse, directory).value.material;
    var k := KeyOf(first);
    if k == AmbientKey {
      assert m1 == m.(ambient := m1.ambient);
    } else if k == DiffuseKey {
      assert m1 == m.(diffuse := m1.diffuse);
    } else if k == SpecularKey {
      assert m1 == m.(specular := m1.specular);
    } else if k == ShininessKey {
      assert m1 == m.(shininess := m1.shininess);
    } else if k == AlphaKey {
      assert m1 == m.(alpha := m1.alpha);
    } else {
      assert m1 == m.(texture := m1.texture);
    }
  }
}

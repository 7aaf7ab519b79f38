/**
 * Reading and writing the solar-system data file, lll/solar_input.py. The
 * file is given as its lines; opening, reading and writing it is not
 * modelled, and what the writer puts out is the record of each line
 * rather than its text.
 *
 * Reading goes line by line: blank and comment lines are passed over, the
 * first word (in any case) names the kind of body, the body parses its own
 * fields, and a planet or satellite has its ID multiplied by 11 (the file
 * ID plus ten times it), which the model uses to pair bodies with centres.
 */
module SolarInput {
  import opened Wrappers
  import opened SolarText
  import opened SolarObjects

  /** What a body holds once read: its class, its fields and V_tg. */
  datatype Body = Body(kind: Kind, fields: Fields, speed: Option<real>)

  function BodyOf(o: CosmicBody): Body
    reads o
  {
    Body(o.kind, o.Record(), o.speed)
  }

  function Bodies(objs: seq<CosmicBody>): (r: seq<Body>)
    reads objs
    ensures |r| == |objs| && forall k :: 0 <= k < |objs| ==> r[k] == BodyOf(objs[k])
  {
    if objs == [] then [] else Bodies(objs[..|objs| - 1]) + [BodyOf(objs[|objs| - 1])]
  }

  /** The reader passes over a line that is blank after `strip` or whose very first character is '#'. */
  predicate Passed(line: string)
  {
    Strip(line) == [] || line[0] == '#'
  }

  /** `parts[0].lower()` against the three type words. */
  function KindOf(word: string): (r: Option<Kind>)
    ensures r == Some(StarKind) <==> Lower(word) == "star"
    ensures r == Some(PlanetKind) <==> Lower(word) == "planet"
    ensures r == Some(SateliteKind) <==> Lower(word) == "satelite"
  {
    var w := Lower(word);
    if w == "star" then Some(StarKind)
    else if w == "planet" then Some(PlanetKind)
    else if w == "satelite" then Some(SateliteKind)
    else None
  }

  /**
   * What the reader makes of the tokens of a line that is not passed
   * over. The last token is read as the ID first, so a line whose last
   * token is not an integer raises ValueError whatever its type word; an
   * unknown type word then adds nothing; a known one adds a body whose
   * fields are the tokens, a star with its file ID and a planet or
   * satellite with 11 times it and its V_tg.
   */
  function DecodeTokens(parts: seq<string>): (r: Result<Option<Body>>)
    requires parts != []
    ensures ParseInt(parts[|parts| - 1]).None? ==> r == Err(ValueError)
    ensures ParseInt(parts[|parts| - 1]).Some? && KindOf(parts[0]).None? ==> r == Ok(None)
    ensures r.Ok? && r.value.Some? ==>
      var b, id := r.value.value, ParseInt(parts[|parts| - 1]).value;
      Some(b.kind) == KindOf(parts[0]) && ParseBody(parts) == Ok(b.fields.(ID := id))
      && b.fields.ID == (if b.kind == StarKind then id else 11 * id)
      && (b.speed.Some? <==> IsPlanet(b.kind))
      && (IsPlanet(b.kind) ==> |parts| > 6 && b.speed == ParseFloat(parts[6]))
    ensures KindOf(parts[0]).Some? && ParseInt(parts[|parts| - 1]).Some? && ParseBody(parts).Err? ==> r == Err(ParseBody(parts).error)
  {
    match ParseInt(parts[|parts| - 1])
    case None => Err(ValueError)
    case Some(id) =>
      match KindOf(parts[0])
      case None => Ok(None)
      case Some(kind) =>
        match DecodeBody(kind, parts)
        case Err(e) => Err(e)
        case Ok(b) =>
          if kind == StarKind then Ok(Some(b))
          else Ok(Some(b.(fields := b.fields.(ID := b.fields.ID + id * 10))))
  }

  /** What the parser of a body of the given kind makes of the tokens: the fields, and V_tg = float(parts[6]) for a planet or satellite. */
  function DecodeBody(kind: Kind, parts: seq<string>): Result<Body>
    requires parts != []
  {
    match ParseBody(parts)
    case Err(e) => Err(e)
    case Ok(f) =>
      if kind == StarKind then Ok(Body(StarKind, f, None))
      else if |parts| < 7 then Err(IndexError)
      else
        match ParseFloat(parts[6])
        case None => Err(ValueError)
        case Some(v) => Ok(Body(kind, f, Some(v)))
  }

  /** One line: nothing for a passed line, otherwise what its tokens give. */
  function DecodeLine(line: string): Result<Option<Body>>
  {
    if Passed(line) then Ok(None)
    else
      StripBlank(line);
      SplitBlank(line);
      DecodeTokens(Split(line))
  }

  /** Adds what one line gives to what the lines before it gave; the first exception stops the reading. */
  function Extend(sofar: Result<seq<Body>>, next: Result<Option<Body>>): Result<seq<Body>>
  {
    match sofar
    case Err(e) => Err(e)
    case Ok(bs) =>
      match next
      case Err(e) => Err(e)
      case Ok(None) => Ok(bs)
      case Ok(Some(b)) => Ok(bs + [b])
  }

  /** `read_space_objects_data_from_file` on the lines of the file. */
  function Decode(lines: seq<string>): Result<seq<Body>>
  {
    if lines == [] then Ok([])
    else Extend(Decode(lines[..|lines| - 1]), DecodeLine(lines[|lines| - 1]))
  }

  /** The reading of two files one after the other. */
  function Chain(first: Result<seq<Body>>, second: Result<seq<Body>>): Result<seq<Body>>
  {
    match first
    case Err(e) => Err(e)
    case Ok(a) =>
      match second
      case Err(e) => Err(e)
      case Ok(b) => Ok(a + b)
  }

  /**
   * Reading is line by line: the bodies of a file are those of its first
   * part followed by those of the rest, in file order, and an exception in
   * the first part is the one raised.
   */
  lemma {:induction false} DecodeAppend(a: seq<string>, b: seq<string>)
    ensures Decode(a + b) == Chain(Decode(a), Decode(b))
    decreases |b|
  {
    if b == [] {
      assert a + b == a;
      ChainNothing(Decode(a));
    } else {
      var b' := b[..|b| - 1];
      assert (a + b)[..|a + b| - 1] == a + b';
      assert (a + b)[|a + b| - 1] == b[|b| - 1];
      DecodeAppend(a, b');
      ChainExtend(Decode(a), Decode(b'), DecodeLine(b[|b| - 1]));
    }
  }

  lemma ChainNothing(x: Result<seq<Body>>)
    ensures Chain(x, Ok([])) == x
  {
    match x
    case Err(_) =>
    case Ok(bs) => assert bs + [] == bs;
  }

  /** Adding a line's result after chaining is adding it to the second part. */
  lemma ChainExtend(x: Result<seq<Body>>, y: Result<seq<Body>>, d: Result<Option<Body>>)
    ensures Extend(Chain(x, y), d) == Chain(x, Extend(y, d))
  {
    match x
    case Err(_) =>
    case Ok(u) =>
      match y
      case Err(_) =>
      case Ok(v) =>
        match d
        case Err(_) =>
        case Ok(None) =>
        case Ok(Some(z)) => assert u + v + [z] == u + (v + [z]);
  }

  /** A line that gives nothing (a passed line, an unknown type word) can be taken out without changing the result. */
  lemma QuietLine(a: seq<string>, line: string, b: seq<string>)
    requires DecodeLine(line) == Ok(None)
    ensures Decode(a + [line] + b) == Decode(a + b)
  {
    DecodeAppend(a + [line], b);
    DecodeAppend(a, [line]);
    DecodeAppend(a, b);
    assert [line][..0] == [];
    match Decode(a)
    case Err(_) =>
    case Ok(x) => assert x + [] == x;
  }

  /** A blank or comment line adds no object wherever it stands in the file. */
  lemma PassedLineAddsNothing(a: seq<string>, line: string, b: seq<string>)
    requires Strip(line) == [] || (line != [] && line[0] == '#')
    ensures Decode(a + [line] + b) == Decode(a + b)
  {
    QuietLine(a, line, b);
  }

  /**
   * A line the reader does not pass over has tokens, and when its first
   * word is a type word, the line `strip` leaves does not start with '#',
   * so the body's parser does not pass over it either.
   */
  lemma ParsedLine(line: string)
    requires !Passed(line)
    ensures Split(line) != []
    ensures KindOf(Split(line)[0]).Some? ==> !Skipped(line)
  {
    StripBlank(line);
    SplitBlank(line);
    StripHead(line);
    var w := Split(line)[0];
    if KindOf(w).Some? {
      assert Lower(w)[0] == 's' || Lower(w)[0] == 'p';
    }
  }

  /**
   * `read_space_objects_data_from_file`: the objects of the file's
   * lines, each new, in file order, or the exception the first bad line
   * raises, as Decode says.
   */
  method ReadSpaceObjects(lines: seq<string>) returns (res: Result<seq<CosmicBody>>)
    ensures res.Ok? <==> Decode(lines).Ok?
    ensures res.Err? ==> res.error == Decode(lines).error
    ensures res.Ok? ==> (Bodies(res.value) == Decode(lines).value && Distinct(res.value)
      && forall o :: o in res.value ==> fresh(o))
  {
    var objects: seq<CosmicBody> := [];
    for i := 0 to |lines|
      invariant Decode(lines[..i]) == Ok(Bodies(objects))
      invariant Distinct(objects) && forall o :: o in objects ==> fresh(o)
    {
      DecodeNext(lines, i);
      var next := ReadStep(lines[i], objects);
      if next.Err? {
        StopsAtError(lines, i + 1);
        return Err(next.error);
      }
      objects := next.value;
    }
    assert lines[..|lines|] == lines;
    res := Ok(objects);
  }

  /** One round of the reading loop: the objects so far, with the new one appended when the line gives a body. */
  method ReadStep(line: string, objects: seq<CosmicBody>) returns (next: Result<seq<CosmicBody>>)
    requires Distinct(objects)
    ensures next.Err? ==> Extend(Ok(Bodies(objects)), DecodeLine(line)) == Err(next.error)
    ensures next.Ok? ==> (Extend(Ok(Bodies(objects)), DecodeLine(line)) == Ok(Bodies(next.value)) && Distinct(next.value)
      && forall o :: o in next.value ==> o in objects || fresh(o))
  {
    var r := ReadLine(line);
    if r.Err? {
      return Err(r.error);
    }
    if r.value.Some? {
      var body := r.value.value;
      assert Bodies(objects + [body]) == Bodies(objects) + [BodyOf(body)];
      return Ok(objects + [body]);
    }
    next := Ok(objects);
  }

  lemma DecodeNext(lines: seq<string>, i: nat)
    requires i < |lines|
    ensures Decode(lines[..i + 1]) == Extend(Decode(lines[..i]), DecodeLine(lines[i]))
  {
    assert lines[..i + 1][..i] == lines[..i];
  }

  /** An exception in the first n lines is the result of the whole file. */
  lemma StopsAtError(lines: seq<string>, n: nat)
    requires n <= |lines| && Decode(lines[..n]).Err?
    ensures Decode(lines) == Decode(lines[..n])
  {
    DecodeAppend(lines[..n], lines[n..]);
    assert lines[..n] + lines[n..] == lines;
  }

  /** The body of the reading loop for one line: what DecodeLine gives, with a new object for a body. */
  method ReadLine(line: string) returns (r: Result<Option<CosmicBody>>)
    ensures r.Err? <==> DecodeLine(line).Err?
    ensures r.Err? ==> r.error == DecodeLine(line).error
    ensures r.Ok? ==> (r.value.None? <==> DecodeLine(line).value.None?)
    ensures r.Ok? && r.value.Some? ==> fresh(r.value.value) && BodyOf(r.value.value) == DecodeLine(line).value.value
  {
    if Strip(line) == [] || line[0] == '#' {
      return Ok(None);
    }
    ParsedLine(line);
    r := ReadTokens(line);
  }

  /** The loop body past the `continue`: the tokens of the line decide, as DecodeTokens says. */
  method ReadTokens(line: string) returns (r: Result<Option<CosmicBody>>)
    requires Split(line) != [] && (KindOf(Split(line)[0]).Some? ==> !Skipped(line))
    ensures r.Err? <==> DecodeTokens(Split(line)).Err?
    ensures r.Err? ==> r.error == DecodeTokens(Split(line)).error
    ensures r.Ok? ==> (r.value.None? <==> DecodeTokens(Split(line)).value.None?)
    ensures r.Ok? && r.value.Some? ==> fresh(r.value.value) && BodyOf(r.value.value) == DecodeTokens(Split(line)).value.value
  {
    var parts := Split(line);
    var last := ParseInt(parts[|parts| - 1]);
    if last.None? {
      return Err(ValueError);
    }
    var id := last.value * 10;
    var kind := KindOf(parts[0]);
    if kind.None? {
      return Ok(None);
    }
    var made := NewBody(kind.value, line);
    if made.Err? {
      return Err(made.error);
    }
    var body := made.value;
    TokensDecoded(parts, last.value, kind.value, BodyOf(body));
    if kind.value != StarKind {
      body.ID := body.ID + id;
    }
    r := Ok(Some(body));
  }

  /** The tokens of a known type word whose body parses decode to that body, with its ID raised for a planet or satellite. */
  lemma TokensDecoded(parts: seq<string>, id: int, kind: Kind, b: Body)
    requires parts != [] && ParseInt(parts[|parts| - 1]) == Some(id) && KindOf(parts[0]) == Some(kind)
    requires DecodeBody(kind, parts) == Ok(b)
    ensures DecodeTokens(parts) == Ok(Some(if kind == StarKind then b else b.(fields := b.fields.(ID := b.fields.ID + id * 10))))
  {
  }

  /** `Star()`, `Planet()` or `Satelite()` and its parser on a line that is not passed over, as DecodeBody says. */
  method NewBody(kind: Kind, line: string) returns (r: Result<CosmicBody>)
    requires !Skipped(line)
    ensures Split(line) != []
    ensures r.Err? <==> DecodeBody(kind, Split(line)).Err?
    ensures r.Err? ==> r.error == DecodeBody(kind, Split(line)).error
    ensures r.Ok? ==> fresh(r.value) && BodyOf(r.value) == DecodeBody(kind, Split(line)).value
  {
    UnskippedTokens(line);
    var parts := Split(line);
    var body := new CosmicBody(kind);
    var res: Result<()>;
    if kind == StarKind {
      res := body.ParseCosmicBodyParameters(line);
    } else {
      res := body.ParsePlanetParameters(line);
    }
    if res.Err? {
      return Err(res.error);
    }
    AssignedComplete(parts, Fields(0, [], 0.0, 0.0, 0.0, 0));
    r := Ok(body);
  }

  /** Which branch of `write_space_objects_data_to_file` an object takes. */
  datatype Branch = PlanetBranch | StarBranch | SateliteBranch

  /**
   * The writer tests `isinstance(obj, Planet)` first, which a satellite
   * passes, so the satellite branch is never taken.
   */
  function WriterBranch(kind: Kind): (r: Option<Branch>)
    ensures r != Some(SateliteBranch)
    ensures r == Some(PlanetBranch) <==> IsPlanet(kind)
    ensures r == Some(StarBranch) <==> kind == StarKind
  {
    if IsPlanet(kind) then Some(PlanetBranch)
    else if kind == StarKind then Some(StarBranch)
    else if kind == SateliteKind then Some(SateliteBranch)
    else None
  }

  /** The record of a written "Star" line. */
  datatype Written = StarLine(R: int, color: string, m: real, x: real, y: real)

  /**
   * `write_space_objects_data_to_file` on the list: each star gives its
   * line; the planet branch formats `obj.Vx`, which no body has, so the
   * first planet or satellite ends the writing with AttributeError after
   * the lines of the stars before it.
   */
  method WriteSpaceObjects(objs: seq<CosmicBody>) returns (out: seq<Written>, res: Result<()>)
    ensures res.Ok? <==> forall k :: 0 <= k < |objs| ==> objs[k].kind == StarKind
    ensures res.Err? ==> res.error == AttributeError && |out| < |objs| && IsPlanet(objs[|out|].kind)
    ensures res.Ok? ==> |out| == |objs|
    ensures |out| <= |objs| && forall k :: 0 <= k < |out| ==>
      objs[k].kind == StarKind && out[k] == StarLine(objs[k].R, objs[k].color, objs[k].m, objs[k].x, objs[k].y)
  {
    out := [];
    for i := 0 to |objs|
      invariant |out| == i && forall k :: 0 <= k < i ==>
        objs[k].kind == StarKind && out[k] == StarLine(objs[k].R, objs[k].color, objs[k].m, objs[k].x, objs[k].y)
    {
      var o := objs[i];
      if WriterBranch(o.kind) == Some(PlanetBranch) {
        return out, Err(AttributeError);
      }
      // the star branch, since no object reaches the satellite one
      out := out + [StarLine(o.R, o.color, o.m, o.x, o.y)];
    }
    res := Ok(());
  }
}

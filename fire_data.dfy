/**
 * scripts/apis/fire-data.js: the FIRMS CSV filter, the simulated fire list,
 * the fetch fallback, and the registration of one 'Queimada' marker per fire.
 */
module FireData {
  import opened Prelude
  import opened Scene

  // ----- String.prototype.split and String.prototype.trim -----

  /** `s.split(c)`: the pieces between occurrences of `c`; always at least one. */
  function Split(s: string, c: char): (r: seq<string>)
    ensures |r| >= 1
    ensures forall i :: 0 <= i < |r| ==> c !in r[i]
  {
    if s == [] then [""]
    else
      var t := Split(s[1..], c);
      if s[0] == c then [""] + t else [[s[0]] + t[0]] + t[1..]
  }

  /** The pieces put back together with `c` between them. */
  function Join(pieces: seq<string>, c: char): string
    requires |pieces| >= 1
  {
    if |pieces| == 1 then pieces[0] else pieces[0] + [c] + Join(pieces[1..], c)
  }

  /** Splitting loses nothing: joining the pieces gives back the text. */
  lemma {:induction false} SplitJoin(s: string, c: char)
    ensures Join(Split(s, c), c) == s
  {
    if s != [] {
      var t := Split(s[1..], c);
      SplitJoin(s[1..], c);
      if s[0] != c {
        var r := [[s[0]] + t[0]] + t[1..];
        assert r[1..] == t[1..];
        if |t| > 1 {
          assert t == [t[0]] + t[1..];
          assert Join(t, c) == t[0] + [c] + Join(t[1..], c);
        }
      }
    }
  }

  /** Splitting at an occurrence of the separator concatenates the pieces of both sides. */
  lemma {:induction false} SplitAt(s: string, c: char, rest: string)
    ensures Split(s + [c] + rest, c) == Split(s, c) + Split(rest, c)
  {
    if s == [] {
      assert s + [c] + rest == [c] + rest;
    } else {
      assert (s + [c] + rest)[1..] == s[1..] + [c] + rest;
      SplitAt(s[1..], c, rest);
    }
  }

  /** Text without the separator is a single piece. */
  lemma {:induction false} SplitNoSeparator(s: string, c: char)
    requires c !in s
    ensures Split(s, c) == [s]
  {
    if s != [] {
      SplitNoSeparator(s[1..], c);
      assert [s[0]] + s[1..] == s;
    }
  }

  /** A first line without `c` followed by `c` is split off as the first piece. */
  lemma SplitFirstLine(h: string, c: char, rest: string)
    requires c !in h
    ensures Split(h + [c] + rest, c) == [h] + Split(rest, c)
  {
    SplitAt(h, c, rest);
    SplitNoSeparator(h, c);
  }

  /** The characters `trim()` strips: ECMAScript white space and line terminators. */
  predicate IsSpace(ch: char)
  {
    ch in {' ', '\t', '\n', '\r', '\U{000B}', '\U{000C}', '\U{00A0}', '\U{1680}',
      '\U{2000}', '\U{2001}', '\U{2002}', '\U{2003}', '\U{2004}', '\U{2005}', '\U{2006}', '\U{2007}',
      '\U{2008}', '\U{2009}', '\U{200A}', '\U{2028}', '\U{2029}', '\U{202F}', '\U{205F}', '\U{3000}',
      '\U{FEFF}'}
  }

  function TrimStart(s: string): (r: string)
    ensures |r| <= |s| && r == s[|s| - |r|..]
    ensures r == [] || !IsSpace(r[0])
    ensures forall i :: 0 <= i < |s| - |r| ==> IsSpace(s[i])
  {
    if s != [] && IsSpace(s[0]) then TrimStart(s[1..]) else s
  }

  function TrimEnd(s: string): (r: string)
    ensures |r| <= |s| && r == s[..|r|]
    ensures r == [] || !IsSpace(r[|r| - 1])
    ensures forall i :: |r| <= i < |s| ==> IsSpace(s[i])
  {
    if s != [] && IsSpace(s[|s| - 1]) then TrimEnd(s[..|s| - 1]) else s
  }

  /** `s.trim()`: a slice of `s` without white space at either end. */
  function Trim(s: string): (r: string)
    ensures |r| <= |s|
    ensures r == [] || (!IsSpace(r[0]) && !IsSpace(r[|r| - 1]))
  {
    TrimEnd(TrimStart(s))
  }

  /** No white space at either end. */
  predicate IsTrimmed(s: string)
  {
    s == [] || (!IsSpace(s[0]) && !IsSpace(s[|s| - 1]))
  }

  /** Trimmed text is its own trim. */
  lemma TrimmedAlready(s: string)
    requires IsTrimmed(s)
    ensures Trim(s) == s
  {
    assert TrimStart(s) == s;
  }

  /** Trimming leaves nothing exactly when the text is all white space. */
  lemma TrimEmptyIff(s: string)
    ensures Trim(s) == [] <==> forall i :: 0 <= i < |s| ==> IsSpace(s[i])
  {
    var a := TrimStart(s);
    if TrimEnd(a) == [] {
      assert a == [];
    }
  }

  // ----- parseCSVToFires -----

  /**
   * A fire record. FIRMS rows set `lat`/`lon`, simulated fires set
   * `latitude`/`longitude`; a key that is absent reads as NaN.
   */
  datatype Fire = Fire(lat: JsNumber, lon: JsNumber, latitude: JsNumber, longitude: JsNumber,
    brightness: JsNumber, confidence: JsNumber)

  /**
   * The record one CSV line yields, if any: a trimmed line that is non-empty
   * and has at least four comma-separated fields. `parse` is parseFloat.
   */
  function RowFire(line: string, parse: string -> JsNumber): (r: Option<Fire>)
    ensures r.Some? <==> Trim(line) != "" && |Split(Trim(line), ',')| >= 4
    ensures r.Some? ==> var cols := Split(Trim(line), ',');
      r.value == Fire(parse(cols[0]), parse(cols[1]), NaN, NaN, parse(cols[2]), parse(cols[3]))
  {
    var t := Trim(line);
    if t == "" then None
    else
      var cols := Split(t, ',');
      if |cols| >= 4 then Some(Fire(parse(cols[0]), parse(cols[1]), NaN, NaN, parse(cols[2]), parse(cols[3]))) else None
  }

  /** The records of `lines`, in order, one per kept line. */
  function Rows(lines: seq<string>, parse: string -> JsNumber): seq<Fire>
  {
    if lines == [] then []
    else
      var r := RowFire(lines[|lines| - 1], parse);
      Rows(lines[..|lines| - 1], parse) + (if r.Some? then [r.value] else [])
  }

  /** What parseCSVToFires returns: the rows of every line but the first. */
  function ParsedFires(csv: string, parse: string -> JsNumber): seq<Fire>
  {
    Rows(Split(csv, '\n')[1..], parse)
  }

  /** One more line after the header adds its record, if it yields one. */
  lemma RowsStep(lines: seq<string>, i: int, parse: string -> JsNumber)
    requires 1 <= i < |lines|
    ensures Rows(lines[1..i + 1], parse) == Rows(lines[1..i], parse) +
      (if RowFire(lines[i], parse).Some? then [RowFire(lines[i], parse).value] else [])
  {
    assert lines[1..i + 1][..i - 1] == lines[1..i];
  }

  /** parseCSVToFires: the header line is skipped, then every kept line gives one record. */
  method ParseCSVToFires(csv: string, parse: string -> JsNumber) returns (fires: seq<Fire>)
    ensures fires == ParsedFires(csv, parse)
    ensures |fires| <= |Split(csv, '\n')| - 1
  {
    var lines := Split(csv, '\n');
    fires := [];
    var i := 1;
    while i < |lines|
      invariant 1 <= i <= |lines|
      invariant fires == Rows(lines[1..i], parse)
    {
      RowsStep(lines, i, parse);
      var line := Trim(lines[i]);
      if line != "" {
        var columns := Split(line, ',');
        if |columns| >= 4 {
          fires := fires + [Fire(parse(columns[0]), parse(columns[1]), NaN, NaN, parse(columns[2]), parse(columns[3]))];
        }
      }
      i := i + 1;
    }
    assert lines[1..i] == lines[1..];
    RowsLength(lines[1..], parse);
  }

  /** At most one record per line. */
  lemma {:induction false} RowsLength(lines: seq<string>, parse: string -> JsNumber)
    ensures |Rows(lines, parse)| <= |lines|
  {
    if lines != [] {
      RowsLength(lines[..|lines| - 1], parse);
    }
  }

  /** Rows of a concatenation are the concatenated rows: the input order is kept. */
  lemma {:induction false} RowsConcat(a: seq<string>, b: seq<string>, parse: string -> JsNumber)
    ensures Rows(a + b, parse) == Rows(a, parse) + Rows(b, parse)
  {
    if b != [] {
      assert (a + b)[..|a + b| - 1] == a + b[..|b| - 1];
      RowsConcat(a, b[..|b| - 1], parse);
    } else {
      assert a + b == a;
    }
  }

  /** Lines that are empty or white space give no record. */
  lemma BlankLineSkipped(line: string, parse: string -> JsNumber)
    requires forall i :: 0 <= i < |line| ==> IsSpace(line[i])
    ensures Rows([line], parse) == []
  {
    TrimEmptyIff(line);
    assert [line][..0] == [];
  }

  /** Whatever the header says, it is never parsed: only the lines after it matter. */
  lemma HeaderSkipped(header: string, body: string, parse: string -> JsNumber)
    requires '\n' !in header
    ensures ParsedFires(header + "\n" + body, parse) == Rows(Split(body, '\n'), parse)
  {
    SplitFirstLine(header, '\n', body);
  }

  /** Four fields without commas, joined by commas, split back into the same four fields. */
  lemma SplitFour(a: string, b: string, c: string, d: string)
    requires ',' !in a && ',' !in b && ',' !in c && ',' !in d
    ensures Split(a + [','] + (b + [','] + (c + [','] + d)), ',') == [a, b, c, d]
  {
    SplitNoSeparator(d, ',');
    SplitFirstLine(c, ',', d);
    SplitFirstLine(b, ',', c + [','] + d);
    SplitFirstLine(a, ',', b + [','] + (c + [','] + d));
  }

  /** The example row "10.5,-20.3,310.2,85.0" splits into its four fields. */
  lemma ExampleRowFields(line: string)
    requires line == "10.5" + "," + "-20.3,310.2,85.0"
    ensures Split(line, ',') == ["10.5", "-20.3", "310.2", "85.0"]
  {
    assert line == "10.5" + [','] + ("-20.3" + [','] + ("310.2" + [','] + "85.0"));
    SplitFour("10.5", "-20.3", "310.2", "85.0");
  }

  /** The FIRMS row "10.5,-20.3,310.2,85.0" gives lat 10.5, lon -20.3, brightness 310.2, confidence 85.0. */
  lemma ExampleRow(line: string, parse: string -> JsNumber)
    requires line == "10.5" + "," + "-20.3,310.2,85.0"
    requires parse("10.5") == Num(10.5) && parse("-20.3") == Num(-20.3)
    requires parse("310.2") == Num(310.2) && parse("85.0") == Num(85.0)
    ensures RowFire(line, parse) == Some(Fire(Num(10.5), Num(-20.3), NaN, NaN, Num(310.2), Num(85.0)))
  {
    ExampleRowTrimmed(line);
    TrimmedAlready(line);
    ExampleRowFields(line);
  }

  lemma ExampleRowTrimmed(line: string)
    requires line == "10.5" + "," + "-20.3,310.2,85.0"
    ensures IsTrimmed(line)
  {
    assert line[0] == '1' && line[|line| - 1] == '0';
  }

  /** Appending a field to a non-empty trimmed row keeps it trimmed. */
  lemma AppendFieldStaysTrimmed(line: string, extra: string)
    requires line != [] && IsTrimmed(line) && IsTrimmed(extra)
    ensures IsTrimmed(line + [','] + extra)
  {
    var t := line + [','] + extra;
    assert t[0] == line[0];
    if extra == [] {
      assert t[|t| - 1] == ',';
    } else {
      assert t[|t| - 1] == extra[|extra| - 1];
    }
  }

  /** A trimmed row's fifth and later fields do not matter. */
  lemma ExtraFieldsIgnored(line: string, extra: string, parse: string -> JsNumber)
    requires IsTrimmed(line) && |Split(line, ',')| >= 4
    requires IsTrimmed(extra)
    ensures RowFire(line + [','] + extra, parse) == RowFire(line, parse)
  {
    var t := line + [','] + extra;
    assert line != [];
    AppendFieldStaysTrimmed(line, extra);
    TrimmedAlready(line);
    TrimmedAlready(t);
    SplitAt(line, ',', extra);
    var a, b := Split(t, ','), Split(line, ',');
    assert a[0] == b[0] && a[1] == b[1] && a[2] == b[2] && a[3] == b[3];
  }

  // ----- generateSimulatedFireData -----

  /** The draws of one simulated fire that reach its record's lat, lon, confidence and brightness. */
  datatype FireDraws = FireDraws(lat: Draw, lon: Draw, confidence: Draw, brightness: Draw)

  /** One simulated record: keys `latitude`/`longitude`, so `lat`/`lon` are absent. */
  function SimulatedFire(ds: FireDraws): (f: Fire)
    ensures f.lat == NaN && f.lon == NaN
    ensures f.latitude.Num? && -90.0 <= f.latitude.v < 90.0
    ensures f.longitude.Num? && -180.0 <= f.longitude.v < 180.0
  {
    Fire(NaN, NaN, Num((ds.lat - 0.5) * 180.0), Num((ds.lon - 0.5) * 360.0),
      Num(RoundTo1(300.0 + ds.brightness * 200.0)), Num(RoundTo1(ds.confidence * 100.0)))
  }

  /** `Math.floor(r * 20) + 5`. */
  function SimulatedFireCount(r: Draw): (n: int)
    ensures 5 <= n <= 24
  {
    Floor(r * 20.0) + 5
  }

  /** generateSimulatedFireData: between 5 and 24 records, record i drawn with `draws(i)`. */
  method GenerateSimulatedFireData(r: Draw, draws: nat -> FireDraws) returns (fires: seq<Fire>)
    ensures |fires| == SimulatedFireCount(r) && 5 <= |fires| <= 24
    ensures forall i :: 0 <= i < |fires| ==> fires[i] == SimulatedFire(draws(i))
  {
    var fireCount := SimulatedFireCount(r);
    fires := [];
    var i := 0;
    while i < fireCount
      invariant 0 <= i <= fireCount && |fires| == i
      invariant forall j :: 0 <= j < i ==> fires[j] == SimulatedFire(draws(j))
    {
      fires := fires + [SimulatedFire(draws(i))];
      i := i + 1;
    }
  }

  /** How the FIRMS request went: failed, or the CSV text of the response. */
  datatype FireFetch = FireFailed | FireCsv(text: string)

  /** fetchFireData: never throws; any failure falls back to the simulated list. */
  method FetchFireData(outcome: FireFetch, parse: string -> JsNumber, r: Draw, draws: nat -> FireDraws)
    returns (fires: seq<Fire>)
    ensures outcome.FireCsv? ==> fires == ParsedFires(outcome.text, parse)
    ensures outcome.FireFailed? ==> (|fires| == SimulatedFireCount(r) && 5 <= |fires| <= 24 &&
      forall i :: 0 <= i < |fires| ==> fires[i] == SimulatedFire(draws(i)))
  {
    if outcome.FireCsv? {
      fires := ParseCSVToFires(outcome.text, parse);
    } else {
      fires := GenerateSimulatedFireData(r, draws);
    }
  }

  // ----- addFirePointsToGlobe -----

  const FireColor := 0xff4500

  /** The `userData` of a fire marker: it reads `lat`/`lon`, not `latitude`/`longitude`. */
  function FirePointData(f: Fire): (u: PointData)
    ensures u.name == Some("Queimada") && u.kind == Some("fire") && u.iface.None?
    ensures u.lat == f.lat && u.lon == f.lon && u.brightness == f.brightness && u.confidence == f.confidence
  {
    Blank.(name := Some("Queimada"), kind := Some("fire"), lat := f.lat, lon := f.lon,
      brightness := f.brightness, confidence := f.confidence)
  }

  /** The marker of a fire; `proj` is the fire projection (radius 1.01). */
  function FireNode(f: Fire, proj: (JsNumber, JsNumber) -> Vec3): Node
  {
    Node(FirePointData(f), proj(f.lat, f.lon), FireColor)
  }

  /**
   * addFirePointsToGlobe: nothing without a globe or for an empty list;
   * otherwise one marker per record, in order, with no interface.
   */
  method AddFirePointsToGlobe(g: Globe?, fires: seq<Fire>, proj: (JsNumber, JsNumber) -> Vec3)
    modifies g
    ensures g != null ==> (|g.nodes| == |old(g.nodes)| + |fires| && g.nodes[..|old(g.nodes)|] == old(g.nodes) &&
      forall i :: 0 <= i < |fires| ==> g.nodes[|old(g.nodes)| + i] == FireNode(fires[i], proj))
  {
    if g == null || |fires| == 0 {
      return;
    }
    var start := g.nodes;
    var i := 0;
    while i < |fires|
      invariant 0 <= i <= |fires|
      invariant |g.nodes| == |start| + i && g.nodes[..|start|] == start
      invariant forall j :: 0 <= j < i ==> g.nodes[|start| + j] == FireNode(fires[j], proj)
    {
      g.nodes := g.nodes + [FireNode(fires[i], proj)];
      i := i + 1;
    }
  }

  /** A simulated fire's marker has NaN coordinates: its record used other keys. */
  lemma SimulatedFireMarkerHasNoCoordinates(ds: FireDraws, proj: (JsNumber, JsNumber) -> Vec3)
    ensures FireNode(SimulatedFire(ds), proj).user.lat == NaN && FireNode(SimulatedFire(ds), proj).user.lon == NaN
  {
  }

  /**
   * All fire markers share the name 'Queimada', so a lookup by that name
   * after adding fires finds only the last one added.
   */
  lemma {:induction false} FireLookupFindsLastFire(before: seq<Node>, fires: seq<Fire>, proj: (JsNumber, JsNumber) -> Vec3)
    requires fires != []
    ensures var after := before + seq(|fires|, i requires 0 <= i < |fires| => FireNode(fires[i], proj));
      LastPositionNamed(after, Some("Queimada")) == proj(fires[|fires| - 1].lat, fires[|fires| - 1].lon)
  {
    var after := before + seq(|fires|, i requires 0 <= i < |fires| => FireNode(fires[i], proj));
    assert after[|after| - 1] == FireNode(fires[|fires| - 1], proj);
  }

  /** The fire counter after integrateFireData: `${n} ativos`. */
  function FireCountLabel(fires: seq<Fire>): nat
  {
    |fires|
  }

  /**
   * integrateFireData: fetch, count and register. fetchFireData never
   * throws, so the counter always shows the number of records.
   */
  method IntegrateFireData(g: Globe?, outcome: FireFetch, parse: string -> JsNumber, r: Draw,
      draws: nat -> FireDraws, proj: (JsNumber, JsNumber) -> Vec3) returns (shown: nat)
    modifies g
    ensures g != null ==> (|g.nodes| == |old(g.nodes)| + shown && g.nodes[..|old(g.nodes)|] == old(g.nodes))
    ensures outcome.FireFailed? ==> shown == SimulatedFireCount(r) && 5 <= shown <= 24
    ensures outcome.FireCsv? ==> shown == |ParsedFires(outcome.text, parse)|
    ensures g != null ==> forall i :: 0 <= i < shown ==>
      g.nodes[|old(g.nodes)| + i] == FireNode(if outcome.FireCsv? then ParsedFires(outcome.text, parse)[i] else SimulatedFire(draws(i)), proj)
  {
    var fires := FetchFireData(outcome, parse, r, draws);
    shown := FireCountLabel(fires);
    AddFirePointsToGlobe(g, fires, proj);
  }
}

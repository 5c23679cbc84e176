/** The station catalogue read from an FDSN station service in GeoCSV form:
    comment rows and the column header are skipped, rows with fewer than seven
    fields are ignored, the first row of every station code wins, and reading
    stops once `limit` stations are collected. The HTTP request and the CSV
    tokenisation are outside the model: the parser receives the rows as
    sequences of fields, and `float()` is the parameter `toFloat`. */
module Iris {
  import opened Models

  datatype IrisStation = IrisStation(
    network: string,
    code: string,
    latitude: real,
    longitude: real,
    elevationM: real,
    name: string)

  datatype FieldValue = Text(text: string) | Number(number: real)

  const DictKeys: set<string> := {"network", "code", "latitude", "longitude", "elevation_m", "name"}

  /** `IrisStation.dict`: the six constructor fields under their own names. */
  function AsDict(s: IrisStation): (d: map<string, FieldValue>)
    ensures d.Keys == DictKeys
  {
    map["network" := Text(s.network), "code" := Text(s.code),
        "latitude" := Number(s.latitude), "longitude" := Number(s.longitude),
        "elevation_m" := Number(s.elevationM), "name" := Text(s.name)]
  }

  /** Reads a station back from its dictionary, if every field has its kind. */
  function FromDict(d: map<string, FieldValue>): Option<IrisStation>
  {
    if && "network" in d && d["network"].Text? && "code" in d && d["code"].Text?
       && "latitude" in d && d["latitude"].Number? && "longitude" in d && d["longitude"].Number?
       && "elevation_m" in d && d["elevation_m"].Number? && "name" in d && d["name"].Text?
    then Some(IrisStation(d["network"].text, d["code"].text, d["latitude"].number,
                          d["longitude"].number, d["elevation_m"].number, d["name"].text))
    else None
  }

  /** The dictionary holds every field unchanged: reading it back gives the
      station, so distinct stations give distinct dictionaries. */
  lemma AsDictRoundTrip(s: IrisStation)
    ensures FromDict(AsDict(s)) == Some(s)
  {
  }

  lemma {:induction false} AsDictInjective(s: IrisStation, t: IrisStation)
    requires AsDict(s) == AsDict(t)
    ensures s == t
  {
    AsDictRoundTrip(s);
    AsDictRoundTrip(t);
  }

  type Row = seq<string>

  /** `not row or row[0].startswith("#")`. */
  predicate IsSkippable(row: Row)
  {
    row == [] || (|row[0]| > 0 && row[0][0] == '#')
  }

  /** The rows that are neither empty nor comments, in order. */
  function NonComment(rows: seq<Row>): (r: seq<Row>)
    ensures |r| <= |rows|
    ensures forall k :: 0 <= k < |r| ==> !IsSkippable(r[k])
  {
    if rows == [] then []
    else
      var init, last := rows[..|rows| - 1], rows[|rows| - 1];
      NonComment(init) + if IsSkippable(last) then [] else [last]
  }

  /** The rows with at least seven fields (the unpacking that succeeds). */
  function LongRows(rows: seq<Row>): (r: seq<Row>)
    ensures |r| <= |rows|
    ensures forall k :: 0 <= k < |r| ==> |r[k]| >= 7
  {
    if rows == [] then []
    else
      var init, last := rows[..|rows| - 1], rows[|rows| - 1];
      LongRows(init) + if |last| >= 7 then [last] else []
  }

  /** The data rows a station can come from: non-comment rows after the first
      one (the column header, whatever it holds) that have seven fields. */
  function Candidates(rows: seq<Row>): (r: seq<Row>)
    ensures HasFields(r)
  {
    var nc := NonComment(rows);
    if nc == [] then [] else LongRows(nc[1..])
  }

  predicate HasFields(rows: seq<Row>)
  {
    forall k :: 0 <= k < |rows| ==> |rows[k]| >= 7
  }

  /** Some row of `rows` has station code (field 1) `code`. */
  predicate CodeIn(rows: seq<Row>, code: string)
    requires HasFields(rows)
  {
    exists k :: 0 <= k < |rows| && rows[k][1] == code
  }

  /** Each row whose code no earlier row has, in order. */
  function FirstByCode(s: seq<Row>): (r: seq<Row>)
    requires HasFields(s)
    ensures |r| <= |s| && HasFields(r)
  {
    if s == [] then []
    else
      var init, last := s[..|s| - 1], s[|s| - 1];
      assert forall k :: 0 <= k < |init| ==> init[k] == s[k];
      var r0 := FirstByCode(init);
      r0 + if CodeIn(init, last[1]) then [] else [last]
  }

  lemma {:induction false} FirstByCodeSnoc(s: seq<Row>, x: Row)
    requires HasFields(s) && |x| >= 7
    ensures FirstByCode(s + [x]) == FirstByCode(s) + if CodeIn(s, x[1]) then [] else [x]
  {
    assert (s + [x])[..|s|] == s;
  }

  lemma CodeInSnoc(s: seq<Row>, x: Row, code: string)
    requires HasFields(s) && |x| >= 7
    ensures CodeIn(s + [x], code) <==> CodeIn(s, code) || x[1] == code
  {
    if CodeIn(s, code) {
      var k :| 0 <= k < |s| && s[k][1] == code;
      assert (s + [x])[k] == s[k];
    }
    if x[1] == code {
      assert (s + [x])[|s|] == x;
    }
  }

  /** The same codes occur before and after keeping first rows only. */
  lemma {:induction false} FirstByCodeKeepsCodes(s: seq<Row>, code: string)
    requires HasFields(s)
    ensures CodeIn(FirstByCode(s), code) <==> CodeIn(s, code)
  {
    if s != [] {
      var init, last := s[..|s| - 1], s[|s| - 1];
      assert s == init + [last];
      FirstByCodeSnoc(init, last);
      FirstByCodeKeepsCodes(init, code);
      CodeInSnoc(init, last, code);
      if CodeIn(init, last[1]) {
        assert FirstByCode(s) == FirstByCode(init);
      } else {
        CodeInSnoc(FirstByCode(init), last, code);
      }
    }
  }

  /** No two kept rows share a code. */
  lemma {:induction false} FirstByCodeDistinct(s: seq<Row>)
    requires HasFields(s)
    ensures forall k1, k2 :: 0 <= k1 < k2 < |FirstByCode(s)| ==> FirstByCode(s)[k1][1] != FirstByCode(s)[k2][1]
  {
    if s != [] {
      var init, last := s[..|s| - 1], s[|s| - 1];
      assert s == init + [last];
      FirstByCodeSnoc(init, last);
      FirstByCodeDistinct(init);
      var r0 := FirstByCode(init);
      if !CodeIn(init, last[1]) {
        FirstByCodeKeepsCodes(init, last[1]);
        assert forall k :: 0 <= k < |r0| ==> r0[k][1] != last[1];
      }
    }
  }

  /** Every kept row is the first row of the input with its code. */
  lemma {:induction false} FirstByCodeFirstWins(s: seq<Row>, k: nat)
    requires HasFields(s) && k < |FirstByCode(s)|
    ensures exists j :: 0 <= j < |s| && s[j] == FirstByCode(s)[k] && !CodeIn(s[..j], s[j][1])
  {
    var init, last := s[..|s| - 1], s[|s| - 1];
    assert s == init + [last];
    FirstByCodeSnoc(init, last);
    var r0 := FirstByCode(init);
    if k < |r0| {
      FirstByCodeFirstWins(init, k);
      var j :| 0 <= j < |init| && init[j] == r0[k] && !CodeIn(init[..j], init[j][1]);
      assert s[..j] == init[..j];
      assert s[j] == init[j];
    } else {
      assert FirstByCode(s)[k] == last;
      assert s[..|init|] == init;
    }
  }

  function Min(a: nat, b: nat): nat
  {
    if a <= b then a else b
  }

  /** The first `n` elements, or all of them when there are fewer. */
  function Take(s: seq<Row>, n: nat): (r: seq<Row>)
    ensures r <= s && |r| == Min(n, |s|)
  {
    s[..Min(n, |s|)]
  }

  /** The station built from one data row: fields 0 and 1 are the network and
      the code, fields 4 to 6 are converted by `float()`, which may fail. */
  function StationOf(row: Row, toFloat: string -> Option<real>): (r: Option<IrisStation>)
    requires |row| >= 7
    ensures r.Some? <==> toFloat(row[4]).Some? && toFloat(row[5]).Some? && toFloat(row[6]).Some?
    ensures r.Some? ==> r.value.network == row[0] && r.value.code == row[1]
    ensures r.Some? ==> r.value.name == r.value.network + "-" + r.value.code
    ensures r.Some? ==> r.value.latitude == toFloat(row[4]).value &&
                        r.value.longitude == toFloat(row[5]).value &&
                        r.value.elevationM == toFloat(row[6]).value
  {
    var lat, lon, elev := toFloat(row[4]), toFloat(row[5]), toFloat(row[6]);
    if lat.Some? && lon.Some? && elev.Some? then
      Some(IrisStation(row[0], row[1], lat.value, lon.value, elev.value, row[0] + "-" + row[1]))
    else None
  }

  const FloatError: string := "could not convert string to float"

  /** Stations for the given rows, or the conversion error of the first row
      whose coordinates do not parse. */
  function Convert(us: seq<Row>, toFloat: string -> Option<real>): (r: Result<seq<IrisStation>>)
    requires HasFields(us)
    ensures r.Ok? <==> forall k :: 0 <= k < |us| ==> StationOf(us[k], toFloat).Some?
    ensures r.Err? ==> r == Err(FloatError)
    ensures r.Ok? ==> |r.value| == |us| &&
                      forall k :: 0 <= k < |us| ==> Some(r.value[k]) == StationOf(us[k], toFloat)
  {
    if forall k :: 0 <= k < |us| ==> StationOf(us[k], toFloat).Some? then
      Ok(seq(|us|, k requires 0 <= k < |us| => StationOf(us[k], toFloat).value))
    else Err(FloatError)
  }

  function Max1(limit: int): nat
  {
    if limit < 1 then 1 else limit
  }

  /** The catalogue `fetch_station_catalog` returns for the rows of one
      response: the first row of each station code among the data rows, at
      most `max(limit, 1)` of them, converted in order. */
  function Catalog(rows: seq<Row>, limit: int, toFloat: string -> Option<real>): Result<seq<IrisStation>>
  {
    Convert(Take(FirstByCode(Candidates(rows)), Max1(limit)), toFloat)
  }

  /** The catalogue holds at most `max(limit, 1)` stations, no two with the
      same code, each named "<network>-<code>". */
  lemma {:induction false} CatalogShape(rows: seq<Row>, limit: int, toFloat: string -> Option<real>)
    requires Catalog(rows, limit, toFloat).Ok?
    ensures var r := Catalog(rows, limit, toFloat).value;
            && |r| <= Max1(limit)
            && (forall k1, k2 :: 0 <= k1 < k2 < |r| ==> r[k1].code != r[k2].code)
            && (forall k :: 0 <= k < |r| ==> r[k].name == r[k].network + "-" + r[k].code)
  {
    var all := FirstByCode(Candidates(rows));
    var kept := Take(all, Max1(limit));
    var r := Catalog(rows, limit, toFloat).value;
    FirstByCodeDistinct(Candidates(rows));
    assert |r| == |kept| <= |all|;
    forall k | 0 <= k < |r|
      ensures r[k].code == all[k][1]
    {
      assert Some(r[k]) == StationOf(kept[k], toFloat);
      assert kept[k] == all[k];
    }
    forall k1, k2 | 0 <= k1 < k2 < |r|
      ensures r[k1].code != r[k2].code
    {
      assert all[k1][1] != all[k2][1];
    }
  }

  /** Each station is built from the first data row carrying its code. */
  lemma {:induction false} CatalogFirstRowWins(rows: seq<Row>, limit: int, toFloat: string -> Option<real>, k: nat)
    requires Catalog(rows, limit, toFloat).Ok? && k < |Catalog(rows, limit, toFloat).value|
    ensures var c := Candidates(rows);
            exists j :: 0 <= j < |c| && Some(Catalog(rows, limit, toFloat).value[k]) == StationOf(c[j], toFloat) &&
                        !CodeIn(c[..j], c[j][1])
  {
    var c := Candidates(rows);
    var kept := Take(FirstByCode(c), Max1(limit));
    assert kept[k] == FirstByCode(c)[k];
    FirstByCodeFirstWins(c, k);
  }

  /** A non-positive limit still lets the first station through. */
  lemma {:induction false} NonPositiveLimitKeepsOne(rows: seq<Row>, limit: int, toFloat: string -> Option<real>)
    requires limit <= 0 && FirstByCode(Candidates(rows)) != []
    requires Catalog(rows, limit, toFloat).Ok?
    ensures |Catalog(rows, limit, toFloat).value| == 1
  {
  }

  lemma {:induction false} NonCommentAppend(a: seq<Row>, b: seq<Row>)
    ensures NonComment(a + b) == NonComment(a) + NonComment(b)
  {
    if b != [] {
      var init, last := b[..|b| - 1], b[|b| - 1];
      assert (a + b)[..|a + b| - 1] == a + init;
      NonCommentAppend(a, init);
    } else {
      assert a + b == a;
    }
  }

  lemma {:induction false} NonCommentDropsSkippable(rows: seq<Row>, i: nat)
    requires i < |rows| && IsSkippable(rows[i])
    ensures NonComment(rows[..i] + rows[i + 1..]) == NonComment(rows)
  {
    var a, x, b := rows[..i], rows[i], rows[i + 1..];
    assert rows == (a + [x]) + b;
    NonCommentAppend(a + [x], b);
    NonCommentAppend(a, [x]);
    NonCommentAppend(a, b);
    assert NonComment([x]) == [] by {
      assert [x][..0] == [];
    }
  }

  /** Dropping an empty or comment row anywhere leaves the catalogue as it is. */
  lemma {:induction false} CommentRowIgnored(rows: seq<Row>, i: nat, limit: int, toFloat: string -> Option<real>)
    requires i < |rows| && IsSkippable(rows[i])
    ensures Catalog(rows[..i] + rows[i + 1..], limit, toFloat) == Catalog(rows, limit, toFloat)
  {
    NonCommentDropsSkippable(rows, i);
    assert Candidates(rows[..i] + rows[i + 1..]) == Candidates(rows);
  }

  lemma {:induction false} AllSkippedGiveNothing(rows: seq<Row>)
    requires forall k :: 0 <= k < |rows| ==> IsSkippable(rows[k])
    ensures NonComment(rows) == []
  {
    if rows != [] {
      AllSkippedGiveNothing(rows[..|rows| - 1]);
    }
  }

  /** The first non-comment row is dropped as the header whatever it holds. */
  lemma {:induction false} HeaderContentIgnored(comments: seq<Row>, header: Row, rest: seq<Row>)
    requires forall k :: 0 <= k < |comments| ==> IsSkippable(comments[k])
    requires !IsSkippable(header)
    ensures Candidates(comments + [header] + rest) == LongRows(NonComment(rest))
  {
    AllSkippedGiveNothing(comments);
    NonCommentAppend(comments + [header], rest);
    NonCommentAppend(comments, [header]);
    assert NonComment([header]) == [header] by {
      assert [header][..0] == [];
    }
    var nc := NonComment(comments + [header] + rest);
    assert nc == [header] + NonComment(rest);
    assert nc[1..] == NonComment(rest);
  }

  lemma {:induction false} LongRowsSnoc(s: seq<Row>, x: Row)
    ensures LongRows(s + [x]) == LongRows(s) + if |x| >= 7 then [x] else []
  {
    assert (s + [x])[..|s|] == s;
  }

  lemma {:induction false} NonCommentStep(rows: seq<Row>, i: nat)
    requires i < |rows|
    ensures NonComment(rows[..i + 1]) == NonComment(rows[..i]) + if IsSkippable(rows[i]) then [] else [rows[i]]
  {
    assert rows[..i + 1][..i] == rows[..i];
  }

  /** Row `i` is a data row: a long, non-comment row after the header. */
  predicate IsDataRow(rows: seq<Row>, i: nat)
    requires i < |rows|
  {
    !IsSkippable(rows[i]) && NonComment(rows[..i]) != [] && |rows[i]| >= 7
  }

  /** Reading one more row adds it to the data rows exactly when it is one. */
  lemma {:induction false} CandidatesStep(rows: seq<Row>, i: nat)
    requires i < |rows|
    ensures Candidates(rows[..i + 1]) == Candidates(rows[..i]) + if IsDataRow(rows, i) then [rows[i]] else []
  {
    var x := rows[i];
    var nc := NonComment(rows[..i]);
    NonCommentStep(rows, i);
    if IsSkippable(x) {
      assert NonComment(rows[..i + 1]) == nc;
    } else if nc == [] {
      assert NonComment(rows[..i + 1]) == [x];
      assert Candidates(rows[..i + 1]) == LongRows([]);
    } else {
      assert NonComment(rows[..i + 1]) == nc + [x];
      assert (nc + [x])[1..] == nc[1..] + [x];
      LongRowsSnoc(nc[1..], x);
    }
  }

  /** The first rows per code found among the first `i` rows, built the way
      the scan builds its dictionary: one row at a time. */
  function Found(rows: seq<Row>, i: nat): (r: seq<Row>)
    requires i <= |rows|
    ensures HasFields(r)
    decreases i
  {
    if i == 0 then []
    else
      var f := Found(rows, i - 1);
      f + if IsDataRow(rows, i - 1) && !CodeIn(f, rows[i - 1][1]) then [rows[i - 1]] else []
  }

  lemma FoundStep(rows: seq<Row>, i: nat)
    requires i < |rows|
    ensures Found(rows, i + 1) ==
              Found(rows, i) + if IsDataRow(rows, i) && !CodeIn(Found(rows, i), rows[i][1]) then [rows[i]] else []
  {
  }

  lemma {:induction false} FoundAgreesStep(rows: seq<Row>, i: nat)
    requires i < |rows| && Found(rows, i) == FirstByCode(Candidates(rows[..i]))
    ensures Found(rows, i + 1) == FirstByCode(Candidates(rows[..i + 1]))
  {
    FoundStep(rows, i);
    CandidatesStep(rows, i);
    var c := Candidates(rows[..i]);
    if IsDataRow(rows, i) {
      FirstByCodeKeepsCodes(c, rows[i][1]);
      FirstByCodeSnoc(c, rows[i]);
    } else {
      assert Candidates(rows[..i + 1]) == c;
    }
  }

  /** The scan agrees with the declarative reading: the first row of each
      code among the data rows of the prefix. */
  lemma {:induction false} FoundIsFirstByCode(rows: seq<Row>, i: nat)
    requires i <= |rows|
    ensures Found(rows, i) == FirstByCode(Candidates(rows[..i]))
  {
    assert rows[..0] == [];
    assert NonComment([]) == [];
    var m := 0;
    while m < i
      invariant m <= i && Found(rows, m) == FirstByCode(Candidates(rows[..m]))
    {
      FoundAgreesStep(rows, m);
      m := m + 1;
    }
  }

  lemma {:induction false} FoundExtends(rows: seq<Row>, i: nat)
    requires i < |rows|
    ensures |Found(rows, i)| <= |Found(rows, i + 1)| && Found(rows, i) == Found(rows, i + 1)[..|Found(rows, i)|]
  {
    FoundStep(rows, i);
  }

  lemma PrefixOfExtension(u: seq<Row>, v: seq<Row>, w: seq<Row>)
    requires |u| <= |v| <= |w| && u == v[..|u|] && v == w[..|v|]
    ensures u == w[..|u|]
  {
  }

  lemma {:induction false} FoundGrows(rows: seq<Row>, i: nat, j: nat)
    requires i <= j <= |rows|
    ensures |Found(rows, i)| <= |Found(rows, j)| && Found(rows, i) == Found(rows, j)[..|Found(rows, i)|]
    decreases j - i
  {
    if i < j {
      var u, v, w := Found(rows, i), Found(rows, j - 1), Found(rows, j);
      FoundGrows(rows, i, j - 1);
      FoundExtends(rows, j - 1);
      PrefixOfExtension(u, v, w);
    }
  }

  lemma {:induction false} ConvertSnoc(us: seq<Row>, x: Row, toFloat: string -> Option<real>)
    requires HasFields(us) && |x| >= 7
    ensures Convert(us + [x], toFloat) ==
              if Convert(us, toFloat).Err? || StationOf(x, toFloat).None? then Err(FloatError)
              else Ok(Convert(us, toFloat).value + [StationOf(x, toFloat).value])
  {
    var ux := us + [x];
    assert forall k :: 0 <= k < |us| ==> ux[k] == us[k];
    assert ux[|us|] == x;
    if Convert(us, toFloat).Ok? && StationOf(x, toFloat).Some? {
      var r, r' := Convert(us, toFloat).value, Convert(ux, toFloat).value;
      assert r' == r + [StationOf(x, toFloat).value];
    } else if Convert(us, toFloat).Err? {
      var k :| 0 <= k < |us| && StationOf(us[k], toFloat).None?;
      assert StationOf(ux[k], toFloat).None?;
    }
  }

  /** Once the rows read so far yield `max(limit, 1)` stations, or all rows
      are read, the catalogue is what they yield. */
  lemma {:induction false} CatalogFromPrefix(rows: seq<Row>, i: nat, limit: int, toFloat: string -> Option<real>)
    requires i <= |rows| && |Found(rows, i)| <= Max1(limit)
    requires i == |rows| || |Found(rows, i)| == Max1(limit)
    ensures Catalog(rows, limit, toFloat) == Convert(Found(rows, i), toFloat)
  {
    FoundGrows(rows, i, |rows|);
    FoundIsFirstByCode(rows, |rows|);
    assert rows[..|rows|] == rows;
    assert Take(FirstByCode(Candidates(rows)), Max1(limit)) == Found(rows, i);
  }

  /** Reaching the limit completes the catalogue with what was collected. */
  lemma {:induction false} LimitReached(rows: seq<Row>, i: nat, stations: seq<IrisStation>, limit: int,
                                        toFloat: string -> Option<real>)
    requires i <= |rows| && Convert(Found(rows, i), toFloat) == Ok(stations)
    requires |stations| == |Found(rows, i)| && 0 < |stations| <= Max1(limit) && limit <= |stations|
    ensures Catalog(rows, limit, toFloat) == Ok(stations)
  {
    CatalogFromPrefix(rows, i, limit, toFloat);
  }

  /** A new station row whose coordinates do not parse fails the whole
      catalogue when fewer than `max(limit, 1)` stations precede it. */
  lemma {:induction false} CatalogFailsAt(rows: seq<Row>, i: nat, limit: int, toFloat: string -> Option<real>)
    requires i < |rows| && |rows[i]| >= 7 && |Found(rows, i)| < Max1(limit)
    requires Found(rows, i + 1) == Found(rows, i) + [rows[i]]
    requires StationOf(rows[i], toFloat).None?
    ensures Catalog(rows, limit, toFloat) == Err(FloatError)
  {
    var all := Found(rows, |rows|);
    var k := |Found(rows, i)|;
    FoundGrows(rows, i + 1, |rows|);
    assert k < |all| && all[k] == Found(rows, i + 1)[k] == rows[i];
    CatalogOfScan(rows, limit, toFloat);
    var kept := Take(all, Max1(limit));
    assert k < |kept| && kept[k] == rows[i];
    ConvertFailsAt(kept, k, toFloat);
  }

  /** The catalogue is the converted prefix of the completed scan. */
  lemma CatalogOfScan(rows: seq<Row>, limit: int, toFloat: string -> Option<real>)
    ensures Catalog(rows, limit, toFloat) == Convert(Take(Found(rows, |rows|), Max1(limit)), toFloat)
  {
    FoundIsFirstByCode(rows, |rows|);
    assert rows[..|rows|] == rows;
  }

  lemma ConvertFailsAt(us: seq<Row>, k: nat, toFloat: string -> Option<real>)
    requires HasFields(us) && k < |us| && StationOf(us[k], toFloat).None?
    ensures Convert(us, toFloat) == Err(FloatError)
  {
  }

  /** A row that is skipped (comment, header or short) adds nothing. */
  lemma {:induction false} SkippedRow(rows: seq<Row>, i: nat)
    requires i < |rows| && !IsDataRow(rows, i)
    ensures Found(rows, i + 1) == Found(rows, i)
    ensures NonComment(rows[..i + 1]) != [] <==> NonComment(rows[..i]) != [] || !IsSkippable(rows[i])
  {
    NonCommentStep(rows, i);
    FoundStep(rows, i);
  }

  /** A data row whose code was already collected adds nothing. */
  lemma {:induction false} RepeatedRow(rows: seq<Row>, i: nat, k: nat, toFloat: string -> Option<real>)
    requires i < |rows| && IsDataRow(rows, i)
    requires Convert(Found(rows, i), toFloat).Ok?
    requires k < |Convert(Found(rows, i), toFloat).value|
    requires Convert(Found(rows, i), toFloat).value[k].code == rows[i][1]
    ensures Found(rows, i + 1) == Found(rows, i)
    ensures NonComment(rows[..i + 1]) != []
  {
    NonCommentStep(rows, i);
    FoundStep(rows, i);
    var found := Found(rows, i);
    assert found[k][1] == rows[i][1];
  }

  /** Converted stations carry the codes of their rows. */
  lemma ConvertKeepsCodes(us: seq<Row>, stations: seq<IrisStation>, code: string, toFloat: string -> Option<real>)
    requires HasFields(us) && Convert(us, toFloat) == Ok(stations)
    ensures CodeIn(us, code) <==> exists k :: 0 <= k < |stations| && stations[k].code == code
  {
    forall k | 0 <= k < |us|
      ensures stations[k].code == us[k][1]
    {
      assert Some(stations[k]) == StationOf(us[k], toFloat);
    }
  }

  /** A data row with a new code is collected and converted. */
  lemma {:induction false} NewRow(rows: seq<Row>, i: nat, stations: seq<IrisStation>, toFloat: string -> Option<real>)
    requires i < |rows| && IsDataRow(rows, i)
    requires Convert(Found(rows, i), toFloat) == Ok(stations)
    requires forall k :: 0 <= k < |stations| ==> stations[k].code != rows[i][1]
    ensures NonComment(rows[..i + 1]) != []
    ensures Found(rows, i + 1) == Found(rows, i) + [rows[i]]
    ensures Convert(Found(rows, i + 1), toFloat) ==
              if StationOf(rows[i], toFloat).None? then Err(FloatError)
              else Ok(stations + [StationOf(rows[i], toFloat).value])
  {
    NonCommentStep(rows, i);
    FoundStep(rows, i);
    var found := Found(rows, i);
    ConvertKeepsCodes(found, stations, rows[i][1], toFloat);
    ConvertSnoc(found, rows[i], toFloat);
  }

  /** A new station row whose coordinates do not parse fails the catalogue. */
  lemma {:induction false} NewRowFails(rows: seq<Row>, i: nat, stations: seq<IrisStation>, limit: int,
                                       toFloat: string -> Option<real>)
    requires i < |rows| && IsDataRow(rows, i)
    requires Convert(Found(rows, i), toFloat) == Ok(stations) && |Found(rows, i)| < Max1(limit)
    requires forall k :: 0 <= k < |stations| ==> stations[k].code != rows[i][1]
    requires StationOf(rows[i], toFloat).None?
    ensures Catalog(rows, limit, toFloat) == Err(FloatError)
  {
    NewRow(rows, i, stations, toFloat);
    CatalogFailsAt(rows, i, limit, toFloat);
  }

  /** A new station that reaches the limit completes the catalogue. */
  lemma {:induction false} NewRowCompletes(rows: seq<Row>, i: nat, stations: seq<IrisStation>, limit: int,
                                           toFloat: string -> Option<real>)
    requires i < |rows| && IsDataRow(rows, i)
    requires Convert(Found(rows, i), toFloat) == Ok(stations) && |stations| == |Found(rows, i)| < Max1(limit)
    requires forall k :: 0 <= k < |stations| ==> stations[k].code != rows[i][1]
    requires StationOf(rows[i], toFloat).Some? && limit <= |stations| + 1
    ensures Catalog(rows, limit, toFloat) == Ok(stations + [StationOf(rows[i], toFloat).value])
  {
    NewRow(rows, i, stations, toFloat);
    LimitReached(rows, i + 1, stations + [StationOf(rows[i], toFloat).value], limit, toFloat);
  }

  /** A new station below the limit is appended and the scan goes on. */
  lemma {:induction false} NewRowKept(rows: seq<Row>, i: nat, stations: seq<IrisStation>, limit: int,
                                      toFloat: string -> Option<real>)
    requires i < |rows| && IsDataRow(rows, i)
    requires Convert(Found(rows, i), toFloat) == Ok(stations) && |stations| == |Found(rows, i)|
    requires forall k :: 0 <= k < |stations| ==> stations[k].code != rows[i][1]
    requires StationOf(rows[i], toFloat).Some? && |stations| + 1 < limit
    ensures NonComment(rows[..i + 1]) != []
    ensures |Found(rows, i + 1)| == |stations| + 1 < Max1(limit)
    ensures Convert(Found(rows, i + 1), toFloat) == Ok(stations + [StationOf(rows[i], toFloat).value])
  {
    NewRow(rows, i, stations, toFloat);
  }

  /** The row loop of `fetch_station_catalog`. Stations are kept in insertion
      order, as the dictionary keyed by code keeps them; the `break` at the
      limit returns what was collected. */
  method ParseCatalog(rows: seq<Row>, limit: int, toFloat: string -> Option<real>)
    returns (r: Result<seq<IrisStation>>)
    ensures r == Catalog(rows, limit, toFloat)
  {
    var stations: seq<IrisStation> := [];
    var headerSeen := false;
    var i := 0;
    while i < |rows|
      invariant i <= |rows|
      invariant headerSeen <==> NonComment(rows[..i]) != []
      invariant |stations| == |Found(rows, i)|
      invariant |Found(rows, i)| < Max1(limit)
      invariant Convert(Found(rows, i), toFloat) == Ok(stations)
    {
      var row := rows[i];
      if IsSkippable(row) || !headerSeen || |row| < 7 {
        // a comment, the header, or a row that does not unpack
        SkippedRow(rows, i);
        headerSeen := headerSeen || !IsSkippable(row);
      } else if exists k :: 0 <= k < |stations| && stations[k].code == row[1] {
        var k :| 0 <= k < |stations| && stations[k].code == row[1];
        RepeatedRow(rows, i, k, toFloat);
      } else {
        var station := StationOf(row, toFloat);
        if station.None? {
          NewRowFails(rows, i, stations, limit, toFloat);
          return Err(FloatError);
        } else if |stations| + 1 >= limit {
          NewRowCompletes(rows, i, stations, limit, toFloat);
          return Ok(stations + [station.value]);
        }
        NewRowKept(rows, i, stations, limit, toFloat);
        stations := stations + [station.value];
      }
      i := i + 1;
    }
    CatalogFromPrefix(rows, i, limit, toFloat);
    r := Ok(stations);
  }
}

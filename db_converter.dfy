/** The bookkeeping of the datasource converter: the conversion map, its
    counts and unique datasources, datasource-string parsing, the driver and
    spatial-filter lookups, and the create-once bookkeeping of dataset
    creation. Layer reading, filtering and feature mapping are not modelled. */
module DbConverter {
  import opened Text
  import opened Sequences
  import opened PyValues

  /** One conversion step, with the fields the bookkeeping reads. */
  datatype ConversionStep = ConversionStep(outDs: string, createDs: string, crs: string, edgv: string)

  /** One entry of the conversion map: an input datasource and its steps. */
  datatype Entry = Entry(inputDs: string, steps: seq<ConversionStep>)

  /** The conversion map, entries in dict iteration (insertion) order. */
  type ConversionMap = seq<Entry>

  /** A Python dict never repeats a key. */
  predicate WellFormed(cmap: ConversionMap)
  {
    NoDuplicates(Keys(cmap))
  }

  /** The input datasources, in map order. */
  function Keys(cmap: ConversionMap): (r: seq<string>)
    ensures |r| == |cmap|
    ensures forall i :: 0 <= i < |cmap| ==> r[i] == cmap[i].inputDs
  {
    if |cmap| == 0 then [] else Keys(cmap[..|cmap| - 1]) + [cmap[|cmap| - 1].inputDs]
  }

  /** The sum, over the entries, of the number of steps of each. */
  function TotalSteps(cmap: ConversionMap): nat
  {
    if |cmap| == 0 then 0 else TotalSteps(cmap[..|cmap| - 1]) + |cmap[|cmap| - 1].steps|
  }

  /** Every step of the map, entry after entry. */
  function Steps(cmap: ConversionMap): (r: seq<ConversionStep>)
    ensures |r| == TotalSteps(cmap)
  {
    if |cmap| == 0 then [] else Steps(cmap[..|cmap| - 1]) + cmap[|cmap| - 1].steps
  }

  /** The output datasource of each step, in order. */
  function Outputs(steps: seq<ConversionStep>): (r: seq<string>)
    ensures |r| == |steps|
    ensures forall i :: 0 <= i < |steps| ==> r[i] == steps[i].outDs
  {
    if |steps| == 0 then [] else Outputs(steps[..|steps| - 1]) + [steps[|steps| - 1].outDs]
  }

  /** Every step of entry `k` appears among the steps of the map. */
  lemma {:induction false} StepOfEntryInSteps(cmap: ConversionMap, k: nat, j: nat)
    requires k < |cmap| && j < |cmap[k].steps|
    ensures cmap[k].steps[j] in Steps(cmap)
  {
    var n := |cmap| - 1;
    assert Steps(cmap) == Steps(cmap[..n]) + cmap[n].steps;
    if k < n {
      StepOfEntryInSteps(cmap[..n], k, j);
    } else {
      assert Steps(cmap)[|Steps(cmap[..n])| + j] == cmap[n].steps[j];
    }
  }

  /** Every step of the map belongs to one of its entries. */
  lemma {:induction false} StepsComeFromEntries(cmap: ConversionMap, x: ConversionStep)
    requires x in Steps(cmap)
    ensures exists k, j :: 0 <= k < |cmap| && 0 <= j < |cmap[k].steps| && cmap[k].steps[j] == x
  {
    var n := |cmap| - 1;
    assert Steps(cmap) == Steps(cmap[..n]) + cmap[n].steps;
    if x in Steps(cmap[..n]) {
      StepsComeFromEntries(cmap[..n], x);
      var k, j :| 0 <= k < n && 0 <= j < |cmap[..n][k].steps| && cmap[..n][k].steps[j] == x;
      assert cmap[k].steps[j] == x;
    } else {
      var j :| 0 <= j < |cmap[n].steps| && cmap[n].steps[j] == x;
    }
  }

  // ---------------------------------------------------------------------
  // Counting and unique datasources

  /** `getConversionCount`: the number of conversion steps of the map. */
  method GetConversionCount(cmap: ConversionMap) returns (count: nat)
    ensures count == TotalSteps(cmap)
    ensures count == |Steps(cmap)|
  {
    count := 0;
    var i := 0;
    while i < |cmap|
      invariant 0 <= i <= |cmap|
      invariant count == TotalSteps(cmap[..i])
    {
      assert cmap[..i + 1][..i] == cmap[..i];
      count := count + |cmap[i].steps|;
      i := i + 1;
    }
    assert cmap[..|cmap|] == cmap;
  }

  /** `getAllUniqueInputDb`: the input datasources, each once, in map order;
      for a well-formed map these are exactly its keys. */
  method GetAllUniqueInputDb(cmap: ConversionMap) returns (dsList: seq<string>)
    ensures dsList == Dedup(Keys(cmap))
    ensures WellFormed(cmap) ==> dsList == Keys(cmap)
  {
    dsList := [];
    var i := 0;
    while i < |cmap|
      invariant 0 <= i <= |cmap|
      invariant dsList == Dedup(Keys(cmap[..i]))
    {
      var ds := cmap[i].inputDs;
      UniqueInputsStep(cmap, i);
      if ds !in dsList {
        dsList := dsList + [ds];
      }
      i := i + 1;
    }
    assert cmap[..|cmap|] == cmap;
    UniqueInputsOfWellFormed(cmap);
  }

  /** A map with distinct keys is its own list of unique inputs. */
  lemma UniqueInputsOfWellFormed(cmap: ConversionMap)
    ensures WellFormed(cmap) ==> Dedup(Keys(cmap)) == Keys(cmap)
  {
    if WellFormed(cmap) {
      DedupOfDistinct(Keys(cmap));
    }
  }

  /** One more entry: its key is added to the unique keys exactly when it is new. */
  lemma UniqueInputsStep(cmap: ConversionMap, i: nat)
    requires i < |cmap|
    ensures var d := Dedup(Keys(cmap[..i]));
            Dedup(Keys(cmap[..i + 1])) == if cmap[i].inputDs in d then d else d + [cmap[i].inputDs]
  {
    KeysOfPrefix(cmap, i);
    DedupSnoc(Keys(cmap[..i]), cmap[i].inputDs);
    DedupMembership(Keys(cmap[..i]), cmap[i].inputDs);
  }

  /** The keys of the first `i + 1` entries: those of the first `i`, then entry `i`'s. */
  lemma KeysOfPrefix(cmap: ConversionMap, i: nat)
    requires i < |cmap|
    ensures Keys(cmap[..i + 1]) == Keys(cmap[..i]) + [cmap[i].inputDs]
  {
    assert cmap[..i + 1][..i] == cmap[..i];
  }

  /** The steps of the first `i + 1` entries: those of the first `i`, then entry `i`'s. */
  lemma StepsOfPrefix(cmap: ConversionMap, i: nat)
    requires i < |cmap|
    ensures Steps(cmap[..i + 1]) == Steps(cmap[..i]) + cmap[i].steps
  {
    assert cmap[..i + 1][..i] == cmap[..i];
  }

  /** Appending a step appends its output. */
  lemma OutputsSnoc(steps: seq<ConversionStep>, x: ConversionStep)
    ensures Outputs(steps + [x]) == Outputs(steps) + [x.outDs]
  {
    assert (steps + [x])[..|steps|] == steps;
  }

  /** The output of every step of every entry is among the outputs of the map. */
  lemma OutputOfEntryInOutputs(cmap: ConversionMap, k: nat, j: nat)
    requires k < |cmap| && j < |cmap[k].steps|
    ensures cmap[k].steps[j].outDs in Outputs(Steps(cmap))
  {
    StepOfEntryInSteps(cmap, k, j);
    var steps := Steps(cmap);
    var p :| 0 <= p < |steps| && steps[p] == cmap[k].steps[j];
    assert Outputs(steps)[p] == cmap[k].steps[j].outDs;
  }

  /** `getAllUniqueOutputDb`: the output datasources of all steps, each once,
      in first-occurrence order; never more of them than steps. */
  method GetAllUniqueOutputDb(cmap: ConversionMap) returns (dsList: seq<string>)
    ensures dsList == Dedup(Outputs(Steps(cmap)))
    ensures NoDuplicates(dsList)
    ensures |dsList| <= TotalSteps(cmap)
    ensures forall k, j :: 0 <= k < |cmap| && 0 <= j < |cmap[k].steps| ==> cmap[k].steps[j].outDs in dsList
  {
    dsList := [];
    var i := 0;
    while i < |cmap|
      invariant 0 <= i <= |cmap|
      invariant dsList == Dedup(Outputs(Steps(cmap[..i])))
    {
      dsList := AddUniqueOutputs(dsList, Steps(cmap[..i]), cmap[i].steps);
      StepsOfPrefix(cmap, i);
      i := i + 1;
    }
    assert cmap[..|cmap|] == cmap;
    UniqueOutputsCoverSteps(cmap);
  }

  /** The inner loop of `getAllUniqueOutputDb`: the outputs of one entry's
      steps not listed yet are appended, in order. */
  method AddUniqueOutputs(dsList: seq<string>, ghost before: seq<ConversionStep>, convMaps: seq<ConversionStep>)
    returns (r: seq<string>)
    requires dsList == Dedup(Outputs(before))
    ensures r == Dedup(Outputs(before + convMaps))
  {
    r := dsList;
    var j := 0;
    PrefixEnds(before, convMaps);
    while j < |convMaps|
      invariant 0 <= j <= |convMaps|
      invariant r == Dedup(Outputs(before + convMaps[..j]))
    {
      var ds := convMaps[j].outDs;
      PrefixSnoc(before, convMaps, j);
      DedupOutputsSnoc(before + convMaps[..j], convMaps[j]);
      if ds !in r {
        r := r + [ds];
      }
      j := j + 1;
    }
  }

  /** One more step: its output is added exactly when it is new. */
  lemma DedupOutputsSnoc(done: seq<ConversionStep>, x: ConversionStep)
    ensures Dedup(Outputs(done + [x])) ==
            if x.outDs in Dedup(Outputs(done)) then Dedup(Outputs(done)) else Dedup(Outputs(done)) + [x.outDs]
  {
    OutputsSnoc(done, x);
    DedupSnoc(Outputs(done), x.outDs);
    DedupMembership(Outputs(done), x.outDs);
  }

  /** Every step's output is among the unique outputs. */
  lemma UniqueOutputsCoverSteps(cmap: ConversionMap)
    ensures forall k, j :: 0 <= k < |cmap| && 0 <= j < |cmap[k].steps| ==> cmap[k].steps[j].outDs in Dedup(Outputs(Steps(cmap)))
  {
    forall k, j | 0 <= k < |cmap| && 0 <= j < |cmap[k].steps|
      ensures cmap[k].steps[j].outDs in Dedup(Outputs(Steps(cmap)))
    {
      OutputOfEntryInOutputs(cmap, k, j);
      DedupMembership(Outputs(Steps(cmap)), cmap[k].steps[j].outDs);
    }
  }

  /** `x` is in the de-duplication of `s` exactly when it is in `s`. */
  lemma DedupMembership(s: seq<string>, x: string)
    ensures x in Dedup(s) <==> x in s
  {
    if x in s {
      var i :| 0 <= i < |s| && s[i] == x;
    }
  }

  // ---------------------------------------------------------------------
  // Datasource strings

  /** The exceptions the parsing raises: a tuple unpacking that gets the
      wrong number of values, or a dict lookup of a missing key. */
  datatype DatasourceError = UnpackError(got: nat) | KeyError(key: string)

  /** The `args` of the exception, as Python 3 words them. */
  function ErrorArgs(e: DatasourceError): seq<string>
  {
    match e
    case UnpackError(got) =>
      if got < 2 then ["not enough values to unpack (expected 2, got " + NatToString(got) + ")"]
      else ["too many values to unpack (expected 2)"]
    case KeyError(key) => [key]
  }

  /** The fields of a `USER@HOST:PORT.DATABASE` connection string. */
  datatype PgConnection = PgConnection(username: string, host: string, port: string, db: string)

  /** The connection string the fields stand for. */
  function PgConnectionString(c: PgConnection): string
  {
    c.username + "@" + c.host + ":" + c.port + "." + c.db
  }

  /** No field holds a separator that a later split would stop at: only the
      user name may contain ':' or '.', and only the host may contain '.'. */
  predicate Unambiguous(c: PgConnection)
  {
    && '@' !in c.username
    && '@' !in c.host && ':' !in c.host
    && '@' !in c.port && ':' !in c.port && '.' !in c.port
    && '@' !in c.db && ':' !in c.db && '.' !in c.db
  }

  /** Python's `a, b = s.split(c)`: exactly two pieces, or an unpacking error. */
  function SplitPair(s: string, c: char): (r: Result<(string, string), DatasourceError>)
    ensures r.Ok? ==> s == r.value.0 + [c] + r.value.1 && c !in r.value.0 && c !in r.value.1
    ensures r.Err? ==> r.error == UnpackError(Count(s, c) + 1) && Count(s, c) != 1
  {
    var parts := Split(s, c);
    if |parts| == 2 then
      SplitInTwo(s, c);
      Ok((parts[0], parts[1]))
    else Err(UnpackError(|parts|))
  }

  /** The three unpacking splits of `getPgParamaters`. */
  function ParsePgConnection(conn: string): (r: Result<PgConnection, DatasourceError>)
    ensures r.Ok? ==> Unambiguous(r.value) && PgConnectionString(r.value) == conn
    ensures r.Err? ==> r.error.UnpackError?
  {
    match SplitPair(conn, '@')
    case Err(e) => Err(e)
    case Ok((username, part)) =>
      match SplitPair(part, ':')
      case Err(e) => Err(e)
      case Ok((host, part')) =>
        match SplitPair(part', '.')
        case Err(e) => Err(e)
        case Ok((port, db)) =>
          assert '@' !in host + ":" + port + "." + db;
          assert ':' !in port + "." + db;
          Ok(PgConnection(username, host, port, db))
  }

  /** An unambiguous connection string parses back into its fields, so a
      connection string is accepted exactly when it has that shape. */
  lemma PgConnectionRoundTrip(c: PgConnection)
    requires Unambiguous(c)
    ensures ParsePgConnection(PgConnectionString(c)) == Ok(c)
  {
    var tail := c.port + "." + c.db;
    var part := c.host + ":" + tail;
    assert PgConnectionString(c) == c.username + "@" + part;
    assert '@' !in part && ':' !in tail;
    SplitAroundOne(c.username, '@', part);
    SplitAroundOne(c.host, ':', tail);
    SplitAroundOne(c.port, '.', c.db);
  }

  /** `getPgParamaters`: writes the four fields into `parameters`, or raises. */
  function GetPgParameters(parameters: Dict, conn: string): (r: Result<Dict, DatasourceError>)
    ensures r.Ok? <==> ParsePgConnection(conn).Ok?
    ensures r.Ok? ==> r.value.Keys == parameters.Keys + {"username", "host", "port", "db"}
    ensures r.Ok? ==> var c := ParsePgConnection(conn).value;
              && r.value["username"] == Str(c.username) && r.value["host"] == Str(c.host)
              && r.value["port"] == Str(c.port) && r.value["db"] == Str(c.db)
    ensures r.Ok? ==> forall k :: k in parameters && k !in {"username", "host", "port", "db"} ==> r.value[k] == parameters[k]
  {
    match ParsePgConnection(conn)
    case Err(e) => Err(e)
    case Ok(c) =>
      Ok(parameters["username" := Str(c.username)]["host" := Str(c.host)]
                   ["port" := Str(c.port)]["db" := Str(c.db)])
  }

  /** The driver a datasource prefix names, if any. */
  function DriverNamed(prefix: string): (r: Option<Driver>)
    ensures r.Some? <==> prefix in {"pg", "sqlite", "shp", "gpkg"}
    ensures prefix == "pg" ==> r == Some(PostGIS)
    ensures prefix == "sqlite" ==> r == Some(SpatiaLite)
    ensures prefix == "shp" ==> r == Some(Shapefile)
    ensures prefix == "gpkg" ==> r == Some(Geopackage)
  {
    if prefix == "pg" then Some(PostGIS)
    else if prefix == "sqlite" then Some(SpatiaLite)
    else if prefix == "shp" then Some(Shapefile)
    else if prefix == "gpkg" then Some(Geopackage)
    else None
  }

  /** The connection part of a datasource: everything after the driver and
      its ':', or "" when there is no ':' (Python slicing past the end). */
  function ConnectionPart(datasource: string): (conn: string)
    ensures ':' in datasource ==> FirstPiece(datasource, ':') + ":" + conn == datasource
    ensures ':' !in datasource ==> conn == ""
  {
    var driver := FirstPiece(datasource, ':');
    if |driver| + 1 <= |datasource| then datasource[|driver| + 1..] else ""
  }

  /** `parseDatasourcePath`: the driver is the text before the first ':';
      a PostGIS connection is split into its fields, any other is a path. */
  function ParseDatasourcePath(datasource: string): (r: Result<Dict, DatasourceError>)
    ensures DriverNamed(FirstPiece(datasource, ':')).None? ==> r == Err(KeyError(FirstPiece(datasource, ':')))
    ensures r.Ok? ==> "driver" in r.value && r.value["driver"] == Drv(DriverNamed(FirstPiece(datasource, ':')).value)
    ensures r.Ok? ==> "db" in r.value || "path" in r.value
    ensures FirstPiece(datasource, ':') != "pg" && r.Ok? ==>
              r.value == map["path" := Str(ConnectionPart(datasource)), "driver" := r.value["driver"]]
    ensures FirstPiece(datasource, ':') == "pg" ==>
              (r.Ok? <==> ParsePgConnection(ConnectionPart(datasource)).Ok?)
  {
    var driver := FirstPiece(datasource, ':');
    var conn := ConnectionPart(datasource);
    var parameters := if driver == "pg" then GetPgParameters(map[], conn) else Ok(map["path" := Str(conn)]);
    match parameters
    case Err(e) => Err(e)
    case Ok(p) =>
      match DriverNamed(driver)
      case None => Err(KeyError(driver))
      case Some(d) => Ok(p["driver" := Drv(d)])
  }

  /** For a file datasource with a ':', the driver, a ':' and the path give
      the datasource back. */
  lemma FileDatasourceRoundTrip(datasource: string)
    requires ':' in datasource
    requires FirstPiece(datasource, ':') in {"sqlite", "shp", "gpkg"}
    ensures ParseDatasourcePath(datasource).Ok?
    ensures FirstPiece(datasource, ':') + ":" + ParseDatasourcePath(datasource).value["path"].s == datasource
  {
  }

  /** For a PostGIS datasource, "pg:" and the connection string of the parsed
      fields give the datasource back. */
  lemma PgDatasourceRoundTrip(c: PgConnection)
    requires Unambiguous(c)
    ensures ParseDatasourcePath("pg:" + PgConnectionString(c)).Ok?
    ensures var p := ParseDatasourcePath("pg:" + PgConnectionString(c)).value;
            p == map["username" := Str(c.username), "host" := Str(c.host), "port" := Str(c.port),
                     "db" := Str(c.db), "driver" := Drv(PostGIS)]
  {
    var ds := "pg:" + PgConnectionString(c);
    assert ds == "pg" + [':'] + PgConnectionString(c);
    SplitFirstPiece("pg", ':', PgConnectionString(c));
    assert ConnectionPart(ds) == PgConnectionString(c);
    PgConnectionRoundTrip(c);
  }

  /** The first piece of `a + [c] + b` is `a` when `a` has no `c`. */
  lemma SplitFirstPiece(a: string, c: char, b: string)
    requires c !in a
    ensures FirstPiece(a + [c] + b, c) == a
  {
    var s := a + [c] + b;
    assert s[|a|] == c;
  }

  // ---------------------------------------------------------------------
  // Driver dispatch and spatial filters

  /** The drivers `connectToDb` dispatches on. */
  predicate Supported(d: Driver)
  {
    d in {PostGIS, SpatiaLite, Geopackage, Shapefile}
  }

  /** `connectToDb`: reads the driver and hands the parameters to that
      driver's connector; any other driver gives `None`. The connectors
      themselves are the `connect` parameter. */
  function ConnectToDb(parameters: Dict, connect: (Driver, Dict) -> Option<DbHandle>)
    : (r: Result<Option<DbHandle>, DatasourceError>)
    ensures "driver" !in parameters ==> r == Err(KeyError("driver"))
    ensures "driver" in parameters && !(parameters["driver"].Drv? && Supported(parameters["driver"].driver)) ==>
              r == Ok(None)
    ensures "driver" in parameters && parameters["driver"].Drv? && Supported(parameters["driver"].driver) ==>
              r == Ok(connect(parameters["driver"].driver, parameters))
  {
    if "driver" !in parameters then Err(KeyError("driver"))
    else
      var driver := parameters["driver"];
      if driver.Drv? && Supported(driver.driver) then Ok(connect(driver.driver, parameters)) else Ok(None)
  }

  /** A parsed datasource always names a driver `connectToDb` dispatches on,
      so connecting to it hands the parsed parameters to that driver's
      connector. */
  lemma ParsedDatasourceConnects(datasource: string, connect: (Driver, Dict) -> Option<DbHandle>)
    requires ParseDatasourcePath(datasource).Ok?
    ensures var p := ParseDatasourcePath(datasource).value;
            ConnectToDb(p, connect) == Ok(connect(DriverNamed(FirstPiece(datasource, ':')).value, p))
  {
  }

  /** The behaviour code of a spatial filter kind. */
  function BehaviourCode(filterType: string): (r: Option<nat>)
    ensures r.Some? <==> filterType in {"Intersects", "Clip", "Buffer"}
    ensures filterType == "Intersects" ==> r == Some(1)
    ensures filterType == "Clip" ==> r == Some(2)
    ensures filterType == "Buffer" ==> r == Some(3)
  {
    if filterType == "Intersects" then Some(1)
    else if filterType == "Clip" then Some(2)
    else if filterType == "Buffer" then Some(3)
    else None
  }

  /** Distinct filter kinds get distinct codes. */
  lemma BehaviourCodeInjective(a: string, b: string)
    requires BehaviourCode(a).Some? && BehaviourCode(a) == BehaviourCode(b)
    ensures a == b
  {
  }

  /** `getSpatialFilterBehaviour`: the code of the filter's `filter_type`,
      `None` for any other kind; a filter without that key raises. */
  function GetSpatialFilterBehaviour(spatialFilter: map<string, string>): (r: Result<Option<nat>, DatasourceError>)
    ensures "filter_type" !in spatialFilter <==> r == Err(KeyError("filter_type"))
    ensures "filter_type" in spatialFilter ==> r == Ok(BehaviourCode(spatialFilter["filter_type"]))
  {
    if "filter_type" !in spatialFilter then Err(KeyError("filter_type"))
    else Ok(BehaviourCode(spatialFilter["filter_type"]))
  }

  /** Two filters with the same known behaviour have the same `filter_type`. */
  lemma SpatialFilterBehaviourInjective(f: map<string, string>, g: map<string, string>)
    requires GetSpatialFilterBehaviour(f).Ok? && GetSpatialFilterBehaviour(f).value.Some?
    requires GetSpatialFilterBehaviour(f) == GetSpatialFilterBehaviour(g)
    ensures "filter_type" in f && "filter_type" in g && f["filter_type"] == g["filter_type"]
  {
    BehaviourCodeInjective(f["filter_type"], g["filter_type"]);
  }

  // ---------------------------------------------------------------------
  // Paths (POSIX os.path)

  /** Index of the last `c` in `s`, or -1 (Python's `s.rfind(c)`). */
  function LastIndexOf(s: string, c: char): (k: int)
    ensures -1 <= k < |s|
    ensures k >= 0 ==> s[k] == c
    ensures forall j :: k < j < |s| ==> s[j] != c
  {
    if |s| == 0 then -1
    else if s[|s| - 1] == c then |s| - 1
    else LastIndexOf(s[..|s| - 1], c)
  }

  /** Whether every character of `s` is a '.'. */
  predicate AllDots(s: string)
  {
    |s| == 0 || (s[0] == '.' && AllDots(s[1..]))
  }

  /** `AllDots` holds exactly when there is no other character. */
  lemma {:induction false} AllDotsIff(s: string)
    ensures AllDots(s) <==> forall i :: 0 <= i < |s| ==> s[i] == '.'
  {
    if |s| > 0 {
      AllDotsIff(s[1..]);
      assert forall i :: 1 <= i < |s| ==> s[i] == s[1..][i - 1];
    }
  }

  /** `os.path.splitext(p)[0]`: `p` without its extension. The extension
      starts at the last '.' of the last path component, unless only dots
      precede that '.' in the component. */
  function SplitExtRoot(p: string): (root: string)
    ensures root <= p
  {
    var sepIndex := LastIndexOf(p, '/');
    var dotIndex := LastIndexOf(p, '.');
    if dotIndex > sepIndex && !AllDots(p[sepIndex + 1..dotIndex]) then p[..dotIndex]
    else p
  }

  /** When `splitext` cuts something off, it is the text from the last '.',
      which lies in the last component after a character other than a dot. */
  lemma SplitExtRootCut(p: string)
    requires |SplitExtRoot(p)| < |p|
    ensures var root := SplitExtRoot(p);
            && p[|root|] == '.'
            && (forall j :: |root| < j < |p| ==> p[j] != '.')
            && (forall j :: |root| <= j < |p| ==> p[j] != '/')
            && exists k :: LastIndexOf(p, '/') < k < |root| && p[k] != '.'
  {
    var sepIndex, dotIndex := LastIndexOf(p, '/'), LastIndexOf(p, '.');
    var name := p[sepIndex + 1..dotIndex];
    assert dotIndex > sepIndex && !AllDots(name);
    assert SplitExtRoot(p) == p[..dotIndex];
    AllDotsIff(name);
    var i :| 0 <= i < |name| && name[i] != '.';
    assert p[sepIndex + 1 + i] == name[i];
  }

  /** `splitext` cuts nothing off exactly when every '.' of the last
      component has only dots before it there. */
  lemma SplitExtRootKeeps(p: string)
    ensures |SplitExtRoot(p)| == |p| <==>
            forall k, d :: LastIndexOf(p, '/') < k < d < |p| && p[d] == '.' ==> p[k] == '.'
  {
    var sepIndex, dotIndex := LastIndexOf(p, '/'), LastIndexOf(p, '.');
    if |SplitExtRoot(p)| == |p| {
      forall k, d | sepIndex < k < d < |p| && p[d] == '.'
        ensures p[k] == '.'
      {
        var name := p[sepIndex + 1..dotIndex];
        AllDotsIff(name);
        assert p[k] == name[k - sepIndex - 1];
      }
    } else {
      SplitExtRootCut(p);
      var k :| sepIndex < k < |SplitExtRoot(p)| && p[k] != '.';
      assert p[|SplitExtRoot(p)|] == '.';
    }
  }

  /** `os.path.basename(p)`: the text after the last '/'. */
  function Basename(p: string): string
  {
    if |p| == 0 || p[|p| - 1] == '/' then "" else Basename(p[..|p| - 1]) + [p[|p| - 1]]
  }

  /** The base name is the longest '/'-free suffix of the path: its
      characters are the last ones of the path, none of them is a '/', and
      it is the whole path or a '/' precedes it. */
  lemma {:induction false} BasenameIsLastComponent(p: string)
    ensures |Basename(p)| <= |p|
    ensures forall i :: 0 <= i < |Basename(p)| ==> Basename(p)[i] == p[|p| - |Basename(p)| + i]
    ensures '/' !in Basename(p)
    ensures |Basename(p)| < |p| ==> p[|p| - |Basename(p)| - 1] == '/'
  {
    if |p| > 0 && p[|p| - 1] != '/' {
      var q := p[..|p| - 1];
      BasenameIsLastComponent(q);
      var b, bq := Basename(p), Basename(q);
      assert b == bq + [p[|p| - 1]];
      forall i | 0 <= i < |b|
        ensures b[i] == p[|p| - |b| + i] && b[i] != '/'
      {
        if i < |bq| {
          assert b[i] == bq[i] == q[|q| - |bq| + i];
          assert q[|q| - |bq| + i] == p[|p| - |b| + i];
        } else {
          assert i == |bq| && b[i] == p[|p| - 1];
        }
      }
    }
  }

  // ---------------------------------------------------------------------
  // Dataset creation bookkeeping

  /** The EDGV labels a dataset can be created from: version and template. */
  function EdgvTemplate(version: string): (r: Option<(string, string)>)
    ensures r.Some? <==> version in {"EDGV 2.1.3", "EDGV 2.1.3 F Ter", "EDGV 2.1.3 Pro", "EDGV 3.0"}
    ensures version == "EDGV 2.1.3" ==> r == Some(("2.1.3", "template_edgv_213"))
    ensures version == "EDGV 2.1.3 F Ter" ==> r == Some(("FTer_2a_Ed", "template_edgv_fter_2a_ed"))
    ensures version == "EDGV 2.1.3 Pro" ==> r == Some(("2.1.3 Pro", "template_edgv_213_pro"))
    ensures version == "EDGV 3.0" ==> r == Some(("3.0", "template_edgv_3"))
  {
    if version == "EDGV 2.1.3" then Some(("2.1.3", "template_edgv_213"))
    else if version == "EDGV 2.1.3 F Ter" then Some(("FTer_2a_Ed", "template_edgv_fter_2a_ed"))
    else if version == "EDGV 2.1.3 Pro" then Some(("2.1.3 Pro", "template_edgv_213_pro"))
    else if version == "EDGV 3.0" then Some(("3.0", "template_edgv_3"))
    else None
  }

  /** The text of a string value; the parsed paths are always strings. */
  function TextOf(v: Value): string
  {
    if v.Str? then v.s else ""
  }

  /** The fields `checkAndCreateDatabases` adds to the parsed datasource:
      the SRID, the template flag, the EDGV version and template, and, for a
      file datasource, the database name taken from the file name. */
  function FillCreationParameters(p: Dict, srid: string, version: string, templateName: string): (r: Dict)
    ensures r.Keys == p.Keys + {"srid", "isTemplateEdgv", "version", "templateName"} + (if "path" in p then {"db"} else {})
    ensures r["srid"] == Str(srid) && r["isTemplateEdgv"] == Flag(true)
    ensures r["version"] == Str(version) && r["templateName"] == Str(templateName)
    ensures "path" in p ==> r["db"] == Str(DbName(TextOf(p["path"])))
  {
    var filled := p + map["srid" := Str(srid), "isTemplateEdgv" := Flag(true),
                          "version" := Str(version), "templateName" := Str(templateName)];
    if "path" in p then filled["db" := Str(DbName(TextOf(p["path"])))] else filled
  }

  /** The database name of a file datasource: its file name without the
      extension. */
  function DbName(path: string): string
  {
    Basename(SplitExtRoot(path))
  }

  /** Filling in the creation parameters leaves every other key as it was,
      and so the connection fields and the path of the parsed datasource;
      without a path, a PostGIS `db` field is kept too. */
  lemma FillCreationParametersKeepsOthers(p: Dict, srid: string, version: string, templateName: string, k: string)
    requires k in p && k != "srid" && k != "isTemplateEdgv" && k != "version" && k != "templateName"
    requires k != "db" || "path" !in p
    ensures FillCreationParameters(p, srid, version, templateName)[k] == p[k]
  {
  }

  /** The parameters handed to dataset creation, or the exception raised
      while building them: a datasource that does not parse, or an EDGV
      version without a template. */
  function CreationParameters(step: ConversionStep): (r: Result<Dict, DatasourceError>)
    ensures ParseDatasourcePath(step.outDs).Err? ==> r == Err(ParseDatasourcePath(step.outDs).error)
    ensures ParseDatasourcePath(step.outDs).Ok? && EdgvTemplate(step.edgv).None? ==> r == Err(KeyError(step.edgv))
    ensures r.Ok? ==> {"driver", "srid", "isTemplateEdgv", "version", "templateName", "db"} <= r.value.Keys
    ensures r.Ok? ==> r.value["srid"] == Str(LastPiece(step.crs, ':'))
    ensures r.Ok? <==> ParseDatasourcePath(step.outDs).Ok? && EdgvTemplate(step.edgv).Some?
    ensures r.Ok? ==> var (version, templateName) := EdgvTemplate(step.edgv).value;
              r.value == FillCreationParameters(ParseDatasourcePath(step.outDs).value, LastPiece(step.crs, ':'), version, templateName)
  {
    match ParseDatasourcePath(step.outDs)
    case Err(e) => Err(e)
    case Ok(p) =>
      match EdgvTemplate(step.edgv)
      case None => Err(KeyError(step.edgv))
      case Some((version, templateName)) => Ok(FillCreationParameters(p, LastPiece(step.crs, ':'), version, templateName))
  }

  /** The failure message recorded for an output. */
  function FailureMessage(output: string, args: seq<string>): string
  {
    output + " dataset creation has failed: '" + Join(args, "; ") + "'"
  }

  /** What one creation attempt records. */
  datatype AttemptOutcome = Success(db: DbHandle) | Failure(reason: string)

  /** One creation attempt: every exception, raised while building the
      parameters or by the creation itself, becomes a failure. */
  function Attempt(step: ConversionStep, createDataset: Dict -> Creation): AttemptOutcome
  {
    match CreationParameters(step)
    case Err(e) => Failure(FailureMessage(step.outDs, ErrorArgs(e)))
    case Ok(parameters) =>
      match createDataset(parameters)
      case Created(db) => Success(db)
      case Raised(args) => Failure(FailureMessage(step.outDs, args))
  }

  /** An attempt succeeds exactly when the parameters build and the creation
      returns a dataset; an unknown EDGV version fails with the version as
      the message, and an unknown driver with the driver's name. */
  lemma AttemptOutcomes(step: ConversionStep, createDataset: Dict -> Creation)
    ensures Attempt(step, createDataset).Success? <==>
              CreationParameters(step).Ok? && createDataset(CreationParameters(step).value).Created?
    ensures ParseDatasourcePath(step.outDs).Ok? && EdgvTemplate(step.edgv).None? ==>
              Attempt(step, createDataset) == Failure(FailureMessage(step.outDs, [step.edgv]))
    ensures DriverNamed(FirstPiece(step.outDs, ':')).None? ==>
              Attempt(step, createDataset) == Failure(FailureMessage(step.outDs, [FirstPiece(step.outDs, ':')]))
  {
  }

  /** A step asks for its output to be created. */
  predicate Requested(step: ConversionStep)
  {
    step.createDs == "True"
  }

  /** The steps that ask for creation, in order. */
  function RequestedSteps(steps: seq<ConversionStep>): (r: seq<ConversionStep>)
    ensures forall x :: x in r ==> x in steps && Requested(x)
  {
    if |steps| == 0 then []
    else
      var p := RequestedSteps(steps[..|steps| - 1]);
      if Requested(steps[|steps| - 1]) then p + [steps[|steps| - 1]] else p
  }

  /** The `success` and `fail` dicts, with the outputs attempted, in order. */
  datatype Bookkeeping = Bookkeeping(success: map<string, DbHandle>, fail: map<string, string>, attempted: seq<string>)

  /** Whether `output` has been recorded, in either dict. */
  predicate Recorded(b: Bookkeeping, output: string)
  {
    output in b.success || output in b.fail
  }

  /** Record the outcome of attempting `output`. */
  function Record(b: Bookkeeping, output: string, outcome: AttemptOutcome): (r: Bookkeeping)
    ensures r.attempted == b.attempted + [output]
    ensures outcome.Success? ==> r.success == b.success[output := outcome.db] && r.fail == b.fail
    ensures outcome.Failure? ==> r.fail == b.fail[output := outcome.reason] && r.success == b.success
  {
    match outcome
    case Success(db) => b.(success := b.success[output := db], attempted := b.attempted + [output])
    case Failure(reason) => b.(fail := b.fail[output := reason], attempted := b.attempted + [output])
  }

  /** `b` records `output` with `outcome`. */
  predicate RecordedAs(b: Bookkeeping, output: string, outcome: AttemptOutcome)
  {
    match outcome
    case Success(db) => output in b.success && b.success[output] == db
    case Failure(reason) => output in b.fail && b.fail[output] == reason
  }

  /** The bookkeeping after going through `steps`: an output is attempted at
      a step that requests it unless it is already in `success` or `fail`. */
  function CreateAll(steps: seq<ConversionStep>, createDataset: Dict -> Creation): Bookkeeping
  {
    if |steps| == 0 then Bookkeeping(map[], map[], [])
    else
      var b := CreateAll(steps[..|steps| - 1], createDataset);
      var step := steps[|steps| - 1];
      if Requested(step) && !Recorded(b, step.outDs) then Record(b, step.outDs, Attempt(step, createDataset))
      else b
  }

  /** One more step, as `checkAndCreateDatabases` takes it. */
  lemma CreateAllSnoc(steps: seq<ConversionStep>, step: ConversionStep, createDataset: Dict -> Creation)
    ensures var b := CreateAll(steps, createDataset);
            CreateAll(steps + [step], createDataset) ==
              if Requested(step) && !Recorded(b, step.outDs) then Record(b, step.outDs, Attempt(step, createDataset)) else b
  {
    assert (steps + [step])[..|steps|] == steps;
  }

  /** The dicts are disjoint and hold exactly the outputs attempted. */
  ghost predicate Consistent(b: Bookkeeping)
  {
    && b.success.Keys !! b.fail.Keys
    && forall x :: x in b.attempted <==> Recorded(b, x)
  }

  /** Recording a new output keeps the bookkeeping consistent. */
  lemma RecordKeepsConsistent(b: Bookkeeping, output: string, outcome: AttemptOutcome)
    requires Consistent(b) && !Recorded(b, output)
    ensures Consistent(Record(b, output, outcome))
  {
  }

  /** The outputs attempted are the requested outputs, each once, in order of
      first request; each lands in exactly one of `success` and `fail`. */
  lemma {:induction false} CreateAllAttemptsEachOnce(steps: seq<ConversionStep>, createDataset: Dict -> Creation)
    ensures CreateAll(steps, createDataset).attempted == Dedup(Outputs(RequestedSteps(steps)))
    ensures Consistent(CreateAll(steps, createDataset))
  {
    if |steps| > 0 {
      var p := steps[..|steps| - 1];
      var step := steps[|steps| - 1];
      var b := CreateAll(p, createDataset);
      CreateAllAttemptsEachOnce(p, createDataset);
      var rs := RequestedSteps(p);
      if Requested(step) {
        assert RequestedSteps(steps) == rs + [step];
        DedupOutputsSnoc(rs, step);
        if !Recorded(b, step.outDs) {
          RecordKeepsConsistent(b, step.outDs, Attempt(step, createDataset));
        }
      }
    }
  }

  /** Whether `steps[i]` is the first step requesting its output. */
  predicate FirstRequest(steps: seq<ConversionStep>, i: nat)
    requires i < |steps|
  {
    Requested(steps[i]) && forall j :: 0 <= j < i ==> !(Requested(steps[j]) && steps[j].outDs == steps[i].outDs)
  }

  /** The first step requesting an output decides it: the output is recorded
      with that step's attempt, whatever later steps ask. */
  lemma {:induction false} FirstRequestDecides(steps: seq<ConversionStep>, createDataset: Dict -> Creation, i: nat)
    requires i < |steps| && FirstRequest(steps, i)
    ensures RecordedAs(CreateAll(steps, createDataset), steps[i].outDs, Attempt(steps[i], createDataset))
  {
    var n := |steps| - 1;
    var p := steps[..n];
    var output := steps[i].outDs;
    var outcome := Attempt(steps[i], createDataset);
    var b := CreateAll(p, createDataset);
    var last := steps[n];
    assert CreateAll(steps, createDataset) ==
           if Requested(last) && !Recorded(b, last.outDs) then Record(b, last.outDs, Attempt(last, createDataset)) else b;
    if i < n {
      assert FirstRequest(p, i) by {
        forall j | 0 <= j < i ensures p[j] == steps[j] { }
      }
      FirstRequestDecides(p, createDataset, i);
      if Requested(last) && !Recorded(b, last.outDs) {
        RecordElsewhere(b, last.outDs, Attempt(last, createDataset), output, outcome);
      }
    } else {
      NotYetRequested(p, createDataset, output);
    }
  }

  /** Recording one output leaves the record of another one as it was. */
  lemma RecordElsewhere(b: Bookkeeping, output: string, outcome: AttemptOutcome, other: string, otherOutcome: AttemptOutcome)
    requires RecordedAs(b, other, otherOutcome) && other != output
    ensures RecordedAs(Record(b, output, outcome), other, otherOutcome)
  {
  }

  /** An output no step has requested yet is in neither dict. */
  lemma {:induction false} NotYetRequested(steps: seq<ConversionStep>, createDataset: Dict -> Creation, output: string)
    requires forall j :: 0 <= j < |steps| ==> !(Requested(steps[j]) && steps[j].outDs == output)
    ensures !Recorded(CreateAll(steps, createDataset), output)
  {
    if |steps| > 0 {
      NotYetRequested(steps[..|steps| - 1], createDataset, output);
    }
  }

  /** `checkAndCreateDatabases`: goes through every step of every entry and
      attempts each requested output once; returns the `success` and `fail`
      dicts. */
  method CheckAndCreateDatabases(cmap: ConversionMap, createDataset: Dict -> Creation)
    returns (success: map<string, DbHandle>, fail: map<string, string>)
    ensures success == CreateAll(Steps(cmap), createDataset).success
    ensures fail == CreateAll(Steps(cmap), createDataset).fail
  {
    success, fail := map[], map[];
    ghost var b := CreateAll([], createDataset);
    var i := 0;
    while i < |cmap|
      invariant 0 <= i <= |cmap|
      invariant b == CreateAll(Steps(cmap[..i]), createDataset)
      invariant success == b.success && fail == b.fail
    {
      var conversionSteps := cmap[i].steps;
      ghost var before := Steps(cmap[..i]);
      PrefixEnds(before, conversionSteps);
      var j := 0;
      while j < |conversionSteps|
        invariant 0 <= j <= |conversionSteps|
        invariant b == CreateAll(before + conversionSteps[..j], createDataset)
        invariant success == b.success && fail == b.fail
      {
        var step := conversionSteps[j];
        ghost var done := before + conversionSteps[..j];
        PrefixSnoc(before, conversionSteps, j);
        CreateAllSnoc(done, step, createDataset);
        var output := step.outDs;
        if step.createDs == "True" && !(output in success || output in fail) {
          var outcome := Attempt(step, createDataset);
          ghost var recorded := Record(b, output, outcome);
          if outcome.Success? {
            success := success[output := outcome.db];
          } else {
            fail := fail[output := outcome.reason];
          }
          b := recorded;
        }
        j := j + 1;
      }
      StepsOfPrefix(cmap, i);
      i := i + 1;
    }
    assert cmap[..|cmap|] == cmap;
  }
}

/** The database-name builder and the batch creation loops of the database
    creator. The creation of one database, which each driver's creator
    implements, is a parameter that succeeds or fails; so is the frame
    creation of a new map-sheet database. */
module DbCreator {
  import opened Text
  import opened Sequences
  import opened PyValues

  // ---------------------------------------------------------------------
  // Names

  /** A name part is used when it is given and not empty (Python truthiness). */
  predicate Truthy(part: Option<string>)
  {
    part.Some? && part.value != ""
  }

  /** The parts `buildDatabaseName` collects: the prefix if used, the base,
      and the suffix if used. */
  function AttrNameList(dbBaseName: string, prefix: Option<string>, sufix: Option<string>): seq<string>
  {
    (if Truthy(prefix) then [prefix.value] else []) + [dbBaseName] + (if Truthy(sufix) then [sufix.value] else [])
  }

  /** Joining the collected parts puts a '_' between each two of them. */
  lemma JoinAttrNames(dbBaseName: string, prefix: Option<string>, sufix: Option<string>)
    ensures Join(AttrNameList(dbBaseName, prefix, sufix), "_") ==
              (if Truthy(prefix) then prefix.value + "_" else "") + dbBaseName
              + (if Truthy(sufix) then "_" + sufix.value else "")
  {
    var parts := AttrNameList(dbBaseName, prefix, sufix);
    if Truthy(prefix) && Truthy(sufix) {
      assert parts == [prefix.value, dbBaseName, sufix.value];
      assert parts[1..] == [dbBaseName, sufix.value];
      assert parts[1..][1..] == [sufix.value];
      assert Join(parts[1..], "_") == dbBaseName + "_" + sufix.value;
    } else if Truthy(prefix) {
      assert parts[1..] == [dbBaseName];
    } else if Truthy(sufix) {
      assert parts[1..] == [sufix.value];
    }
  }

  /** `buildDatabaseName`: prefix, base and suffix joined by '_', leaving out
      a missing or empty prefix or suffix. */
  function BuildDatabaseName(dbBaseName: string, prefix: Option<string>, sufix: Option<string>): (name: string)
    ensures name == (if Truthy(prefix) then prefix.value + "_" else "") + dbBaseName
                    + (if Truthy(sufix) then "_" + sufix.value else "")
    ensures !Truthy(prefix) && !Truthy(sufix) ==> name == dbBaseName
  {
    JoinAttrNames(dbBaseName, prefix, sufix);
    Join(AttrNameList(dbBaseName, prefix, sufix), "_")
  }

  /** With the same prefix and suffix, different bases give different names. */
  lemma BuildDatabaseNameInjective(a: string, b: string, prefix: Option<string>, sufix: Option<string>)
    requires BuildDatabaseName(a, prefix, sufix) == BuildDatabaseName(b, prefix, sufix)
    ensures a == b
  {
    var p := if Truthy(prefix) then prefix.value + "_" else "";
    var q := if Truthy(sufix) then "_" + sufix.value else "";
    assert p + a + q == p + b + q;
    assert |a| == |b|;
    assert a == (p + a + q)[|p|..|p| + |a|];
    assert b == (p + b + q)[|p|..|p| + |b|];
  }

  /** `buildAutoIncrementingDbNameList`: `numberOfDatabases` names (none for
      a negative count), the i-th built from the base followed by `i + 1`. */
  method BuildAutoIncrementingDbNameList(dbInitialBaseName: string, numberOfDatabases: int,
                                         prefix: Option<string>, sufix: Option<string>)
    returns (dbNameList: seq<string>)
    ensures |dbNameList| == if numberOfDatabases < 0 then 0 else numberOfDatabases
    ensures forall i :: 0 <= i < |dbNameList| ==>
              dbNameList[i] == BuildDatabaseName(dbInitialBaseName + NatToString(i + 1), prefix, sufix)
  {
    dbNameList := [];
    var i := 0;
    while i < numberOfDatabases
      invariant 0 <= i <= if numberOfDatabases < 0 then 0 else numberOfDatabases
      invariant |dbNameList| == i
      invariant forall k :: 0 <= k < i ==>
                  dbNameList[k] == BuildDatabaseName(dbInitialBaseName + NatToString(k + 1), prefix, sufix)
    {
      var dbBaseName := dbInitialBaseName + NatToString(i + 1);
      dbNameList := dbNameList + [BuildDatabaseName(dbBaseName, prefix, sufix)];
      i := i + 1;
    }
  }

  /** The auto-incremented names are all different. */
  lemma AutoIncrementingNamesDistinct(names: seq<string>, dbInitialBaseName: string,
                                      prefix: Option<string>, sufix: Option<string>)
    requires forall i :: 0 <= i < |names| ==>
               names[i] == BuildDatabaseName(dbInitialBaseName + NatToString(i + 1), prefix, sufix)
    ensures NoDuplicates(names)
  {
    forall i, j | 0 <= i < j < |names|
      ensures names[i] != names[j]
    {
      if names[i] == names[j] {
        var a, b := dbInitialBaseName + NatToString(i + 1), dbInitialBaseName + NatToString(j + 1);
        BuildDatabaseNameInjective(a, b, prefix, sufix);
        assert NatToString(i + 1) == a[|dbInitialBaseName|..] == b[|dbInitialBaseName|..] == NatToString(j + 1);
        NatToStringInjective(i + 1, j + 1);
      }
    }
  }

  // ---------------------------------------------------------------------
  // Frames of map-sheet databases

  /** `scaleMIDict`: the scale of a map sheet by its number of '-'-separated parts. */
  const ScaleMIDict: map<int, string> :=
    map[1 := "100k", 2 := "50k", 3 := "25k", 4 := "10k", 5 := "5k", 6 := "2k", 7 := "1k"]

  /** The number of '-'-separated parts of a map sheet name. */
  function SheetDepth(mi: string): nat
  {
    Count(mi, '-') + 1
  }

  /** The depth is the length of `mi.split('-')`. */
  lemma SheetDepthIsPartCount(mi: string)
    ensures SheetDepth(mi) == |Split(mi, '-')|
  {
  }

  /** The scale lookup; a missing key raises a `KeyError` whose message is the key. */
  function FrameScale(parts: nat): (r: Result<string, string>)
    ensures r.Ok? <==> 1 <= parts <= 7
    ensures r.Ok? ==> r.value == ScaleMIDict[parts]
    ensures r.Err? ==> r.error == NatToString(parts)
  {
    if parts in ScaleMIDict then Ok(ScaleMIDict[parts]) else Err(NatToString(parts))
  }

  /** Different depths have different scales. */
  lemma FrameScaleInjective(a: nat, b: nat)
    requires FrameScale(a).Ok? && FrameScale(a) == FrameScale(b)
    ensures a == b
  {
  }

  // ---------------------------------------------------------------------
  // The creation loop

  /** What `createDb` does: it returns a database, or it raises an exception
      whose first argument reads `message`. */
  datatype CreateResult = Made(db: DbHandle) | Failed(message: string)

  /** The creator the loops call into: the SRID, the driver's `createDb`
      (given the call's position in the loop, the name, the SRID and the
      parameter dict) and the database's `createFrame` (given the scale and
      the map sheet; `None` when it succeeds, the message when it raises). */
  datatype Creator = Creator(
    srid: string,
    createDb: (nat, string, string, Dict) -> CreateResult,
    createFrame: (DbHandle, string, string) -> Option<string>)

  /** One pass of the loop: the database to create, the key a success is
      stored under, and the map sheet whose frame to create, if any. */
  datatype Job = Job(dbName: string, key: string, frameFor: Option<string>)

  /** The loop's variables: `outputDbDict`, `errorDict`, `templateDb` and the
      caller's `paramDict`, which the loop writes into. */
  datatype RunState = RunState(out: map<string, DbHandle>, err: map<string, string>,
                               templateDb: Option<string>, params: Dict)

  /** The parameters a call receives: `templateDb` is written into the dict
      once a template is set. */
  function CallParams(templateDb: Option<string>, params: Dict): (p: Dict)
    ensures Truthy(templateDb) ==> p == params["templateDb" := Str(templateDb.value)]
    ensures !Truthy(templateDb) ==> p == params
  {
    if Truthy(templateDb) then params["templateDb" := Str(templateDb.value)] else params
  }

  /** The error dict after one more failure: the first message of a name,
      or the messages so far, a newline, and this one. */
  function AddError(err: map<string, string>, dbName: string, message: string): (r: map<string, string>)
    ensures r.Keys == err.Keys + {dbName}
    ensures forall k :: k in err && k != dbName ==> r[k] == err[k]
    ensures r[dbName] == if dbName in err then err[dbName] + "\n" + message else message
  {
    if dbName !in err then err[dbName := message] else err[dbName := err[dbName] + "\n" + message]
  }

  /** The frame step of one pass: `None` when no frame is asked for or its
      creation succeeds, otherwise the message it raises. */
  function FrameStep(db: DbHandle, frameFor: Option<string>, c: Creator): Option<string>
  {
    match frameFor
    case None => None
    case Some(mi) =>
      match FrameScale(SheetDepth(mi))
      case Err(key) => Some(key)
      case Ok(scale) => c.createFrame(db, scale, mi)
  }

  /** What `createDb` does in pass `i`, from the state before it. */
  function Created(st: RunState, i: nat, job: Job, c: Creator): CreateResult
  {
    c.createDb(i, job.dbName, c.srid, CallParams(st.templateDb, st.params))
  }

  /** The message pass `i` fails with, if it fails. */
  function StepFailure(st: RunState, i: nat, job: Job, c: Creator): Option<string>
  {
    match Created(st, i, job, c)
    case Failed(message) => Some(message)
    case Made(db) => FrameStep(db, job.frameFor, c)
  }

  /** One pass of the loop, from the state before it. */
  function Step(st: RunState, i: nat, job: Job, c: Creator): RunState
  {
    var created := Created(st, i, job, c);
    var failure := StepFailure(st, i, job, c);
    RunState(
      if failure.None? then st.out[job.key := created.db] else st.out,
      if failure.Some? then AddError(st.err, job.dbName, failure.value) else st.err,
      if created.Made? && !Truthy(st.templateDb) then Some(job.dbName) else st.templateDb,
      CallParams(st.templateDb, st.params))
  }

  /** The loop over `jobs`, pass `i` being the `i`-th call of `createDb`. */
  function Run(jobs: seq<Job>, c: Creator, params: Dict): RunState
  {
    if |jobs| == 0 then RunState(map[], map[], None, params)
    else Step(Run(jobs[..|jobs| - 1], c, params), |jobs| - 1, jobs[|jobs| - 1], c)
  }

  /** The state before pass `i`. */
  function Before(jobs: seq<Job>, c: Creator, params: Dict, i: nat): RunState
    requires i <= |jobs|
  {
    Run(jobs[..i], c, params)
  }

  /** Running one more job is one more step. */
  lemma RunSnoc(jobs: seq<Job>, i: nat, c: Creator, params: Dict)
    requires i < |jobs|
    ensures Run(jobs[..i + 1], c, params) == Step(Run(jobs[..i], c, params), i, jobs[i], c)
  {
    assert jobs[..i + 1][..i] == jobs[..i];
  }

  // ---------------------------------------------------------------------
  // What the loop promises

  /** Every key the loop stores comes from a job, and every job leaves its
      key in the results or its database name in the errors. */
  lemma {:induction false} RunKeys(jobs: seq<Job>, c: Creator, params: Dict)
    ensures forall k :: k in Run(jobs, c, params).out ==> exists j :: 0 <= j < |jobs| && jobs[j].key == k
    ensures forall k :: k in Run(jobs, c, params).err ==> exists j :: 0 <= j < |jobs| && jobs[j].dbName == k
    ensures forall j :: 0 <= j < |jobs| ==> jobs[j].key in Run(jobs, c, params).out || jobs[j].dbName in Run(jobs, c, params).err
  {
    if |jobs| > 0 {
      var n := |jobs| - 1;
      var p := jobs[..n];
      RunKeys(p, c, params);
      var st := Run(p, c, params);
      var after := Run(jobs, c, params);
      assert after == Step(st, n, jobs[n], c);
      StepKeys(st, n, jobs[n], c);
      forall k | k in after.out
        ensures exists j :: 0 <= j < |jobs| && jobs[j].key == k
      {
        if k != jobs[n].key {
          var j :| 0 <= j < |p| && p[j].key == k;
          assert jobs[j].key == k;
        }
      }
      forall k | k in after.err
        ensures exists j :: 0 <= j < |jobs| && jobs[j].dbName == k
      {
        if k != jobs[n].dbName {
          var j :| 0 <= j < |p| && p[j].dbName == k;
          assert jobs[j].dbName == k;
        }
      }
      forall j | 0 <= j < |jobs|
        ensures jobs[j].key in after.out || jobs[j].dbName in after.err
      {
        if j < n {
          assert p[j] == jobs[j];
        }
      }
    }
  }

  /** A pass only adds keys: its own key to the results or its own database
      name to the errors. */
  lemma StepKeys(st: RunState, i: nat, job: Job, c: Creator)
    ensures Step(st, i, job, c).out.Keys <= st.out.Keys + {job.key}
    ensures Step(st, i, job, c).err.Keys <= st.err.Keys + {job.dbName}
    ensures st.out.Keys <= Step(st, i, job, c).out.Keys && st.err.Keys <= Step(st, i, job, c).err.Keys
    ensures job.key in Step(st, i, job, c).out || job.dbName in Step(st, i, job, c).err
  {
  }

  /** A job whose key and database name no other job shares ends where its
      own pass put it: under its key when the pass succeeded, among the
      errors with its message when it failed. */
  lemma {:induction false} DistinctJobOutcome(jobs: seq<Job>, c: Creator, params: Dict, j: nat)
    requires j < |jobs|
    requires forall k :: 0 <= k < |jobs| && k != j ==> jobs[k].key != jobs[j].key && jobs[k].dbName != jobs[j].dbName
    ensures var st := Run(jobs, c, params);
            var failure := StepFailure(Before(jobs, c, params, j), j, jobs[j], c);
            && (failure.None? ==> jobs[j].key in st.out && st.out[jobs[j].key] == Created(Before(jobs, c, params, j), j, jobs[j], c).db)
            && (failure.Some? ==> jobs[j].dbName in st.err && st.err[jobs[j].dbName] == failure.value)
            && (jobs[j].key in st.out <==> failure.None?)
  {
    var n := |jobs| - 1;
    var p := jobs[..n];
    if j < n {
      assert p[..j] == jobs[..j];
      DistinctJobOutcome(p, c, params, j);
      assert Run(jobs, c, params) == Step(Run(p, c, params), n, jobs[n], c);
      StepOthers(Run(p, c, params), n, jobs[n], c, jobs[j].key, jobs[j].dbName);
    } else {
      assert jobs[..j] == p;
      NotYetKeyed(p, c, params, jobs[j].key, jobs[j].dbName);
    }
  }

  /** A pass leaves the entries of other keys and database names as they were. */
  lemma StepOthers(st: RunState, i: nat, job: Job, c: Creator, key: string, dbName: string)
    requires key != job.key && dbName != job.dbName
    ensures (key in Step(st, i, job, c).out <==> key in st.out)
    ensures key in st.out ==> Step(st, i, job, c).out[key] == st.out[key]
    ensures (dbName in Step(st, i, job, c).err <==> dbName in st.err)
    ensures dbName in st.err ==> Step(st, i, job, c).err[dbName] == st.err[dbName]
  {
  }

  /** A key and a database name that no job has used are in neither dict. */
  lemma {:induction false} NotYetKeyed(jobs: seq<Job>, c: Creator, params: Dict, key: string, dbName: string)
    requires forall k :: 0 <= k < |jobs| ==> jobs[k].key != key && jobs[k].dbName != dbName
    ensures key !in Run(jobs, c, params).out && dbName !in Run(jobs, c, params).err
  {
    if |jobs| > 0 {
      NotYetKeyed(jobs[..|jobs| - 1], c, params, key, dbName);
    }
  }

  /** Pass `j` creates a database under a non-empty name. */
  predicate TemplateCandidate(jobs: seq<Job>, c: Creator, params: Dict, j: nat)
    requires j < |jobs|
  {
    jobs[j].dbName != "" && Created(Before(jobs, c, params, j), j, jobs[j], c).Made?
  }

  /** Pass `j` is the first to create a database under a non-empty name. */
  predicate FirstTemplate(jobs: seq<Job>, c: Creator, params: Dict, j: nat)
    requires j < |jobs|
  {
    TemplateCandidate(jobs, c, params, j) && forall k :: 0 <= k < j ==> !TemplateCandidate(jobs, c, params, k)
  }

  /** Before pass `i`, the template is set exactly when an earlier pass
      created a database under a non-empty name, and it is the first such
      name; until then the caller's dict is untouched. */
  lemma {:induction false} TemplateIsFirstSuccess(jobs: seq<Job>, c: Creator, params: Dict, i: nat)
    requires i <= |jobs|
    ensures Truthy(Before(jobs, c, params, i).templateDb) <==> exists j :: 0 <= j < i && TemplateCandidate(jobs, c, params, j)
    ensures forall j :: 0 <= j < i && FirstTemplate(jobs, c, params, j) ==> Before(jobs, c, params, i).templateDb == Some(jobs[j].dbName)
    ensures !Truthy(Before(jobs, c, params, i).templateDb) ==> Before(jobs, c, params, i).params == params
  {
    if i > 0 {
      var m := i - 1;
      TemplateIsFirstSuccess(jobs, c, params, m);
      var st := Before(jobs, c, params, m);
      var made := Created(st, m, jobs[m], c).Made?;
      StepTemplate(jobs, c, params, m);
      assert TemplateCandidate(jobs, c, params, m) <==> jobs[m].dbName != "" && made;
      if Truthy(st.templateDb) {
        var w :| 0 <= w < m && TemplateCandidate(jobs, c, params, w);
        assert !FirstTemplate(jobs, c, params, m);
      } else {
        forall j | 0 <= j < i && FirstTemplate(jobs, c, params, j)
          ensures Before(jobs, c, params, i).templateDb == Some(jobs[j].dbName)
        {
          assert j == m;
        }
      }
    }
  }

  /** How pass `m` changes the template and the caller's dict. */
  lemma StepTemplate(jobs: seq<Job>, c: Creator, params: Dict, m: nat)
    requires m < |jobs|
    ensures var st := Before(jobs, c, params, m);
            var made := Created(st, m, jobs[m], c).Made?;
            && Before(jobs, c, params, m + 1).templateDb ==
                 (if made && !Truthy(st.templateDb) then Some(jobs[m].dbName) else st.templateDb)
            && Before(jobs, c, params, m + 1).params == CallParams(st.templateDb, st.params)
  {
    RunSnoc(jobs, m, c, params);
  }

  /** Every pass after the first template receives `templateDb` set to it. */
  lemma LaterCallsGetTemplate(jobs: seq<Job>, c: Creator, params: Dict, j: nat, i: nat)
    requires j < i < |jobs| && FirstTemplate(jobs, c, params, j)
    ensures "templateDb" in CallParams(Before(jobs, c, params, i).templateDb, Before(jobs, c, params, i).params)
    ensures CallParams(Before(jobs, c, params, i).templateDb, Before(jobs, c, params, i).params)["templateDb"] == Str(jobs[j].dbName)
  {
    TemplateIsFirstSuccess(jobs, c, params, i);
  }

  /** Until a template is set, every pass receives the caller's dict as it was. */
  lemma EarlyCallsGetCallersDict(jobs: seq<Job>, c: Creator, params: Dict, i: nat)
    requires i < |jobs|
    requires forall k :: 0 <= k < i ==> !TemplateCandidate(jobs, c, params, k)
    ensures CallParams(Before(jobs, c, params, i).templateDb, Before(jobs, c, params, i).params) == params
  {
    TemplateIsFirstSuccess(jobs, c, params, i);
  }

  /** The messages of the failed passes for `dbName`, in loop order. */
  function FailMessages(jobs: seq<Job>, c: Creator, params: Dict, dbName: string): seq<string>
  {
    if |jobs| == 0 then []
    else
      var n := |jobs| - 1;
      var failure := StepFailure(Run(jobs[..n], c, params), n, jobs[n], c);
      var earlier := FailMessages(jobs[..n], c, params, dbName);
      if jobs[n].dbName == dbName && failure.Some? then earlier + [failure.value] else earlier
  }

  /** A name is among the errors exactly when one of its passes failed, and
      its entry is the messages of those passes joined by newlines. */
  lemma {:induction false} ErrorsAccumulate(jobs: seq<Job>, c: Creator, params: Dict, dbName: string)
    ensures dbName in Run(jobs, c, params).err <==> |FailMessages(jobs, c, params, dbName)| > 0
    ensures dbName in Run(jobs, c, params).err ==>
              Run(jobs, c, params).err[dbName] == Join(FailMessages(jobs, c, params, dbName), "\n")
  {
    if |jobs| > 0 {
      var n := |jobs| - 1;
      ErrorsAccumulate(jobs[..n], c, params, dbName);
      var earlier := FailMessages(jobs[..n], c, params, dbName);
      if |earlier| > 0 {
        var failure := StepFailure(Run(jobs[..n], c, params), n, jobs[n], c);
        if jobs[n].dbName == dbName && failure.Some? {
          JoinSnoc(earlier, failure.value, "\n");
        }
      }
    }
  }

  // ---------------------------------------------------------------------
  // batchCreateDb and createDbWithAutoIncrementingName

  /** The jobs of `batchCreateDb`: each name is created and stored under itself. */
  function BatchJobs(dbNameList: seq<string>): (jobs: seq<Job>)
    ensures |jobs| == |dbNameList|
    ensures forall i :: 0 <= i < |jobs| ==> jobs[i] == Job(dbNameList[i], dbNameList[i], None)
  {
    seq(|dbNameList|, i requires 0 <= i < |dbNameList| => Job(dbNameList[i], dbNameList[i], None))
  }

  /** The first half of a pass (the `if not templateDb` branches): call
      `createDb`, with `templateDb` written into the caller's dict once a
      template is set, and make the first database created under a
      non-empty name the template. */
  method CallCreateDb(i: nat, dbName: string, srid: string, templateDb: Option<string>, paramDict: Dict,
                      createDb: (nat, string, string, Dict) -> CreateResult)
    returns (newDb: CreateResult, templateDbAfter: Option<string>, paramDictAfter: Dict)
    ensures paramDictAfter == CallParams(templateDb, paramDict)
    ensures newDb == createDb(i, dbName, srid, paramDictAfter)
    ensures templateDbAfter == if newDb.Made? && !Truthy(templateDb) then Some(dbName) else templateDb
  {
    templateDbAfter, paramDictAfter := templateDb, paramDict;
    if !Truthy(templateDb) {
      newDb := createDb(i, dbName, srid, paramDictAfter);
      if newDb.Made? {
        templateDbAfter := Some(dbName);
      }
    } else {
      paramDictAfter := paramDictAfter["templateDb" := Str(templateDb.value)];
      newDb := createDb(i, dbName, srid, paramDictAfter);
    }
  }

  /** `batchCreateDb`: creates every name in turn, the first created one
      (under a non-empty name) becoming the template of the later ones;
      returns `outputDbDict`, `errorDict` and the caller's dict as the loop
      left it. `createDb` is the creator's. */
  method BatchCreateDb(dbNameList: seq<string>, srid: string, paramDict: Dict,
                       createDb: (nat, string, string, Dict) -> CreateResult)
    returns (outputDbDict: map<string, DbHandle>, errorDict: map<string, string>, paramDictAfter: Dict)
    ensures var st := Run(BatchJobs(dbNameList), Creator(srid, createDb, NoFrame), paramDict);
            outputDbDict == st.out && errorDict == st.err && paramDictAfter == st.params
  {
    var c := Creator(srid, createDb, NoFrame);
    ghost var jobs := BatchJobs(dbNameList);
    outputDbDict, errorDict := map[], map[];
    paramDictAfter := paramDict;
    var templateDb: Option<string> := None;
    var i := 0;
    while i < |dbNameList|
      invariant 0 <= i <= |dbNameList|
      invariant Run(jobs[..i], c, paramDict) == RunState(outputDbDict, errorDict, templateDb, paramDictAfter)
    {
      var dbName := dbNameList[i];
      var newDb;
      newDb, templateDb, paramDictAfter := CallCreateDb(i, dbName, srid, templateDb, paramDictAfter, createDb);
      var failure := PassFailure(newDb, None, c);
      if failure.None? {
        outputDbDict := outputDbDict[dbName := newDb.db];
      } else {
        errorDict := AddError(errorDict, dbName, failure.value);
      }
      RunSnoc(jobs, i, c, paramDict);
      i := i + 1;
    }
    assert jobs[..|dbNameList|] == jobs;
  }

  /** `batchCreateDb` creates no frames. */
  function NoFrame(db: DbHandle, scale: string, mi: string): Option<string>
  {
    None
  }

  /** Every name of the batch ends in the results or the errors, and nothing
      else does; for distinct names, in exactly one of them. */
  lemma BatchCoverage(dbNameList: seq<string>, c: Creator, params: Dict)
    ensures var st := Run(BatchJobs(dbNameList), c, params);
            forall name :: name in dbNameList <==> name in st.out || name in st.err
    ensures NoDuplicates(dbNameList) ==>
              var st := Run(BatchJobs(dbNameList), c, params);
              forall name :: name in dbNameList ==> (name in st.out <==> name !in st.err)
  {
    var jobs := BatchJobs(dbNameList);
    var st := Run(jobs, c, params);
    RunKeys(jobs, c, params);
    forall name | name in st.out || name in st.err
      ensures name in dbNameList
    {
      if name in st.out {
        var j :| 0 <= j < |jobs| && jobs[j].key == name;
        assert dbNameList[j] == name;
      } else {
        var j :| 0 <= j < |jobs| && jobs[j].dbName == name;
        assert dbNameList[j] == name;
      }
    }
    forall name | name in dbNameList
      ensures name in st.out || name in st.err
    {
      var j :| 0 <= j < |dbNameList| && dbNameList[j] == name;
      assert jobs[j].key == name;
    }
    if NoDuplicates(dbNameList) {
      forall name | name in dbNameList
        ensures name in st.out <==> name !in st.err
      {
        var j :| 0 <= j < |dbNameList| && dbNameList[j] == name;
        DistinctJobOutcome(jobs, c, params, j);
        var failure := StepFailure(Before(jobs, c, params, j), j, jobs[j], c);
        if failure.None? {
          ErrorsAccumulate(jobs, c, params, name);
          NoFailureForDistinct(jobs, c, params, j);
        }
      }
    }
  }

  /** A job with its own database name that did not fail has no error messages. */
  lemma {:induction false} NoFailureForDistinct(jobs: seq<Job>, c: Creator, params: Dict, j: nat)
    requires j < |jobs|
    requires forall k :: 0 <= k < |jobs| && k != j ==> jobs[k].dbName != jobs[j].dbName
    requires StepFailure(Before(jobs, c, params, j), j, jobs[j], c).None?
    ensures FailMessages(jobs, c, params, jobs[j].dbName) == []
  {
    var n := |jobs| - 1;
    var p := jobs[..n];
    if j < n {
      DistinctInPrefix(jobs, j);
      NoFailureForDistinct(p, c, params, j);
      FailMessagesElsewhere(jobs, c, params, jobs[j].dbName);
    } else {
      assert jobs[..j] == p;
      NoMessagesYet(p, c, params, jobs[j].dbName);
    }
  }

  /** Dropping the last job keeps job `j`, its name distinct, and what ran before it. */
  lemma DistinctInPrefix(jobs: seq<Job>, j: nat)
    requires j < |jobs| - 1
    requires forall k :: 0 <= k < |jobs| && k != j ==> jobs[k].dbName != jobs[j].dbName
    ensures var p := jobs[..|jobs| - 1];
            && p[j] == jobs[j] && p[..j] == jobs[..j] && jobs[|jobs| - 1].dbName != jobs[j].dbName
            && forall k :: 0 <= k < |p| && k != j ==> p[k].dbName != p[j].dbName
  {
  }

  /** A last job for another database adds no message for `dbName`. */
  lemma FailMessagesElsewhere(jobs: seq<Job>, c: Creator, params: Dict, dbName: string)
    requires |jobs| > 0 && jobs[|jobs| - 1].dbName != dbName
    ensures FailMessages(jobs, c, params, dbName) == FailMessages(jobs[..|jobs| - 1], c, params, dbName)
  {
  }

  /** A database name no job has used has no error messages. */
  lemma {:induction false} NoMessagesYet(jobs: seq<Job>, c: Creator, params: Dict, dbName: string)
    requires forall k :: 0 <= k < |jobs| ==> jobs[k].dbName != dbName
    ensures FailMessages(jobs, c, params, dbName) == []
  {
    if |jobs| > 0 {
      NoMessagesYet(jobs[..|jobs| - 1], c, params, dbName);
    }
  }

  /** `createDbWithAutoIncrementingName`: the batch run over the
      auto-incremented names, which are all distinct. */
  method CreateDbWithAutoIncrementingName(dbInitialBaseName: string, srid: string, numberOfDatabases: int,
                                          prefix: Option<string>, sufix: Option<string>, paramDict: Dict,
                                          createDb: (nat, string, string, Dict) -> CreateResult)
    returns (outputDbDict: map<string, DbHandle>, errorDict: map<string, string>, paramDictAfter: Dict)
    ensures exists names ::
              && |names| == (if numberOfDatabases < 0 then 0 else numberOfDatabases)
              && (forall i :: 0 <= i < |names| ==>
                    names[i] == BuildDatabaseName(dbInitialBaseName + NatToString(i + 1), prefix, sufix))
              && NoDuplicates(names)
              && var st := Run(BatchJobs(names), Creator(srid, createDb, NoFrame), paramDict);
                 outputDbDict == st.out && errorDict == st.err && paramDictAfter == st.params
  {
    var dbNameList := BuildAutoIncrementingDbNameList(dbInitialBaseName, numberOfDatabases, prefix, sufix);
    AutoIncrementingNamesDistinct(dbNameList, dbInitialBaseName, prefix, sufix);
    outputDbDict, errorDict, paramDictAfter := BatchCreateDb(dbNameList, srid, paramDict, createDb);
  }

  // ---------------------------------------------------------------------
  // createDbFromMIList

  /** The jobs of `createDbFromMIList`: each map sheet's database is named
      from the sheet, stored under the sheet, and may get its frame. */
  function MIJobs(miList: seq<string>, prefix: Option<string>, sufix: Option<string>, createFrame: bool): (jobs: seq<Job>)
    ensures |jobs| == |miList|
    ensures forall i :: 0 <= i < |jobs| ==>
              jobs[i] == Job(BuildDatabaseName(miList[i], prefix, sufix), miList[i], if createFrame then Some(miList[i]) else None)
  {
    seq(|miList|, i requires 0 <= i < |miList| =>
      Job(BuildDatabaseName(miList[i], prefix, sufix), miList[i], if createFrame then Some(miList[i]) else None))
  }

  /** The message of the `NameError` the unbound `srid` raises. */
  const UnboundSridMessage: string := "global name 'srid' is not defined"

  /** Every call of `createDb` in the loop as written raises, before the
      creator is reached, because `srid` is not bound in the method. */
  function UnboundSrid(i: nat, dbName: string, srid: string, params: Dict): CreateResult
  {
    Failed(UnboundSridMessage)
  }

  /** `createDbFromMIList` as written: `srid` is not bound in the method, so
      evaluating the arguments of either `createDb` call raises the
      `NameError` before the creator is reached. The loop is the one below
      with a `createDb` that always raises it; no frame is ever asked for. */
  method CreateDbFromMIListAsWritten(miList: seq<string>, prefix: Option<string>, sufix: Option<string>,
                                     paramDict: Dict, createFrame: bool)
    returns (outputDbDict: map<string, DbHandle>, errorDict: map<string, string>)
    ensures var st := Run(MIJobs(miList, prefix, sufix, createFrame), Creator("", UnboundSrid, NoFrame), paramDict);
            outputDbDict == st.out && errorDict == st.err
    ensures outputDbDict == map[]
    ensures forall i :: 0 <= i < |miList| ==> BuildDatabaseName(miList[i], prefix, sufix) in errorDict
  {
    var paramDictAfter;
    outputDbDict, errorDict, paramDictAfter :=
      CreateDbFromMIList(miList, "", prefix, sufix, paramDict, createFrame, UnboundSrid, NoFrame);
    MIListAsWrittenFails(MIJobs(miList, prefix, sufix, createFrame), paramDict);
  }

  /** As written, a one-sheet list creates nothing and reports the
      `NameError` under the sheet's database name, whatever the creator does. */
  lemma MIListAsWrittenLosesSheet(paramDict: Dict, createDb: (nat, string, string, Dict) -> CreateResult)
    requires forall i, n, s, p :: createDb(i, n, s, p) == Made(DbHandle(0))
    ensures var jobs := MIJobs(["SF-23"], None, None, false);
            var asWritten := Run(jobs, Creator("", UnboundSrid, NoFrame), paramDict);
            var intended := Run(jobs, Creator("4674", createDb, NoFrame), paramDict);
            && asWritten.out == map[] && asWritten.err == map["SF-23" := UnboundSridMessage]
            && intended.out == map["SF-23" := DbHandle(0)] && intended.err == map[]
  {
    var jobs := MIJobs(["SF-23"], None, None, false);
    assert jobs[..0] == [];
  }

  /** `createDbFromMIList` with the SRID given: creates each sheet's database
      in turn, stores it under the sheet, creates its frame at the scale of
      the sheet's depth when asked, and reports failures under the
      database name. */
  method CreateDbFromMIList(miList: seq<string>, srid: string, prefix: Option<string>, sufix: Option<string>,
                            paramDict: Dict, createFrame: bool,
                            createDb: (nat, string, string, Dict) -> CreateResult,
                            frame: (DbHandle, string, string) -> Option<string>)
    returns (outputDbDict: map<string, DbHandle>, errorDict: map<string, string>, paramDictAfter: Dict)
    ensures var st := Run(MIJobs(miList, prefix, sufix, createFrame), Creator(srid, createDb, frame), paramDict);
            outputDbDict == st.out && errorDict == st.err && paramDictAfter == st.params
  {
    var c := Creator(srid, createDb, frame);
    ghost var jobs := MIJobs(miList, prefix, sufix, createFrame);
    outputDbDict, errorDict := map[], map[];
    paramDictAfter := paramDict;
    var templateDb: Option<string> := None;
    var i := 0;
    while i < |miList|
      invariant 0 <= i <= |miList|
      invariant Run(jobs[..i], c, paramDict) == RunState(outputDbDict, errorDict, templateDb, paramDictAfter)
    {
      var mi := miList[i];
      var dbName := BuildDatabaseName(mi, prefix, sufix);
      var newDb;
      newDb, templateDb, paramDictAfter := CallCreateDb(i, dbName, srid, templateDb, paramDictAfter, createDb);
      var failure := PassFailure(newDb, if createFrame then Some(mi) else None, c);
      if failure.None? {
        outputDbDict := outputDbDict[mi := newDb.db];
      } else {
        errorDict := AddError(errorDict, dbName, failure.value);
      }
      RunSnoc(jobs, i, c, paramDict);
      i := i + 1;
    }
    assert jobs[..|miList|] == jobs;
  }

  /** The second half of a pass of `createDbFromMIList`: the message the
      pass fails with, from `createDb`, the scale lookup or `createFrame`. */
  method PassFailure(newDb: CreateResult, frameFor: Option<string>, c: Creator) returns (failure: Option<string>)
    ensures newDb.Failed? ==> failure == Some(newDb.message)
    ensures newDb.Made? ==> failure == FrameStep(newDb.db, frameFor, c)
  {
    failure := None;
    if newDb.Failed? {
      failure := Some(newDb.message);
    } else if frameFor.Some? {
      var mi := frameFor.value;
      var scale := FrameScale(SheetDepth(mi));
      if scale.Err? {
        failure := Some(scale.error);
      } else {
        failure := c.createFrame(newDb.db, scale.value, mi);
      }
    }
  }

  /** Successes are keyed by map sheet and failures by database name, and
      every sheet is accounted for under one or the other. */
  lemma MIListKeys(miList: seq<string>, prefix: Option<string>, sufix: Option<string>, createFrame: bool,
                   c: Creator, params: Dict)
    ensures var st := Run(MIJobs(miList, prefix, sufix, createFrame), c, params);
            && (forall k :: k in st.out ==> k in miList)
            && (forall k :: k in st.err ==> exists i :: 0 <= i < |miList| && k == BuildDatabaseName(miList[i], prefix, sufix))
            && (forall i :: 0 <= i < |miList| ==> miList[i] in st.out || BuildDatabaseName(miList[i], prefix, sufix) in st.err)
  {
    var jobs := MIJobs(miList, prefix, sufix, createFrame);
    RunKeys(jobs, c, params);
    var st := Run(jobs, c, params);
    forall k | k in st.out ensures k in miList {
      var j :| 0 <= j < |jobs| && jobs[j].key == k;
      assert miList[j] == k;
    }
    forall k | k in st.err ensures exists i :: 0 <= i < |miList| && k == BuildDatabaseName(miList[i], prefix, sufix) {
      var j :| 0 <= j < |jobs| && jobs[j].dbName == k;
    }
  }

  /** The loop as written never stores a database or sets a template, and
      reports every sheet's database name among the errors. */
  lemma {:induction false} MIListAsWrittenFails(jobs: seq<Job>, params: Dict)
    ensures var st := Run(jobs, Creator("", UnboundSrid, NoFrame), params);
            && st.out == map[] && st.templateDb == None && st.params == params
            && forall j :: 0 <= j < |jobs| ==> jobs[j].dbName in st.err
  {
    if |jobs| > 0 {
      var p := jobs[..|jobs| - 1];
      MIListAsWrittenFails(p, params);
      forall j | 0 <= j < |jobs| - 1 ensures jobs[j].dbName in Run(jobs, Creator("", UnboundSrid, NoFrame), params).err {
        assert p[j] == jobs[j];
      }
    }
  }
}

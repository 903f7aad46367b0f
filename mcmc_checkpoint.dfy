/** The checkpoint of the Markov-chain solver: the "State" document that
    `getConfiguration` writes and `setState` reads back on a restart. Square
    buffers and the database are written flat, row after row. */
module McmcCheckpoint {
  import opened Wrappers
  import opened Json
  import opened McmcStatistics

  /** Everything the writer stores. The generated-candidate count is not
      part of it. */
  datatype Snapshot = Snapshot(
    functionEvaluations: nat,
    acceptedSamples: nat,
    chainLength: nat,
    databaseEntries: nat,
    acceptanceRate: real,
    rejections: nat,
    finished: bool,
    leader: seq<real>,
    candidates: seq<seq<real>>,
    candidatesFitness: seq<real>,
    databasePoints: seq<seq<real>>,
    databaseFitness: seq<real>,
    chainMean: seq<real>,
    chainCovariance: Matrix,
    covarianceMatrix: Matrix,
    leaderFitness: real)

  /** The buffer sizes the solver keeps for `n` variables. */
  predicate Shaped(s: Snapshot, n: nat)
  {
    && |s.leader| == n && |s.chainMean| == n
    && |s.candidates| == s.rejections && |s.candidatesFitness| == s.rejections
    && (forall r :: 0 <= r < |s.candidates| ==> |s.candidates[r]| == n)
    && |s.databasePoints| == s.databaseEntries && |s.databaseFitness| == s.databaseEntries
    && (forall i :: 0 <= i < |s.databasePoints| ==> |s.databasePoints[i]| == n)
    && Square(s.chainCovariance, n) && Square(s.covarianceMatrix, n)
  }

  // ---------------------------------------------------------------------
  // Row-major flattening.
  // ---------------------------------------------------------------------

  function Flatten(m: seq<seq<real>>): (r: seq<real>)
  {
    if m == [] then [] else m[0] + Flatten(m[1..])
  }

  lemma {:induction false} FlattenLength(m: seq<seq<real>>, n: nat)
    requires forall i :: 0 <= i < |m| ==> |m[i]| == n
    ensures |Flatten(m)| == |m| * n
  {
    if m != [] {
      FlattenLength(m[1..], n);
      assert |Flatten(m)| == n + (|m| - 1) * n;
    }
  }

  /** The first `k` rows of length `n` of a flat buffer. */
  function Unflatten(xs: seq<real>, n: nat, k: nat): (r: seq<seq<real>>)
    requires k * n <= |xs|
    ensures |r| == k
    ensures forall i :: 0 <= i < k ==> |r[i]| == n
  {
    if k == 0 then []
    else
      assert n <= |xs| && (k - 1) * n <= |xs[n..]|;
      [xs[..n]] + Unflatten(xs[n..], n, k - 1)
  }

  /** Reading back `k` rows of what was written gives the rows again. */
  lemma {:induction false} UnflattenFlatten(m: seq<seq<real>>, n: nat, rest: seq<real>)
    requires forall i :: 0 <= i < |m| ==> |m[i]| == n
    ensures |m| * n <= |Flatten(m) + rest|
    ensures Unflatten(Flatten(m) + rest, n, |m|) == m
  {
    FlattenLength(m, n);
    if m != [] {
      var xs := Flatten(m) + rest;
      assert xs == m[0] + (Flatten(m[1..]) + rest);
      assert xs[..n] == m[0];
      assert xs[n..] == Flatten(m[1..]) + rest;
      UnflattenFlatten(m[1..], n, rest);
      assert m == [m[0]] + m[1..];
    }
  }

  // ---------------------------------------------------------------------
  // The writer.
  // ---------------------------------------------------------------------

  const FunctionEvaluationsKey := "Function Evaluations"
  const CandidatesKey := "Candidates"

  function Count(k: nat): Json { JNum(k as real) }

  /** `key` set to `v` when `count > 0`; the source's writing loops leave the
      key out entirely when they run zero times. */
  function PutIfAny(m: map<string, Json>, key: string, count: nat, v: Json): map<string, Json>
  {
    if count > 0 then m[key := v] else m
  }

  /** An array of arrays of numbers, one per row. */
  function Rows(rows: seq<seq<real>>): (r: Json)
    ensures r.JArr? && |r.items| == |rows|
    ensures forall i :: 0 <= i < |rows| ==> r.items[i] == Numbers(rows[i])
  {
    JArr(seq(|rows|, i requires 0 <= i < |rows| => Numbers(rows[i])))
  }

  /** The "State" object of `getConfiguration`. The counters are always
      written; a buffer's key is created by its writing loop, so it is
      present only when that loop writes at least one value (`n * n`, `n`,
      `rejections * n`, `rejections`, `n * databaseEntries`,
      `databaseEntries` values, `n` being the number of variables). */
  /** The number of values a loop over `rows` by `cols` writes. */
  function Cells(rows: nat, cols: nat): (r: nat)
    ensures r > 0 <==> rows > 0 && cols > 0
  {
    rows * cols
  }

  function WriteState(s: Snapshot): (r: Json)
    ensures r.JObj?
  {
    var n := |s.leader|;
    var counters := map[
      FunctionEvaluationsKey := Count(s.functionEvaluations),
      "Number Accepted Samples" := Count(s.acceptedSamples),
      "Chain Length" := Count(s.chainLength),
      "Database Entries" := Count(s.databaseEntries),
      "Acceptance Rate Proposals" := JNum(s.acceptanceRate),
      "Rejections" := Count(s.rejections),
      "Finished" := JBool(s.finished),
      "LeaderFitness" := JNum(s.leaderFitness)];
    var m1 := PutIfAny(counters, "CovarianceMatrix", Cells(n, n), Numbers(Flatten(s.covarianceMatrix)));
    var m2 := PutIfAny(m1, "Leader", n, Numbers(s.leader));
    var m3 := PutIfAny(m2, CandidatesKey, Cells(s.rejections, n), Rows(s.candidates));
    var m4 := PutIfAny(m3, "CandidatesFitness", s.rejections, Numbers(s.candidatesFitness));
    var m5 := PutIfAny(m4, "DatabasePoints", Cells(n, s.databaseEntries), Numbers(Flatten(s.databasePoints)));
    var m6 := PutIfAny(m5, "DatabaseFitness", s.databaseEntries, Numbers(s.databaseFitness));
    var m7 := PutIfAny(m6, "Chain Mean", n, Numbers(s.chainMean));
    var m8 := PutIfAny(m7, "Chain Covariance", Cells(n, n), Numbers(Flatten(s.chainCovariance)));
    JObj(m8)
  }

  // ---------------------------------------------------------------------
  // The reader. A value that is missing, or of the wrong kind, makes the
  // JSON library throw, which ends the run.
  // ---------------------------------------------------------------------

  function Field(js: Json, key: string): Option<Json>
  {
    if js.JObj? && key in js.fields then Some(js.fields[key]) else None
  }

  function ReadCount(v: Option<Json>): (r: Result<nat>)
    ensures r.Ok? <==> v.Some? && v.value.JNum? && v.value.x >= 0.0
  {
    if v.Some? && v.value.JNum? && v.value.x >= 0.0 then Ok(v.value.x.Floor as nat)
    else Err("type must be number")
  }

  function ReadNumber(v: Option<Json>): (r: Result<real>)
    ensures r.Ok? <==> v.Some? && v.value.JNum?
  {
    if v.Some? && v.value.JNum? then Ok(v.value.x) else Err("type must be number")
  }

  function ReadBool(v: Option<Json>): (r: Result<bool>)
    ensures r.Ok? <==> v.Some? && v.value.JBool?
  {
    if v.Some? && v.value.JBool? then Ok(v.value.b) else Err("type must be boolean")
  }

  /** The first `count` numbers of an array; with `count == 0` nothing is
      read, so a missing key is no error. */
  function ReadNumbers(v: Option<Json>, count: nat): (r: Result<seq<real>>)
    ensures r.Ok? ==> |r.value| == count
    ensures count == 0 ==> r == Ok([])
  {
    if count == 0 then Ok([])
    else if v.Some? && v.value.JArr? && count <= |v.value.items|
            && forall i :: 0 <= i < count ==> v.value.items[i].JNum? then
      Ok(seq(count, i requires 0 <= i < count => v.value.items[i].x))
    else Err("type must be number")
  }

  /** Rows `0 .. k-1` of an array of arrays, `n` numbers each. */
  function ReadRows(v: Option<Json>, k: nat, n: nat): (r: Result<seq<seq<real>>>)
    ensures r.Ok? ==> |r.value| == k && forall i :: 0 <= i < k ==> |r.value[i]| == n
    ensures k == 0 || n == 0 ==> r.Ok?
  {
    if k == 0 || n == 0 then Ok(seq(k, i => []))
    else if v.Some? && v.value.JArr? && k <= |v.value.items|
            && forall i :: 0 <= i < k ==> ReadNumbers(Some(v.value.items[i]), n).Ok? then
      Ok(seq(k, i requires 0 <= i < k => ReadNumbers(Some(v.value.items[i]), n).value))
    else Err("type must be number")
  }

  /** `n * n` numbers, read back into `n` rows. */
  function ReadSquare(v: Option<Json>, n: nat): (r: Result<Matrix>)
    ensures r.Ok? ==> Square(r.value, n)
  {
    var flat :- ReadNumbers(v, n * n);
    Ok(Unflatten(flat, n, n))
  }

  /** `setState` for `n` variables, with the two key names it uses for the
      evaluation count and the candidates as parameters. */
  function ReadStateWith(js: Json, n: nat, evaluationsKey: string, candidatesKey: string): (r: Result<Snapshot>)
    ensures r.Ok? ==> Shaped(r.value, n)
  {
    var evaluations :- ReadCount(Field(js, evaluationsKey));
    var accepted :- ReadCount(Field(js, "Number Accepted Samples"));
    var chainLength :- ReadCount(Field(js, "Chain Length"));
    var entries :- ReadCount(Field(js, "Database Entries"));
    var rate :- ReadNumber(Field(js, "Acceptance Rate Proposals"));
    var rejections :- ReadCount(Field(js, "Rejections"));
    var finished :- ReadBool(Field(js, "Finished"));
    var leader :- ReadNumbers(Field(js, "Leader"), n);
    var candidates :- ReadRows(Field(js, candidatesKey), rejections, n);
    var candidatesFitness :- ReadNumbers(Field(js, "CandidatesFitness"), rejections);
    var points :- ReadNumbers(Field(js, "DatabasePoints"), n * entries);
    var fitness :- ReadNumbers(Field(js, "DatabaseFitness"), entries);
    var mean :- ReadNumbers(Field(js, "Chain Mean"), n);
    var chainCov :- ReadSquare(Field(js, "Chain Covariance"), n);
    var covariance :- ReadSquare(Field(js, "CovarianceMatrix"), n);
    var leaderFitness :- ReadNumber(Field(js, "LeaderFitness"));
    assert entries * n <= |points|;
    Ok(Snapshot(evaluations, accepted, chainLength, entries, rate, rejections, finished, leader,
                candidates, candidatesFitness, Unflatten(points, n, entries), fitness, mean,
                chainCov, covariance, leaderFitness))
  }

  /** The reader as written: "FunctionEvaluations" and "Candidate". */
  function ReadStateAsWritten(js: Json, n: nat): (r: Result<Snapshot>)
    ensures r.Ok? ==> Shaped(r.value, n)
  {
    ReadStateWith(js, n, "FunctionEvaluations", "Candidate")
  }

  /** The reader under the keys the writer uses. */
  function ReadState(js: Json, n: nat): (r: Result<Snapshot>)
    ensures r.Ok? ==> Shaped(r.value, n)
  {
    ReadStateWith(js, n, FunctionEvaluationsKey, CandidatesKey)
  }

  /** No checkpoint the writer produces can be read back by the source's
      reader: the evaluation count is missing under the key it looks for. */
  lemma RestoreAsWrittenFails(s: Snapshot, n: nat)
    ensures ReadStateAsWritten(WriteState(s), n).Err?
  {
    assert Field(WriteState(s), "FunctionEvaluations").None?;
  }

  /** With only the evaluation key repaired, a checkpoint taken after at least
      one rejection round still fails, on the candidates. */
  lemma RestoreWithCandidateKeyFails(s: Snapshot, n: nat)
    requires Shaped(s, n) && s.rejections > 0 && n > 0
    ensures ReadStateWith(WriteState(s), n, FunctionEvaluationsKey, "Candidate").Err?
  {
    var js := WriteState(s);
    ReadStateNeedsCandidates(js, n, FunctionEvaluationsKey, "Candidate");
    CandidateKeyMissing(s);
    WrittenRejections(s);
    hide WriteState, ReadStateWith, Numbers, Flatten, Unflatten, ReadNumbers, ReadSquare;
    assert ReadCount(Field(js, "Rejections")) == Ok(s.rejections);
    assert ReadRows(Field(js, "Candidate"), s.rejections, n).Err?;
  }

  /** A successful read has read the candidates, as many rows as
      "Rejections" says. */
  lemma ReadStateNeedsCandidates(js: Json, n: nat, evaluationsKey: string, candidatesKey: string)
    ensures ReadStateWith(js, n, evaluationsKey, candidatesKey).Ok? ==>
              ReadCount(Field(js, "Rejections")).Ok?
              && ReadRows(Field(js, candidatesKey), ReadCount(Field(js, "Rejections")).value, n).Ok?
  {
  }

  lemma CandidateKeyMissing(s: Snapshot)
    ensures Field(WriteState(s), "Candidate").None?
  {
  }

  lemma ReadNumbersWritten(xs: seq<real>)
    ensures ReadNumbers(Some(Numbers(xs)), |xs|) == Ok(xs)
  {
    if |xs| > 0 {
      var r := ReadNumbers(Some(Numbers(xs)), |xs|);
      assert r.Ok?;
      assert r.value == xs by {
        forall i | 0 <= i < |xs| ensures r.value[i] == xs[i] {
          assert Numbers(xs).items[i] == JNum(xs[i]);
        }
      }
    }
  }

  lemma ReadSquareWritten(m: Matrix, n: nat)
    requires Square(m, n)
    ensures ReadSquare(Some(Numbers(Flatten(m))), n) == Ok(m)
  {
    FlattenLength(m, n);
    ReadNumbersWritten(Flatten(m));
    UnflattenFlatten(m, n, []);
    assert Flatten(m) + [] == Flatten(m);
  }

  lemma ReadRowsWritten(rows: seq<seq<real>>, n: nat)
    requires forall i :: 0 <= i < |rows| ==> |rows[i]| == n
    ensures ReadRows(Some(Rows(rows)), |rows|, n) == Ok(rows)
  {
    var v := Some(Rows(rows));
    forall i | 0 <= i < |rows| ensures ReadNumbers(Some(v.value.items[i]), n) == Ok(rows[i]) {
      ReadNumbersWritten(rows[i]);
    }
    if |rows| > 0 && n > 0 {
      assert ReadRows(v, |rows|, n).value == rows;
    } else if n == 0 {
      assert ReadRows(v, |rows|, n).value == rows;
    }
  }

  /** `key` holds `v` when its loop writes `count > 0` values, and is
      absent otherwise. */
  function IfAny(count: nat, v: Json): Option<Json>
  {
    if count > 0 then Some(v) else None
  }

  /** Where the writer puts each value (one small lemma per key keeps the
      string comparisons of the keys cheap). */
  lemma WrittenEvaluations(s: Snapshot)
    ensures Field(WriteState(s), FunctionEvaluationsKey) == Some(Count(s.functionEvaluations))
  {
  }

  lemma WrittenAcceptedSamples(s: Snapshot)
    ensures Field(WriteState(s), "Number Accepted Samples") == Some(Count(s.acceptedSamples))
  {
  }

  lemma WrittenChainLength(s: Snapshot)
    ensures Field(WriteState(s), "Chain Length") == Some(Count(s.chainLength))
  {
  }

  lemma WrittenDatabaseEntries(s: Snapshot)
    ensures Field(WriteState(s), "Database Entries") == Some(Count(s.databaseEntries))
  {
  }

  lemma WrittenAcceptanceRate(s: Snapshot)
    ensures Field(WriteState(s), "Acceptance Rate Proposals") == Some(JNum(s.acceptanceRate))
  {
  }

  lemma WrittenRejections(s: Snapshot)
    ensures Field(WriteState(s), "Rejections") == Some(Count(s.rejections))
  {
  }

  lemma WrittenFinished(s: Snapshot)
    ensures Field(WriteState(s), "Finished") == Some(JBool(s.finished))
  {
  }

  lemma WrittenLeaderFitness(s: Snapshot)
    ensures Field(WriteState(s), "LeaderFitness") == Some(JNum(s.leaderFitness))
  {
  }

  lemma WrittenLeader(s: Snapshot)
    ensures Field(WriteState(s), "Leader") == IfAny(|s.leader|, Numbers(s.leader))
  {
  }

  lemma WrittenChainMean(s: Snapshot)
    ensures Field(WriteState(s), "Chain Mean") == IfAny(|s.leader|, Numbers(s.chainMean))
  {
  }

  lemma WrittenChainCovariance(s: Snapshot)
    ensures Field(WriteState(s), "Chain Covariance") == IfAny(Cells(|s.leader|, |s.leader|), Numbers(Flatten(s.chainCovariance)))
  {
  }

  lemma WrittenCovarianceMatrix(s: Snapshot)
    ensures Field(WriteState(s), "CovarianceMatrix") == IfAny(Cells(|s.leader|, |s.leader|), Numbers(Flatten(s.covarianceMatrix)))
  {
  }

  lemma WrittenCandidates(s: Snapshot)
    ensures Field(WriteState(s), CandidatesKey) == IfAny(Cells(s.rejections, |s.leader|), Rows(s.candidates))
  {
  }

  lemma WrittenCandidatesFitness(s: Snapshot)
    ensures Field(WriteState(s), "CandidatesFitness") == IfAny(s.rejections, Numbers(s.candidatesFitness))
  {
  }

  lemma WrittenDatabasePoints(s: Snapshot)
    ensures Field(WriteState(s), "DatabasePoints") == IfAny(Cells(|s.leader|, s.databaseEntries), Numbers(Flatten(s.databasePoints)))
  {
  }

  lemma WrittenDatabaseFitness(s: Snapshot)
    ensures Field(WriteState(s), "DatabaseFitness") == IfAny(s.databaseEntries, Numbers(s.databaseFitness))
  {
  }

  /** Every key of the written "State" object: the counters always, and a
      buffer exactly when its writing loop writes a value. With no variables
      neither the leader, the mean, the two covariances, the candidates nor
      the database points are written. */
  lemma WrittenFields(s: Snapshot)
    ensures var js := WriteState(s);
      var n := |s.leader|;
      && Field(js, FunctionEvaluationsKey) == Some(Count(s.functionEvaluations))
      && Field(js, "Number Accepted Samples") == Some(Count(s.acceptedSamples))
      && Field(js, "Chain Length") == Some(Count(s.chainLength))
      && Field(js, "Database Entries") == Some(Count(s.databaseEntries))
      && Field(js, "Acceptance Rate Proposals") == Some(JNum(s.acceptanceRate))
      && Field(js, "Rejections") == Some(Count(s.rejections))
      && Field(js, "Finished") == Some(JBool(s.finished))
      && Field(js, "LeaderFitness") == Some(JNum(s.leaderFitness))
      && Field(js, "Leader") == IfAny(n, Numbers(s.leader))
      && Field(js, "Chain Mean") == IfAny(n, Numbers(s.chainMean))
      && Field(js, "Chain Covariance") == IfAny(Cells(n, n), Numbers(Flatten(s.chainCovariance)))
      && Field(js, "CovarianceMatrix") == IfAny(Cells(n, n), Numbers(Flatten(s.covarianceMatrix)))
      && Field(js, CandidatesKey) == IfAny(Cells(s.rejections, n), Rows(s.candidates))
      && Field(js, "CandidatesFitness") == IfAny(s.rejections, Numbers(s.candidatesFitness))
      && Field(js, "DatabasePoints") == IfAny(Cells(n, s.databaseEntries), Numbers(Flatten(s.databasePoints)))
      && Field(js, "DatabaseFitness") == IfAny(s.databaseEntries, Numbers(s.databaseFitness))
  {
    hide WriteState, Field, IfAny, Numbers, Flatten, Rows, Cells;
    WrittenEvaluations(s);
    WrittenAcceptedSamples(s);
    WrittenChainLength(s);
    WrittenDatabaseEntries(s);
    WrittenAcceptanceRate(s);
    WrittenRejections(s);
    WrittenFinished(s);
    WrittenLeaderFitness(s);
    WrittenLeader(s);
    WrittenChainMean(s);
    WrittenChainCovariance(s);
    WrittenCovarianceMatrix(s);
    WrittenCandidates(s);
    WrittenCandidatesFitness(s);
    WrittenDatabasePoints(s);
    WrittenDatabaseFitness(s);
  }

  /** With no variables, none of the six buffers that hold `n` values per
      row is written. */
  lemma NoVariablesNoBuffers(s: Snapshot)
    requires |s.leader| == 0
    ensures var js := WriteState(s);
      && Field(js, "Leader").None? && Field(js, "Chain Mean").None?
      && Field(js, "Chain Covariance").None? && Field(js, "CovarianceMatrix").None?
      && Field(js, CandidatesKey).None? && Field(js, "DatabasePoints").None?
  {
    WrittenFields(s);
  }

  /** Under the writer's keys, every written checkpoint reads back as itself. */
  lemma RestoreRoundTrip(s: Snapshot, n: nat)
    requires Shaped(s, n)
    ensures ReadState(WriteState(s), n) == Ok(s)
  {
    var js := WriteState(s);
    ScalarsReadBack(s, n);
    BuffersReadBack(s, n);
    assert s.rejections == 0 ==> s.candidates == [] && s.candidatesFitness == [];
    hide WriteState, Numbers, Flatten, Unflatten, ReadCount, ReadNumber, ReadBool, ReadNumbers, ReadRows, ReadSquare, Field;
  }

  /** The written counters, flag and fitness read back as themselves. */
  lemma ScalarsReadBack(s: Snapshot, n: nat)
    requires Shaped(s, n)
    ensures var js := WriteState(s);
            && ReadCount(Field(js, FunctionEvaluationsKey)) == Ok(s.functionEvaluations)
            && ReadCount(Field(js, "Number Accepted Samples")) == Ok(s.acceptedSamples)
            && ReadCount(Field(js, "Chain Length")) == Ok(s.chainLength)
            && ReadCount(Field(js, "Database Entries")) == Ok(s.databaseEntries)
            && ReadNumber(Field(js, "Acceptance Rate Proposals")) == Ok(s.acceptanceRate)
            && ReadCount(Field(js, "Rejections")) == Ok(s.rejections)
            && ReadBool(Field(js, "Finished")) == Ok(s.finished)
            && ReadNumber(Field(js, "LeaderFitness")) == Ok(s.leaderFitness)
  {
    WrittenFields(s);
    hide WriteState, Numbers, Flatten;
  }

  /** The written buffers read back as themselves. */
  lemma BuffersReadBack(s: Snapshot, n: nat)
    requires Shaped(s, n)
    ensures var js := WriteState(s);
            var points := Flatten(s.databasePoints);
            && n * s.databaseEntries == |points|
            && Unflatten(points, n, s.databaseEntries) == s.databasePoints
            && ReadNumbers(Field(js, "Leader"), n) == Ok(s.leader)
            && ReadRows(Field(js, CandidatesKey), s.rejections, n) == Ok(s.candidates)
            && ReadNumbers(Field(js, "CandidatesFitness"), s.rejections) == Ok(s.candidatesFitness)
            && ReadNumbers(Field(js, "DatabasePoints"), n * s.databaseEntries) == Ok(points)
            && ReadNumbers(Field(js, "DatabaseFitness"), s.databaseEntries) == Ok(s.databaseFitness)
            && ReadNumbers(Field(js, "Chain Mean"), n) == Ok(s.chainMean)
            && ReadSquare(Field(js, "Chain Covariance"), n) == Ok(s.chainCovariance)
            && ReadSquare(Field(js, "CovarianceMatrix"), n) == Ok(s.covarianceMatrix)
  {
    var js := WriteState(s);
    WrittenFields(s);
    ReadNumbersWritten(s.leader);
    ReadNumbersWritten(s.candidatesFitness);
    ReadNumbersWritten(s.databaseFitness);
    ReadNumbersWritten(s.chainMean);
    ReadRowsWritten(s.candidates, n);
    ReadSquareWritten(s.chainCovariance, n);
    ReadSquareWritten(s.covarianceMatrix, n);
    FlattenLength(s.databasePoints, n);
    ReadNumbersWritten(Flatten(s.databasePoints));
    UnflattenFlatten(s.databasePoints, n, []);
    var points := Flatten(s.databasePoints);
    assert points + [] == points;
    assert s.rejections == 0 ==> s.candidates == [] && s.candidatesFitness == [];
    assert s.databaseEntries == 0 ==> s.databaseFitness == [] && points == [];
    if n == 0 {
      assert s.leader == [] && s.chainMean == [] && points == [];
      assert s.chainCovariance == [] && s.covarianceMatrix == [];
      assert ReadRows(Field(js, CandidatesKey), s.rejections, n).value == s.candidates;
    }
    hide WriteState, Numbers, Flatten, Unflatten;
  }
}

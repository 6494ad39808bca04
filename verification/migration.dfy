/** The migration runner (`src/migrations/apply_migration.py`): the SQL
    file is split at every ';', each stripped piece that is neither empty
    nor a comment is executed in order, and statement errors are logged
    without stopping the run. What the database answers to each piece is
    an input. */
module Migration {

  import opened Wrappers
  import opened Text

  /** What executing one statement raised. */
  datatype StatementError = NoError | OperationalError(message: string) | OtherError(message: string)

  /** How the runner reports a statement. */
  datatype Report = Committed | DuplicateColumn | Warned(message: string) | Failed(message: string)

  /** An executed statement: its position among the ';'-separated pieces,
      the stripped text and the report. */
  datatype Step = Step(index: nat, statement: string, report: Report)

  /** A piece is executed when, stripped, it is non-empty and does not
      start with "--"; a comment line in front of a statement hides it. */
  predicate Executable(piece: string)
  {
    var s := Strip(piece);
    |s| > 0 && !StartsWith(s, "--")
  }

  /** An `OperationalError` mentioning a duplicate column, in any case, is
      the expected re-run of an ALTER TABLE and is ignored. */
  function ReportFor(e: StatementError): (r: Report)
    ensures e.NoError? <==> r == Committed
    ensures r == DuplicateColumn <==> e.OperationalError? && Contains(Lower(e.message), "duplicate column")
    ensures r.Failed? <==> e.OtherError?
  {
    match e
    case NoError => Committed
    case OperationalError(m) => if Contains(Lower(m), "duplicate column") then DuplicateColumn else Warned(m)
    case OtherError(m) => Failed(m)
  }

  /** What the loop does with each piece: the stripped statement to run,
      or nothing. */
  function Prepare(pieces: seq<string>): (r: seq<Option<string>>)
    ensures |r| == |pieces|
    ensures forall k :: 0 <= k < |pieces| ==> (r[k].Some? <==> Executable(pieces[k]))
    ensures forall k :: 0 <= k < |pieces| && r[k].Some? ==> r[k].value == Strip(pieces[k])
  {
    seq(|pieces|, k requires 0 <= k < |pieces| => if Executable(pieces[k]) then Some(Strip(pieces[k])) else None)
  }

  /** The loop from piece `i` on; `errors[k]` is what executing piece `k`
      raises. */
  function Run(prepared: seq<Option<string>>, errors: seq<StatementError>, i: nat): (r: seq<Step>)
    requires |errors| == |prepared| && i <= |prepared|
    ensures |r| <= |prepared| - i
    decreases |prepared| - i
  {
    if i == |prepared| then []
    else
      var rest := Run(prepared, errors, i + 1);
      match prepared[i]
      case Some(stmt) => [Step(i, stmt, ReportFor(errors[i]))] + rest
      case None => rest
  }

  /** Every step runs a prepared piece at or after `i`, with the report
      its error earns. */
  predicate StepsArePrepared(r: seq<Step>, prepared: seq<Option<string>>, errors: seq<StatementError>, i: nat)
    requires |errors| == |prepared|
  {
    forall k :: 0 <= k < |r| ==> (i <= r[k].index < |prepared| && prepared[r[k].index] == Some(r[k].statement)
      && r[k].report == ReportFor(errors[r[k].index]))
  }

  /** The steps keep the file's order. */
  predicate StepsInOrder(r: seq<Step>)
  {
    forall k, l :: 0 <= k < l < |r| ==> r[k].index < r[l].index
  }

  lemma {:induction false} RunStepsArePrepared(prepared: seq<Option<string>>, errors: seq<StatementError>, i: nat)
    requires |errors| == |prepared| && i <= |prepared|
    ensures StepsArePrepared(Run(prepared, errors, i), prepared, errors, i)
    decreases |prepared| - i
  {
    if i < |prepared| {
      RunStepsArePrepared(prepared, errors, i + 1);
      var rest := Run(prepared, errors, i + 1);
      if prepared[i].Some? {
        var r := [Step(i, prepared[i].value, ReportFor(errors[i]))] + rest;
        assert Run(prepared, errors, i) == r;
        forall k | 0 < k < |r|
          ensures i <= r[k].index < |prepared| && prepared[r[k].index] == Some(r[k].statement)
          ensures r[k].report == ReportFor(errors[r[k].index])
        {
          assert r[k] == rest[k - 1];
        }
      } else {
        assert Run(prepared, errors, i) == rest;
      }
    }
  }

  lemma {:induction false} RunStepsInOrder(prepared: seq<Option<string>>, errors: seq<StatementError>, i: nat)
    requires |errors| == |prepared| && i <= |prepared|
    ensures StepsInOrder(Run(prepared, errors, i))
    decreases |prepared| - i
  {
    if i < |prepared| {
      RunStepsInOrder(prepared, errors, i + 1);
      RunStepsArePrepared(prepared, errors, i + 1);
      var rest := Run(prepared, errors, i + 1);
      if prepared[i].Some? {
        var r := [Step(i, prepared[i].value, ReportFor(errors[i]))] + rest;
        assert Run(prepared, errors, i) == r;
        forall k, l | 0 <= k < l < |r|
          ensures r[k].index < r[l].index
        {
          assert r[l] == rest[l - 1];
          if k > 0 { assert r[k] == rest[k - 1]; }
        }
      } else {
        assert Run(prepared, errors, i) == rest;
      }
    }
  }

  /** Every prepared piece at or after `i` is run. */
  lemma {:induction false} RunCoversPrepared(prepared: seq<Option<string>>, errors: seq<StatementError>, i: nat, j: nat)
    requires |errors| == |prepared| && i <= j < |prepared| && prepared[j].Some?
    ensures exists k :: 0 <= k < |Run(prepared, errors, i)| && Run(prepared, errors, i)[k].index == j
    decreases |prepared| - i
  {
    var r := Run(prepared, errors, i);
    if j == i {
      assert r[0].index == j;
    } else {
      RunCoversPrepared(prepared, errors, i + 1, j);
      var rest := Run(prepared, errors, i + 1);
      var k :| 0 <= k < |rest| && rest[k].index == j;
      if prepared[i].Some? {
        assert r[k + 1] == rest[k];
      } else {
        assert r[k] == rest[k];
      }
    }
  }

  function Statements(steps: seq<Step>): (r: seq<string>)
    ensures |r| == |steps| && forall k :: 0 <= k < |steps| ==> r[k] == steps[k].statement
  {
    seq(|steps|, k requires 0 <= k < |steps| => steps[k].statement)
  }

  /** `apply_migration`. A missing file returns false before the database
      is touched; `sql` is `None` when reading the file or opening the
      database fails, which also returns false. Otherwise the run returns
      true whatever the statements raised. */
  function ApplyMigration(fileExists: bool, sql: Option<string>, errors: seq<StatementError>): (r: (bool, seq<Step>))
    requires sql.Some? ==> |errors| == |Split(sql.value, ';')|
    ensures !fileExists ==> r == (false, [])
    ensures r.0 <==> fileExists && sql.Some?
    ensures r.0 ==> r.1 == Run(Prepare(Split(sql.value, ';')), errors, 0)
  {
    if !fileExists then (false, [])
    else match sql
      case None => (false, [])
      case Some(text) => (true, Run(Prepare(Split(text, ';')), errors, 0))
  }

  /** Errors change only the reports: the same statements run, in the same
      order, whatever the database raises. */
  lemma {:induction false} ErrorsDoNotStopTheRun(prepared: seq<Option<string>>, e1: seq<StatementError>, e2: seq<StatementError>, i: nat)
    requires |e1| == |prepared| && |e2| == |prepared| && i <= |prepared|
    ensures Statements(Run(prepared, e1, i)) == Statements(Run(prepared, e2, i))
    decreases |prepared| - i
  {
    if i < |prepared| {
      ErrorsDoNotStopTheRun(prepared, e1, e2, i + 1);
      var a := Run(prepared, e1, i + 1);
      var b := Run(prepared, e2, i + 1);
      if prepared[i].Some? {
        var s := prepared[i].value;
        assert Run(prepared, e1, i) == [Step(i, s, ReportFor(e1[i]))] + a;
        assert Run(prepared, e2, i) == [Step(i, s, ReportFor(e2[i]))] + b;
        assert Statements([Step(i, s, ReportFor(e1[i]))] + a) == [s] + Statements(a);
        assert Statements([Step(i, s, ReportFor(e2[i]))] + b) == [s] + Statements(b);
      }
    }
  }

  /** Statements that are already stripped, free of ';', non-empty and not
      comments survive a join with ';' and the runner's split unchanged. */
  lemma JoinedStatementsRunAsWritten(ss: seq<string>, errors: seq<StatementError>)
    requires |ss| >= 1
    requires forall k :: 0 <= k < |ss| ==> ';' !in ss[k] && Strip(ss[k]) == ss[k] && Executable(ss[k])
    requires |errors| == |Split(Join(ss, ";"), ';')|
    ensures Statements(Run(Prepare(Split(Join(ss, ";"), ';')), errors, 0)) == ss
  {
    JoinSplit(ss, ';');
    assert Split(Join(ss, [';']), ';') == ss;
    var prepared := Prepare(ss);
    assert forall k :: 0 <= k < |ss| ==> prepared[k] == Some(ss[k]);
    AllExecutableRun(ss, prepared, errors, 0);
  }

  lemma {:induction false} AllExecutableRun(ss: seq<string>, prepared: seq<Option<string>>, errors: seq<StatementError>, i: nat)
    requires |errors| == |ss| && |prepared| == |ss| && i <= |ss|
    requires forall k :: 0 <= k < |ss| ==> prepared[k] == Some(ss[k])
    ensures Statements(Run(prepared, errors, i)) == ss[i..]
    decreases |ss| - i
  {
    if i < |ss| {
      AllExecutableRun(ss, prepared, errors, i + 1);
      var rest := Run(prepared, errors, i + 1);
      assert Run(prepared, errors, i) == [Step(i, ss[i], ReportFor(errors[i]))] + rest;
      assert Statements([Step(i, ss[i], ReportFor(errors[i]))] + rest) == [ss[i]] + Statements(rest);
      assert ss[i..] == [ss[i]] + ss[i + 1..];
    }
  }

  /** A piece whose first line is a comment is skipped with the statement
      below it. */
  lemma CommentHidesStatement(comment: string, statement: string)
    ensures !Executable("--" + comment + "\n" + statement)
  {
    var p := "--" + comment + "\n" + statement;
    assert p[0] == '-' && p[1] == '-';
    assert TrimStart(p) == p;
    TrimEndKeeps(p, 1);
    var r := TrimEnd(p);
    assert Strip(p) == r;
    assert r[..2] == p[..2] == "--";
  }

  /** Trimming the end never removes a character that is not blank. */
  lemma {:induction false} TrimEndKeeps(s: string, j: nat)
    requires j < |s| && !IsSpace(s[j])
    ensures |TrimEnd(s)| > j
    decreases |s|
  {
    if IsSpace(s[|s| - 1]) {
      TrimEndKeeps(s[..|s| - 1], j);
    }
  }
}

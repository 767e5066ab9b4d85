/** The way every gate and guard of the source records its decision: a table of named checks and a
    list of reasons for the failed ones. A reason is modelled by the check it explains. */
module CheckTable {

  function Failed<C>(checks: seq<(C, bool)>): seq<C> {
    if checks == [] then []
    else
      var last := checks[|checks| - 1];
      Failed(checks[..|checks| - 1]) + if last.1 then [] else [last.0]
  }

  /** The checks recorded so far, in order (each name is recorded once), and the names of
      those that failed. */
  datatype Table<C(==)> = Table(checks: seq<(C, bool)>, reasons: seq<C>) {

    /** all(checks.values()) */
    predicate AllHold() {
      forall i :: 0 <= i < |checks| ==> checks[i].1
    }

    /** The reasons are the failed checks, in order. */
    ghost predicate Explained() {
      reasons == Failed(checks)
    }
  }

  /** Without a reason all checks hold, and the reasons name the failed checks and no others. */
  lemma {:induction false} ReasonsAreFailures<C>(checks: seq<(C, bool)>)
    ensures Table(checks, Failed(checks)).AllHold() <==> Failed(checks) == []
    ensures forall c :: c in Failed(checks) ==> (c, false) in checks
    ensures forall i :: 0 <= i < |checks| && !checks[i].1 ==> checks[i].0 in Failed(checks)
  {
    if checks != [] {
      var init := checks[..|checks| - 1];
      ReasonsAreFailures(init);
      assert checks == init + [checks[|checks| - 1]];
    }
  }

  method Start<C(==)>() returns (t: Table<C>)
    ensures t.checks == [] && t.AllHold() && t.Explained()
  {
    t := Table([], []);
  }

  method Note<C(==)>(t: Table<C>, c: C, ok: bool) returns (t': Table<C>)
    requires t.Explained()
    ensures t'.Explained() && t'.checks == t.checks + [(c, ok)]
    ensures t'.AllHold() <==> t.AllHold() && ok
  {
    t' := Table(t.checks + [(c, ok)], if ok then t.reasons else t.reasons + [c]);
    assert t'.checks[..|t.checks|] == t.checks;
    assert t'.checks[|t.checks|].1 == ok;
    assert forall i :: 0 <= i < |t.checks| ==> t'.checks[i] == t.checks[i];
  }
}

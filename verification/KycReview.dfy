/** Identity verifications: submission, review, and their part of the compliance report
    (app/identity/routes.py). */
module KycReview {
  import opened Wrappers
  import opened Counting
  import opened Grouping

  /** A row of `kyc_verifications`. */
  datatype Verification = Verification(
    id: string,
    userId: string,
    level: string,
    status: string,
    reviewedAt: Option<real>,
    reviewedBy: Option<string>,
    reason: Option<string>)

  /** What is committed. The routes run in threads: `read` is the row as a review's SELECT found it, and
      other reviews may have written it since. */
  datatype Event =
    | Submit(id: string, userId: string, level: string)   // `id` is the fresh identifier drawn
    | Approve(id: string, reviewer: string, at: real, read: Verification)
    | Reject(id: string, reviewer: string, at: real, reason: Option<string>, read: Verification)

  function IndexOf(table: seq<Verification>, id: string): (i: nat)
    ensures i <= |table|
    ensures i < |table| ==> table[i].id == id
    ensures forall j :: 0 <= j < i ==> table[j].id != id
  {
    FirstWhere((v: Verification) => v.id == id, table)
  }

  function Approved(v: Verification, reviewer: string, at: real, read: Verification): Verification {
    v.(status := Assigned(read.status, "approved", v.status),
       reviewedAt := Assigned(read.reviewedAt, Some(at), v.reviewedAt),
       reviewedBy := Assigned(read.reviewedBy, Some(reviewer), v.reviewedBy))
  }

  function Rejected(v: Verification, reviewer: string, at: real, reason: Option<string>, read: Verification): Verification {
    v.(status := Assigned(read.status, "rejected", v.status),
       reviewedAt := Assigned(read.reviewedAt, Some(at), v.reviewedAt),
       reviewedBy := Assigned(read.reviewedBy, Some(reviewer), v.reviewedBy),
       reason := Assigned(read.reason, reason, v.reason))
  }

  /** A submission whose identifier is taken violates the primary key; a review of an unknown one is a 404. */
  function Apply(table: seq<Verification>, e: Event): seq<Verification> {
    var i := IndexOf(table, e.id);
    match e
    case Submit(id, userId, level) =>
      if i < |table| then table else table + [Verification(id, userId, level, "pending", None, None, None)]
    case Approve(_, reviewer, at, read) =>
      if i == |table| then table else table[i := Approved(table[i], reviewer, at, read)]
    case Reject(_, reviewer, at, reason, read) =>
      if i == |table| then table else table[i := Rejected(table[i], reviewer, at, reason, read)]
  }

  /** The desk with one request at a time: each review reads the row it writes. */
  class Desk {
    var table: seq<Verification>

    constructor ()
      ensures table == []
    {
      table := [];
    }

    method SubmitKyc(id: string, userId: string, level: string) returns (ok: bool)
      modifies this
      ensures table == Apply(old(table), Submit(id, userId, level))
      ensures ok <==> forall i :: 0 <= i < |old(table)| ==> old(table)[i].id != id
      ensures table == old(table) + if ok then [Verification(id, userId, level, "pending", None, None, None)] else []
    {
      var i := FindFirst((v: Verification) => v.id == id, table);
      if i < |table| { return false; }
      table := table + [Verification(id, userId, level, "pending", None, None, None)];
      ok := true;
    }

    method ApproveKyc(id: string, reviewer: string, at: real) returns (found: bool)
      modifies this
      ensures found <==> exists j :: 0 <= j < |old(table)| && old(table)[j].id == id
      ensures var i := IndexOf(old(table), id);
        if found then
          && table == Apply(old(table), Approve(id, reviewer, at, old(table)[i]))
          && table == old(table)[i := old(table)[i].(status := "approved", reviewedAt := Some(at), reviewedBy := Some(reviewer))]
        else table == old(table)
    {
      var i := FindFirst((v: Verification) => v.id == id, table);
      if i == |table| { return false; }
      table := table[i := table[i].(status := "approved", reviewedAt := Some(at), reviewedBy := Some(reviewer))];
      found := true;
    }

    method RejectKyc(id: string, reviewer: string, at: real, reason: Option<string>) returns (found: bool)
      modifies this
      ensures found <==> exists j :: 0 <= j < |old(table)| && old(table)[j].id == id
      ensures var i := IndexOf(old(table), id);
        if found then
          && table == Apply(old(table), Reject(id, reviewer, at, reason, old(table)[i]))
          && table == old(table)[i := old(table)[i].(status := "rejected", reviewedAt := Some(at), reviewedBy := Some(reviewer), reason := reason)]
        else table == old(table)
    {
      var i := FindFirst((v: Verification) => v.id == id, table);
      if i == |table| { return false; }
      table := table[i := table[i].(status := "rejected", reviewedAt := Some(at), reviewedBy := Some(reviewer), reason := reason)];
      found := true;
    }
  }

  // ---------------------------------------------------------------------------------------------
  // The report

  /** The four queries of `compliance_report`, each on the table as it stands when the query is made. */
  method Report(atPending: seq<Verification>, atApproved: seq<Verification>, atRejected: seq<Verification>, atLevels: seq<Verification>)
    returns (pending: nat, approved: nat, rejected: nat, byLevel: seq<Row<string>>)
    ensures pending == Total(atPending, "pending") == |set i | 0 <= i < |atPending| && atPending[i].status == "pending"|
    ensures approved == Total(atApproved, "approved") == |set i | 0 <= i < |atApproved| && atApproved[i].status == "approved"|
    ensures rejected == Total(atRejected, "rejected") == |set i | 0 <= i < |atRejected| && atRejected[i].status == "rejected"|
    ensures Groups(LevelOf, byLevel, atLevels) && Sum(RowCount(), byLevel) == |atLevels|
    ensures forall i :: 0 <= i < |atLevels| ==> HasRow(byLevel, atLevels[i].level)
    ensures forall j :: 0 <= j < |byLevel| ==> byLevel[j].count == |set i | 0 <= i < |atLevels| && atLevels[i].level == byLevel[j].group|
  {
    GroupCountIsNumber(StatusOf, atPending, "pending", set i | 0 <= i < |atPending| && atPending[i].status == "pending");
    GroupCountIsNumber(StatusOf, atApproved, "approved", set i | 0 <= i < |atApproved| && atApproved[i].status == "approved");
    GroupCountIsNumber(StatusOf, atRejected, "rejected", set i | 0 <= i < |atRejected| && atRejected[i].status == "rejected");
    pending := CountStatus(atPending, "pending");
    approved := CountStatus(atApproved, "approved");
    rejected := CountStatus(atRejected, "rejected");
    byLevel := CountByGroup(LevelOf, atLevels);
    forall i | 0 <= i < |atLevels| ensures HasRow(byLevel, atLevels[i].level) { assert HasRow(byLevel, LevelOf(atLevels[i])); }
    forall j | 0 <= j < |byLevel|
      ensures byLevel[j].count == |set i | 0 <= i < |atLevels| && atLevels[i].level == byLevel[j].group|
    {
      GroupCountIsNumber(LevelOf, atLevels, byLevel[j].group, set i | 0 <= i < |atLevels| && atLevels[i].level == byLevel[j].group);
    }
  }

  method CountStatus(table: seq<Verification>, status: string) returns (n: nat)
    ensures n == Total(table, status)
  {
    n := 0;
    for i := 0 to |table|
      invariant n == Total(table[..i], status)
    {
      assert table[..i + 1] == table[..i] + [table[i]];
      SumAppend(InGroup(StatusOf, status), table[..i], table[i]);
      if table[i].status == status { n := n + 1; }
    }
    assert table[..|table|] == table;
  }

  function StatusOf(v: Verification): string { v.status }

  function LevelOf(v: Verification): string { v.level }

  function Total(table: seq<Verification>, status: string): nat { GroupCount(StatusOf, table, status) }

  lemma StatusWeight(v: Verification, status: string)
    ensures InGroup(StatusOf, status)(v) == if v.status == status then 1 else 0
  {
    assert StatusOf(v) == v.status;
  }

  // ---------------------------------------------------------------------------------------------
  // Runs

  function From(table: seq<Verification>, es: seq<Event>): seq<Verification> {
    if es == [] then table else Apply(From(table, es[..|es| - 1]), es[|es| - 1])
  }

  function After(es: seq<Event>): seq<Verification> { From([], es) }

  ghost predicate KnownStatuses(table: seq<Verification>) {
    forall i :: 0 <= i < |table| ==> table[i].status in {"pending", "approved", "rejected"}
  }

  function Reviewed(e: Event): string
    requires !e.Submit?
  {
    if e.Approve? then "approved" else "rejected"
  }

  /** The submission is taken in. */
  predicate Submits(table: seq<Verification>, e: Event) { e.Submit? && IndexOf(table, e.id) == |table| }

  /** The review changes the status of its record. */
  predicate Moves(table: seq<Verification>, e: Event) {
    !e.Submit? && e.read.status != Reviewed(e) &&
    var i := IndexOf(table, e.id); i < |table| && table[i].status != Reviewed(e)
  }

  /** The status a record leaves by this event. */
  predicate Leaves(table: seq<Verification>, e: Event, status: string) {
    Moves(table, e) && table[IndexOf(table, e.id)].status == status
  }

  /** The status a record comes to by this event. */
  predicate Enters(table: seq<Verification>, e: Event, status: string) {
    if e.Submit? then Submits(table, e) && status == "pending" else Moves(table, e) && Reviewed(e) == status
  }

  function One(b: bool): nat { if b then 1 else 0 }

  /** A review moves exactly one unit between status totals, or changes none: when the record is unknown or
      has that status already, or was read with it, whatever overlapping reviews did. Levels never change. */
  lemma ReviewMovesOneUnit(table: seq<Verification>, e: Event, status: string)
    requires !e.Submit?
    ensures var t := Apply(table, e);
      && |t| == |table|
      && Total(t, status) + One(Leaves(table, e, status)) == Total(table, status) + One(Enters(table, e, status))
      && forall level :: GroupCount(LevelOf, t, level) == GroupCount(LevelOf, table, level)
  {
    var i := IndexOf(table, e.id);
    if i < |table| {
      var v := Apply(table, e)[i];
      SumUpdate(InGroup(StatusOf, status), table, i, v);
      StatusWeight(v, status);
      StatusWeight(table[i], status);
      forall level
        ensures GroupCount(LevelOf, Apply(table, e), level) == GroupCount(LevelOf, table, level)
      {
        SumUpdate(InGroup(LevelOf, level), table, i, v);
        assert LevelOf(v) == LevelOf(table[i]);
        assert InGroup(LevelOf, level)(v) == InGroup(LevelOf, level)(table[i]);
      }
    }
  }

  /** A review's commit writes the columns it found with other values, and leaves every other to what has
      been committed since; a record's level, user and identifier stay, and so do all other records. */
  lemma ReviewWrites(table: seq<Verification>, e: Event, i: nat)
    requires !e.Submit? && i < |table|
    ensures var t, status := Apply(table, e), if e.Approve? then "approved" else "rejected";
      var v, v' := table[i], t[i];
      && |t| == |table| && v'.id == v.id && v'.userId == v.userId && v'.level == v.level
      && (IndexOf(table, e.id) != i ==> v' == v)
      && (IndexOf(table, e.id) == i ==>
            && v'.status == (if e.read.status == status then v.status else status)
            && v'.reviewedAt == (if e.read.reviewedAt == Some(e.at) then v.reviewedAt else Some(e.at))
            && v'.reviewedBy == (if e.read.reviewedBy == Some(e.reviewer) then v.reviewedBy else Some(e.reviewer))
            && v'.reason == (if e.Approve? || e.read.reason == e.reason then v.reason else e.reason))
  {
  }

  /** One event changes a total by what enters and what leaves. */
  lemma EventMoves(table: seq<Verification>, e: Event, status: string)
    ensures Total(Apply(table, e), status) + One(Leaves(table, e, status)) == Total(table, status) + One(Enters(table, e, status))
    ensures |Apply(table, e)| == |table| + One(Submits(table, e))
  {
    if !e.Submit? {
      ReviewMovesOneUnit(table, e, status);
    } else if Submits(table, e) {
      var v := Verification(e.id, e.userId, e.level, "pending", None, None, None);
      SumAppend(InGroup(StatusOf, status), table, v);
      StatusWeight(v, status);
    }
  }

  lemma {:induction false} StatusesCoverTable(table: seq<Verification>)
    requires KnownStatuses(table)
    ensures Total(table, "pending") + Total(table, "approved") + Total(table, "rejected") == |table|
  {
    if table != [] {
      StatusesCoverTable(table[1..]);
      StatusWeight(table[0], "pending");
      StatusWeight(table[0], "approved");
      StatusWeight(table[0], "rejected");
    }
  }

  lemma {:induction false} RunKeepsStatuses(table: seq<Verification>, es: seq<Event>)
    requires KnownStatuses(table)
    ensures KnownStatuses(From(table, es))
  {
    if es != [] { RunKeepsStatuses(table, es[..|es| - 1]); }
  }

  /** How often a run brings a record to a status, takes one from it, and takes a submission in. */
  function Entered(table: seq<Verification>, es: seq<Event>, status: string): nat {
    if es == [] then 0
    else Entered(table, es[..|es| - 1], status) + One(Enters(From(table, es[..|es| - 1]), es[|es| - 1], status))
  }

  function Left(table: seq<Verification>, es: seq<Event>, status: string): nat {
    if es == [] then 0
    else Left(table, es[..|es| - 1], status) + One(Leaves(From(table, es[..|es| - 1]), es[|es| - 1], status))
  }

  function Submissions(table: seq<Verification>, es: seq<Event>): nat {
    if es == [] then 0
    else Submissions(table, es[..|es| - 1]) + One(Submits(From(table, es[..|es| - 1]), es[|es| - 1]))
  }

  lemma {:induction false} RunMoves(table: seq<Verification>, es: seq<Event>, status: string)
    ensures Total(From(table, es), status) + Left(table, es, status) == Total(table, status) + Entered(table, es, status)
    ensures |From(table, es)| == |table| + Submissions(table, es)
  {
    if es != [] {
      RunMoves(table, es[..|es| - 1], status);
      EventMoves(From(table, es[..|es| - 1]), es[|es| - 1], status);
    }
  }

  /** In every run, at every moment, pending + approved + rejected is the number of submissions, and so is
      the sum of the per-level counts of the table. */
  lemma TotalsAreSubmissions(es: seq<Event>, byLevel: seq<Row<string>>)
    requires Groups(LevelOf, byLevel, After(es))
    ensures Total(After(es), "pending") + Total(After(es), "approved") + Total(After(es), "rejected") == Submissions([], es)
    ensures Sum(RowCount(), byLevel) == Submissions([], es)
  {
    RunKeepsStatuses([], es);
    StatusesCoverTable(After(es));
    GroupsAddUp(LevelOf, byLevel, After(es));
    RunMoves([], es, "pending");
  }

  // ---------------------------------------------------------------------------------------------
  // A report taken while others commit

  /** pending + approved + rejected as reported, with `first` committed between the first two counts and
      `second` between the next two. */
  function Reported(table: seq<Verification>, first: seq<Event>, second: seq<Event>): nat {
    Total(table, "pending") + Total(From(table, first), "approved") + Total(From(table, first + second), "rejected")
  }

  /** The report exceeds the table it began with by what came to be approved before the second count and
      rejected before the third, less what left these statuses. */
  lemma ReportedTotal(table: seq<Verification>, first: seq<Event>, second: seq<Event>)
    requires KnownStatuses(table)
    ensures Reported(table, first, second) + Left(table, first, "approved") + Left(table, first + second, "rejected")
         == |table| + Entered(table, first, "approved") + Entered(table, first + second, "rejected")
  {
    StatusesCoverTable(table);
    RunMoves(table, first, "approved");
    RunMoves(table, first + second, "rejected");
  }

  /** The reported totals agree with the reported levels exactly if those movements and the submissions up
      to the last query cancel out. */
  lemma ReportAddsUpIff(table: seq<Verification>, first: seq<Event>, second: seq<Event>, third: seq<Event>, byLevel: seq<Row<string>>)
    requires KnownStatuses(table) && Groups(LevelOf, byLevel, From(table, first + second + third))
    ensures Reported(table, first, second) == Sum(RowCount(), byLevel) <==>
            Entered(table, first, "approved") + Entered(table, first + second, "rejected") ==
            Left(table, first, "approved") + Left(table, first + second, "rejected") + Submissions(table, first + second + third)
  {
    ReportedTotal(table, first, second);
    RunMoves(table, first + second + third, "pending");
    GroupsAddUp(LevelOf, byLevel, From(table, first + second + third));
  }

  function Gap(a: int, b: int): nat { if a < b then b - a else a - b }

  /** How far the reported totals are from the size of the table at the last query. */
  function Off(table: seq<Verification>, first: seq<Event>, second: seq<Event>, third: seq<Event>): nat {
    Gap(Reported(table, first, second), |From(table, first + second + third)|)
  }

  lemma FromPrefix(table: seq<Verification>, es: seq<Event>, more: seq<Event>)
    requires more != []
    ensures From(table, es + more) == Apply(From(table, es + more[..|more| - 1]), more[|more| - 1])
  {
    assert (es + more)[..|es + more| - 1] == es + more[..|more| - 1];
  }

  /** Each commit moves the report by at most one. */
  lemma {:induction false} FirstGap(table: seq<Verification>, first: seq<Event>)
    requires KnownStatuses(table)
    ensures -|first| <= Total(table, "pending") + Total(From(table, first), "approved") + Total(From(table, first), "rejected") - |From(table, first)| <= |first|
  {
    if first == [] {
      StatusesCoverTable(table);
    } else {
      var before, e := From(table, first[..|first| - 1]), first[|first| - 1];
      FirstGap(table, first[..|first| - 1]);
      EventMoves(before, e, "approved");
      EventMoves(before, e, "rejected");
    }
  }

  lemma {:induction false} SecondGap(table: seq<Verification>, first: seq<Event>, second: seq<Event>)
    requires KnownStatuses(table)
    ensures var n := |first| + |second|;
      -n <= Reported(table, first, second) - |From(table, first + second)| <= n
  {
    if second == [] {
      assert first + second == first;
      FirstGap(table, first);
    } else {
      var before, e := From(table, first + second[..|second| - 1]), second[|second| - 1];
      SecondGap(table, first, second[..|second| - 1]);
      FromPrefix(table, first, second);
      EventMoves(before, e, "rejected");
    }
  }

  lemma {:induction false} ThirdGap(table: seq<Verification>, first: seq<Event>, second: seq<Event>, third: seq<Event>)
    requires KnownStatuses(table)
    ensures Off(table, first, second, third) <= |first| + |second| + |third|
  {
    if third == [] {
      assert first + second + third == first + second;
      SecondGap(table, first, second);
    } else {
      var es := first + second;
      ThirdGap(table, first, second, third[..|third| - 1]);
      FromPrefix(table, es, third);
      EventMoves(From(table, es + third[..|third| - 1]), third[|third| - 1], "pending");
    }
  }

  // ---- The bound is attained

  function Name(k: nat): string { seq(k, _ => 'v') }

  function NewRow(k: nat): Verification { Verification(Name(k), "", "", "pending", None, None, None) }

  function ApprovedRow(k: nat): Verification { Approved(NewRow(k), "", 0.0, NewRow(k)) }

  /** n records of which the first k are approved. */
  function Records(n: nat, k: nat): seq<Verification> { seq(n, i requires 0 <= i < n => if i < k then ApprovedRow(i) else NewRow(i)) }

  function Approving(k: nat): seq<Event> { seq(k, i requires 0 <= i < k => Approve(Name(i), "", 0.0, NewRow(i))) }

  lemma NamesDiffer(j: nat, k: nat)
    requires j != k
    ensures Name(j) != Name(k)
  {
    assert |Name(j)| == j && |Name(k)| == k;
  }

  lemma FoundAt(n: nat, k: nat, i: nat)
    requires i < n
    ensures IndexOf(Records(n, k), Name(i)) == i
  {
    var j := IndexOf(Records(n, k), Name(i));
    assert Records(n, k)[i].id == Name(i);
    if j != i {
      assert Records(n, k)[j].id == Name(j);
      NamesDiffer(i, j);
    }
  }

  lemma OneMoreApproved(n: nat, k: nat)
    requires 0 < k <= n
    ensures Apply(Records(n, k - 1), Approve(Name(k - 1), "", 0.0, NewRow(k - 1))) == Records(n, k)
  {
    FoundAt(n, k - 1, k - 1);
    assert Records(n, k) == Records(n, k - 1)[k - 1 := ApprovedRow(k - 1)];
  }

  lemma {:induction false} AllApproved(n: nat, k: nat)
    requires k <= n
    ensures From(Records(n, 0), Approving(k)) == Records(n, k)
  {
    if k > 0 {
      AllApproved(n, k - 1);
      assert Approving(k)[..k - 1] == Approving(k - 1);
      OneMoreApproved(n, k);
    }
  }

  lemma {:induction false} AllOf(table: seq<Verification>, status: string, other: string)
    requires forall i :: 0 <= i < |table| ==> table[i].status == status
    ensures Total(table, other) == if other == status then |table| else 0
  {
    if table != [] {
      AllOf(table[1..], status, other);
      StatusWeight(table[0], other);
    }
  }

  lemma ReportedAll(n: nat)
    ensures Reported(Records(n, 0), Approving(n), []) == n + n
  {
    AllApproved(n, n);
    assert Approving(n) + [] == Approving(n);
    AllOf(Records(n, 0), "pending", "pending");
    AllOf(Records(n, n), "approved", "approved");
    AllOf(Records(n, n), "approved", "rejected");
  }

  /** n pending records, all approved between the count of the pending and the count of the approved. */
  lemma OffByAll(n: nat)
    ensures Off(Records(n, 0), Approving(n), [], []) == n
  {
    ReportedAll(n);
    AllApproved(n, n);
    assert Approving(n) + [] + [] == Approving(n);
  }

  /** However many commits, at most n of them, fall between its queries, the report is off by at most m. */
  ghost predicate ReportWithin(n: nat, m: nat) {
    forall table, first, second, third :: KnownStatuses(table) && |first| + |second| + |third| <= n ==>
      Off(table, first, second, third) <= m
  }

  /** The report is off by as much as the number of commits between its queries, and by no more; so it adds
      up for certain exactly if there are none. */
  lemma ReportErrorIsExact(n: nat, m: nat)
    ensures ReportWithin(n, m) <==> n <= m
  {
    if n <= m {
      forall table, first, second, third | KnownStatuses(table) && |first| + |second| + |third| <= n
        ensures Off(table, first, second, third) <= m
      {
        ThirdGap(table, first, second, third);
      }
    } else {
      OffByAll(n);
      var none: seq<Event> := [];
      assert |Approving(n)| + |none| + |none| <= n && KnownStatuses(Records(n, 0));
    }
  }
}

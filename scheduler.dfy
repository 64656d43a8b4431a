/**
  The workspace update scheduler of internal/api/scheduler.go: a due-list
  dispatcher that, for every workspace whose next update time has passed,
  enqueues a first-page users job and a first-page channels job and marks
  the workspace updated.
*/
module Scheduler {
  import opened Backend

  /** The query "NextUpdate < now" over the workspace table, in the table's order. */
  function Due(ws: seq<Workspace>, now: int): (due: seq<Workspace>)
    ensures |due| <= |ws|
    ensures forall w :: w in due ==> w in ws && w.nextUpdate < now
    ensures forall w :: w in ws && w.nextUpdate < now ==> w in due
    // each due workspace as often as the table holds it, and no other
    ensures forall w :: multiset(due)[w] == (if w.nextUpdate < now then multiset(ws)[w] else 0)
  {
    if ws == [] then []
    else
      assert ws == [ws[0]] + ws[1..];
      (if ws[0].nextUpdate < now then [ws[0]] else []) + Due(ws[1..], now)
  }

  /** The due list keeps the table's order: the due part of a concatenation is the concatenation of the due parts. */
  lemma {:induction false} DueAppend(a: seq<Workspace>, b: seq<Workspace>, now: int)
    ensures Due(a + b, now) == Due(a, now) + Due(b, now)
    decreases |a|
  {
    if a == [] {
      assert a + b == b;
    } else {
      assert a + b == [a[0]] + (a[1..] + b);
      assert a == [a[0]] + a[1..];
      var head := if a[0].nextUpdate < now then [a[0]] else [];
      DueCons(a[0], a[1..] + b, now);
      DueCons(a[0], a[1..], now);
      DueAppend(a[1..], b, now);
      assert Due(a + b, now) == head + (Due(a[1..], now) + Due(b, now));
      ConcatAssoc(head, Due(a[1..], now), Due(b, now));
    }
  }

  lemma ConcatAssoc(x: seq<Workspace>, y: seq<Workspace>, z: seq<Workspace>)
    ensures x + (y + z) == (x + y) + z
  {
  }

  lemma DueCons(w: Workspace, rest: seq<Workspace>, now: int)
    ensures Due([w] + rest, now) == (if w.nextUpdate < now then [w] else []) + Due(rest, now)
  {
    assert ([w] + rest)[1..] == rest;
  }

  /** The jobs one pass enqueues for `due`: users then channels per workspace, no cursor. */
  function DispatchJobs(due: seq<Workspace>): (jobs: seq<Job>)
    ensures |jobs| == 2 * |due|
  {
    if due == [] then []
    else DispatchJobs(due[..|due| - 1]) + [UsersJob(due[|due| - 1].id, ""), ChannelsJob(due[|due| - 1].id, "")]
  }

  function Ids(ws: seq<Workspace>): seq<string> {
    seq(|ws|, i requires 0 <= i < |ws| => ws[i].id)
  }

  /**
    UpdateWorkspaces: `queryOk` says whether the store answered the query.
    MarkWorkspaceUpdated is recorded in `workspaceMarks`; the new value of
    NextUpdate it writes is not part of this model.
  */
  method UpdateWorkspaces(st: Datastore, queue: seq<Job>, now: int, queryOk: bool)
    returns (st': Datastore, queue': seq<Job>, status: Status)
    ensures !queryOk ==> st' == st && queue' == queue && status == Reported(QueryFailed)
    ensures queryOk ==>
      var due := Due(st.workspaces, now);
      && queue' == queue + DispatchJobs(due)
      && st' == st.(workspaceMarks := st.workspaceMarks + Ids(due))
      && status == Done
  {
    if !queryOk {
      return st, queue, Reported(QueryFailed);
    }
    var jobs, ids := Dispatch(Due(st.workspaces, now));
    queue' := queue + jobs;
    st' := st.(workspaceMarks := st.workspaceMarks + ids);
    status := Done;
  }

  /** The loop over the due workspaces: one users and one channels job, and one mark, each. */
  method Dispatch(workspaces: seq<Workspace>) returns (jobs: seq<Job>, marks: seq<string>)
    ensures jobs == DispatchJobs(workspaces)
    ensures marks == Ids(workspaces)
  {
    jobs, marks := [], [];
    for i := 0 to |workspaces|
      invariant jobs == DispatchJobs(workspaces[..i])
      invariant marks == Ids(workspaces[..i])
    {
      DispatchStep(workspaces, i);
      jobs := jobs + [UsersJob(workspaces[i].id, "")];
      jobs := jobs + [ChannelsJob(workspaces[i].id, "")];
      marks := marks + [workspaces[i].id];
    }
    assert workspaces[..|workspaces|] == workspaces;
  }

  lemma {:induction false} DispatchStep(ws: seq<Workspace>, i: nat)
    requires i < |ws|
    ensures DispatchJobs(ws[..i + 1]) == DispatchJobs(ws[..i]) + [UsersJob(ws[i].id, ""), ChannelsJob(ws[i].id, "")]
    ensures Ids(ws[..i + 1]) == Ids(ws[..i]) + [ws[i].id]
  {
    assert ws[..i + 1][..i] == ws[..i];
    assert Ids(ws[..i + 1])[..i] == Ids(ws[..i]);
  }

  /** Each due workspace gets a users job, then a channels job, in the due-list's order. */
  lemma {:induction false} DispatchJobsAt(due: seq<Workspace>, i: nat)
    requires i < |due|
    ensures DispatchJobs(due)[2 * i] == UsersJob(due[i].id, "")
    ensures DispatchJobs(due)[2 * i + 1] == ChannelsJob(due[i].id, "")
    decreases |due|
  {
    if i < |due| - 1 {
      DispatchJobsAt(due[..|due| - 1], i);
    }
  }

  /**
    A workspace that is not due is neither enqueued nor marked, provided the
    table holds each workspace id once.
  */
  lemma {:induction false} NotDueUntouched(ws: seq<Workspace>, now: int, w: Workspace)
    requires forall i, j :: 0 <= i < j < |ws| ==> ws[i].id != ws[j].id
    requires w in ws && w.nextUpdate >= now
    ensures forall job :: job in DispatchJobs(Due(ws, now)) ==> job.id != w.id
    ensures w.id !in Ids(Due(ws, now))
  {
    var due := Due(ws, now);
    forall job | job in DispatchJobs(due)
      ensures job.id != w.id
    {
      var v := DispatchedFor(due, job);
      DistinctIds(ws, v, w);
    }
    forall i | 0 <= i < |due|
      ensures Ids(due)[i] != w.id
    {
      assert due[i] in due;
      DistinctIds(ws, due[i], w);
    }
  }

  /** Every dispatched job belongs to a due workspace. */
  lemma {:induction false} DispatchedFor(due: seq<Workspace>, job: Job) returns (v: Workspace)
    requires job in DispatchJobs(due)
    ensures v in due && v.id == job.id
    decreases |due|
  {
    var init := due[..|due| - 1];
    var last := due[|due| - 1];
    if job in DispatchJobs(init) {
      v := DispatchedFor(init, job);
      assert v in due;
    } else {
      v := last;
    }
  }

  lemma {:induction false} DistinctIds(ws: seq<Workspace>, a: Workspace, b: Workspace)
    requires forall i, j :: 0 <= i < j < |ws| ==> ws[i].id != ws[j].id
    requires a in ws && b in ws
    ensures a.id == b.id ==> a == b
  {
    var i :| 0 <= i < |ws| && ws[i] == a;
    var j :| 0 <= j < |ws| && ws[j] == b;
    if i < j {
      assert ws[i].id != ws[j].id;
    } else if j < i {
      assert ws[j].id != ws[i].id;
    }
  }

  /** CollectMessages: its body is disabled, so it enqueues nothing and changes nothing. */
  method CollectMessages(st: Datastore, queue: seq<Job>) returns (st': Datastore, queue': seq<Job>)
    ensures st' == st && queue' == queue
  {
    st', queue' := st, queue;
  }
}

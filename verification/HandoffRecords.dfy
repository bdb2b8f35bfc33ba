/** What the record of an operation tells its readers: told field by field, over every run of repository calls. */
module HandoffRecords {
  import opened Options
  import opened HandoffRepository

  /** Creating is accepted for a request that its id already stands for, and then changes nothing, or under a new id for a
      known thread none of whose operations is still under way; then a fresh row appears under that id and nothing else. */
  lemma CreateExactlyWhen(s: Store, id: string, request: Request)
    ensures Execute(s, Create(id, request)).Ok? <==>
              if id in s.rows then s.rows[id].request == request && s.rows[id].sourceThread == request.sourceThread
              else && request.sourceThread in s.threads
                   && forall other <- s.rows :: s.rows[other].sourceThread == request.sourceThread ==>
                        s.rows[other].status in {Completed, Failed, RollbackFailed}
    ensures id in s.rows ==> After(s, Create(id, request)) == s
    ensures id in s.rows ==> Execute(s, Create(id, request)) in {Ok(s), Err(Conflict)}
    ensures id !in s.rows && Execute(s, Create(id, request)).Err? ==>
              Execute(s, Create(id, request)).error == if request.sourceThread in s.threads then HandoffInProgress else ThreadNotFound
    ensures id !in s.rows && Execute(s, Create(id, request)).Ok? ==>
              var t := After(s, Create(id, request));
              && t.threads == s.threads && t.rows.Keys == s.rows.Keys + {id} && (forall other <- s.rows :: t.rows[other] == s.rows[other])
              && t.rows[id].request == request && t.rows[id].sourceThread == request.sourceThread
              && t.rows[id].status == Running && t.rows[id].step == Preflight && t.rows[id].revision == 1
              && t.rows[id].targetThread == None && t.rows[id].targetBinding == None && t.rows[id].error == None && t.rows[id].warnings == []
              && t.rows[id].journal == Journal(None, None, None, None, None, None, false, false, false, None, None)
  {
    if id !in s.rows && request.sourceThread in s.threads {
      if other :| other in s.rows && Competes(s.rows[other], request.sourceThread) {
        assert s.rows[other].sourceThread == request.sourceThread && s.rows[other].status !in {Completed, Failed, RollbackFailed};
      }
    }
  }

  // ----- runs by their moments -----

  /** The store after the first `n` calls. */
  ghost function Moment(s: Store, calls: seq<Call>, n: nat): Store
    requires n <= |calls|
  {
    if n == 0 then s else After(Moment(s, calls, n - 1), calls[n - 1])
  }

  lemma {:induction false} MomentsFromNext(s: Store, calls: seq<Call>, n: nat)
    requires 0 < n <= |calls|
    ensures Moment(s, calls, n) == Moment(After(s, calls[0]), calls[1..], n - 1)
    decreases n
  {
    if n > 1 {
      MomentsFromNext(s, calls, n - 1);
      assert calls[1..][n - 2] == calls[n - 1];
    }
  }

  lemma {:induction false} LastMoment(s: Store, calls: seq<Call>)
    ensures RunCalls(s, calls) == Moment(s, calls, |calls|)
    decreases |calls|
  {
    if calls != [] {
      LastMoment(After(s, calls[0]), calls[1..]);
      MomentsFromNext(s, calls, |calls|);
    }
  }

  ghost predicate HasRow(s: Store, calls: seq<Call>, n: nat, id: string) { n <= |calls| && id in Moment(s, calls, n).rows }

  lemma RowStays(s: Store, call: Call, id: string)
    requires id in s.rows
    ensures id in After(s, call).rows
    ensures call.id != id ==> After(s, call).rows[id] == s.rows[id]
    ensures id in After(s, call).rows && call.id == id ==> After(s, call).rows[id] == Rewritten(s, call)
  {
    if call.id in s.rows { CallRewritesOneRow(s, call); }
  }

  // ----- the revision -----

  /** What is told about an operation. */
  datatype Report = Report(source: string, target: Option<string>, status: Status, step: Step, error: Option<ErrorCode>, warnings: seq<string>)

  function Told(row: Row): Report { Report(row.sourceThread, row.targetThread, row.status, row.step, row.error, row.warnings) }

  lemma CallRaisesRevision(s: Store, call: Call, id: string)
    requires id in s.rows
    ensures id in After(s, call).rows
    ensures var before, after := s.rows[id], After(s, call).rows[id];
            before.revision <= after.revision && (Told(after) != Told(before) ==> before.revision < after.revision)
  {
    RowStays(s, call, id);
  }

  /** Whoever has seen an operation at some revision has missed nothing while the revision is that one. */
  lemma {:induction false} RevisionTells(s: Store, calls: seq<Call>, id: string, m: nat, n: nat)
    requires m <= n <= |calls| && HasRow(s, calls, m, id)
    ensures HasRow(s, calls, n, id)
    ensures var before, after := Moment(s, calls, m).rows[id], Moment(s, calls, n).rows[id];
            before.revision <= after.revision && (Told(after) != Told(before) ==> before.revision < after.revision)
    decreases n - m
  {
    hide After;
    if m < n {
      RevisionTells(s, calls, id, m, n - 1);
      CallRaisesRevision(Moment(s, calls, n - 1), calls[n - 1], id);
    }
  }

  // ----- errors -----

  /** A failure that is reported to an operation that is not completed. */
  ghost predicate Failing(s: Store, calls: seq<Call>, i: nat, id: string) {
    i < |calls| && HasRow(s, calls, i, id) && calls[i].Fail? && calls[i].id == id && !Moment(s, calls, i).rows[id].status.Completed?
  }

  lemma CallFails(s: Store, call: Call, id: string)
    requires id in s.rows
    ensures id in After(s, call).rows
    ensures var before, after := s.rows[id], After(s, call).rows[id];
            if call.Fail? && call.id == id && !before.status.Completed? then
              && after.error == Some(if call.rollbackFailed then RollbackIncomplete else call.code)
              && after.status == (if call.rollbackFailed then RollbackFailed else Failed)
              && after.step == before.step && after.journal == before.journal && after.targetThread == before.targetThread
            else after.error == before.error && (before.status.Failed? || before.status.RollbackFailed? <==> after.status.Failed? || after.status.RollbackFailed?)
  {
    RowStays(s, call, id);
  }

  lemma {:induction false} ErrorStays(s: Store, calls: seq<Call>, id: string, m: nat, n: nat)
    requires m <= n <= |calls| && HasRow(s, calls, m, id) && forall i: nat :: m <= i < n ==> !Failing(s, calls, i, id)
    ensures HasRow(s, calls, n, id) && Moment(s, calls, n).rows[id].error == Moment(s, calls, m).rows[id].error
    decreases n - m
  {
    hide After;
    if m < n {
      ErrorStays(s, calls, id, m, n - 1);
      assert !Failing(s, calls, n - 1, id);
      CallFails(Moment(s, calls, n - 1), calls[n - 1], id);
    }
  }

  /** The error of an operation is that of the last failure reported to it before it was completed. */
  lemma ErrorIsTheLast(s: Store, calls: seq<Call>, id: string, i: nat, n: nat)
    requires i < n <= |calls| && Failing(s, calls, i, id) && forall j: nat :: i < j < n ==> !Failing(s, calls, j, id)
    ensures HasRow(s, calls, n, id)
    ensures Moment(s, calls, n).rows[id].error == Some(if calls[i].rollbackFailed then RollbackIncomplete else calls[i].code)
  {
    hide After;
    CallFails(Moment(s, calls, i), calls[i], id);
    ErrorStays(s, calls, id, i + 1, n);
  }

  // ----- warnings -----

  /** The warning a call carries, if it is taken. */
  ghost function Warning(s: Store, call: Call, id: string): Option<string>
    requires id in s.rows
  {
    if call.id != id then None
    else if call.AppendWarning? then Some(call.warning)
    else if call.Advance? && s.rows[id].status == Running && Execute(s, call).Ok? then call.patch.warning
    else None
  }

  lemma CallWarns(s: Store, call: Call, id: string)
    requires id in s.rows
    ensures id in After(s, call).rows
    ensures var before, after, w := s.rows[id].warnings, After(s, call).rows[id].warnings, Warning(s, call, id);
            after == if w.Some? && w.value !in before then before + [w.value] else before
  {
    RowStays(s, call, id);
  }

  /** Warnings are never forgotten: each stays where it was, each that was given is there, none twice. */
  lemma {:induction false} WarningsAreKept(s: Store, calls: seq<Call>, id: string, m: nat, n: nat)
    requires m <= n <= |calls| && HasRow(s, calls, m, id)
    ensures HasRow(s, calls, n, id)
    ensures Moment(s, calls, m).rows[id].warnings <= Moment(s, calls, n).rows[id].warnings
    ensures forall i: nat :: m <= i < n && HasRow(s, calls, i, id) && Warning(Moment(s, calls, i), calls[i], id).Some? ==>
              Warning(Moment(s, calls, i), calls[i], id).value in Moment(s, calls, n).rows[id].warnings
    ensures forall w :: w in Moment(s, calls, n).rows[id].warnings && w !in Moment(s, calls, m).rows[id].warnings ==>
              exists i: nat :: m <= i < n && HasRow(s, calls, i, id) && Warning(Moment(s, calls, i), calls[i], id) == Some(w)
    ensures Distinct(Moment(s, calls, m).rows[id].warnings) ==> Distinct(Moment(s, calls, n).rows[id].warnings)
    decreases n - m
  {
    hide After, Execute, Warning;
    if m < n {
      WarningsAreKept(s, calls, id, m, n - 1);
      CallWarns(Moment(s, calls, n - 1), calls[n - 1], id);
    }
  }

  ghost predicate Distinct(s: seq<string>) { forall i, j :: 0 <= i < j < |s| ==> s[i] != s[j] }

  // ----- the binding of the target -----

  lemma CallBinds(s: Store, call: Call, id: string)
    requires id in s.rows
    ensures id in After(s, call).rows
    ensures var before, after := s.rows[id].targetBinding, After(s, call).rows[id].targetBinding;
            && (before.Some? ==> after == before)
            && (before.None? && after.Some? ==> call == RecordBinding(id, after.value))
            && (call.RecordBinding? && call.id == id ==> (Execute(s, call).Ok? <==> after == Some(call.binding)))
  {
    RowStays(s, call, id);
  }

  /** The first binding recorded for an operation stays its binding: recording is accepted for that one and for no other. */
  lemma {:induction false} FirstBindingStays(s: Store, calls: seq<Call>, id: string, m: nat, n: nat)
    requires m < n <= |calls| && HasRow(s, calls, m, id)
    ensures HasRow(s, calls, n, id) && HasRow(s, calls, n - 1, id)
    ensures Moment(s, calls, m).rows[id].targetBinding.Some? ==> Moment(s, calls, n).rows[id].targetBinding == Moment(s, calls, m).rows[id].targetBinding
    ensures calls[n - 1].RecordBinding? && calls[n - 1].id == id ==>
              (Execute(Moment(s, calls, n - 1), calls[n - 1]).Ok? <==> Moment(s, calls, n).rows[id].targetBinding == Some(calls[n - 1].binding))
    decreases n - m
  {
    hide After, Execute;
    if m < n - 1 { FirstBindingStays(s, calls, id, m, n - 1); }
    CallBinds(Moment(s, calls, n - 1), calls[n - 1], id);
  }

  // ----- the journal -----

  /** What a call writes to the journal of a running operation. */
  ghost function Patch(s: Store, call: Call, id: string): Option<Journal>
    requires id in s.rows
  {
    if call.id != id || s.rows[id].status != Running then None
    else if call.Checkpoint? then Some(call.journal)
    else if call.Advance? && Execute(s, call).Ok? then Some(call.patch.journal)
    else None
  }

  ghost predicate Put<T>(before: Option<T>, patch: Option<T>, after: Option<T>) { (patch.Some? ==> after == patch) && (patch.None? ==> after == before) }

  /** What a patch does not mention stays, what it mentions replaces what was there; only clearing takes anything out. */
  lemma CallRecords(s: Store, call: Call, id: string)
    requires id in s.rows
    ensures id in After(s, call).rows
    ensures var b, a, p := s.rows[id].journal, After(s, call).rows[id].journal, Patch(s, call, id);
            if call == ClearJournal(id) then a == EMPTY_JOURNAL
            else if p.None? then a == b
            else && Put(b.sourceHead, p.value.sourceHead, a.sourceHead) && Put(b.sourceBranch, p.value.sourceBranch, a.sourceBranch)
                 && Put(b.destinationHead, p.value.destinationHead, a.destinationHead) && Put(b.destinationBranch, p.value.destinationBranch, a.destinationBranch)
                 && Put(b.sourceStashRef, p.value.sourceStashRef, a.sourceStashRef) && Put(b.destinationStashRef, p.value.destinationStashRef, a.destinationStashRef)
                 && Put(b.sourceStashMarker, p.value.sourceStashMarker, a.sourceStashMarker)
                 && Put(b.destinationStashMarker, p.value.destinationStashMarker, a.destinationStashMarker)
                 && a.destinationStashApplied == (b.destinationStashApplied || p.value.destinationStashApplied)
                 && a.sourceDetached == (b.sourceDetached || p.value.sourceDetached) && a.destinationCreated == (b.destinationCreated || p.value.destinationCreated)
  {
    RowStays(s, call, id);
  }
}

/**
 * How the pieces meet on the bus: a successful write through the file-operation API publishes a
 * FILE_MODIFIED event that the lifecycle controller turns into an uningest followed by a bracketed
 * ingest, and the controller's PROCESSING/PROCESSED publications are what the progress ledger
 * records for the file.
 */
module Pipeline {
  import opened Optional
  import opened Messages
  import FI = FileIndexer
  import Ev = Events
  import Op = OperateFile

  // ---------------------------------------------------------------------------------------------
  // The ledger fed with a sequence of publications
  // ---------------------------------------------------------------------------------------------

  /** The ledger's memory after the subscriber has seen `msgs` in order. */
  function ApplyAll(memory: Ev.Memory, msgs: seq<ProgressMessage>, initial: real, pregenSteps: real): Ev.Memory
    decreases |msgs|
  {
    if msgs == [] then memory
    else ApplyAll(Ev.Apply(memory, msgs[0], initial, pregenSteps).memory, msgs[1..], initial, pregenSteps)
  }

  /** The publications of one bracket: PROCESSING, then PROCESSED unless the operation rejected. */
  function BracketPublications(env: FI.Env, o: FI.OpOutcome, path: string, subtype: Subtype, id: string, org: string): seq<ProgressMessage> {
    [FI.Processing(env, path, subtype, id, org)]
      + (if o.Completed? then [FI.Processed(env, path, subtype, id, org, o.result)] else [])
  }

  /** What the ledger holds for the file of a bracket: the record is done exactly when the operation completed. */
  ghost predicate RecordsOutcome(m: Ev.Memory, env: FI.Env, o: FI.OpOutcome, path: string, id: string, org: string) {
    && Ev.MemKey(id, org) in m && env.cmsRelative(path) in m[Ev.MemKey(id, org)]
    && var rec := m[Ev.MemKey(id, org)][env.cmsRelative(path)];
       && rec.path == Some(env.cmsRelative(path))
       && (rec.done <==> o.Completed?)
       && rec.result == Some(if o.Completed? then o.result else true)
       && rec.percentage == Undefined
  }

  /** Other users' records are untouched. */
  ghost predicate OthersKept(m: Ev.Memory, memory: Ev.Memory, id: string, org: string) {
    forall u :: u != Ev.MemKey(id, org) ==> (u in m <==> u in memory) && (u in memory ==> m[u] == memory[u])
  }

  /**
   * The ledger after one bracket of a file with a non-empty path: a PROCESSING record that becomes
   * done, with the operation's result, when PROCESSED follows, and stays not done when the
   * operation rejected; no other user's records change and nothing throws.
   */
  lemma LedgerAfterBracket(memory: Ev.Memory, env: FI.Env, o: FI.OpOutcome, path: string, subtype: Subtype,
                           id: string, org: string, initial: real, pregenSteps: real)
    requires path != "" && subtype != ProgressPercentage
    ensures var m := ApplyAll(memory, BracketPublications(env, o, path, subtype, id, org), initial, pregenSteps);
      RecordsOutcome(m, env, o, path, id, org) && OthersKept(m, memory, id, org)
  {
    var start := FI.Processing(env, path, subtype, id, org);
    var a := Ev.Apply(memory, start, initial, pregenSteps);
    assert Ev.Relevant(start) && !a.threw;
    var pubs := BracketPublications(env, o, path, subtype, id, org);
    assert pubs[0] == start;
    if o.Completed? {
      var finish := FI.Processed(env, path, subtype, id, org, o.result);
      var b := Ev.Apply(a.memory, finish, initial, pregenSteps);
      assert Ev.Relevant(finish) && !b.threw;
      assert pubs[1..] == [finish] && [finish][1..] == [];
      assert ApplyAll(a.memory, [finish], initial, pregenSteps) == b.memory;
      assert ApplyAll(memory, pubs, initial, pregenSteps) == ApplyAll(a.memory, [finish], initial, pregenSteps);
    } else {
      assert pubs[1..] == [];
      assert ApplyAll(memory, pubs, initial, pregenSteps) == a.memory;
    }
  }

  /**
   * The controller's publications carry no percentage, so a progress step for the file after its
   * bracket adds a weight to `undefined`: it does not throw, and leaves the percentage non-finite
   * whatever the weight.
   */
  lemma ProgressAfterBracket(memory: Ev.Memory, env: FI.Env, o: FI.OpOutcome, path: string, subtype: Subtype,
                             id: string, org: string, step: ProgressMessage, initial: real, pregenSteps: real)
    requires path != "" && subtype != ProgressPercentage
    requires Ev.Relevant(step) && step.subtype == Some(ProgressPercentage)
    requires step.id == id && step.org == org && step.cmspath == Some(env.cmsRelative(path))
    ensures var m := ApplyAll(memory, BracketPublications(env, o, path, subtype, id, org), initial, pregenSteps);
      var a := Ev.Apply(m, step, initial, pregenSteps);
      && !a.threw
      && a.memory[Ev.MemKey(id, org)][env.cmsRelative(path)].percentage == NonFinite
  {
    LedgerAfterBracket(memory, env, o, path, subtype, id, org, initial, pregenSteps);
    var m := ApplyAll(memory, BracketPublications(env, o, path, subtype, id, org), initial, pregenSteps);
    assert Ev.EntryKey(step) == env.cmsRelative(path);
    assert Ev.UserMemory(m, Ev.MemKey(id, org)) == m[Ev.MemKey(id, org)];
  }

  /**
   * Create, delete and rename events with a non-empty path: what the ledger records from the
   * controller's publications is the operation's outcome.
   */
  lemma LedgerSeesOutcome(memory: Ev.Memory, env: FI.Env, msg: FileMessage, k: nat, initial: real, pregenSteps: real)
    requires FI.Dispatch(msg).Some? && !FI.Dispatch(msg).value.Modify?
    requires FI.ReportedPath(FI.Dispatch(msg).value) != ""
    ensures var op := FI.Dispatch(msg).value;
      var m := ApplyAll(memory, FI.Publications(FI.Handle(env, msg, k)), initial, pregenSteps);
      && RecordsOutcome(m, env, FI.Published(env, msg, op).0, FI.ReportedPath(op), msg.id, msg.org)
      && OthersKept(m, memory, msg.id, msg.org)
  {
    var op := FI.Dispatch(msg).value;
    var o := FI.Published(env, msg, op).0;
    FI.HandleSingle(env, msg, k);
    assert FI.Publications(FI.Handle(env, msg, k)) == BracketPublications(env, o, FI.ReportedPath(op), FI.SubtypeOf(op), msg.id, msg.org);
    LedgerAfterBracket(memory, env, o, FI.ReportedPath(op), FI.SubtypeOf(op), msg.id, msg.org, initial, pregenSteps);
  }

  /**
   * Modify events with a non-empty path: when the uningest rejects the ledger hears nothing;
   * otherwise it records the ingest's outcome under the file's CMS path.
   */
  lemma LedgerSeesModify(memory: Ev.Memory, env: FI.Env, msg: FileMessage, k: nat, initial: real, pregenSteps: real)
    requires FI.Dispatch(msg).Some? && FI.Dispatch(msg).value.Modify? && FI.Dispatch(msg).value.path != ""
    ensures var p := FI.Dispatch(msg).value.path;
      var m := ApplyAll(memory, FI.Publications(FI.Handle(env, msg, k)), initial, pregenSteps);
      && (FI.Prelude(env, msg, p).0.Rejected? ==> m == memory)
      && (FI.Prelude(env, msg, p).0.Completed? ==>
            RecordsOutcome(m, env, FI.Published(env, msg, FI.Modify(p)).0, p, msg.id, msg.org)
            && OthersKept(m, memory, msg.id, msg.org))
  {
    var p := FI.Dispatch(msg).value.path;
    var o := FI.Published(env, msg, FI.Modify(p)).0;
    FI.HandleModify(env, msg, k);
    if FI.Prelude(env, msg, p).0.Completed? {
      assert FI.Publications(FI.Handle(env, msg, k)) == BracketPublications(env, o, p, Modified, msg.id, msg.org);
      LedgerAfterBracket(memory, env, o, p, Modified, msg.id, msg.org, initial, pregenSteps);
    }
  }

  // ---------------------------------------------------------------------------------------------
  // A write re-indexes the file
  // ---------------------------------------------------------------------------------------------

  /**
   * A file-operation request followed by the controller's handling of every file event it
   * published. A successful write of a resolvable path yields exactly the handling of a FILE_MODIFIED
   * event for its full path, which the controller dispatches as a modify of that path; any other
   * request makes the controller do nothing.
   */
  method WriteAndReindex(req: Op.Request, opEnv: Op.Env, env: FI.Env, k: nat) returns (resp: Op.Response, calls: seq<FI.Call>)
    ensures var fp := opEnv.fullPath(req.path.GetOr(""));
      if Op.ValidRequest(req) && Op.OpOf(req) == "write" && !req.isDisabled && fp.Some?
         && opEnv.writeSucceeds(req.path.value, req.data.value)
      then && resp == Op.TrueResult(None)
           && FI.Dispatch(Op.ModifiedEvent(fp.value, opEnv.id, opEnv.org)) == Some(FI.Modify(fp.value))
           && calls == FI.Handle(env, Op.ModifiedEvent(fp.value, opEnv.id, opEnv.org), k)
      else calls == []
  {
    var effects;
    resp, effects := Op.DoService(req, opEnv);
    calls := [];
    var i := 0;
    while i < |effects|
      invariant 0 <= i <= |effects|
      invariant calls == HandledUpTo(env, effects, i, k)
    {
      if effects[i].Published? {
        calls := calls + FI.Handle(env, effects[i].message, k);
      }
      i := i + 1;
    }
    var fp := opEnv.fullPath(req.path.GetOr(""));
    if Op.ValidRequest(req) && Op.OpOf(req) == "write" && !req.isDisabled && fp.Some?
       && opEnv.writeSucceeds(req.path.value, req.data.value) {
      assert effects[1..] == [effects[1]];
      assert HandledUpTo(env, effects, 1, k) == [];
    } else {
      NoPublishedNoCalls(env, effects, k);
    }
  }

  /** The controller's calls for the events published among the first `n` effects. */
  function HandledUpTo(env: FI.Env, effects: seq<Op.Effect>, n: nat, k: nat): seq<FI.Call>
    requires n <= |effects|
  {
    if n == 0 then []
    else HandledUpTo(env, effects, n - 1, k)
         + (if effects[n - 1].Published? then FI.Handle(env, effects[n - 1].message, k) else [])
  }

  /** Effects without publications cause no controller calls. */
  lemma {:induction false} NoPublishedNoCalls(env: FI.Env, effects: seq<Op.Effect>, k: nat)
    requires forall i :: 0 <= i < |effects| ==> !effects[i].Published?
    ensures forall n :: 0 <= n <= |effects| ==> HandledUpTo(env, effects, n, k) == []
  {
    forall n | 0 <= n <= |effects|
      ensures HandledUpTo(env, effects, n, k) == []
    {
      NoneUpTo(env, effects, n, k);
    }
  }

  lemma {:induction false} NoneUpTo(env: FI.Env, effects: seq<Op.Effect>, n: nat, k: nat)
    requires n <= |effects|
    requires forall i :: 0 <= i < |effects| ==> !effects[i].Published?
    ensures HandledUpTo(env, effects, n, k) == []
  {
    if n > 0 {
      NoneUpTo(env, effects, n - 1, k);
    }
  }
}

/**
 * The ingestion lifecycle controller: it maps a file-mutation event to one knowledge-index
 * operation, resolves an ordered plugin list, falls back to the default add/remove/rename followed
 * by `end()`, and brackets the operation with PROCESSING/PROCESSED publications.
 *
 * Every collaborator (the CMS path functions, the index, the plugins, the bus) is an input of
 * `Env`; every call made to one is appended to a shared `CallLog`, so that ordering can be stated.
 */
module FileIndexer {
  import opened Optional
  import opened Messages

  /** The fields of a per-file context that a plugin can observe. */
  datatype ContextView = ContextView(
    filepath: string,
    cmspath: string,
    id: string,
    org: string,
    lang: Option<string>,
    aiappid: string,
    filepathTo: Option<string>,
    cmspathTo: Option<string>)

  /**
   * What a plugin's `canHandle` does for a context: answer truthy, answer falsy, or throw (or
   * reject) with an error value that is itself truthy or falsy (`throw undefined`, `Promise.reject()`).
   */
  datatype Verdict = Claims | Declines | Throws(errorTruthy: bool)

  /** What a plugin's ingest/uningest/rename promise settles to. */
  datatype PluginReply = Returned(value: bool) | PluginThrew

  /** A file-handling plugin, in the order of `conf.file_handling_plugins`. */
  datatype Plugin = Plugin(
    canHandle: ContextView -> Verdict,
    ingest: ContextView -> PluginReply,
    uningest: ContextView -> PluginReply,
    rename: ContextView -> PluginReply)

  /** What an index call of `aidbfs` resolves to: an object with a `result`, nothing, or a thrown error. */
  datatype IndexReply = IndexResult(result: bool) | IndexNothing | IndexThrew

  /** The collaborators, as seen for the user of the event being handled. */
  datatype Env = Env(
    plugins: seq<Plugin>,
    resolve: string -> string,                          // path.resolve
    cmsRelative: string -> string,                      // cms.getCMSRootRelativePath
    cmsFull: string -> string,                          // cms.getFullPath
    appId: string,                                      // brainhandler.getAppID
    ingestReply: (string, string) -> IndexReply,        // aidbfs.ingestfile(fullPath, cmspath, ...)
    uningestReply: string -> IndexReply,                // aidbfs.uningestfile(fullPath, ...)
    renameReply: (string, string, string) -> IndexReply, // aidbfs.renamefile(fullPathFrom, fullPathTo, cmspathTo, ...)
    rebuildThrows: bool,                                // aidbfs.rebuild rejects
    flushThrows: bool)                                  // aidbfs.flush rejects

  /** One call to a collaborator, in the order the controller makes them. */
  datatype Call =
    | Publish(message: ProgressMessage)
    | CanHandle(plugin: nat, view: ContextView)
    | PluginIngest(plugin: nat, view: ContextView)
    | PluginUningest(plugin: nat, view: ContextView)
    | PluginRename(plugin: nat, view: ContextView)
    | IndexIngest(fullPath: string, cmspath: string, lang: Option<string>)
    | IndexUningest(fullPath: string)
    | IndexRename(fullPathFrom: string, fullPathTo: string, cmspathTo: string)
    | Rebuild(aiappid: string)
    | Flush(aiappid: string)

  /** What the promise of `_ingestfile`/`_uningestfile`/`_renamefile` settles to. */
  datatype OpOutcome = Completed(result: bool, cause: Option<string>) | Rejected

  const PluginValidationFailed := "Plugin validation failed."

  /** The three index operations a context supports. */
  datatype OpKind = IngestOp | UningestOp | RenameOp

  /**
   * The outcome of `_searchForFilePlugin`: the claiming plugin, the plugin whose `canHandle` threw
   * (with whether the `error` it reports is truthy), or neither.
   */
  datatype Resolution = Claimed(index: nat) | PluginError(index: nat, errorTruthy: bool) | Unclaimed

  /** The index operation a file event asks for. */
  datatype Operation = Ingest(path: string) | Uningest(path: string) | Rename(from: string, to: string) | Modify(path: string)

  // ---------------------------------------------------------------------------------------------
  // Event dispatch
  // ---------------------------------------------------------------------------------------------

  /** The file-event kind of a message type, under either the XBin or the Neuranet constants. */
  function KindOf(t: MessageType): Option<FileEventKind> {
    match t
    case XbinEvent(k) => Some(k)
    case NeuranetEvent(k) => Some(k)
    case _ => None
  }

  /**
   * The operation `_handleFileEvent` starts for a message, if any. A directory event, a message of
   * any other type, and one without the path the operation resolves (where `path.resolve(undefined)`
   * throws before anything is started) start nothing.
   */
  function Dispatch(msg: FileMessage): (op: Option<Operation>)
    ensures msg.isDirectory ==> op == None
    ensures (op.Some? && op.value.Ingest?)
      <==> !msg.isDirectory && msg.path.Some?
           && (msg.mtype == XbinEvent(FileCreated) || msg.mtype == NeuranetEvent(FileCreated))
    ensures (op.Some? && op.value.Uningest?)
      <==> !msg.isDirectory && msg.path.Some?
           && (msg.mtype == XbinEvent(FileDeleted) || msg.mtype == NeuranetEvent(FileDeleted))
    ensures (op.Some? && op.value.Rename?)
      <==> !msg.isDirectory && msg.from.Some? && msg.to.Some?
           && (msg.mtype == XbinEvent(FileRenamed) || msg.mtype == NeuranetEvent(FileRenamed))
    ensures (op.Some? && op.value.Modify?)
      <==> !msg.isDirectory && msg.path.Some?
           && (msg.mtype == XbinEvent(FileModified) || msg.mtype == NeuranetEvent(FileModified))
    ensures op.Some? && !op.value.Rename? ==> op.value.path == msg.path.value
    ensures op.Some? && op.value.Rename? ==> op.value.from == msg.from.value && op.value.to == msg.to.value
  {
    if msg.isDirectory then None
    else match KindOf(msg.mtype)
      case None => None
      case Some(FileCreated) => if msg.path.Some? then Some(Ingest(msg.path.value)) else None
      case Some(FileDeleted) => if msg.path.Some? then Some(Uningest(msg.path.value)) else None
      case Some(FileRenamed) =>
        if msg.from.Some? && msg.to.Some? then Some(Rename(msg.from.value, msg.to.value)) else None
      case Some(FileModified) => if msg.path.Some? then Some(Modify(msg.path.value)) else None
  }

  /** The subtype an operation is reported under. */
  function SubtypeOf(op: Operation): Subtype {
    match op
    case Ingest(_) => Ingested
    case Uningest(_) => Uningested
    case Rename(_, _) => Renamed
    case Modify(_) => Modified
  }

  /** The (unresolved) path an operation is reported under: the target of a rename, else the event's path. */
  function ReportedPath(op: Operation): string {
    match op
    case Rename(_, to) => to
    case Ingest(p) => p
    case Uningest(p) => p
    case Modify(p) => p
  }

  // ---------------------------------------------------------------------------------------------
  // Plugin resolution
  // ---------------------------------------------------------------------------------------------

  /** The index at which the search stopped: the deciding plugin's, or the length of the list. */
  function StopIndex(r: Resolution, n: nat): nat {
    match r
    case Claimed(i) => i
    case PluginError(i, _) => i
    case Unclaimed => n
  }

  /** How many `canHandle` calls a search with this outcome made. */
  function Consulted(r: Resolution, n: nat): nat {
    if r.Unclaimed? then n else StopIndex(r, n) + 1
  }

  /** The search from plugin `i` on. */
  function ResolveFrom(plugins: seq<Plugin>, v: ContextView, i: nat): (r: Resolution)
    requires i <= |plugins|
    ensures i <= StopIndex(r, |plugins|) <= |plugins|
    ensures r.Unclaimed? <==> StopIndex(r, |plugins|) == |plugins|
    ensures r.Claimed? ==> plugins[r.index].canHandle(v) == Claims
    ensures r.PluginError? ==> plugins[r.index].canHandle(v) == Throws(r.errorTruthy)
    ensures forall j :: i <= j < StopIndex(r, |plugins|) ==> plugins[j].canHandle(v) == Declines
    decreases |plugins| - i
  {
    if i == |plugins| then Unclaimed
    else match plugins[i].canHandle(v)
      case Claims => Claimed(i)
      case Throws(t) => PluginError(i, t)
      case Declines => ResolveFrom(plugins, v, i + 1)
  }

  /**
   * `_searchForFilePlugin` as a value: the first plugin in order whose `canHandle` is true, or the
   * first that throws if that comes earlier; `Unclaimed` only when every plugin declines.
   */
  function Resolve(plugins: seq<Plugin>, v: ContextView): (r: Resolution)
    ensures r.Claimed? ==> r.index < |plugins| && plugins[r.index].canHandle(v) == Claims
    ensures r.PluginError? ==> r.index < |plugins| && plugins[r.index].canHandle(v) == Throws(r.errorTruthy)
    ensures r.Unclaimed? <==> forall j :: 0 <= j < |plugins| ==> plugins[j].canHandle(v) == Declines
    ensures forall j :: 0 <= j < StopIndex(r, |plugins|) ==> plugins[j].canHandle(v) == Declines
  {
    ResolveFrom(plugins, v, 0)
  }

  /** The `canHandle` calls of the first `n` plugins, in order. */
  function Consultations(v: ContextView, n: nat): (calls: seq<Call>)
    ensures |calls| == n
  {
    seq(n, j requires 0 <= j < n => CanHandle(j, v))
  }

  // ---------------------------------------------------------------------------------------------
  // The operations as values
  // ---------------------------------------------------------------------------------------------

  /** The calls `end()` makes: rebuild, then flush unless rebuild threw. */
  function EndCalls(env: Env, aiappid: string): seq<Call> {
    if env.rebuildThrows then [Rebuild(aiappid)] else [Rebuild(aiappid), Flush(aiappid)]
  }

  /** The default index call for an operation on a context. */
  function DefaultCall(env: Env, kind: OpKind, v: ContextView): Call
    requires kind == RenameOp ==> v.cmspathTo.Some?
  {
    match kind
    case IngestOp => IndexIngest(env.cmsFull(v.cmspath), v.cmspath, v.lang)
    case UningestOp => IndexUningest(env.cmsFull(v.cmspath))
    case RenameOp => IndexRename(env.cmsFull(v.cmspath), env.cmsFull(v.cmspathTo.value), v.cmspathTo.value)
  }

  /** TRUE_RESULT exactly when the index call resolved to an object with a truthy `result`. */
  function DefaultResult(env: Env, kind: OpKind, v: ContextView): bool
    requires kind == RenameOp ==> v.cmspathTo.Some?
  {
    match kind
    case IngestOp => env.ingestReply(env.cmsFull(v.cmspath), v.cmspath) == IndexResult(true)
    case UningestOp => env.uningestReply(env.cmsFull(v.cmspath)) == IndexResult(true)
    case RenameOp =>
      env.renameReply(env.cmsFull(v.cmspath), env.cmsFull(v.cmspathTo.value), v.cmspathTo.value) == IndexResult(true)
  }

  /** The plugin method an operation calls. */
  function PluginCall(i: nat, kind: OpKind, v: ContextView): Call {
    match kind
    case IngestOp => PluginIngest(i, v)
    case UningestOp => PluginUningest(i, v)
    case RenameOp => PluginRename(i, v)
  }

  function PluginAnswer(p: Plugin, kind: OpKind, v: ContextView): PluginReply {
    match kind
    case IngestOp => p.ingest(v)
    case UningestOp => p.uningest(v)
    case RenameOp => p.rename(v)
  }

  /**
   * One operation: plugins are searched on `vSearch`, the chosen method runs on `vRun` (they differ
   * only for a rename, whose target is set after the search). Returns the settled promise and the
   * calls made.
   */
  function RunOp(env: Env, kind: OpKind, vSearch: ContextView, vRun: ContextView): (r: (OpOutcome, seq<Call>))
    requires kind == RenameOp ==> vRun.cmspathTo.Some?
    ensures forall i :: 0 <= i < |r.1| ==> !r.1[i].Publish?
  {
    var res := Resolve(env.plugins, vSearch);
    var asked := Consultations(vSearch, Consulted(res, |env.plugins|));
    match res
    case Claimed(i) =>
      var reply := PluginAnswer(env.plugins[i], kind, vRun);
      (if reply.Returned? then Completed(reply.value, None) else Rejected, asked + [PluginCall(i, kind, vRun)])
    case PluginError(_, true) =>
      (Completed(false, Some(PluginValidationFailed)), asked)
    case _ =>
      (Completed(DefaultResult(env, kind, vRun), None), asked + [DefaultCall(env, kind, vRun)] + EndCalls(env, vRun.aiappid))
  }

  /** The context `_getFileIndexer` builds for a (resolved) path. */
  function NewView(env: Env, pathIn: string, id: string, org: string, lang: Option<string>): ContextView {
    ContextView(pathIn, env.cmsRelative(pathIn), id, org, lang, env.appId, None, None)
  }

  /** The context a rename's plugin method or default call sees: the search context with its target set. */
  function RenameView(env: Env, from: string, to: string, id: string, org: string): ContextView {
    NewView(env, from, id, org, None).(filepathTo := Some(to), cmspathTo := Some(env.cmsRelative(to)))
  }

  function IngestSpec(env: Env, pathIn: string, id: string, org: string, lang: Option<string>): (OpOutcome, seq<Call>) {
    var v := NewView(env, pathIn, id, org, lang);
    RunOp(env, IngestOp, v, v)
  }

  function UningestSpec(env: Env, pathIn: string, id: string, org: string): (OpOutcome, seq<Call>) {
    var v := NewView(env, pathIn, id, org, None);
    RunOp(env, UningestOp, v, v)
  }

  function RenameSpec(env: Env, from: string, to: string, id: string, org: string): (OpOutcome, seq<Call>) {
    RunOp(env, RenameOp, NewView(env, from, id, org, None), RenameView(env, from, to, id, org))
  }

  /** The PROCESSING publication: result true, path the event's path, cmspath derived from it. */
  function Processing(env: Env, fullpath: string, subtype: Subtype, id: string, org: string): ProgressMessage {
    ProgressMessage(AidbFileProcessing, Some(subtype), Some(fullpath), Some(env.cmsRelative(fullpath)),
      id, org, Some(true), None, None, Undefined)
  }

  /** The PROCESSED publication, carrying the operation's `result`. */
  function Processed(env: Env, fullpath: string, subtype: Subtype, id: string, org: string, result: bool): ProgressMessage {
    ProgressMessage(AidbFileProcessed, Some(subtype), Some(fullpath), Some(env.cmsRelative(fullpath)),
      id, org, Some(result), None, None, Undefined)
  }

  /** How many of the operation's calls precede the PROCESSING publication when the scheduler lets `k` through. */
  function Cut(k: nat, n: nat): nat {
    if k < n then k else n
  }

  /**
   * `awaitPromisePublishFileEvent`: the operation was started before the wrapper runs, so the first
   * `k` of its calls may come before the PROCESSING publication; PROCESSED follows them all, and
   * is never published when the operation's promise rejects.
   */
  function Bracket(env: Env, outcome: OpOutcome, opCalls: seq<Call>, fullpath: string, subtype: Subtype,
                   id: string, org: string, k: nat): seq<Call>
  {
    var j := Cut(k, |opCalls|);
    opCalls[..j] + [Publish(Processing(env, fullpath, subtype, id, org))] + opCalls[j..]
      + (if outcome.Completed? then [Publish(Processed(env, fullpath, subtype, id, org, outcome.result))] else [])
  }

  /** The operation whose progress is published: the dispatched one, or the ingest half of a modify. */
  function Published(env: Env, msg: FileMessage, op: Operation): (OpOutcome, seq<Call>) {
    match op
    case Ingest(p) => IngestSpec(env, env.resolve(p), msg.id, msg.org, msg.lang)
    case Uningest(p) => UningestSpec(env, env.resolve(p), msg.id, msg.org)
    case Rename(f, t) => RenameSpec(env, env.resolve(f), env.resolve(t), msg.id, msg.org)
    case Modify(p) => IngestSpec(env, env.resolve(p), msg.id, msg.org, msg.lang)
  }

  /** The uningest a modify awaits before its ingest starts. */
  function Prelude(env: Env, msg: FileMessage, p: string): (OpOutcome, seq<Call>) {
    UningestSpec(env, env.resolve(p), msg.id, msg.org)
  }

  /** Everything `_handleFileEvent` makes happen for one message. */
  function Handle(env: Env, msg: FileMessage, k: nat): (calls: seq<Call>)
    ensures msg.isDirectory ==> calls == []
    ensures Dispatch(msg) == None ==> calls == []
  {
    match Dispatch(msg)
    case None => []
    case Some(op) =>
      var (o, c) := Published(env, msg, op);
      var bracketed := Bracket(env, o, c, ReportedPath(op), SubtypeOf(op), msg.id, msg.org, k);
      if op.Modify? then
        var (u, uc) := Prelude(env, msg, op.path);
        if u.Rejected? then uc else uc + bracketed
      else bracketed
  }

  // ---------------------------------------------------------------------------------------------
  // Properties of the controller
  // ---------------------------------------------------------------------------------------------

  /** The messages published, in order. */
  function Publications(calls: seq<Call>): seq<ProgressMessage> {
    if calls == [] then []
    else (if calls[0].Publish? then [calls[0].message] else []) + Publications(calls[1..])
  }

  /** The calls made to collaborators other than the bus, in order. */
  function Effects(calls: seq<Call>): seq<Call> {
    if calls == [] then []
    else (if calls[0].Publish? then [] else [calls[0]]) + Effects(calls[1..])
  }

  /** How many calls satisfy `p`. */
  function Count(calls: seq<Call>, p: Call -> bool): nat {
    if calls == [] then 0 else (if p(calls[0]) then 1 else 0) + Count(calls[1..], p)
  }

  predicate IsCanHandle(c: Call) { c.CanHandle? }
  predicate IsPluginMethod(c: Call) { c.PluginIngest? || c.PluginUningest? || c.PluginRename? }
  predicate IsIndexCall(c: Call) { c.IndexIngest? || c.IndexUningest? || c.IndexRename? }
  predicate IsRebuild(c: Call) { c.Rebuild? }

  lemma {:induction false} PublicationsAppend(a: seq<Call>, b: seq<Call>)
    ensures Publications(a + b) == Publications(a) + Publications(b)
  {
    if a == [] {
      assert a + b == b;
    } else {
      var head := if a[0].Publish? then [a[0].message] else [];
      assert (a + b)[0] == a[0] && (a + b)[1..] == a[1..] + b;
      assert Publications(a + b) == head + Publications(a[1..] + b);
      PublicationsAppend(a[1..], b);
      assert Publications(a) == head + Publications(a[1..]);
      assert head + (Publications(a[1..]) + Publications(b)) == (head + Publications(a[1..])) + Publications(b);
    }
  }

  lemma {:induction false} EffectsAppend(a: seq<Call>, b: seq<Call>)
    ensures Effects(a + b) == Effects(a) + Effects(b)
  {
    if a == [] {
      assert a + b == b;
    } else {
      assert (a + b)[1..] == a[1..] + b;
      EffectsAppend(a[1..], b);
    }
  }

  lemma {:induction false} CountAppend(a: seq<Call>, b: seq<Call>, p: Call -> bool)
    ensures Count(a + b, p) == Count(a, p) + Count(b, p)
  {
    if a == [] {
      assert a + b == b;
    } else {
      assert (a + b)[1..] == a[1..] + b;
      CountAppend(a[1..], b, p);
    }
  }

  lemma FilterAppend(a: seq<Call>, b: seq<Call>)
    ensures Publications(a + b) == Publications(a) + Publications(b)
    ensures Effects(a + b) == Effects(a) + Effects(b)
  {
    PublicationsAppend(a, b);
    EffectsAppend(a, b);
  }

  lemma {:induction false} NoPublications(calls: seq<Call>)
    requires forall i :: 0 <= i < |calls| ==> !calls[i].Publish?
    ensures Publications(calls) == [] && Effects(calls) == calls
  {
    if calls != [] {
      NoPublications(calls[1..]);
    }
  }

  /** The search's calls are `canHandle` calls only, one per plugin consulted. */
  lemma {:induction false} ConsultationsCount(v: ContextView, n: nat, p: Call -> bool)
    requires forall j :: p(CanHandle(j, v)) == IsCanHandle(CanHandle(j, v))
    ensures Count(Consultations(v, n), p) == n
  {
    if n > 0 {
      assert Consultations(v, n) == Consultations(v, n - 1) + [CanHandle(n - 1, v)];
      CountAppend(Consultations(v, n - 1), [CanHandle(n - 1, v)], p);
      ConsultationsCount(v, n - 1, p);
    }
  }

  /** A search makes no call that is not a `canHandle` call. */
  lemma {:induction false} ConsultationsOnly(v: ContextView, n: nat, p: Call -> bool)
    requires forall j :: !p(CanHandle(j, v))
    ensures Count(Consultations(v, n), p) == 0
  {
    if n > 0 {
      assert Consultations(v, n) == Consultations(v, n - 1) + [CanHandle(n - 1, v)];
      CountAppend(Consultations(v, n - 1), [CanHandle(n - 1, v)], p);
      ConsultationsOnly(v, n - 1, p);
    }
  }

  /** Calls following a search: the search contributes one `canHandle` call per plugin consulted and nothing else. */
  lemma AfterSearch(v: ContextView, n: nat, tail: seq<Call>)
    ensures Count(Consultations(v, n) + tail, IsCanHandle) == n + Count(tail, IsCanHandle)
    ensures Count(Consultations(v, n) + tail, IsPluginMethod) == Count(tail, IsPluginMethod)
    ensures Count(Consultations(v, n) + tail, IsIndexCall) == Count(tail, IsIndexCall)
    ensures Count(Consultations(v, n) + tail, IsRebuild) == Count(tail, IsRebuild)
  {
    ConsultationsCount(v, n, IsCanHandle);
    ConsultationsOnly(v, n, IsPluginMethod);
    ConsultationsOnly(v, n, IsIndexCall);
    ConsultationsOnly(v, n, IsRebuild);
    CountAppend(Consultations(v, n), tail, IsCanHandle);
    CountAppend(Consultations(v, n), tail, IsPluginMethod);
    CountAppend(Consultations(v, n), tail, IsIndexCall);
    CountAppend(Consultations(v, n), tail, IsRebuild);
  }

  /**
   * A plugin claimed the file: its method runs exactly once and decides the outcome (a throw
   * rejects), with no default index call and no `end()`.
   */
  lemma RunOpClaimed(env: Env, kind: OpKind, vSearch: ContextView, vRun: ContextView)
    requires kind == RenameOp ==> vRun.cmspathTo.Some?
    requires Resolve(env.plugins, vSearch).Claimed?
    ensures var i := Resolve(env.plugins, vSearch).index;
      var (o, c) := RunOp(env, kind, vSearch, vRun);
      && Count(c, IsCanHandle) == i + 1
      && Count(c, IsPluginMethod) == 1 && Count(c, IsIndexCall) == 0 && Count(c, IsRebuild) == 0
      && c[|c| - 1] == PluginCall(i, kind, vRun)
      && o == match PluginAnswer(env.plugins[i], kind, vRun)
              case Returned(b) => Completed(b, None)
              case PluginThrew => Rejected
  {
    var i := Resolve(env.plugins, vSearch).index;
    var tail := [PluginCall(i, kind, vRun)];
    AfterSearch(vSearch, i + 1, tail);
    assert Count(tail, IsPluginMethod) == 1 by { assert tail[1..] == []; }
    assert Count(tail, IsCanHandle) == 0 && Count(tail, IsIndexCall) == 0 && Count(tail, IsRebuild) == 0 by {
      assert tail[1..] == [];
    }
  }

  /**
   * A `canHandle` threw a truthy error: the operation answers `{result:false, cause}` having called
   * nothing but the search.
   */
  lemma RunOpPluginError(env: Env, kind: OpKind, vSearch: ContextView, vRun: ContextView)
    requires kind == RenameOp ==> vRun.cmspathTo.Some?
    requires Resolve(env.plugins, vSearch).PluginError? && Resolve(env.plugins, vSearch).errorTruthy
    ensures var i := Resolve(env.plugins, vSearch).index;
      var (o, c) := RunOp(env, kind, vSearch, vRun);
      && o == Completed(false, Some(PluginValidationFailed))
      && Count(c, IsCanHandle) == |c| == i + 1
      && Count(c, IsPluginMethod) == 0 && Count(c, IsIndexCall) == 0 && Count(c, IsRebuild) == 0
  {
    var i := Resolve(env.plugins, vSearch).index;
    AfterSearch(vSearch, i + 1, []);
    assert Consultations(vSearch, i + 1) + [] == Consultations(vSearch, i + 1);
  }

  /**
   * No plugin claimed the file: every plugin was asked, the default index call runs once, then
   * `end()` (rebuild, then flush) runs once whatever the index call returned, and the outcome is
   * the index call's result.
   */
  lemma RunOpUnclaimed(env: Env, kind: OpKind, vSearch: ContextView, vRun: ContextView)
    requires kind == RenameOp ==> vRun.cmspathTo.Some?
    requires Resolve(env.plugins, vSearch).Unclaimed?
    ensures var (o, c) := RunOp(env, kind, vSearch, vRun);
      && o == Completed(DefaultResult(env, kind, vRun), None)
      && Count(c, IsCanHandle) == |env.plugins|
      && Count(c, IsPluginMethod) == 0 && Count(c, IsIndexCall) == 1 && Count(c, IsRebuild) == 1
      && c[|env.plugins|] == DefaultCall(env, kind, vRun)
      && c[|env.plugins| + 1] == Rebuild(vRun.aiappid)
  {
    var tail := [DefaultCall(env, kind, vRun)] + EndCalls(env, vRun.aiappid);
    var asked := Consultations(vSearch, |env.plugins|);
    assert asked + [DefaultCall(env, kind, vRun)] + EndCalls(env, vRun.aiappid) == asked + tail;
    AfterSearch(vSearch, |env.plugins|, tail);
    assert tail[1..] == EndCalls(env, vRun.aiappid);
    EndCallsCount(env, vRun.aiappid);
  }

  /**
   * A `canHandle` threw a falsy error: the search stopped there, yet the falsy `error` sends the
   * operation down the default path, so the index call and `end()` run and decide the outcome.
   */
  lemma RunOpFalsyError(env: Env, kind: OpKind, vSearch: ContextView, vRun: ContextView)
    requires kind == RenameOp ==> vRun.cmspathTo.Some?
    requires Resolve(env.plugins, vSearch).PluginError? && !Resolve(env.plugins, vSearch).errorTruthy
    ensures var i := Resolve(env.plugins, vSearch).index;
      var (o, c) := RunOp(env, kind, vSearch, vRun);
      && o == Completed(DefaultResult(env, kind, vRun), None)
      && Count(c, IsCanHandle) == i + 1
      && Count(c, IsPluginMethod) == 0 && Count(c, IsIndexCall) == 1 && Count(c, IsRebuild) == 1
      && c[i + 1] == DefaultCall(env, kind, vRun)
      && c[i + 2] == Rebuild(vRun.aiappid)
  {
    var i := Resolve(env.plugins, vSearch).index;
    var tail := [DefaultCall(env, kind, vRun)] + EndCalls(env, vRun.aiappid);
    var asked := Consultations(vSearch, i + 1);
    assert asked + [DefaultCall(env, kind, vRun)] + EndCalls(env, vRun.aiappid) == asked + tail;
    AfterSearch(vSearch, i + 1, tail);
    assert tail[1..] == EndCalls(env, vRun.aiappid);
    EndCallsCount(env, vRun.aiappid);
  }

  /** `end()` rebuilds exactly once and calls nothing else that is counted. */
  lemma EndCallsCount(env: Env, aiappid: string)
    ensures var e := EndCalls(env, aiappid);
      Count(e, IsPluginMethod) == 0 && Count(e, IsIndexCall) == 0 && Count(e, IsRebuild) == 1 && Count(e, IsCanHandle) == 0
  {
    var e := EndCalls(env, aiappid);
    if env.rebuildThrows {
      assert e[1..] == [];
    } else {
      var r, f := [Rebuild(aiappid)], [Flush(aiappid)];
      assert e == r + f && r[1..] == [] && f[1..] == [];
      CountAppend(r, f, IsPluginMethod);
      CountAppend(r, f, IsIndexCall);
      CountAppend(r, f, IsRebuild);
      CountAppend(r, f, IsCanHandle);
    }
  }

  /** A rename consults the plugins on the source context and runs the chosen method with the target set. */
  lemma {:induction false} RenameSearchesSource(env: Env, from: string, to: string, id: string, org: string)
    ensures var (o, c) := RenameSpec(env, from, to, id, org);
      forall i :: 0 <= i < |c| ==>
        && (c[i].CanHandle? ==> c[i].view.filepath == from && c[i].view.filepathTo == None && c[i].view.cmspathTo == None)
        && (c[i].PluginRename? ==> c[i].view.filepath == from && c[i].view.filepathTo == Some(to)
                                   && c[i].view.cmspathTo == Some(env.cmsRelative(to)))
        && (c[i].IndexRename? ==> c[i].cmspathTo == env.cmsRelative(to))
  {
    var vs := NewView(env, from, id, org, None);
    var vr := RenameView(env, from, to, id, org);
    var res := Resolve(env.plugins, vs);
    var asked := Consultations(vs, Consulted(res, |env.plugins|));
    assert forall i :: 0 <= i < |asked| ==> asked[i] == CanHandle(i, vs);
  }

  /** The bracket as three parts: the operation's calls around the PROCESSING publication, then the PROCESSED one. */
  lemma BracketParts(env: Env, o: OpOutcome, opCalls: seq<Call>, fullpath: string, subtype: Subtype,
                     id: string, org: string, k: nat)
    ensures var j := Cut(k, |opCalls|);
      && opCalls == opCalls[..j] + opCalls[j..]
      && Bracket(env, o, opCalls, fullpath, subtype, id, org, k)
         == opCalls[..j] + ([Publish(Processing(env, fullpath, subtype, id, org))] + opCalls[j..]
            + (if o.Completed? then [Publish(Processed(env, fullpath, subtype, id, org, o.result))] else []))
  {
  }

  /** The two publications of a bracket, seen as calls. */
  lemma Markers(env: Env, o: OpOutcome, fullpath: string, subtype: Subtype, id: string, org: string)
    ensures var start := [Publish(Processing(env, fullpath, subtype, id, org))];
      Publications(start) == [Processing(env, fullpath, subtype, id, org)] && Effects(start) == []
    ensures var finish := if o.Completed? then [Publish(Processed(env, fullpath, subtype, id, org, o.result))] else [];
      && Publications(finish) == (if o.Completed? then [Processed(env, fullpath, subtype, id, org, o.result)] else [])
      && Effects(finish) == []
  {
    var start := [Publish(Processing(env, fullpath, subtype, id, org))];
    assert start[1..] == [];
    if o.Completed? {
      var finish := [Publish(Processed(env, fullpath, subtype, id, org, o.result))];
      assert finish[1..] == [];
    }
  }

  /**
   * The bracket around one operation publishes PROCESSING once and, unless the operation rejected,
   * PROCESSED once; everything else it contains is the operation's calls, in order.
   */
  lemma {:induction false} BracketShape(env: Env, o: OpOutcome, opCalls: seq<Call>, fullpath: string, subtype: Subtype,
                                        id: string, org: string, k: nat)
    requires forall i :: 0 <= i < |opCalls| ==> !opCalls[i].Publish?
    ensures var b := Bracket(env, o, opCalls, fullpath, subtype, id, org, k);
      && Effects(b) == opCalls
      && Publications(b) == [Processing(env, fullpath, subtype, id, org)]
           + (if o.Completed? then [Processed(env, fullpath, subtype, id, org, o.result)] else [])
  {
    var j := Cut(k, |opCalls|);
    var pre, post := opCalls[..j], opCalls[j..];
    var start := [Publish(Processing(env, fullpath, subtype, id, org))];
    var finish := if o.Completed? then [Publish(Processed(env, fullpath, subtype, id, org, o.result))] else [];
    var mid := start + post + finish;
    BracketParts(env, o, opCalls, fullpath, subtype, id, org, k);
    NoPublications(pre);
    NoPublications(post);
    Markers(env, o, fullpath, subtype, id, org);
    FilterAppend(start, post);
    FilterAppend(start + post, finish);
    FilterAppend(pre, mid);
    assert Effects(mid) == post;
    assert Publications(mid) == Publications(start) + Publications(finish);
  }

  /** When the operation completed, its PROCESSED publication is the bracket's last call. */
  lemma ProcessedLast(env: Env, o: OpOutcome, opCalls: seq<Call>, fullpath: string, subtype: Subtype,
                      id: string, org: string, k: nat)
    requires o.Completed?
    ensures var b := Bracket(env, o, opCalls, fullpath, subtype, id, org, k);
      b[|b| - 1] == Publish(Processed(env, fullpath, subtype, id, org, o.result))
  {
  }

  /**
   * Create, delete and rename events: the calls made are exactly the operation's, plus one
   * PROCESSING publication and, unless the operation rejected, one PROCESSED publication carrying
   * its result, as the last call.
   */
  lemma {:induction false} HandleSingle(env: Env, msg: FileMessage, k: nat)
    requires Dispatch(msg).Some? && !Dispatch(msg).value.Modify?
    ensures var op := Dispatch(msg).value;
      var (o, c) := Published(env, msg, op);
      var calls := Handle(env, msg, k);
      && Effects(calls) == c
      && Publications(calls) == [Processing(env, ReportedPath(op), SubtypeOf(op), msg.id, msg.org)]
           + (if o.Completed? then [Processed(env, ReportedPath(op), SubtypeOf(op), msg.id, msg.org, o.result)] else [])
      && (o.Completed? ==> calls[|calls| - 1] == Publish(Processed(env, ReportedPath(op), SubtypeOf(op), msg.id, msg.org, o.result)))
  {
    var op := Dispatch(msg).value;
    var (o, c) := Published(env, msg, op);
    BracketShape(env, o, c, ReportedPath(op), SubtypeOf(op), msg.id, msg.org, k);
  }

  /**
   * Modify events: the whole uningest runs first and publishes nothing; if it rejects nothing else
   * happens, otherwise the ingest follows, bracketed like a create under the subtype MODIFIED.
   */
  lemma {:induction false} HandleModify(env: Env, msg: FileMessage, k: nat)
    requires Dispatch(msg).Some? && Dispatch(msg).value.Modify?
    ensures var p := Dispatch(msg).value.path;
      var (u, uc) := Prelude(env, msg, p);
      var (o, c) := Published(env, msg, Modify(p));
      var calls := Handle(env, msg, k);
      && Publications(uc) == []
      && calls[..|uc|] == uc
      && (u.Rejected? ==> calls == uc)
      && (u.Completed? ==>
            && Effects(calls) == uc + c
            && Publications(calls) == [Processing(env, p, Modified, msg.id, msg.org)]
                 + (if o.Completed? then [Processed(env, p, Modified, msg.id, msg.org, o.result)] else [])
            && (o.Completed? ==> calls[|calls| - 1] == Publish(Processed(env, p, Modified, msg.id, msg.org, o.result))))
  {
    var p := Dispatch(msg).value.path;
    var (u, uc) := Prelude(env, msg, p);
    var (o, c) := Published(env, msg, Modify(p));
    NoPublications(uc);
    if u.Completed? {
      var b := Bracket(env, o, c, p, Modified, msg.id, msg.org, k);
      BracketShape(env, o, c, p, Modified, msg.id, msg.org, k);
      FilterAppend(uc, b);
      assert (uc + b)[..|uc|] == uc;
    }
  }

  // ---------------------------------------------------------------------------------------------
  // Repository requests made on behalf of a context
  // ---------------------------------------------------------------------------------------------

  /** A move request to the XBin repository API; `noAiEvent` suppresses the rename event it would raise. */
  datatype RepositoryRequest = MoveRequest(id: string, org: string, cmspathFrom: string, cmspathTo: string, noAiEvent: bool)

  /** `renameFileFromCMSRepository` ignores the caller's flag and always suppresses the rename event. */
  function RenameFileFromCMSRepository(id: string, org: string, from: string, to: string, noaievent: bool): (r: RepositoryRequest)
    ensures r.noAiEvent
    ensures r.cmspathFrom == from && r.cmspathTo == to
  {
    MoveRequest(id, org, from, to, true)
  }

  // ---------------------------------------------------------------------------------------------
  // The imperative controller
  // ---------------------------------------------------------------------------------------------

  /** The calls made so far, shared by the controller and every context it builds. */
  class CallLog {
    var calls: seq<Call>

    constructor ()
      ensures calls == []
    {
      calls := [];
    }

    method Record(c: Call)
      modifies this
      ensures calls == old(calls) + [c]
    {
      calls := calls + [c];
    }

    /** A call that the scheduler ran before some calls already recorded from position `at` on. */
    method RecordAt(at: nat, c: Call)
      requires at <= |calls|
      modifies this
      ensures calls == old(calls)[..at] + [c] + old(calls)[at..]
    {
      calls := calls[..at] + [c] + calls[at..];
    }
  }

  /** The per-file context of `_getFileIndexer`; only the rename target is set after construction. */
  class FileContext {
    const filepath: string
    const cmspath: string
    const id: string
    const org: string
    const lang: Option<string>
    const aiappid: string
    var filepathTo: Option<string>
    var cmspathTo: Option<string>
    const env: Env
    const log: CallLog

    constructor (filepath: string, cmspath: string, id: string, org: string, lang: Option<string>, env: Env, log: CallLog)
      ensures View() == ContextView(filepath, cmspath, id, org, lang, env.appId, None, None)
      ensures this.env == env && this.log == log
    {
      this.filepath, this.cmspath, this.id, this.org, this.lang := filepath, cmspath, id, org, lang;
      this.aiappid := env.appId;
      this.filepathTo, this.cmspathTo := None, None;
      this.env, this.log := env, log;
    }

    function View(): ContextView
      reads this
    {
      ContextView(filepath, cmspath, id, org, lang, aiappid, filepathTo, cmspathTo)
    }

    /** `end`: rebuild then flush; flush is skipped when rebuild throws; true only when both succeed. */
    method End() returns (ok: bool)
      modifies log
      ensures ok == (!env.rebuildThrows && !env.flushThrows)
      ensures log.calls == old(log.calls) + EndCalls(env, aiappid)
    {
      log.Record(Rebuild(aiappid));
      if env.rebuildThrows {
        return false;
      }
      log.Record(Flush(aiappid));
      ok := !env.flushThrows;
    }

    /** `addFileToAI`: TRUE_RESULT iff the index's ingest resolved with a truthy `result`, else FALSE_RESULT. */
    method AddFileToAI() returns (r: OpOutcome)
      modifies log
      ensures r == Completed(DefaultResult(env, IngestOp, View()), None)
      ensures log.calls == old(log.calls) + [DefaultCall(env, IngestOp, View())]
    {
      var fullPath := env.cmsFull(cmspath);
      log.Record(IndexIngest(fullPath, cmspath, lang));
      var reply := env.ingestReply(fullPath, cmspath);
      r := if reply.IndexResult? && reply.result then Completed(true, None) else Completed(false, None);
    }

    /** `removeFileFromAI`: TRUE_RESULT iff the index's uningest resolved with a truthy `result`. */
    method RemoveFileFromAI() returns (r: OpOutcome)
      modifies log
      ensures r == Completed(DefaultResult(env, UningestOp, View()), None)
      ensures log.calls == old(log.calls) + [DefaultCall(env, UningestOp, View())]
    {
      var fullPath := env.cmsFull(cmspath);
      log.Record(IndexUningest(fullPath));
      var reply := env.uningestReply(fullPath);
      r := if reply.IndexResult? && reply.result then Completed(true, None) else Completed(false, None);
    }

    /** `renameFileToAI(cmspath, cmspathTo)`: TRUE_RESULT iff the index's rename resolved with a truthy `result`. */
    method RenameFileToAI(cmsPathFrom: string, cmsPathTo: string) returns (r: OpOutcome)
      modifies log
      ensures r == Completed(env.renameReply(env.cmsFull(cmsPathFrom), env.cmsFull(cmsPathTo), cmsPathTo) == IndexResult(true), None)
      ensures log.calls == old(log.calls) + [IndexRename(env.cmsFull(cmsPathFrom), env.cmsFull(cmsPathTo), cmsPathTo)]
    {
      var fullPathFrom := env.cmsFull(cmsPathFrom);
      var fullPathTo := env.cmsFull(cmsPathTo);
      log.Record(IndexRename(fullPathFrom, fullPathTo, cmsPathTo));
      var reply := env.renameReply(fullPathFrom, fullPathTo, cmsPathTo);
      r := if reply.IndexResult? && reply.result then Completed(true, None) else Completed(false, None);
    }
  }

  /** The file indexer: its configuration and the log its calls go to. */
  class Indexer {
    const env: Env
    const log: CallLog

    constructor (env: Env, log: CallLog)
      ensures this.env == env && this.log == log
    {
      this.env, this.log := env, log;
    }

    /** `_searchForFilePlugin`: asks the plugins in order, stopping at the first that claims or throws. */
    method SearchForFilePlugin(ctx: FileContext) returns (r: Resolution)
      modifies log
      ensures r == Resolve(env.plugins, ctx.View())
      ensures log.calls == old(log.calls) + Consultations(ctx.View(), Consulted(r, |env.plugins|))
    {
      var v := ctx.View();
      var i := 0;
      while i < |env.plugins|
        invariant 0 <= i <= |env.plugins|
        invariant ResolveFrom(env.plugins, v, i) == Resolve(env.plugins, v)
        invariant log.calls == old(log.calls) + Consultations(v, i)
      {
        log.Record(CanHandle(i, v));
        assert Consultations(v, i + 1) == Consultations(v, i) + [CanHandle(i, v)];
        var verdict := env.plugins[i].canHandle(v);
        if verdict == Claims {
          return Claimed(i);
        }
        if verdict.Throws? {
          return PluginError(i, verdict.errorTruthy);
        }
        i := i + 1;
      }
      return Unclaimed;
    }

    /** Runs the claiming plugin's method or the default path on a context whose search came out `res`. */
    method Complete(ctx: FileContext, kind: OpKind, res: Resolution) returns (r: OpOutcome)
      requires ctx.log == log && ctx.env == env
      requires res == Resolve(env.plugins, ctx.View())
      requires kind == RenameOp ==> ctx.cmspathTo.Some?
      modifies log
      ensures var (o, c) := RunOp(env, kind, ctx.View(), ctx.View());
        r == o && log.calls == old(log.calls) + c[Consulted(res, |env.plugins|)..]
    {
      var v := ctx.View();
      ghost var asked := Consultations(v, Consulted(res, |env.plugins|));
      match res {
        case Claimed(i) =>
          log.Record(PluginCall(i, kind, v));
          var reply := PluginAnswer(env.plugins[i], kind, v);
          r := if reply.Returned? then Completed(reply.value, None) else Rejected;
          assert (asked + [PluginCall(i, kind, v)])[|asked|..] == [PluginCall(i, kind, v)];
        case PluginError(_, true) =>
          r := Completed(false, Some(PluginValidationFailed));
          assert asked[|asked|..] == [];
        case _ =>
          match kind {
            case IngestOp => r := ctx.AddFileToAI();
            case UningestOp => r := ctx.RemoveFileFromAI();
            case RenameOp => r := ctx.RenameFileToAI(ctx.cmspath, ctx.cmspathTo.value);
          }
          var _ := ctx.End();
          ghost var tail := [DefaultCall(env, kind, v)] + EndCalls(env, v.aiappid);
          assert asked + [DefaultCall(env, kind, v)] + EndCalls(env, v.aiappid) == asked + tail;
          assert (asked + tail)[|asked|..] == tail;
      }
    }

    /** `_ingestfile`. */
    method IngestFile(pathIn: string, id: string, org: string, lang: Option<string>) returns (r: OpOutcome)
      modifies log
      ensures r == IngestSpec(env, pathIn, id, org, lang).0
      ensures log.calls == old(log.calls) + IngestSpec(env, pathIn, id, org, lang).1
    {
      var ctx := new FileContext(pathIn, env.cmsRelative(pathIn), id, org, lang, env, log);
      var res := SearchForFilePlugin(ctx);
      r := Complete(ctx, IngestOp, res);
    }

    /** `_uningestfile`. */
    method UningestFile(pathIn: string, id: string, org: string) returns (r: OpOutcome)
      modifies log
      ensures r == UningestSpec(env, pathIn, id, org).0
      ensures log.calls == old(log.calls) + UningestSpec(env, pathIn, id, org).1
    {
      var ctx := new FileContext(pathIn, env.cmsRelative(pathIn), id, org, None, env, log);
      var res := SearchForFilePlugin(ctx);
      r := Complete(ctx, UningestOp, res);
    }

    /** `_renamefile`: the plugins are searched on the source context, then its target fields are set. */
    method RenameFile(from: string, to: string, id: string, org: string) returns (r: OpOutcome)
      modifies log
      ensures r == RenameSpec(env, from, to, id, org).0
      ensures log.calls == old(log.calls) + RenameSpec(env, from, to, id, org).1
    {
      var cmspathTo := env.cmsRelative(to);
      var ctx := new FileContext(from, env.cmsRelative(from), id, org, None, env, log);
      var res := SearchForFilePlugin(ctx);
      ctx.filepathTo, ctx.cmspathTo := Some(to), Some(cmspathTo);
      assert ctx.View() == RenameView(env, from, to, id, org);
      r := CompleteRename(ctx, res);
    }

    /** The rest of `_renamefile` once the target is set: the search was made before, on the source context. */
    method CompleteRename(ctx: FileContext, res: Resolution) returns (r: OpOutcome)
      requires ctx.log == log && ctx.env == env && ctx.cmspathTo.Some? && ctx.filepathTo.Some?
      requires res == Resolve(env.plugins, ctx.View().(filepathTo := None, cmspathTo := None))
      modifies log
      ensures var vs := ctx.View().(filepathTo := None, cmspathTo := None);
        var (o, c) := RunOp(env, RenameOp, vs, ctx.View());
        r == o && log.calls == old(log.calls) + c[Consulted(res, |env.plugins|)..]
    {
      var v := ctx.View();
      ghost var asked := Consultations(v.(filepathTo := None, cmspathTo := None), Consulted(res, |env.plugins|));
      match res {
        case Claimed(i) =>
          log.Record(PluginRename(i, v));
          var reply := env.plugins[i].rename(v);
          r := if reply.Returned? then Completed(reply.value, None) else Rejected;
          assert (asked + [PluginRename(i, v)])[|asked|..] == [PluginRename(i, v)];
        case PluginError(_, true) =>
          r := Completed(false, Some(PluginValidationFailed));
          assert asked[|asked|..] == [];
        case _ =>
          r := ctx.RenameFileToAI(ctx.cmspath, ctx.cmspathTo.value);
          var _ := ctx.End();
          ghost var tail := [DefaultCall(env, RenameOp, v)] + EndCalls(env, v.aiappid);
          assert asked + [DefaultCall(env, RenameOp, v)] + EndCalls(env, v.aiappid) == asked + tail;
          assert (asked + tail)[|asked|..] == tail;
      }
    }

    /**
     * `awaitPromisePublishFileEvent`, applied after the operation's calls from position `start` on
     * were made: PROCESSING goes in after the first `k` of them, PROCESSED at the end unless the
     * operation rejected.
     */
    method PublishAround(start: nat, outcome: OpOutcome, fullpath: string, subtype: Subtype, id: string, org: string, k: nat)
      requires start <= |log.calls|
      modifies log
      ensures log.calls == old(log.calls)[..start]
        + Bracket(env, outcome, old(log.calls)[start..], fullpath, subtype, id, org, k)
    {
      ghost var opCalls := log.calls[start..];
      var j := Cut(k, |log.calls| - start);
      log.RecordAt(start + j, Publish(Processing(env, fullpath, subtype, id, org)));
      assert log.calls == old(log.calls)[..start] + (opCalls[..j] + [Publish(Processing(env, fullpath, subtype, id, org))] + opCalls[j..]);
      if outcome.Completed? {
        log.Record(Publish(Processed(env, fullpath, subtype, id, org, outcome.result)));
      }
    }

    /** `_handleFileEvent`, with the scheduler letting `k` of the operation's calls run before PROCESSING. */
    method HandleFileEvent(msg: FileMessage, k: nat)
      modifies log
      ensures log.calls == old(log.calls) + Handle(env, msg, k)
    {
      var start := |log.calls|;
      match Dispatch(msg) {
        case None =>
        case Some(Ingest(p)) =>
          var r := IngestFile(env.resolve(p), msg.id, msg.org, msg.lang);
          PublishAround(start, r, p, Ingested, msg.id, msg.org, k);
        case Some(Uningest(p)) =>
          var r := UningestFile(env.resolve(p), msg.id, msg.org);
          PublishAround(start, r, p, Uningested, msg.id, msg.org, k);
        case Some(Rename(f, t)) =>
          var r := RenameFile(env.resolve(f), env.resolve(t), msg.id, msg.org);
          PublishAround(start, r, t, Renamed, msg.id, msg.org, k);
        case Some(Modify(p)) =>
          var u := UningestFile(env.resolve(p), msg.id, msg.org);
          if u.Completed? {
            var mid := |log.calls|;
            var r := IngestFile(env.resolve(p), msg.id, msg.org, msg.lang);
            PublishAround(mid, r, p, Modified, msg.id, msg.org, k);
          }
      }
    }
  }
}

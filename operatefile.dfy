/**
 * The XBin file-operation API (`operatefile`): read a file's extracted text, write it, or update
 * its comment. A successful write announces the change with a FILE_MODIFIED event on the XBin
 * topic, which is what brings the file back through the lifecycle controller.
 *
 * The CMS, the extractor, the upload helpers and the bus are the `Env`; what the handler asks of
 * them that changes something is returned as a list of `Effect`s.
 */
module OperateFile {
  import opened Optional
  import opened JsString
  import opened Messages

  /** The request fields the handler reads; absent fields are `None`. */
  datatype Request = Request(path: Option<string>, op: Option<string>, data: Option<string>,
                             comment: Option<string>, isDisabled: bool)

  /** JavaScript truthiness of an optional string. */
  predicate Truthy(s: Option<string>) {
    s.Some? && s.value != ""
  }

  /** `validateRequest`. */
  predicate ValidRequest(req: Request) {
    && Truthy(req.path)
    && (|| !Truthy(req.op)
        || req.op == Some("read")
        || (req.op == Some("write") && Truthy(req.data))
        || (req.op == Some("updatecomment") && Truthy(req.comment)))
  }

  /** The operation performed: the request's, or `read` when it names none. */
  function OpOf(req: Request): (op: string)
    ensures ValidRequest(req) ==> op == "read" || op == "write" || op == "updatecomment"
    ensures !Truthy(req.op) ==> op == "read"
    ensures Truthy(req.op) ==> op == req.op.value
  {
    if Truthy(req.op) then req.op.value else "read"
  }

  /**
   * The collaborators: the CMS path resolution and text extraction (`None` when they throw),
   * whether the upload helpers resolve without throwing (the value they resolve to is ignored, so a
   * helper that resolves with a failure result still counts as a success), and the caller's `id`
   * and `org` from the headers.
   */
  datatype Env = Env(fullPath: string -> Option<string>, content: string -> Option<string>,
                     writeSucceeds: (string, string) -> bool, updateSucceeds: (string, string) -> bool,
                     id: string, org: string)

  datatype Effect = WriteFile(path: string, data: string) | Published(message: FileMessage) | CommentUpdated(path: string, comment: string)

  /** FALSE_RESULT, or TRUE_RESULT with the text read when there is one. */
  datatype Response = FalseResult | TrueResult(data: Option<string>)

  /** The FILE_MODIFIED event a write publishes for the file's full path. */
  function ModifiedEvent(fullpath: string, id: string, org: string): (m: FileMessage)
    ensures m.mtype == XbinEvent(FileModified) && m.path == Some(fullpath) && !m.isDirectory
  {
    FileMessage(XbinEvent(FileModified), Some(fullpath), None, None, false, id, org, None)
  }

  /** `doService`. */
  method DoService(req: Request, env: Env) returns (resp: Response, effects: seq<Effect>)
    ensures !ValidRequest(req) ==> resp == FalseResult && effects == []
    ensures ValidRequest(req) && OpOf(req) == "write" && req.isDisabled ==> resp == TrueResult(None) && effects == []
    ensures ValidRequest(req) && OpOf(req) == "read" ==>
      && effects == []
      && resp == (match env.fullPath(req.path.value)
                  case None => FalseResult
                  case Some(fp) => if env.content(fp).Some? then TrueResult(Some(Trim(env.content(fp).value))) else FalseResult)
    ensures ValidRequest(req) && OpOf(req) == "write" && !req.isDisabled ==>
      match env.fullPath(req.path.value)
      case None => resp == FalseResult && effects == []
      case Some(fp) =>
        if env.writeSucceeds(req.path.value, req.data.value)
        then resp == TrueResult(None)
             && effects == [WriteFile(req.path.value, req.data.value), Published(ModifiedEvent(fp, env.id, env.org))]
        else resp == FalseResult && effects == [WriteFile(req.path.value, req.data.value)]
    ensures ValidRequest(req) && OpOf(req) == "updatecomment" ==>
      && (env.fullPath(req.path.value).Some? ==> effects == [CommentUpdated(req.path.value, req.comment.value)])
      && (env.fullPath(req.path.value).None? ==> effects == [])
      && (resp.TrueResult? <==> env.fullPath(req.path.value).Some? && env.updateSucceeds(req.path.value, req.comment.value))
    ensures forall i :: 0 <= i < |effects| && effects[i].Published? ==> i > 0 && effects[i - 1].WriteFile?
  {
    if !(Truthy(req.path) && (!Truthy(req.op) || req.op == Some("read") || (req.op == Some("write") && Truthy(req.data))
                              || (req.op == Some("updatecomment") && Truthy(req.comment)))) {
      return FalseResult, [];
    }
    var op := if Truthy(req.op) then req.op.value else "read";
    if op == "write" && req.isDisabled {
      return TrueResult(None), [];
    }
    effects := [];
    var fullpath := env.fullPath(req.path.value);
    if fullpath.None? {
      return FalseResult, effects;
    }
    resp := TrueResult(None);
    if op == "read" {
      var text := env.content(fullpath.value);
      if text.None? {
        return FalseResult, effects;
      }
      resp := TrueResult(Some(Trim(text.value)));
    } else if op == "write" {
      effects := effects + [WriteFile(req.path.value, req.data.value)];
      if !env.writeSucceeds(req.path.value, req.data.value) {
        return FalseResult, effects;
      }
      effects := effects + [Published(ModifiedEvent(fullpath.value, env.id, env.org))];
    } else if op == "updatecomment" {
      effects := effects + [CommentUpdated(req.path.value, req.comment.value)];
      if !env.updateSucceeds(req.path.value, req.comment.value) {
        return FalseResult, effects;
      }
    }
  }
}

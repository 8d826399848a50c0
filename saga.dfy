/**
 * The two-step remote operation that issues a link: create a share of the
 * folder for the user, then rename the shared folder. Each call is made
 * once; a failed share is never followed by a rename, and a failed rename
 * does not undo the share.
 */
module Saga {

  import opened Output

  /**
   * What the storage service answers, given up front: the user id in the
   * user's access token, whether the share was created, whether the rename
   * answered a status of exactly `true`, and the content of the rename
   * answer (the link on success, the failure detail otherwise).
   */
  datatype Remote = Remote(remoteUser: string, shareOk: bool, renameOk: bool, renameContent: string)

  /** How the two calls ended. */
  datatype ProvisionOutcome = Shared(link: string) | ShareFailed | RenameFailed(detail: string)

  function Provision(r: Remote): ProvisionOutcome {
    if !r.shareOk then ShareFailed
    else if r.renameOk then Shared(r.renameContent)
    else RenameFailed(r.renameContent)
  }

  /** The calls made on the storage service, in order. */
  function Calls(sharePath: string, finalPath: string, newName: nat, r: Remote): (calls: seq<Action>)
  {
    [RequestToken, CreateShare(sharePath, r.remoteUser)] + if r.shareOk then [Rename(finalPath, newName)] else []
  }

  /**
   * What is reported for an outcome: the link and the link-generated event
   * on success, the 'shared' or the 'renamed' error otherwise. A failed
   * share hands over a falsy status, which prints as the empty string.
   */
  function Report(o: ProvisionOutcome, objectId: nat): seq<Action> {
    match o
    case Shared(link) => [RenderLink(link, AccessLink), LinkGenerated(objectId)]
    case ShareFailed => [RenderError(SharedError, "")]
    case RenameFailed(detail) => [RenderError(RenamedError, detail)]
  }

  /**
   * The whole operation for course module `id` of instance `instanceId`:
   * the folder at `sharePath` is shared, then renamed at `finalPath` with
   * the course-module id as the new name.
   */
  function Run(sharePath: string, finalPath: string, id: nat, instanceId: nat, r: Remote): (acts: seq<Action>)
  {
    Calls(sharePath, finalPath, id, r) + Report(Provision(r), instanceId)
  }

  /**
   * Channel by channel: the share is always attempted and the rename only
   * after it succeeded; the link and exactly one link-generated event
   * appear only when both calls succeeded; each failure is reported as its
   * own error; nothing else is rendered.
   */
  lemma {:induction false} RunChannels(sharePath: string, finalPath: string, id: nat, instanceId: nat, r: Remote, c: Channel)
    ensures On(Run(sharePath, finalPath, id, instanceId, r), c) ==
      match c
      case RemoteCalls =>
        [RequestToken, CreateShare(sharePath, r.remoteUser)] + (if r.shareOk then [Rename(finalPath, id)] else [])
      case Errors =>
        if !r.shareOk then [RenderError(SharedError, "")]
        else if !r.renameOk then [RenderError(RenamedError, r.renameContent)]
        else []
      case Events => if r.shareOk && r.renameOk then [LinkGenerated(instanceId)] else []
      case AccessLinks => if r.shareOk && r.renameOk then [RenderLink(r.renameContent, AccessLink)] else []
      case _ => []
  {
    CallsChannels(sharePath, finalPath, id, r, c);
    ReportChannels(Provision(r), instanceId, c);
    OnAppend(Calls(sharePath, finalPath, id, r), Report(Provision(r), instanceId), c);
  }

  lemma CallsChannels(sharePath: string, finalPath: string, id: nat, r: Remote, c: Channel)
    ensures On(Calls(sharePath, finalPath, id, r), c) ==
      if c != RemoteCalls then []
      else [RequestToken, CreateShare(sharePath, r.remoteUser)] + (if r.shareOk then [Rename(finalPath, id)] else [])
  {
    var token, share, rename := RequestToken, CreateShare(sharePath, r.remoteUser), Rename(finalPath, id);
    var tail := if r.shareOk then [rename] else [];
    assert Calls(sharePath, finalPath, id, r) == [token] + [share] + tail;
    OnSingle(token, c);
    OnSingle(share, c);
    OnSingle(rename, c);
    OnAppend([token], [share], c);
    OnAppend([token] + [share], tail, c);
    if c == RemoteCalls {
      assert On(tail, c) == tail;
    } else {
      assert On(tail, c) == [];
    }
  }

  lemma ReportChannels(o: ProvisionOutcome, objectId: nat, c: Channel)
    ensures On(Report(o, objectId), c) ==
      match o
      case Shared(link) =>
        if c == AccessLinks then [RenderLink(link, AccessLink)]
        else if c == Events then [LinkGenerated(objectId)]
        else []
      case ShareFailed => if c == Errors then [RenderError(SharedError, "")] else []
      case RenameFailed(detail) => if c == Errors then [RenderError(RenamedError, detail)] else []
  {
    match o
    case Shared(link) => SharedReport(link, objectId, c);
    case ShareFailed => OnSingle(RenderError(SharedError, ""), c);
    case RenameFailed(detail) => OnSingle(RenderError(RenamedError, detail), c);
  }

  lemma SharedReport(link: string, objectId: nat, c: Channel)
    ensures On([RenderLink(link, AccessLink), LinkGenerated(objectId)], c) ==
      if c == AccessLinks then [RenderLink(link, AccessLink)]
      else if c == Events then [LinkGenerated(objectId)]
      else []
  {
    var shown, event := RenderLink(link, AccessLink), LinkGenerated(objectId);
    assert [shown, event] == [shown] + [event];
    OnSingle(shown, c);
    OnSingle(event, c);
    OnAppend([shown], [event], c);
  }
}

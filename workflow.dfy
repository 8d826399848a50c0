/**
 * One request of the activity page, from the permission check to the
 * final display choice. `Respond` states what a request does as a value;
 * `View` performs it step by step on the user's preference store.
 */
module Workflow {

  import opened Wrappers
  import opened Decimal
  import opened Preferences
  import opened Provisioning
  import opened Paths
  import opened Access
  import opened Output
  import opened Saga

  /**
   * Everything a request depends on. `id` is the course-module id of the
   * request, `instanceId` the activity instance behind it; the flags and
   * values below stand for the platform look-ups and the storage-service
   * answers the page obtains.
   */
  datatype Request = Request(
    id: nat,
    instanceId: nat,
    canView: bool,                  // capability mod/collaborativefolders:view
    canAddInstance: bool,           // capability mod/collaborativefolders:addinstance
    teacherAllowed: bool,           // the instance's teacher setting
    groupMode: nat,                 // activity group mode; 0 is no groups
    activityGroup: nat,             // the user's activity group; 0 when none
    pendingCreateCmids: seq<int>,   // course-module ids of the pending folder-creation tasks
    reset: bool,
    logout: bool,
    generate: bool,
    submittedName: Option<string>,  // the name of a submitted name form
    remote: Remote,
    loggedIn: bool,                 // the user holds a storage-service token
    loginUrl: string,
    selfUrl: string)                // the address of the current page

  datatype Response = Response(actions: seq<Action>, prefs: map<string, string>)

  /** The request gets past the permission check, the reset and the logout. */
  predicate Proceeds(req: Request) {
    req.canView && !req.reset && !req.logout
  }

  /** The store once a submitted name has been saved. */
  function NamedPrefs(prefs: map<string, string>, req: Request): map<string, string> {
    if req.submittedName.Some? then Updated(prefs, NameKey(req.id), req.submittedName) else prefs
  }

  /** No pending folder-creation task names the course module. */
  predicate Created(req: Request) {
    req.id !in req.pendingCreateCmids
  }

  /** The values the page decides on, named after its variables. */
  datatype Decisions = Decisions(
    foldersCreated: bool,           // $folderscreated
    gm: bool,                       // $gm
    showTable: bool,                // $showtable
    hasAccess: bool,                // $hasaccess
    privateLink: Option<string>,    // $privatelink
    hasLink: bool,                  // $haslink
    name: Option<string>,           // $name
    canGenerate: bool,              // $cangenerate
    generate: bool,                 // $generate, once the generation step is over
    noLink: bool,                   // $nolink
    sharePath: string,              // $sharepath
    finalPath: string)              // $finalpath

  /** The decisions of a request that reads the store `prefs`. */
  function Decide(prefs: map<string, string>, req: Request): Decisions {
    var created := Created(req);
    var gm := req.groupMode != 0;
    var access := HasAccess(req.canAddInstance, req.teacherAllowed, created);
    var link := Lookup(prefs, LinkKey(req.id));
    var hasLink := HasLink(link, access);
    var name := Lookup(prefs, NameKey(req.id));
    var canGenerate := CanGenerate(hasLink, req.generate);
    var generate := if canGenerate && IsNullish(name) then false else req.generate;
    var group := EffectiveGroup(req.groupMode, req.activityGroup);
    Decisions(created, gm, ShowTable(created, req.canAddInstance, gm), access, link, hasLink, name,
              canGenerate, generate, NoLink(generate, hasLink), SharePath(req.id, group), FinalPath(req.id, group))
  }

  /** The decisions of request `req` on the store `prefs` it starts from, once a submitted name is saved. */
  function Decided(prefs: map<string, string>, req: Request): Decisions {
    Decide(NamedPrefs(prefs, req), req)
  }

  /** The remote operation runs: generation may start and there is a name to generate with. */
  predicate Generating(d: Decisions) {
    d.canGenerate && !IsNullish(d.name)
  }

  /** The no-link display: name, reset, login or logout, generate; or the name form. */
  function Choice(name: Option<string>, req: Request): seq<Action> {
    if IsNullish(name) then [NameForm]
    else
      [NameAndReset(name.value, req.selfUrl + "&reset=1")]
      + (if req.loggedIn then [RenderLink(req.selfUrl + "&logout=1", LogoutLink)] else [LoginLink(req.loginUrl)])
      + [RenderLink(req.selfUrl + "&generate=1", GenerateLink)]
  }

  /** The page produced from the decisions `d`. */
  function Page(d: Decisions, req: Request): seq<Action> {
    (if !d.foldersCreated then [FoldersNotCreated] else [])
    + (if d.showTable then [GroupTable] else [])
    + (if d.hasLink then [RenderLink(d.privateLink.GetOr(""), AccessLink)] else [])
    + (if Generating(d) then Run(d.sharePath, d.finalPath, req.id, req.instanceId, req.remote) else [])
    + (if d.noLink then Choice(d.name, req) else [])
    + [ModuleViewed(req.instanceId)]
  }

  /** A whole request: what it does and the store it leaves. */
  function Respond(prefs: map<string, string>, req: Request): Response {
    if !req.canView then Response([NoViewPermission], prefs)
    else if req.reset then Response([Redirect(req.selfUrl, ResetPressed)], Updated(prefs, NameKey(req.id), None))
    else if req.logout then Response([RemoteLogout, Redirect(req.selfUrl, LogoutPressed)], prefs)
    else Response(Page(Decided(prefs, req), req), NamedPrefs(prefs, req))
  }

  /** The page request, performed on the user's preference store. */
  method View(store: PreferenceStore, req: Request) returns (actions: seq<Action>)
    modifies store
    ensures Response(actions, store.prefs) == Respond(old(store.prefs), req)
  {
    if !req.canView {
      return [NoViewPermission];
    }
    if req.reset {
      store.Set(NameKey(req.id), None);
      return [Redirect(req.selfUrl, ResetPressed)];
    }
    if req.logout {
      return [RemoteLogout, Redirect(req.selfUrl, LogoutPressed)];
    }
    if req.submittedName.Some? {
      store.Set(NameKey(req.id), req.submittedName);
    }
    actions := Render(store, req);
  }

  /** The page from the folder check on, reading the store as it is now. */
  method Render(store: PreferenceStore, req: Request) returns (actions: seq<Action>)
    ensures actions == Page(Decide(store.prefs, req), req)
  {
    ghost var d := Decide(store.prefs, req);
    var hasLink, sharePath, finalPath;
    actions, hasLink, sharePath, finalPath := Opening(store, req);

    var name := store.Get(NameKey(req.id));
    var generate := req.generate;
    var canGenerate := CanGenerate(hasLink, generate);
    ghost var before := actions;
    if canGenerate {
      if IsNullish(name) {
        generate := false;
      } else {
        var steps := ShareAndRename(sharePath, finalPath, req.id, req.instanceId, req.remote);
        actions := actions + steps;
      }
    }
    assert actions == before + if Generating(d) then Run(d.sharePath, d.finalPath, req.id, req.instanceId, req.remote) else [];
    assert generate == d.generate;

    var noLink := NoLink(generate, hasLink);
    before := actions;
    if noLink {
      actions := actions + Choice(name, req);
    }
    assert actions == before + if d.noLink then Choice(d.name, req) else [];
    actions := actions + [ModuleViewed(req.instanceId)];
  }

  /**
   * The page up to the generation step: the paths, the folder scan and its
   * notice, the group overview, the access law and the stored link.
   */
  method Opening(store: PreferenceStore, req: Request)
    returns (actions: seq<Action>, hasLink: bool, sharePath: string, finalPath: string)
    ensures var d := Decide(store.prefs, req);
      && actions == (if !d.foldersCreated then [FoldersNotCreated] else [])
                    + (if d.showTable then [GroupTable] else [])
                    + (if d.hasLink then [RenderLink(d.privateLink.GetOr(""), AccessLink)] else [])
      && hasLink == d.hasLink && sharePath == d.sharePath && finalPath == d.finalPath
  {
    ghost var d := Decide(store.prefs, req);
    var teacherAllowed := req.teacherAllowed;
    var gm, ingroup;
    gm, ingroup, sharePath, finalPath := ResolvePaths(req.id, req.groupMode, req.activityGroup);
    var foldersCreated := FoldersCreated(req.pendingCreateCmids, req.id);
    assert gm == d.gm && foldersCreated == d.foldersCreated;

    actions := [];
    if !foldersCreated {
      actions := actions + [FoldersNotCreated];
    }
    var showTable := ShowTable(foldersCreated, req.canAddInstance, gm);
    ghost var before := actions;
    if showTable {
      actions := actions + [GroupTable];
    }
    assert actions == before + if d.showTable then [GroupTable] else [];

    var hasAccess := HasAccess(req.canAddInstance, teacherAllowed, foldersCreated);
    var privateLink := store.Get(LinkKey(req.id));
    hasLink := HasLink(privateLink, hasAccess);
    before := actions;
    if hasLink {
      actions := actions + [RenderLink(privateLink.value, AccessLink)];
    }
    assert hasLink == d.hasLink && privateLink == d.privateLink;
    assert actions == before + if d.hasLink then [RenderLink(d.privateLink.GetOr(""), AccessLink)] else [];
  }

  /** The share, then the rename once the share succeeded, and the report of the outcome. */
  method ShareAndRename(sharePath: string, finalPath: string, id: nat, instanceId: nat, remote: Remote)
    returns (actions: seq<Action>)
    ensures actions == Run(sharePath, finalPath, id, instanceId, remote)
  {
    var user := remote.remoteUser;
    actions := [RequestToken, CreateShare(sharePath, user)];
    if remote.shareOk {
      actions := actions + [Rename(finalPath, id)];
      if remote.renameOk {
        actions := actions + [RenderLink(remote.renameContent, AccessLink), LinkGenerated(instanceId)];
      } else {
        actions := actions + [RenderError(RenamedError, remote.renameContent)];
      }
    } else {
      actions := actions + [RenderError(SharedError, "")];
    }
  }

}

/**
 * What a page request guarantees: how the page's decisions follow from the
 * request and the store, channel by channel what the page renders, calls
 * and triggers for any decisions, what a stopped request does, and how the
 * preference store changes.
 */
module RequestLaws {

  import opened Wrappers
  import opened Decimal
  import opened Preferences
  import opened Paths
  import opened Access
  import opened Output
  import opened Saga
  import opened Workflow

  // ---- the decisions ----

  /**
   * The page's decision variables: the folders exist iff no pending task
   * names the course module; the overview is for an admin once the
   * folders exist in group mode; the access law; a stored link is shown
   * iff it is not loosely null and access holds; generation runs when no
   * link was shown, it was asked for and a name is stored, whatever the
   * access; the no-link display runs when no link was shown and either no
   * generation was asked for or no name is stored.
   */
  lemma DecisionLaws(prefs: map<string, string>, req: Request)
    ensures Decide(prefs, req).foldersCreated <==> req.id !in req.pendingCreateCmids
    ensures Decide(prefs, req).showTable <==>
      Decide(prefs, req).foldersCreated && req.canAddInstance && req.groupMode != 0
    ensures Decide(prefs, req).hasAccess <==>
      Decide(prefs, req).foldersCreated && (!req.canAddInstance || req.teacherAllowed)
    ensures Decide(prefs, req).hasLink <==>
      !IsNullish(Lookup(prefs, LinkKey(req.id))) && Decide(prefs, req).hasAccess
    ensures Generating(Decide(prefs, req)) <==>
      !Decide(prefs, req).hasLink && req.generate && !IsNullish(Lookup(prefs, NameKey(req.id)))
    ensures Decide(prefs, req).noLink <==>
      !Decide(prefs, req).hasLink && (!req.generate || IsNullish(Lookup(prefs, NameKey(req.id))))
  {
  }

  // ---- how the page decomposes by channel ----

  /** The no-link display lies wholly on the affordance channel. */
  lemma ChoiceOn(name: Option<string>, req: Request, c: Channel)
    ensures On(Choice(name, req), c) == if c == Affordances then Choice(name, req) else []
  {
    var offers := Choice(name, req);
    assert forall i :: 0 <= i < |offers| ==> ChannelOf(offers[i]) == Affordances;
    if c == Affordances {
      OnAll(offers, c);
    } else {
      OnNone(offers, c);
    }
  }

  /**
   * The page filtered on a channel is the concatenation of its six parts
   * filtered on their own: the notice, the overview, the stored link, the
   * remote operation, the no-link display and the viewed event.
   */
  lemma PageOn(d: Decisions, req: Request, c: Channel)
    ensures On(Page(d, req), c) ==
      On(if !d.foldersCreated then [FoldersNotCreated] else [], c)
      + On(if d.showTable then [GroupTable] else [], c)
      + On(if d.hasLink then [RenderLink(d.privateLink.GetOr(""), AccessLink)] else [], c)
      + On(if Generating(d) then Run(d.sharePath, d.finalPath, req.id, req.instanceId, req.remote) else [], c)
      + On(if d.noLink then Choice(d.name, req) else [], c)
      + On([ModuleViewed(req.instanceId)], c)
  {
    var a := if !d.foldersCreated then [FoldersNotCreated] else [];
    var b := if d.showTable then [GroupTable] else [];
    var l := if d.hasLink then [RenderLink(d.privateLink.GetOr(""), AccessLink)] else [];
    var g := if Generating(d) then Run(d.sharePath, d.finalPath, req.id, req.instanceId, req.remote) else [];
    var o := if d.noLink then Choice(d.name, req) else [];
    var v := [ModuleViewed(req.instanceId)];
    assert Page(d, req) == a + b + l + g + o + v;
    OnAppend(a, b, c);
    OnAppend(a + b, l, c);
    OnAppend(a + b + l, g, c);
    OnAppend(a + b + l + g, o, c);
    OnAppend(a + b + l + g + o, v, c);
  }

  /** The parts of the page made of single actions, channel by channel. */
  lemma SinglePartsOn(d: Decisions, req: Request, c: Channel)
    ensures On(if !d.foldersCreated then [FoldersNotCreated] else [], c) ==
      if c == Notices then (if !d.foldersCreated then [FoldersNotCreated] else []) else []
    ensures On(if d.showTable then [GroupTable] else [], c) ==
      if c == Overview then (if d.showTable then [GroupTable] else []) else []
    ensures On(if d.hasLink then [RenderLink(d.privateLink.GetOr(""), AccessLink)] else [], c) ==
      if c == AccessLinks then (if d.hasLink then [RenderLink(d.privateLink.GetOr(""), AccessLink)] else []) else []
    ensures On([ModuleViewed(req.instanceId)], c) == if c == Events then [ModuleViewed(req.instanceId)] else []
  {
    OnSingle(FoldersNotCreated, c);
    OnSingle(GroupTable, c);
    OnSingle(RenderLink(d.privateLink.GetOr(""), AccessLink), c);
    OnSingle(ModuleViewed(req.instanceId), c);
  }

  /** The remote-operation part of the page, channel by channel. */
  lemma RunPartOn(d: Decisions, req: Request, c: Channel)
    ensures On(if Generating(d) then Run(d.sharePath, d.finalPath, req.id, req.instanceId, req.remote) else [], c) ==
      match c
      case RemoteCalls =>
        if Generating(d) then
          [RequestToken, CreateShare(d.sharePath, req.remote.remoteUser)]
          + (if req.remote.shareOk then [Rename(d.finalPath, req.id)] else [])
        else []
      case Errors =>
        if !Generating(d) then []
        else if !req.remote.shareOk then [RenderError(SharedError, "")]
        else if !req.remote.renameOk then [RenderError(RenamedError, req.remote.renameContent)]
        else []
      case Events =>
        if Generating(d) && req.remote.shareOk && req.remote.renameOk then [LinkGenerated(req.instanceId)] else []
      case AccessLinks =>
        if Generating(d) && req.remote.shareOk && req.remote.renameOk
        then [RenderLink(req.remote.renameContent, AccessLink)] else []
      case _ => []
  {
    if Generating(d) {
      RunChannels(d.sharePath, d.finalPath, req.id, req.instanceId, req.remote, c);
    }
  }

  /** The no-link display part of the page, channel by channel. */
  lemma ChoicePartOn(d: Decisions, req: Request, c: Channel)
    ensures On(if d.noLink then Choice(d.name, req) else [], c) ==
      if c == Affordances then (if d.noLink then Choice(d.name, req) else []) else []
  {
    if d.noLink {
      ChoiceOn(d.name, req, c);
    }
  }

  /** A request stopped by the permission check, the reset or the logout, channel by channel. */
  lemma StoppedChannel(prefs: map<string, string>, req: Request, c: Channel)
    requires !Proceeds(req)
    ensures On(Respond(prefs, req).actions, c) ==
      if c == Notices then
        (if !req.canView then [NoViewPermission]
         else if req.reset then [Redirect(req.selfUrl, ResetPressed)]
         else [Redirect(req.selfUrl, LogoutPressed)])
      else if c == RemoteCalls && req.canView && !req.reset then [RemoteLogout]
      else []
    ensures !req.canView ==> Respond(prefs, req).actions == [NoViewPermission]
    ensures !req.canView || !req.reset ==> Respond(prefs, req).prefs == prefs
  {
    if !req.canView {
      OnSingle(NoViewPermission, c);
    } else if req.reset {
      OnSingle(Redirect(req.selfUrl, ResetPressed), c);
    } else {
      OnSingle(RemoteLogout, c);
      OnSingle(Redirect(req.selfUrl, LogoutPressed), c);
      OnAppend([RemoteLogout], [Redirect(req.selfUrl, LogoutPressed)], c);
      assert [RemoteLogout, Redirect(req.selfUrl, LogoutPressed)] == [RemoteLogout] + [Redirect(req.selfUrl, LogoutPressed)];
    }
  }

  /** A request that gets through, channel by channel. */
  lemma ProceedingChannel(prefs: map<string, string>, req: Request, c: Channel)
    requires Proceeds(req)
    ensures On(Respond(prefs, req).actions, c) == On(Page(Decided(prefs, req), req), c)
  {
  }

  // ---- the channels of the page ----

  /** The page's only notice is the not-yet-created notice, shown exactly when the folders do not exist. */
  lemma NoticesOnPage(d: Decisions, req: Request)
    ensures On(Page(d, req), Notices) ==
      if d.foldersCreated then [] else [FoldersNotCreated]
  {
    PageOn(d, req, Notices);
    SinglePartsOn(d, req, Notices);
    RunPartOn(d, req, Notices);
    ChoicePartOn(d, req, Notices);
  }

  /** The group overview is rendered exactly when the overview is due. */
  lemma OverviewOnPage(d: Decisions, req: Request)
    ensures On(Page(d, req), Overview) ==
      if d.showTable then [GroupTable] else []
  {
    PageOn(d, req, Overview);
    SinglePartsOn(d, req, Overview);
    RunPartOn(d, req, Overview);
    ChoicePartOn(d, req, Overview);
  }

  /**
   * The links to the folder: the stored link when it is to be shown, and
   * the link a generation produced when both remote calls succeeded.
   */
  lemma AccessLinksOnPage(d: Decisions, req: Request)
    ensures On(Page(d, req), AccessLinks) ==
      (if d.hasLink then [RenderLink(d.privateLink.GetOr(""), AccessLink)] else [])
      + (if Generating(d) && req.remote.shareOk && req.remote.renameOk
         then [RenderLink(req.remote.renameContent, AccessLink)] else [])
  {
    PageOn(d, req, AccessLinks);
    SinglePartsOn(d, req, AccessLinks);
    RunPartOn(d, req, AccessLinks);
    ChoicePartOn(d, req, AccessLinks);
  }

  /**
   * The calls on the storage service: none unless generation runs; then
   * the token fetch and the share, and the rename (passed the course-module
   * id as its name) exactly when the share succeeded. Each is made once.
   */
  lemma RemoteCallsOnPage(d: Decisions, req: Request)
    ensures On(Page(d, req), RemoteCalls) ==
      if Generating(d) then
        [RequestToken, CreateShare(d.sharePath, req.remote.remoteUser)]
        + (if req.remote.shareOk then [Rename(d.finalPath, req.id)] else [])
      else []
  {
    PageOn(d, req, RemoteCalls);
    SinglePartsOn(d, req, RemoteCalls);
    RunPartOn(d, req, RemoteCalls);
    ChoicePartOn(d, req, RemoteCalls);
    if !Generating(d) {
      assert On(Page(d, req), RemoteCalls) == [];
    }
  }

  /** The errors: the 'shared' error when the share failed, the 'renamed' error when the rename failed. */
  lemma ErrorsOnPage(d: Decisions, req: Request)
    ensures On(Page(d, req), Errors) ==
      if !Generating(d) then []
      else if !req.remote.shareOk then [RenderError(SharedError, "")]
      else if !req.remote.renameOk then [RenderError(RenamedError, req.remote.renameContent)]
      else []
  {
    PageOn(d, req, Errors);
    SinglePartsOn(d, req, Errors);
    RunPartOn(d, req, Errors);
    ChoicePartOn(d, req, Errors);
  }

  /**
   * The events: link-generated exactly once when generation ran and both
   * remote calls succeeded, never otherwise, then module-viewed.
   */
  lemma EventsOnPage(d: Decisions, req: Request)
    ensures On(Page(d, req), Events) ==
      (if Generating(d) && req.remote.shareOk && req.remote.renameOk
       then [LinkGenerated(req.instanceId)] else [])
      + [ModuleViewed(req.instanceId)]
  {
    PageOn(d, req, Events);
    SinglePartsOn(d, req, Events);
    RunPartOn(d, req, Events);
    ChoicePartOn(d, req, Events);
  }

  /**
   * The final display choice: when the no-link display is due, the name
   * with the reset, login-or-logout and generate links, or the name form
   * when no name is stored; otherwise none of these.
   */
  lemma AffordancesOnPage(d: Decisions, req: Request)
    ensures On(Page(d, req), Affordances) ==
      if d.noLink then Choice(d.name, req) else []
  {
    PageOn(d, req, Affordances);
    SinglePartsOn(d, req, Affordances);
    RunPartOn(d, req, Affordances);
    ChoicePartOn(d, req, Affordances);
  }

  // ---- the preference store ----

  /**
   * A reset clears the chosen name and nothing else, the stored link
   * included, and stops the request: no logout, no name is saved,
   * nothing is generated.
   */
  lemma ResetClearsNameOnly(prefs: map<string, string>, req: Request, k: string)
    requires req.canView && req.reset
    ensures Respond(prefs, req).actions == [Redirect(req.selfUrl, ResetPressed)]
    ensures Lookup(Respond(prefs, req).prefs, NameKey(req.id)) == None
    ensures Lookup(Respond(prefs, req).prefs, LinkKey(req.id)) == Lookup(prefs, LinkKey(req.id))
    ensures k != NameKey(req.id) ==> Lookup(Respond(prefs, req).prefs, k) == Lookup(prefs, k)
  {
    KeysDistinct(req.id, req.id);
  }

  /**
   * A request writes no key but the name key of its own course module:
   * the page never stores a generated link, and never touches another
   * course module's preferences.
   */
  lemma OnlyNameKeyChanges(prefs: map<string, string>, req: Request, k: string)
    ensures k != NameKey(req.id) ==> Lookup(Respond(prefs, req).prefs, k) == Lookup(prefs, k)
    ensures Lookup(Respond(prefs, req).prefs, LinkKey(req.id)) == Lookup(prefs, LinkKey(req.id))
  {
    KeysDistinct(req.id, req.id);
  }

  /** A submitted name is stored and read back by the page; a request without one leaves the store as it was. */
  lemma NameSubmission(prefs: map<string, string>, req: Request)
    ensures Proceeds(req) && req.submittedName.Some? ==>
      Lookup(Respond(prefs, req).prefs, NameKey(req.id)) == req.submittedName &&
      Decided(prefs, req).name == req.submittedName
    ensures !(req.canView && req.reset) && req.submittedName.None? ==> Respond(prefs, req).prefs == prefs
  {
  }

  // ---- consequences ----

  /**
   * Generation asked for without a stored name makes no remote call,
   * clears the generate flag and falls back to the name form.
   */
  lemma NamelessGenerationFallsBack(prefs: map<string, string>, req: Request)
    requires Proceeds(req) && req.generate
    requires !Decided(prefs, req).hasLink && IsNullish(Decided(prefs, req).name)
    ensures !Decided(prefs, req).generate
    ensures On(Respond(prefs, req).actions, RemoteCalls) == []
    ensures On(Respond(prefs, req).actions, Affordances) == [NameForm]
  {
    var d := Decided(prefs, req);
    DecisionLaws(NamedPrefs(prefs, req), req);
    ProceedingChannel(prefs, req, RemoteCalls);
    ProceedingChannel(prefs, req, Affordances);
    RemoteCallsOnPage(d, req);
    AffordancesOnPage(d, req);
  }

  /**
   * Generation does not consult the access law: with a name stored and no
   * link shown, a generate request calls the storage service even when
   * the user has no access, for instance an instance admin of an activity
   * that does not let teachers in, or any user before the folders exist;
   * when both calls succeed, that user is shown the new link.
   */
  lemma GenerationIgnoresAccess(prefs: map<string, string>, req: Request)
    requires Proceeds(req) && req.generate && !Decided(prefs, req).hasAccess
    requires !IsNullish(Decided(prefs, req).name)
    ensures Generating(Decided(prefs, req))
    ensures On(Respond(prefs, req).actions, RemoteCalls) != []
    ensures req.remote.shareOk && req.remote.renameOk ==>
      On(Respond(prefs, req).actions, AccessLinks) == [RenderLink(req.remote.renameContent, AccessLink)]
  {
    var d := Decided(prefs, req);
    DecisionLaws(NamedPrefs(prefs, req), req);
    ProceedingChannel(prefs, req, RemoteCalls);
    ProceedingChannel(prefs, req, AccessLinks);
    RemoteCallsOnPage(d, req);
    AccessLinksOnPage(d, req);
  }

  /**
   * The page does not cache a generated link: the same request repeated on
   * the store it leaves runs the remote operation again.
   */
  lemma GenerationRepeats(prefs: map<string, string>, req: Request)
    requires Proceeds(req) && Generating(Decided(prefs, req))
    ensures Generating(Decided(Respond(prefs, req).prefs, req))
  {
    var p := NamedPrefs(prefs, req);
    var q := NamedPrefs(p, req);
    KeysDistinct(req.id, req.id);
    assert Lookup(q, LinkKey(req.id)) == Lookup(p, LinkKey(req.id));
    assert Lookup(q, NameKey(req.id)) == Lookup(p, NameKey(req.id));
  }

  /**
   * A non-admin with the folders created, no stored link and a stored
   * name, whose share and rename both succeed, is shown the new link and
   * triggers the link-generated event once.
   */
  lemma FirstLink(prefs: map<string, string>, req: Request)
    requires Proceeds(req) && !req.canAddInstance && Created(req) && req.generate
    requires IsNullish(Lookup(prefs, LinkKey(req.id))) && !IsNullish(Decided(prefs, req).name)
    requires req.remote.shareOk && req.remote.renameOk
    ensures On(Respond(prefs, req).actions, AccessLinks) == [RenderLink(req.remote.renameContent, AccessLink)]
    ensures On(Respond(prefs, req).actions, Events) == [LinkGenerated(req.instanceId), ModuleViewed(req.instanceId)]
  {
    var d := Decided(prefs, req);
    var p := NamedPrefs(prefs, req);
    KeysDistinct(req.id, req.id);
    assert Lookup(p, LinkKey(req.id)) == Lookup(prefs, LinkKey(req.id));
    DecisionLaws(p, req);
    ProceedingChannel(prefs, req, AccessLinks);
    ProceedingChannel(prefs, req, Events);
    AccessLinksOnPage(d, req);
    EventsOnPage(d, req);
  }
}

/**
 * What one page request does that can be observed from outside: what it
 * renders, which remote calls it makes on the storage service, which
 * events it triggers and where it stops. A request yields a sequence of
 * these actions in the order the page performs them.
 */
module Output {

  datatype LinkKind = AccessLink | LogoutLink | GenerateLink

  datatype Message = ResetPressed | LogoutPressed

  datatype ErrorKind = SharedError | RenamedError

  datatype Action =
    | NoViewPermission                          // notice: the user may not view; the request stops
    | Redirect(url: string, message: Message)   // back to the page itself; the request stops
    | FoldersNotCreated                         // the folders are not created yet
    | GroupTable                                // overview of all participating groups
    | RenderLink(url: string, kind: LinkKind)
    | LoginLink(url: string)                    // log in at the storage service
    | NameAndReset(name: string, resetUrl: string)
    | NameForm                                  // the form asking for a folder name
    | RemoteLogout                              // drop the user's storage-service token
    | RequestToken                              // read the user id from the user's access token
    | CreateShare(path: string, remoteUser: string)
    | Rename(path: string, newName: nat)
    | RenderError(error: ErrorKind, detail: string)
    | LinkGenerated(objectId: nat)              // event
    | ModuleViewed(objectId: nat)               // event

  /** The groups into which a request's actions fall. */
  datatype Channel =
    | Notices        // permission notice, redirects, not-created notice
    | Overview       // the group table
    | AccessLinks    // links to the shared folder
    | Affordances    // the name, reset, login, logout and generate offers, or the form
    | RemoteCalls    // calls on the storage service
    | Errors         // reported failures of the remote calls
    | Events         // triggered events

  function ChannelOf(a: Action): Channel {
    match a
    case NoViewPermission => Notices
    case Redirect(_, _) => Notices
    case FoldersNotCreated => Notices
    case GroupTable => Overview
    case RenderLink(_, kind) => if kind == AccessLink then AccessLinks else Affordances
    case LoginLink(_) => Affordances
    case NameAndReset(_, _) => Affordances
    case NameForm => Affordances
    case RemoteLogout => RemoteCalls
    case RequestToken => RemoteCalls
    case CreateShare(_, _) => RemoteCalls
    case Rename(_, _) => RemoteCalls
    case RenderError(_, _) => Errors
    case LinkGenerated(_) => Events
    case ModuleViewed(_) => Events
  }

  /** The actions of `acts` on channel `c`, in order. */
  function On(acts: seq<Action>, c: Channel): (r: seq<Action>)
  {
    if acts == [] then []
    else (if ChannelOf(acts[0]) == c then [acts[0]] else []) + On(acts[1..], c)
  }

  /** Filtering a channel distributes over concatenation. */
  lemma {:induction false} OnAppend(xs: seq<Action>, ys: seq<Action>, c: Channel)
    ensures On(xs + ys, c) == On(xs, c) + On(ys, c)
  {
    if xs != [] {
      assert (xs + ys)[1..] == xs[1..] + ys;
      OnAppend(xs[1..], ys, c);
    } else {
      assert xs + ys == ys;
    }
  }

  /** A single action is on its own channel and on no other. */
  lemma OnSingle(a: Action, c: Channel)
    ensures On([a], c) == if ChannelOf(a) == c then [a] else []
  {
    assert [a][1..] == [];
  }

  /** Actions that all lie on `c` pass the filter unchanged. */
  lemma {:induction false} OnAll(xs: seq<Action>, c: Channel)
    requires forall i :: 0 <= i < |xs| ==> ChannelOf(xs[i]) == c
    ensures On(xs, c) == xs
  {
    if xs != [] {
      OnAll(xs[1..], c);
    }
  }

  /** Actions none of which lies on `c` leave nothing. */
  lemma {:induction false} OnNone(xs: seq<Action>, c: Channel)
    requires forall i :: 0 <= i < |xs| ==> ChannelOf(xs[i]) != c
    ensures On(xs, c) == []
  {
    if xs != [] {
      OnNone(xs[1..], c);
    }
  }
}

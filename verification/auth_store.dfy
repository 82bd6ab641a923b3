/**
 * The client-side session store of src/store/auth.ts. `login` accepts any
 * credentials and builds a demo user and workspace; `signup` builds a fresh
 * pair whose ids come from two clock readings; `logout` clears the session;
 * `setWorkspace` replaces the workspace with no check at all. The 500 ms
 * simulated delay and the loading flag raised during it are not modelled:
 * each action is the state it leaves behind.
 */
module Auth {
  import opened Wrappers
  import opened Types
  import opened Strings

  /** `email.split('@')[0]`: the text before the first '@', or all of it. */
  function LocalPart(email: string): (r: string)
    ensures StartsWith(email, r) && '@' !in r
    ensures |r| < |email| ==> email[|r|] == '@'
    ensures '@' !in email ==> r == email
  {
    Split(email, '@')[0]
  }

  /** The workspace belongs to the user and is the one the user points at. */
  predicate Linked(u: User, w: Workspace) {
    w.ownerId == u.id && w.id == u.workspaceId
  }

  /** The demo user every login produces: fixed ids, admin, named after the local part of the e-mail. */
  function LoginUser(email: string, createdAt: string): (u: User)
    ensures u.id == "user-1" && u.workspaceId == "workspace-1"
    ensures u.email == email && u.role == Admin && u.createdAt == createdAt
    ensures u.name == LocalPart(email)
    ensures StartsWith(email, u.name) && '@' !in u.name
  {
    User("user-1", email, LocalPart(email), None, Admin, createdAt, "workspace-1")
  }

  /** The demo workspace every login produces, owned by `owner`. */
  function LoginWorkspace(owner: User, createdAt: string): (w: Workspace)
    ensures w.id == "workspace-1" && w.ownerId == owner.id && w.createdAt == createdAt
    ensures w.name == "My Workspace" && w.niche == "Technology & SaaS"
    ensures w.description == Some("Content for tech startups")
  {
    Workspace("workspace-1", "My Workspace", "Technology & SaaS", Some("Content for tech startups"), createdAt, owner.id)
  }

  /** The user a signup produces; `userClock` and `workspaceClock` are the two `Date.now()` readings. */
  function SignupUser(name: string, email: string, userClock: nat, workspaceClock: nat, createdAt: string): (u: User)
    ensures u.name == name && u.email == email && u.role == Admin && u.createdAt == createdAt
    ensures u.id == "user-" + Decimal(userClock) && u.workspaceId == "workspace-" + Decimal(workspaceClock)
    ensures StartsWith(u.id, "user-") && StartsWith(u.workspaceId, "workspace-")
  {
    User("user-" + Decimal(userClock), email, name, None, Admin, createdAt, "workspace-" + Decimal(workspaceClock))
  }

  /** The workspace a signup produces: the user's workspace id, named after the user, no niche yet. */
  function SignupWorkspace(owner: User, createdAt: string): (w: Workspace)
    ensures w.id == owner.workspaceId && w.ownerId == owner.id && w.createdAt == createdAt
    ensures w.niche == "" && w.description == None
    ensures StartsWith(w.name, owner.name) && w.name[|owner.name|..] == "'s Workspace"
  {
    Workspace(owner.workspaceId, owner.name + "'s Workspace", "", None, createdAt, owner.id)
  }

  /** A login always yields a linked pair. */
  lemma LoginLinked(email: string, userCreated: string, workspaceCreated: string)
    ensures var u := LoginUser(email, userCreated);
            Linked(u, LoginWorkspace(u, workspaceCreated))
  {
  }

  /** Every login, whatever the e-mail, gives the same user and workspace ids: the demo session is shared. */
  lemma LoginIdsFixed(email1: string, email2: string, t1: string, t2: string)
    ensures LoginUser(email1, t1).id == LoginUser(email2, t2).id
    ensures LoginWorkspace(LoginUser(email1, t1), t1).id == LoginWorkspace(LoginUser(email2, t2), t2).id
  {
  }

  /** A signup always yields a linked pair. */
  lemma SignupLinked(name: string, email: string, c1: nat, c2: nat, t1: string, t2: string)
    ensures var u := SignupUser(name, email, c1, c2, t1);
            Linked(u, SignupWorkspace(u, t2))
  {
  }

  /** Signups at different clock readings get different user ids. */
  lemma SignupIdsDiffer(c1: nat, c2: nat)
    requires c1 != c2
    ensures "user-" + Decimal(c1) != "user-" + Decimal(c2)
  {
    if "user-" + Decimal(c1) == "user-" + Decimal(c2) {
      assert ("user-" + Decimal(c1))[5..] == Decimal(c1);
      assert ("user-" + Decimal(c2))[5..] == Decimal(c2);
      DecimalRoundTrip(c1);
      DecimalRoundTrip(c2);
    }
  }

  /**
   * The onboarding and settings pages call `setWorkspace({ ...workspace, name, niche })`:
   * renaming a workspace or changing its niche keeps it linked to its user.
   */
  lemma RenameKeepsLink(u: User, w: Workspace, name: string, niche: string)
    requires Linked(u, w)
    ensures Linked(u, w.(name := name, niche := niche))
    ensures w.(name := name, niche := niche).id == w.id
  {
  }

  class AuthStore {
    var user: Option<User>
    var workspace: Option<Workspace>
    var isAuthenticated: bool
    var isLoading: bool

    /** Signed in exactly when a user and a workspace are held, and then they are linked. */
    predicate Consistent()
      reads this
    {
      (isAuthenticated <==> user.Some? && workspace.Some?)
      && (isAuthenticated ==> Linked(user.value, workspace.value))
    }

    /** The initial state: nobody signed in, not loading. */
    constructor ()
      ensures user == None && workspace == None && !isAuthenticated && !isLoading
      ensures Consistent()
    {
      user := None;
      workspace := None;
      isAuthenticated := false;
      isLoading := false;
    }

    /** Signs in as the demo user whatever the password; always succeeds. */
    method Login(email: string, password: string, userCreated: string, workspaceCreated: string) returns (ok: bool)
      modifies this
      ensures ok
      ensures user == Some(LoginUser(email, userCreated))
      ensures workspace == Some(LoginWorkspace(user.value, workspaceCreated))
      ensures isAuthenticated && !isLoading
      ensures Consistent()
    {
      var u := LoginUser(email, userCreated);
      var w := LoginWorkspace(u, workspaceCreated);
      LoginLinked(email, userCreated, workspaceCreated);
      user, workspace, isAuthenticated, isLoading := Some(u), Some(w), true, false;
      ok := true;
    }

    /** Creates a fresh user and workspace from two clock readings; always succeeds. */
    method Signup(name: string, email: string, password: string, userClock: nat, workspaceClock: nat,
                  userCreated: string, workspaceCreated: string) returns (ok: bool)
      modifies this
      ensures ok
      ensures user == Some(SignupUser(name, email, userClock, workspaceClock, userCreated))
      ensures workspace == Some(SignupWorkspace(user.value, workspaceCreated))
      ensures isAuthenticated && !isLoading
      ensures Consistent()
    {
      var u := SignupUser(name, email, userClock, workspaceClock, userCreated);
      var w := SignupWorkspace(u, workspaceCreated);
      user, workspace, isAuthenticated, isLoading := Some(u), Some(w), true, false;
      ok := true;
    }

    /** Clears the session; the loading flag is left as it was. */
    method Logout()
      modifies this`user, this`workspace, this`isAuthenticated
      ensures user == None && workspace == None && !isAuthenticated
      ensures Consistent()
    {
      user, workspace, isAuthenticated := None, None, false;
    }

    /**
     * Replaces the workspace, nothing else. No check is made: a signed-in
     * session stays consistent exactly when the new workspace is linked to
     * the user, so a workspace owned by someone else breaks it.
     */
    method SetWorkspace(w: Workspace)
      modifies this`workspace
      ensures workspace == Some(w)
      ensures isAuthenticated && user.Some? ==> (Consistent() <==> Linked(user.value, w))
      ensures isAuthenticated && user.Some? && w.ownerId != user.value.id ==> !Consistent()
      ensures !isAuthenticated && user.None? ==> Consistent()
    {
      workspace := Some(w);
    }
  }
}

/**
 * The display rules of src/components/layout/Sidebar.tsx: which navigation
 * link is highlighted for the current path, when the Settings link is, and
 * what the avatar and the workspace badge show.
 */
module Sidebar {
  import opened Wrappers
  import opened Types
  import opened Strings
  import Utils
  import Auth

  /** The hrefs of the navigation table, in display order. */
  const Navigation: seq<string> := ["/dashboard", "/ideas", "/create", "/content", "/media", "/calendar", "/analytics"]

  /** A navigation link is highlighted on its own path and on every path below it. */
  predicate IsActive(pathname: string, href: string) {
    pathname == href || StartsWith(pathname, href + "/")
  }

  /** The Settings link is highlighted on exactly '/settings'. */
  predicate SettingsActive(pathname: string) {
    pathname == "/settings"
  }

  /** A path that merely extends the href, without a '/' boundary, does not highlight it. */
  lemma BoundaryRequired(pathname: string, href: string)
    requires StartsWith(pathname, href) && |pathname| > |href| && pathname[|href|] != '/'
    ensures !IsActive(pathname, href)
  {
  }

  /** '/contentx' does not highlight '/content', while '/content' and '/content/42' do. */
  lemma ContentExamples()
    ensures !IsActive("/contentx", "/content")
    ensures IsActive("/content", "/content") && IsActive("/content/42", "/content")
  {
    BoundaryRequired("/contentx", "/content");
    assert "/content/42"[..9] == "/content/";
  }

  /** Below '/settings' a navigation-style rule would highlight the link; the Settings rule does not. */
  lemma SettingsSubPathNotActive(rest: string)
    ensures IsActive("/settings/" + rest, "/settings")
    ensures !SettingsActive("/settings/" + rest)
  {
    var p := "/settings/" + rest;
    assert p[..|"/settings/"|] == "/settings/";
    assert |p| > |"/settings"|;
  }

  /** An href of one path segment: '/' followed by a non-empty name without '/'. */
  predicate OneSegment(href: string) {
    |href| >= 2 && href[0] == '/' && forall k :: 1 <= k < |href| ==> href[k] != '/'
  }

  /** A path strictly longer than a link it highlights has a '/' right after the href. */
  lemma SlashAfterHref(pathname: string, href: string)
    requires IsActive(pathname, href) && |pathname| > |href|
    ensures pathname[|href|] == '/'
  {
    assert pathname[..|href| + 1] == href + "/";
  }

  /** Two one-segment hrefs highlighted by the same path are the same href. */
  lemma {:induction false} ActiveHrefsAgree(pathname: string, h1: string, h2: string)
    requires OneSegment(h1) && OneSegment(h2)
    requires IsActive(pathname, h1) && IsActive(pathname, h2)
    requires |h1| <= |h2|
    ensures h1 == h2
  {
    assert pathname[..|h1|] == h1;
    assert pathname[..|h2|] == h2;
    assert h2[..|h1|] == pathname[..|h1|];
    if |pathname| > |h1| {
      SlashAfterHref(pathname, h1);
    }
  }

  /** Every navigation href has one segment, and no two are the same. */
  lemma NavigationShape()
    ensures forall i :: 0 <= i < |Navigation| ==> OneSegment(Navigation[i])
    ensures forall i, j :: 0 <= i < j < |Navigation| ==> Navigation[i] != Navigation[j]
  {
  }

  /** Whatever the path, at most one navigation link is highlighted. */
  lemma AtMostOneActive(pathname: string, i: nat, j: nat)
    requires i < j < |Navigation|
    ensures !(IsActive(pathname, Navigation[i]) && IsActive(pathname, Navigation[j]))
  {
    NavigationShape();
    if IsActive(pathname, Navigation[i]) && IsActive(pathname, Navigation[j]) {
      if |Navigation[i]| <= |Navigation[j]| {
        ActiveHrefsAgree(pathname, Navigation[i], Navigation[j]);
      } else {
        ActiveHrefsAgree(pathname, Navigation[j], Navigation[i]);
      }
    }
  }

  /** The avatar text: the initials of the user's name, or 'U' when there is no user or the name is empty. */
  function AvatarText(user: Option<User>): (r: string)
    ensures |r| <= 2
    ensures user.None? || user.value.name == "" ==> r == "U"
    ensures user.Some? && user.value.name != "" ==> r == Utils.GetInitials(user.value.name)
  {
    if user.Some? && user.value.name != "" then Utils.GetInitials(user.value.name) else "U"
  }

  /** A name of spaces only is not empty, so it gets no fallback: the avatar is blank. */
  lemma BlankNameGivesBlankAvatar(u: User)
    requires u.name == " "
    ensures AvatarText(Some(u)) == ""
  {
    assert Utils.WordStarts(" ", true) == "";
  }

  /** The workspace badge: the first character of the workspace name, or 'W'. */
  function WorkspaceBadge(w: Option<Workspace>): (r: string)
    ensures |r| == 1
    ensures w.None? || w.value.name == "" ==> r == "W"
    ensures w.Some? && w.value.name != "" ==> r[0] == w.value.name[0]
  {
    if w.Some? && w.value.name != "" then [w.value.name[0]] else "W"
  }

  /** The workspace label: the workspace name, or 'Workspace'. */
  function WorkspaceLabel(w: Option<Workspace>): (r: string)
    ensures r != ""
    ensures w.Some? && w.value.name != "" ==> r == w.value.name
    ensures w.None? || w.value.name == "" ==> r == "Workspace"
  {
    if w.Some? && w.value.name != "" then w.value.name else "Workspace"
  }

  /** After a login the badge reads 'M', for 'My Workspace'. */
  lemma BadgeAfterLogin(u: User, createdAt: string)
    ensures WorkspaceBadge(Some(Auth.LoginWorkspace(u, createdAt))) == "M"
  {
  }

  /** After a signup the badge is the first letter of the user's name, or the apostrophe of "'s Workspace" for an empty name. */
  lemma BadgeAfterSignup(u: User, createdAt: string)
    ensures WorkspaceBadge(Some(Auth.SignupWorkspace(u, createdAt))) == if u.name == "" then "'" else [u.name[0]]
  {
    var w := Auth.SignupWorkspace(u, createdAt);
    assert w.name == u.name + "'s Workspace";
    assert w.name[0] == if u.name == "" then '\'' else u.name[0];
  }
}

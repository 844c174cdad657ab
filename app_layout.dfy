/**
 * The member-area layout shell: the moderator flag, which sidebar item is
 * current, and the footer's user label and initials. Its private copy of
 * getInitials is the header's up to quote style, so the footer calls
 * Header.GetInitials.
 */
module AppLayout {
  import opened Js
  import opened PocketBase
  import Header

  /** `user?.role === 'moderator'`: only an exact role match counts. */
  function IsModerator(user: Option<AuthUser>): (b: bool)
    ensures b <==> user.Some? && user.value.role == Some("moderator")
    ensures user.None? ==> !b
  {
    match user
    case None => false
    case Some(u) => u.role == Some("moderator")
  }

  /** The sidebar's navigation items. */
  datatype SidebarItem = MainSite | Dashboard | Events

  /** The link target of each sidebar item. */
  function Href(item: SidebarItem): (h: string)
    ensures h != ""
    ensures h[0] == '/'
  {
    match item
    case MainSite => "/"
    case Dashboard => "/app/dashboard"
    case Events => "/app/events"
  }

  /** `current={currentPath === href}` */
  function IsCurrent(item: SidebarItem, currentPath: Option<string>): (b: bool)
    ensures b <==> currentPath == Some(Href(item))
  {
    currentPath == Some(Href(item))
  }

  /** At most one sidebar item is marked current, and none when the path is absent. */
  lemma AtMostOneCurrent(a: SidebarItem, b: SidebarItem, currentPath: Option<string>)
    requires IsCurrent(a, currentPath) && IsCurrent(b, currentPath)
    ensures a == b
    ensures currentPath.Some?
  {
  }

  /** `user?.name || user?.email` in the sidebar footer. */
  function FooterLabel(user: Option<AuthUser>): (r: Option<string>)
    ensures Truthy(NameOf(user)) ==> r == NameOf(user)
    ensures !Truthy(NameOf(user)) ==> r == EmailOf(user)
  {
    Header.DisplayLabel(user)
  }

  /** `getInitials(user?.name, user?.email)` for the footer avatar. */
  function FooterInitials(user: Option<AuthUser>): (r: string)
    ensures 1 <= |r| <= 2
    ensures user.None? ==> r == "??"
  {
    Header.GetInitials(NameOf(user), EmailOf(user))
  }

  /** The footer shows the same initials and label as the header for every user. */
  lemma FooterAgreesWithHeader(user: Option<AuthUser>)
    ensures FooterInitials(user) == Header.AvatarInitials(user)
    ensures FooterLabel(user) == Header.DisplayLabel(user)
  {
  }
}

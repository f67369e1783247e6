/** Which links `BottomNav` (components/layout/bottom-nav.tsx) renders and
    highlights, as a function of `usePathname()`, which may be `null`. */
module BottomNav {
  import opened Common

  datatype NavLink = NavLink(href: string, text: string, active: bool)

  /** `null` (nothing rendered) or the bar with its links, left to right. */
  datatype Nav = Hidden | Bar(links: seq<NavLink>)

  const Home := "/"
  const CustomerHome := "/customer"
  const NewDelivery := "/customer/new-delivery"
  const DriverHome := "/driver"
  const AdminHome := "/admin"
  const Profile := "/auth/login"

  /** `pathname?.startsWith(prefix)` */
  predicate StartsWith(pathname: Option<string>, prefix: string) { pathname.Some? && prefix <= pathname.value }

  function Render(pathname: Option<string>): Nav
  {
    if StartsWith(pathname, "/auth") then Hidden
    else
      Bar([NavLink(Home, "홈", pathname == Some(Home))]
        + (if StartsWith(pathname, "/customer") then
             [NavLink(CustomerHome, "내 배송", pathname == Some(CustomerHome)),
              NavLink(NewDelivery, "배송 요청", pathname == Some(NewDelivery))]
           else [])
        + (if StartsWith(pathname, "/driver") then [NavLink(DriverHome, "배송 관리", pathname == Some(DriverHome))] else [])
        + (if StartsWith(pathname, "/admin") then [NavLink(AdminHome, "대시보드", pathname == Some(AdminHome))] else [])
        + [NavLink(Profile, "내 정보", StartsWith(pathname, "/auth"))])
  }

  predicate Shows(nav: Nav, href: string) { nav.Bar? && exists l :: l in nav.links && l.href == href }

  /** Nothing is rendered exactly on the "/auth" pages (any path with that prefix). */
  lemma HiddenIffAuth(pathname: Option<string>)
    ensures Render(pathname).Hidden? <==> StartsWith(pathname, "/auth")
  {
  }

  /** Otherwise the bar starts with the home link and ends with the "내 정보" link. */
  lemma HomeAndProfileAlwaysShown(pathname: Option<string>)
    requires !StartsWith(pathname, "/auth")
    ensures var links := Render(pathname).links;
      |links| >= 2 && links[0].href == Home && links[|links| - 1].href == Profile
  {
  }

  /** The role links are shown exactly on their route prefixes. */
  lemma RoleLinksIff(pathname: Option<string>)
    requires !StartsWith(pathname, "/auth")
    ensures Shows(Render(pathname), CustomerHome) <==> StartsWith(pathname, "/customer")
    ensures Shows(Render(pathname), NewDelivery) <==> StartsWith(pathname, "/customer")
    ensures Shows(Render(pathname), DriverHome) <==> StartsWith(pathname, "/driver")
    ensures Shows(Render(pathname), AdminHome) <==> StartsWith(pathname, "/admin")
  {
  }

  /** No path has two of the role prefixes, so at most one role section is shown. */
  lemma AtMostOneRole(pathname: Option<string>)
    ensures !(StartsWith(pathname, "/customer") && StartsWith(pathname, "/driver"))
    ensures !(StartsWith(pathname, "/customer") && StartsWith(pathname, "/admin"))
    ensures !(StartsWith(pathname, "/driver") && StartsWith(pathname, "/admin"))
    ensures !StartsWith(pathname, "/auth") ==> 2 <= |Render(pathname).links| <= 4
  {
    if pathname.Some? {
      var p := pathname.value;
      if StartsWith(pathname, "/customer") { assert p[1] == 'c'; }
      if StartsWith(pathname, "/driver") { assert p[1] == 'd'; }
      if StartsWith(pathname, "/admin") { assert p[1] == 'a'; }
    }
  }

  /** A link is highlighted exactly on its own path; "내 정보" never is, since
      its "/auth" test can only pass on paths that render nothing. */
  lemma HighlightIffExact(pathname: Option<string>)
    requires !StartsWith(pathname, "/auth")
    ensures forall l :: l in Render(pathname).links ==> (l.active <==> l.href != Profile && pathname == Some(l.href))
    ensures forall l :: l in Render(pathname).links && l.href == Profile ==> !l.active
  {
  }
}

/** Which entries of the admin sidebar are highlighted, and whether the
    calendar group starts expanded, for the current pathname
    (components/AdminSidebarUsage.tsx). */
module Sidebar {

  /** A link is active on its own page and on every page below it; the `/`
      after the url keeps `/admin/calendarX` from activating `/admin/calendar`. */
  function IsActiveLink(pathname: string, url: string): (active: bool)
    ensures pathname == url ==> active
    ensures active ==> url <= pathname
    ensures active && pathname != url ==> |pathname| > |url| && pathname[|url|] == '/'
  {
    pathname == url || url + "/" <= pathname
  }

  /** The path `rest` below `url`. */
  function Below(url: string, rest: string): string
  {
    url + "/" + rest
  }

  /** Every character of an active link's url is the pathname's character at the same index. */
  lemma ActiveLinkAgreesWithPathname(pathname: string, url: string, i: nat)
    requires IsActiveLink(pathname, url) && i < |url|
    ensures i < |pathname| && pathname[i] == url[i]
  {
  }

  /** The predicate matches on a path-segment boundary: a link is active exactly
      on its own page and on the pages below it. */
  lemma ActiveLinkIsSegmentPrefix(pathname: string, url: string)
    ensures IsActiveLink(pathname, url) <==> pathname == url || exists rest :: pathname == Below(url, rest)
  {
    if url + "/" <= pathname {
      var rest := pathname[|url| + 1..];
      assert pathname == Below(url, rest);
    }
    if rest :| pathname == Below(url, rest) {
      assert pathname[..|url| + 1] == url + "/";
    }
  }

  /** A bare string prefix without the `/` boundary does not activate a link. */
  lemma StringPrefixIsNotEnough()
    ensures "/admin/calendar" <= "/admin/calendarX"
    ensures !IsActiveLink("/admin/calendarX", "/admin/calendar")
  {
    assert "/admin/calendarX"[..15] == "/admin/calendar";
    assert ("/admin/calendar" + "/")[15] != "/admin/calendarX"[15];
  }

  /** A page active for a child link is active for its parent link. */
  lemma ChildActiveImpliesParentActive(pathname: string, url: string, child: string)
    requires IsActiveLink(pathname, Below(url, child))
    ensures IsActiveLink(pathname, url)
  {
  }

  const CalendarUrl: string := "/admin/calendar"
  const PostsUrl: string := "/admin/calendar/posts"
  const MeetingsUrl: string := "/admin/calendar/meetings"

  /** The calendar group opens for either of its entries, and the two entries
      are never highlighted together. */
  lemma CalendarGroupFacts(pathname: string)
    ensures IsActiveLink(pathname, PostsUrl) || IsActiveLink(pathname, MeetingsUrl) ==>
              IsActiveLink(pathname, CalendarUrl)
    ensures !(IsActiveLink(pathname, PostsUrl) && IsActiveLink(pathname, MeetingsUrl))
  {
    assert PostsUrl == Below(CalendarUrl, "posts") && MeetingsUrl == Below(CalendarUrl, "meetings");
    if IsActiveLink(pathname, PostsUrl) {
      ChildActiveImpliesParentActive(pathname, CalendarUrl, "posts");
      ActiveLinkAgreesWithPathname(pathname, PostsUrl, 16);
    }
    if IsActiveLink(pathname, MeetingsUrl) {
      ChildActiveImpliesParentActive(pathname, CalendarUrl, "meetings");
      ActiveLinkAgreesWithPathname(pathname, MeetingsUrl, 16);
    }
  }

  datatype NavItem = NavItem(title: string, url: string)

  /** The top-level entries listed before the calendar group. */
  const MainItems: seq<NavItem> := [NavItem("Início", "/admin/dashboard")]

  /** The highlight and expansion flags of the sidebar for one pathname. */
  datatype SidebarView = SidebarView(
    mainActive: seq<bool>,
    calendarDefaultOpen: bool,
    postsActive: bool,
    meetingsActive: bool)

  function View(pathname: string): (v: SidebarView)
    ensures |v.mainActive| == |MainItems|
    ensures forall i :: 0 <= i < |MainItems| ==> v.mainActive[i] == IsActiveLink(pathname, MainItems[i].url)
    ensures v.calendarDefaultOpen == IsActiveLink(pathname, CalendarUrl)
    ensures v.postsActive == IsActiveLink(pathname, PostsUrl)
    ensures v.meetingsActive == IsActiveLink(pathname, MeetingsUrl)
    ensures v.postsActive || v.meetingsActive ==> v.calendarDefaultOpen
    ensures !(v.postsActive && v.meetingsActive)
  {
    var v := SidebarView(
      seq(|MainItems|, i requires 0 <= i < |MainItems| => IsActiveLink(pathname, MainItems[i].url)),
      IsActiveLink(pathname, CalendarUrl),
      IsActiveLink(pathname, PostsUrl),
      IsActiveLink(pathname, MeetingsUrl));
    CalendarGroupFacts(pathname);
    v
  }
}

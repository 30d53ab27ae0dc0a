/**
  The sidebar: which navigation links a user sees, and which of them is
  highlighted for the current location.
 */
module Sidebar {
  import opened Basics
  import Strings

  /** A sidebar entry: its `label` (here `caption`, as `label` is a Dafny keyword) and its route. */
  datatype Link = Link(caption: string, link: string)

  /** The declared links, in display order. */
  const LinkData: seq<Link> := [
    Link("Dashboard", "dashboard"),
    Link("Tasks", "tasks"),
    Link("Completed", "completed/completed"),
    Link("In Progress", "in-progress/in progress"),
    Link("To Do", "todo/todo"),
    Link("Overdue", "overdue/overdue"),
    Link("Daily Report", "dailyreport"),
    Link("Team", "team"),
    Link("Trash", "trashed")
  ]

  /** `user?.isAdmin ? linkData : linkData.slice(0, 8)`. */
  function SidebarLinks(isAdmin: bool): (links: seq<Link>)
    ensures isAdmin ==> links == LinkData && |links| == 9
    ensures !isAdmin ==> |links| == 8
    ensures !isAdmin ==> forall l :: l in links <==> l in LinkData && l.caption != "Trash"
  {
    if isAdmin then LinkData else LinkData[..8]
  }

  /** Either selection lists its links in their declared order. */
  lemma {:induction false} SidebarLinksInOrder(isAdmin: bool)
    ensures IsSubsequence(SidebarLinks(isAdmin), LinkData)
  {
    PrefixIsSubsequence(LinkData, if isAdmin then 9 else 8);
  }

  /** Labels are the React keys of the list, so no two links share one. */
  lemma LabelsDistinct()
    ensures forall i, j :: 0 <= i < j < |LinkData| ==> LinkData[i].caption != LinkData[j].caption
  {
  }

  /** `location.pathname.split("/")[1]`: the first segment after the leading "/", if any. */
  function PathSegment(pathname: string): (segment: Option<string>)
    ensures segment.Some? ==> '/' !in segment.value
    ensures '/' !in pathname ==> segment.None?
  {
    Strings.SplitWithoutSeparator(pathname, '/');
    var parts := Strings.Split(pathname, '/');
    if |parts| > 1 then Some(parts[1]) else None
  }

  /** `el.link.split("/")[0]`: the part of a link before its first "/". */
  function LinkHead(link: string): (head: string)
    ensures '/' !in head
    ensures '/' !in link ==> head == link
  {
    Strings.SplitWithoutSeparator(link, '/');
    Strings.Split(link, '/')[0]
  }

  /** The highlight test of a sidebar entry. */
  predicate IsActive(pathname: string, l: Link): (active: bool)
    ensures active ==> '/' in pathname
  {
    PathSegment(pathname) == Some(LinkHead(l.link))
  }

  /**
    For a location "/" + segment + rest, where the segment has no "/" and
    the rest is empty or starts with "/", a link is highlighted exactly
    when its part before the first "/" is that segment.
   */
  lemma ActiveIff(segment: string, rest: string, l: Link, head: string, tail: string)
    requires '/' !in segment && (rest == [] || rest[0] == '/')
    requires l.link == head + tail && '/' !in head && (tail == [] || tail[0] == '/')
    ensures IsActive("/" + segment + rest, l) <==> segment == head
  {
    Strings.SplitAfterLeading(segment + rest, '/');
    assert "/" + segment + rest == ['/'] + (segment + rest);
    Strings.SplitFirst(segment, rest, '/');
    Strings.SplitFirst(head, tail, '/');
  }

  /** A location without any "/" highlights nothing. */
  lemma NoSlashNoneActive(pathname: string, l: Link)
    requires '/' !in pathname
    ensures !IsActive(pathname, l)
  {
    Strings.SplitFirst(pathname, [], '/');
    assert pathname + [] == pathname;
  }
}

/**
 * The sessions screen: a pager whose tabs are a fixed "All" tab followed
 * by one tab per room, rebuilt wholesale whenever the room list arrives.
 */
module SessionsPager {
  import opened Model

  /** A pager tab: the fixed "All" tab or the tab of one room. */
  datatype Tab = All | RoomTab(room: Room)

  /** The page a tab opens: every session, or the sessions of one room. */
  datatype Page = AllSessionsPage | RoomSessionsPage(room: Room)

  /** The title a tab carries: "All", or the name of its room. */
  function TitleOf(tab: Tab): string
  {
    match tab
    case All => "All"
    case RoomTab(room) => room.name
  }

  /** The page a tab opens. */
  function PageOf(tab: Tab): Page
  {
    match tab
    case All => AllSessionsPage
    case RoomTab(room) => RoomSessionsPage(room)
  }

  /** One room tab per room, in the rooms' order. */
  function RoomTabs(rooms: seq<Room>): (tabs: seq<Tab>)
    ensures |tabs| == |rooms|
    ensures forall i :: 0 <= i < |rooms| ==> tabs[i] == RoomTab(rooms[i])
  {
    if rooms == [] then [] else [RoomTab(rooms[0])] + RoomTabs(rooms[1..])
  }

  /** The whole tab list for a room list: "All" first, then the room tabs. */
  function TabsFor(rooms: seq<Room>): seq<Tab>
  {
    [All] + RoomTabs(rooms)
  }

  /** The tab list has one more entry than there are rooms, and "All" leads it. */
  lemma TabsForShape(rooms: seq<Room>)
    ensures |TabsFor(rooms)| == |rooms| + 1
    ensures TabsFor(rooms)[0] == All && TitleOf(TabsFor(rooms)[0]) == "All"
    ensures PageOf(TabsFor(rooms)[0]) == AllSessionsPage
  {
  }

  /** Position i + 1 holds the tab of rooms[i], titled with its name and opening its page. */
  lemma TabsForAt(rooms: seq<Room>, i: nat)
    requires i < |rooms|
    ensures TabsFor(rooms)[i + 1] == RoomTab(rooms[i])
    ensures TitleOf(TabsFor(rooms)[i + 1]) == rooms[i].name
    ensures PageOf(TabsFor(rooms)[i + 1]) == RoomSessionsPage(rooms[i])
  {
  }

  /** Only "All" and tabs of the given rooms occur: nothing of an earlier room list survives. */
  lemma TabsForMembers(rooms: seq<Room>, tab: Tab)
    ensures tab in TabsFor(rooms) <==> tab == All || (tab.RoomTab? && tab.room in rooms)
  {
  }

  /** Different room lists give different tab lists, so the pages identify the rooms one to one. */
  lemma TabsForInjective(a: seq<Room>, b: seq<Room>)
    requires TabsFor(a) == TabsFor(b)
    ensures a == b
  {
    assert |a| == |b|;
    forall i | 0 <= i < |a|
      ensures a[i] == b[i]
    {
      assert TabsFor(a)[i + 1] == RoomTab(a[i]);
      assert TabsFor(b)[i + 1] == RoomTab(b[i]);
    }
  }

  /** The pager adapter of the sessions screen. */
  class SessionsViewPagerAdapter {
    var tabs: seq<Tab>
    var roomTabs: seq<Tab>
    /** The rooms last installed; empty before the first installation. */
    ghost var rooms: seq<Room>
    /** Whether a room list has been installed yet. */
    ghost var installed: bool

    ghost predicate Valid()
      reads this
    {
      roomTabs == RoomTabs(rooms) &&
      (installed <==> tabs != []) &&
      (!installed ==> rooms == []) &&
      (installed ==> tabs == TabsFor(rooms))
    }

    /** Both lists start empty, so the pager shows no tab at all. */
    constructor ()
      ensures Valid() && !installed
      ensures tabs == [] && roomTabs == [] && rooms == []
      ensures GetCount() == 0
    {
      tabs := [];
      roomTabs := [];
      rooms := [];
      installed := false;
    }

    /** Clears the tab list and refills it with "All" followed by the room tabs. */
    method SetupTabs()
      requires roomTabs == RoomTabs(rooms)
      modifies this`tabs, this`installed
      ensures Valid() && installed
      ensures tabs == [All] + roomTabs
    {
      tabs := [];
      tabs := tabs + [All];
      tabs := tabs + roomTabs;
      installed := true;
    }

    /** Installs a new room list, replacing every tab of the previous one. */
    method SetRooms(rooms: seq<Room>)
      modifies this
      ensures Valid() && installed && this.rooms == rooms
      ensures roomTabs == RoomTabs(rooms) && tabs == TabsFor(rooms)
      ensures GetCount() == |rooms| + 1
    {
      roomTabs := RoomTabs(rooms);
      this.rooms := rooms;
      SetupTabs();
    }

    /** How many tabs the pager shows: none before any room list, else one per room plus "All". */
    function GetCount(): (n: nat)
      reads this
      requires Valid()
      ensures n == if installed then |rooms| + 1 else 0
      ensures n == 0 ==> rooms == []
    {
      |tabs|
    }

    /** The title of the tab at a position: "All" first, then the room names in order. */
    function GetPageTitle(position: int): (title: string)
      reads this
      requires Valid() && 0 <= position < GetCount()
      ensures title == if position == 0 then "All" else rooms[position - 1].name
    {
      TitleOf(tabs[position])
    }

    /** The page of the tab at a position: all sessions first, then each room's sessions in order. */
    function GetItem(position: int): (page: Page)
      reads this
      requires Valid() && 0 <= position < GetCount()
      ensures page == if position == 0 then AllSessionsPage else RoomSessionsPage(rooms[position - 1])
    {
      PageOf(tabs[position])
    }
  }

  /** Installing the same rooms twice leaves the same tabs as installing them once. */
  method SetRoomsTwice(adapter: SessionsViewPagerAdapter, rooms: seq<Room>)
    returns (first: seq<Tab>, second: seq<Tab>)
    modifies adapter
    ensures first == second == TabsFor(rooms) == adapter.tabs
  {
    adapter.SetRooms(rooms);
    first := adapter.tabs;
    adapter.SetRooms(rooms);
    second := adapter.tabs;
  }

  /** The sessions screen: a progress indicator and the pager it feeds with rooms. */
  class SessionsFragment {
    const adapter: SessionsViewPagerAdapter
    var progressVisible: bool

    constructor (progressVisible: bool)
      ensures fresh(adapter) && adapter.Valid() && !adapter.installed && adapter.tabs == []
      ensures this.progressVisible == progressVisible
    {
      adapter := new SessionsViewPagerAdapter();
      this.progressVisible := progressVisible;
    }

    /**
     * One emission of the room list: in progress shows the indicator; a
     * success hides it and installs the rooms; a failure hides it and
     * keeps the tabs.
     */
    method OnRoomsResult(result: Result<seq<Room>>)
      requires adapter.Valid()
      modifies this, adapter
      ensures adapter.Valid()
      ensures progressVisible <==> result.InProgress?
      ensures result.Success? ==> adapter.installed && adapter.rooms == result.data
      ensures result.Success? ==> adapter.tabs == TabsFor(result.data)
      ensures !result.Success? ==> unchanged(adapter)
    {
      match result {
        case InProgress =>
          progressVisible := true;
        case Success(rooms) =>
          progressVisible := false;
          adapter.SetRooms(rooms);
        case Failure(_) =>
          progressVisible := false;
      }
    }
  }
}

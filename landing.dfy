/**
 * The landing page: the tab bar, the mapping between the selected tab and the `tab` query
 * value, the list of active rooms, and which of its three views the login page shows.
 */
module Landing {
  import opened Wrappers

  // ---------------------------------------------------------------------------------------
  // Tabs
  // ---------------------------------------------------------------------------------------

  /** A tab button: its label, whether it carries the active class, and its `aria-pressed` value. */
  datatype TabButton = TabButton(tabLabel: string, active: bool, ariaPressed: bool)

  /** What the tab bar renders: nothing, or its buttons followed by the selected child, if that index exists. */
  datatype TabsView = NoTabs | TabBar(buttons: seq<TabButton>, panel: Option<string>)

  /** `selectedIndex ?? 0`. */
  function ActiveIndex(selectedIndex: Option<int>): int
  {
    if selectedIndex.Some? then selectedIndex.value else 0
  }

  /**
   * The tab bar over children known by their labels. Without children it renders nothing;
   * otherwise there is one button per child, and exactly the button at the active index
   * (the selected index, 0 when none is given) is active and pressed; below the buttons
   * comes the child at the active index.
   */
  function Tabs(selectedIndex: Option<int>, children: Option<seq<string>>): (v: TabsView)
    ensures v.NoTabs? <==> children.None?
    ensures v.TabBar? ==> |v.buttons| == |children.value|
    ensures v.TabBar? ==> forall i :: 0 <= i < |v.buttons| ==>
              && v.buttons[i].tabLabel == children.value[i]
              && (v.buttons[i].active <==> i == ActiveIndex(selectedIndex))
              && (v.buttons[i].ariaPressed <==> i == ActiveIndex(selectedIndex))
    ensures v.TabBar? ==> (v.panel.Some? <==> 0 <= ActiveIndex(selectedIndex) < |children.value|)
    ensures v.TabBar? && v.panel.Some? ==> v.panel.value == children.value[ActiveIndex(selectedIndex)]
  {
    var activeIndex := ActiveIndex(selectedIndex);
    if children.None? then NoTabs
    else
      var labels := children.value;
      var buttons := seq(|labels|, index requires 0 <= index < |labels| =>
                           if activeIndex == index then TabButton(labels[index], true, activeIndex == index)
                           else TabButton(labels[index], false, activeIndex == index));
      TabBar(buttons, if 0 <= activeIndex < |labels| then Some(labels[activeIndex]) else None)
  }

  // ---------------------------------------------------------------------------------------
  // The `tab` query value
  // ---------------------------------------------------------------------------------------

  /** The value of a query-string parameter that is present: given once, or given several times. */
  datatype QueryValue = Single(value: string) | Multiple(values: seq<string>)

  /** The server-side props of the page and the caching header it sets. */
  datatype ServerSideProps = ServerSideProps(tabIndex: int, cacheControl: string)

  /**
   * `getServerSideProps`: the page opens on tab 1 exactly when the query's `tab` is the single
   * string "custom", and on tab 0 otherwise; the response may be cached publicly for two hours.
   */
  function GetServerSideProps(query: map<string, QueryValue>): (r: ServerSideProps)
    ensures r.tabIndex == 0 || r.tabIndex == 1
    ensures r.tabIndex == 1 <==> "tab" in query && query["tab"] == Single("custom")
    ensures r.cacheControl == "public, max-age=7200"
  {
    var tabIndex := if "tab" in query && query["tab"] == Single("custom") then 1 else 0;
    ServerSideProps(tabIndex, "public, max-age=7200")
  }

  /**
   * The `tab` value pushed when the tab at index is selected: "custom" exactly for index 1;
   * any other index gives "anonymously" after an anonymous login (test 1) and "demo" otherwise.
   */
  function TabQuery(test: int, index: int): (tab: string)
    ensures tab == "custom" <==> index == 1
    ensures index != 1 ==> tab == (if test == 1 then "anonymously" else "demo")
  {
    if test == 1 then (if index == 1 then "custom" else "anonymously")
    else (if index == 1 then "custom" else "demo")
  }

  /** The query the router pushes when a tab is selected. */
  function TabSelectionQuery(test: int, index: int): map<string, QueryValue>
  {
    map["tab" := Single(TabQuery(test, index))]
  }

  /** Selecting tab 0 or 1 and reloading the page opens that same tab, whether or not the login was anonymous. */
  lemma TabRoundTrip(test: int, index: int)
    requires index == 0 || index == 1
    ensures GetServerSideProps(TabSelectionQuery(test, index)).tabIndex == index
  {
  }

  /** Reloading on a query and selecting the tab it opens pushes "custom" exactly when the query asked for it. */
  lemma QueryRoundTrip(test: int, query: map<string, QueryValue>)
    ensures TabQuery(test, GetServerSideProps(query).tabIndex) == "custom"
            <==> "tab" in query && query["tab"] == Single("custom")
  {
  }

  // ---------------------------------------------------------------------------------------
  // Rooms
  // ---------------------------------------------------------------------------------------

  /** A room as the room list reports it. */
  datatype Room = Room(name: string, numParticipants: int)

  /** The rooms with at least one participant, in list order. */
  function ActiveRooms(rooms: seq<Room>): (r: seq<Room>)
    ensures |r| <= |rooms|
    ensures forall room :: room in r <==> room in rooms && room.numParticipants > 0
  {
    if rooms == [] then []
    else (if rooms[0].numParticipants > 0 then [rooms[0]] else []) + ActiveRooms(rooms[1..])
  }

  /** Filtering a concatenation filters each part in turn: the active rooms keep the list's order. */
  lemma {:induction false} ActiveRoomsAppend(a: seq<Room>, b: seq<Room>)
    ensures ActiveRooms(a + b) == ActiveRooms(a) + ActiveRooms(b)
  {
    if a != [] {
      assert (a + b)[1..] == a[1..] + b;
      ActiveRoomsAppend(a[1..], b);
    } else {
      assert a + b == b;
    }
  }

  /** When every room has participants, the filter keeps the list as it is. */
  lemma {:induction false} ActiveRoomsKeepsOccupied(rooms: seq<Room>)
    requires forall i :: 0 <= i < |rooms| ==> rooms[i].numParticipants > 0
    ensures ActiveRooms(rooms) == rooms
  {
    if rooms != [] {
      ActiveRoomsKeepsOccupied(rooms[1..]);
      assert [rooms[0]] + rooms[1..] == rooms;
    }
  }

  /** What the join tab shows: a button per active room, or the "no streaming room" notice. */
  datatype RoomsView = RoomButtons(names: seq<string>) | NoStreamingRoom

  /** The join tab lists the names of the active rooms in order, and shows the notice exactly when no room has participants. */
  function CustomConnectionView(rooms: seq<Room>): (v: RoomsView)
    ensures v.NoStreamingRoom? <==> forall i :: 0 <= i < |rooms| ==> rooms[i].numParticipants <= 0
    ensures v.RoomButtons? ==> |v.names| == |ActiveRooms(rooms)|
                               && forall i :: 0 <= i < |v.names| ==> v.names[i] == ActiveRooms(rooms)[i].name
  {
    var activeRooms := ActiveRooms(rooms);
    assert activeRooms != [] ==> activeRooms[0] in rooms;
    assert forall i :: 0 <= i < |rooms| && rooms[i].numParticipants > 0 ==> rooms[i] in activeRooms;
    if |activeRooms| != 0 then RoomButtons(seq(|activeRooms|, i requires 0 <= i < |activeRooms| => activeRooms[i].name))
    else NoStreamingRoom
  }

  /** The join tab's room list, replaced by each completed poll of the room list. */
  class CustomConnectionTab {
    var rooms: seq<Room>

    constructor ()
      ensures rooms == []
    {
      rooms := [];
    }

    /** A poll completed: a fetched list replaces the rooms; a failed fetch leaves them as they were. */
    method GetRoomsCompleted(response: Option<seq<Room>>)
      modifies this
      ensures rooms == if response.Some? then response.value else old(rooms)
    {
      if response.Some? {
        rooms := response.value;
      }
    }
  }

  // ---------------------------------------------------------------------------------------
  // The login page
  // ---------------------------------------------------------------------------------------

  /** The identity provider's session status. */
  datatype SessionStatus = Unauthenticated | Loading | Authenticated

  /** Who the welcome view greets: the name typed for an anonymous login, or the signed-in user. */
  datatype Greeting = AnonymousName(name: string) | SessionUser

  /** The views of the login page; NoView is the page rendering nothing. */
  datatype LoginView = LoginForm | Spinner | Welcome(greeting: Greeting, tabs: TabsView) | NoView

  /** The tab labels of the welcome view: anonymous users get "Anonymously", others "Start", and all get "Join". */
  function WelcomeTabs(test: int): seq<string>
  {
    if test != 0 then ["Anonymously", "Join"] else ["Start", "Join"]
  }

  /**
   * The view for a session status and the anonymous-login flag. The login form shows exactly
   * when signed out and not logged in anonymously; the spinner exactly while the session
   * loads; the welcome view when signed in, or signed out after an anonymous login; and
   * nothing only for a flag other than 0 or 1.
   */
  function SelectView(status: SessionStatus, test: int, inputString: string, tabIndex: int): (v: LoginView)
    ensures v.LoginForm? <==> status.Unauthenticated? && test == 0
    ensures v.Spinner? <==> status.Loading?
    ensures v.Welcome? <==> status.Authenticated? || (status.Unauthenticated? && test == 1)
    ensures v.NoView? <==> status.Unauthenticated? && test != 0 && test != 1
    ensures v.Welcome? ==> && v.greeting == (if test != 0 then AnonymousName(inputString) else SessionUser)
                           && v.tabs == Tabs(Some(tabIndex), Some(WelcomeTabs(test)))
  {
    if status.Unauthenticated? && test == 0 then LoginForm
    else if status.Loading? then Spinner
    else if status.Authenticated? || test == 1 then
      Welcome(if test != 0 then AnonymousName(inputString) else SessionUser, Tabs(Some(tabIndex), Some(WelcomeTabs(test))))
    else NoView
  }

  /** With the flag 0 or 1, every session status renders one of the three views. */
  lemma EveryStatusRenders(status: SessionStatus, test: int, inputString: string, tabIndex: int)
    requires test == 0 || test == 1
    ensures SelectView(status, test, inputString, tabIndex) != NoView
  {
  }

  /** The login page's state: the anonymous-login flag, the typed user name, and the tab it opened on. */
  class LoginPage {
    var test: int
    var inputString: string
    var tabIndex: int

    /** The anonymous-login flag is only ever 0 or 1. */
    ghost predicate Valid()
      reads this
    {
      test == 0 || test == 1
    }

    constructor (tabIndex: int)
      ensures Valid() && test == 0 && inputString == "" && this.tabIndex == tabIndex
    {
      test := 0;
      inputString := "";
      this.tabIndex := tabIndex;
    }

    /** Typing in the user-name box replaces the typed name. */
    method HandleInputChange(value: string)
      requires Valid()
      modifies this`inputString
      ensures Valid() && inputString == value
    {
      inputString := value;
    }

    /** Submitting the anonymous login sets the flag to 1 only when a name has been typed. */
    method SubmitAnonymousLogin()
      requires Valid()
      modifies this`test
      ensures Valid()
      ensures test == if inputString != "" then 1 else old(test)
    {
      if inputString != "" {
        test := 1;
      }
    }

    /** The query pushed when the tab at index is selected; reloading on it opens that tab again. */
    method OnTabSelected(index: int) returns (query: map<string, QueryValue>)
      requires Valid() && (index == 0 || index == 1)
      ensures query == TabSelectionQuery(test, index)
      ensures GetServerSideProps(query).tabIndex == index
    {
      query := TabSelectionQuery(test, index);
    }

    /**
     * Navigating to a query re-renders the same page with the props computed for it: the tab
     * index changes, the flag and the typed name keep their values.
     */
    method Navigate(query: map<string, QueryValue>)
      requires Valid()
      modifies this`tabIndex
      ensures Valid() && tabIndex == GetServerSideProps(query).tabIndex
    {
      var props := GetServerSideProps(query);
      tabIndex := props.tabIndex;
    }

    /** Selecting tab 0 or 1 pushes its query, and the page then shows that tab, with the login state kept. */
    method SelectTab(index: int)
      requires Valid() && (index == 0 || index == 1)
      modifies this`tabIndex
      ensures Valid() && tabIndex == index
      ensures test == old(test) && inputString == old(inputString)
    {
      var query := OnTabSelected(index);
      Navigate(query);
    }

    /** The view the page renders for a session status: always one of the three views. */
    method Render(status: SessionStatus) returns (v: LoginView)
      requires Valid()
      ensures v == SelectView(status, test, inputString, tabIndex)
      ensures v.LoginForm? || v.Spinner? || v.Welcome?
    {
      if status == Unauthenticated && test == 0 {
        return LoginForm;
      }
      if status == Loading {
        return Spinner;
      }
      var greeting := if test != 0 then AnonymousName(inputString) else SessionUser;
      v := Welcome(greeting, Tabs(Some(tabIndex), Some(WelcomeTabs(test))));
    }
  }
}

/**
 * The team screen's container (shared/teams/team/container.tsx): it maps the store and the
 * route to the screen's props, builds the section list, and remembers for the session
 * which tab was last selected.
 */
module TeamContainer {
  import opened Wrappers

  /** Types.TabKey: the name of a tab of the team screen. */
  type TabKey = string

  const MembersTab: TabKey := "members"

  const LoadErrorMessage: string := "There was a problem loading the team page, please report this error."

  /** JavaScript's `tab || 'members'`: a missing or empty tab falls back to the members tab. */
  function TabOrMembers(tab: Option<TabKey>): (r: TabKey)
    ensures r != ""
    ensures tab.Some? && tab.value != "" ==> r == tab.value
    ensures tab.None? || tab.value == "" ==> r == MembersTab
  {
    if tab.Some? && tab.value != "" then tab.value else MembersTab
  }

  /** The screen's route props; `teamID` may be absent. */
  datatype RouteProps = RouteProps(teamID: Option<string>)

  /** Container.getRouteProps(props, 'teamID', ''): the team ID, or '' when absent. */
  function RouteTeamID(p: RouteProps): (id: string)
    ensures id == "" <==> p.teamID.None? || p.teamID.value == ""
    ensures p.teamID.Some? ==> id == p.teamID.value
  {
    match p.teamID
    case Some(id) => id
    case None => ""
  }

  datatype OwnProps = OwnProps(route: RouteProps, selectedTab: TabKey)

  /**
   * The part of the store that mapStateToProps reads. Constants.getTeamDetails and
   * getCanPerformByID are not part of this model and stay uninterpreted.
   */
  datatype Store<!Details, Ops> = Store(
    getTeamDetails: string -> Details,
    teamnameOf: Details -> string,
    getCanPerformByID: string -> Ops,
    username: string)

  datatype StateProps<Details, Ops> = StateProps(
    teamnameTodoRemove: string,
    selectedTab: TabKey,
    teamDetails: Details,
    teamID: string,
    yourOperations: Ops,
    yourUsername: string)

  datatype LoadError = LoadError(message: string)

  /**
   * mapStateToProps: a missing or empty team ID throws the load error; otherwise the props
   * carry that team's details and operations and the selected tab, defaulting to members.
   */
  function MapStateToProps<Details, Ops>(store: Store<Details, Ops>, own: OwnProps): (r: Result<StateProps<Details, Ops>, LoadError>)
    ensures r.Err? <==> own.route.teamID.None? || own.route.teamID.value == ""
    ensures r.Err? ==> r.error == LoadError(LoadErrorMessage)
    ensures r.Ok? ==> r.value.teamID == own.route.teamID.value && r.value.teamID != ""
    ensures r.Ok? ==> r.value.selectedTab == (if own.selectedTab != "" then own.selectedTab else MembersTab)
    ensures r.Ok? ==> r.value.teamDetails == store.getTeamDetails(r.value.teamID) &&
                      r.value.teamnameTodoRemove == store.teamnameOf(r.value.teamDetails) &&
                      r.value.yourOperations == store.getCanPerformByID(r.value.teamID) &&
                      r.value.yourUsername == store.username
  {
    var teamID := RouteTeamID(own.route);
    if teamID == "" then Err(LoadError(LoadErrorMessage))
    else
      var details := store.getTeamDetails(teamID);
      Ok(StateProps(
        store.teamnameOf(details),
        TabOrMembers(Some(own.selectedTab)),
        details,
        teamID,
        store.getCanPerformByID(teamID),
        store.username))
  }

  /** A section of the screen's list: its key, its rows and the type of its header, if any. */
  datatype Section<Row> = Section(key: string, data: seq<Row>, header: Option<string>)

  /**
   * The section list: on mobile a header section holding the `{type: 'header'}` row
   * (`headerRow`) comes first; the body section, keyed 'body' with a tabs header and
   * holding the rows, always comes last.
   */
  function Sections<Row>(isMobile: bool, headerRow: Row, rows: seq<Row>): (s: seq<Section<Row>>)
    ensures |s| == if isMobile then 2 else 1
    ensures s[|s| - 1] == Section("body", rows, Some("tabs"))
    ensures isMobile ==> s[0] == Section("header", [headerRow], None)
    ensures forall i, j :: 0 <= i < j < |s| ==> s[i].key != s[j].key
  {
    (if isMobile then [Section("header", [headerRow], None)] else []) +
    [Section("body", rows, Some("tabs"))]
  }

  /**
   * The props handed to the screen by the connect's merge function. `loadTeamname` is what
   * `load` passes to the get-details action; `tabMemoryKey` is the key under which the
   * screen's setSelectedTab stores the tab.
   */
  datatype ScreenProps<Row> = ScreenProps(
    rows: seq<Row>,
    sections: seq<Section<Row>>,
    selectedTab: TabKey,
    teamID: string,
    teamname: string,
    loadTeamname: string,
    tabMemoryKey: string)

  /** The merge function as written: setSelectedTab passes the team NAME to _setSelectedTab. */
  function MergeProps<Details, Ops, Row>(
    sp: StateProps<Details, Ops>, isMobile: bool, headerRow: Row,
    makeRows: (Details, TabKey, string, Ops) -> seq<Row>): (p: ScreenProps<Row>)
    ensures p.rows == makeRows(sp.teamDetails, sp.selectedTab, sp.yourUsername, sp.yourOperations)
    ensures p.sections == Sections(isMobile, headerRow, p.rows)
    ensures p.selectedTab == sp.selectedTab && p.teamID == sp.teamID
    ensures p.teamname == sp.teamnameTodoRemove && p.loadTeamname == sp.teamnameTodoRemove
    ensures p.tabMemoryKey == sp.teamnameTodoRemove
  {
    var rows := makeRows(sp.teamDetails, sp.selectedTab, sp.yourUsername, sp.yourOperations);
    ScreenProps(rows, Sections(isMobile, headerRow, rows), sp.selectedTab, sp.teamID,
                sp.teamnameTodoRemove, sp.teamnameTodoRemove, sp.teamnameTodoRemove)
  }

  /** The merge function with the tab stored under the team ID, where TabsState reads it. */
  function MergePropsIntended<Details, Ops, Row>(
    sp: StateProps<Details, Ops>, isMobile: bool, headerRow: Row,
    makeRows: (Details, TabKey, string, Ops) -> seq<Row>): (p: ScreenProps<Row>)
    ensures p.tabMemoryKey == p.teamID
    ensures p.(tabMemoryKey := sp.teamnameTodoRemove) == MergeProps(sp, isMobile, headerRow, makeRows)
  {
    MergeProps(sp, isMobile, headerRow, makeRows).(tabMemoryKey := sp.teamID)
  }

  /** The body section is the last one and holds exactly the rows the screen shows. */
  lemma BodyHoldsRows<Details, Ops, Row>(
    sp: StateProps<Details, Ops>, isMobile: bool, headerRow: Row,
    makeRows: (Details, TabKey, string, Ops) -> seq<Row>)
    ensures var p := MergeProps(sp, isMobile, headerRow, makeRows);
      p.sections[|p.sections| - 1].key == "body" &&
      p.sections[|p.sections| - 1].data == p.rows &&
      forall i :: 0 <= i < |p.sections| - 1 ==> p.sections[i].key == "header" && p.sections[i].data == [headerRow]
  {
  }

  // ---------------------------------------------------------------------------
  // Tab memory

  /** `lastSelectedTabs[teamID] || 'members'`. */
  function RememberedTab(memory: map<string, TabKey>, teamID: string): (t: TabKey)
    ensures t != ""
    ensures teamID in memory && memory[teamID] != "" ==> t == memory[teamID]
    ensures teamID in memory && memory[teamID] == "" ==> t == MembersTab
    ensures teamID !in memory ==> t == MembersTab
  {
    TabOrMembers(if teamID in memory then Some(memory[teamID]) else None)
  }

  /** The module-level `lastSelectedTabs` object, alive for the whole session. */
  class Session {
    var lastSelectedTabs: map<string, TabKey>

    constructor ()
      ensures lastSelectedTabs == map[]
    {
      lastSelectedTabs := map[];
    }
  }

  /** The TabsState component: it owns the selected tab and renders the connected screen. */
  class TabsState {
    const session: Session
    var props: RouteProps
    var selectedTab: TabKey

    /** The initial state: the tab remembered for the route's team ID, else members. */
    constructor (session: Session, props: RouteProps)
      ensures this.session == session && this.props == props
      ensures selectedTab == RememberedTab(session.lastSelectedTabs, RouteTeamID(props))
    {
      this.session := session;
      this.props := props;
      selectedTab := RememberedTab(session.lastSelectedTabs, RouteTeamID(props));
    }

    /** setSelectedTab: `setState({selectedTab})`. */
    method SetSelectedTab(tab: TabKey)
      modifies this`selectedTab
      ensures selectedTab == tab
    {
      selectedTab := tab;
    }

    /** componentDidUpdate: a new team ID resets the tab; the same team ID leaves it alone. */
    method ComponentDidUpdate(prevProps: RouteProps)
      modifies this`selectedTab
      ensures RouteTeamID(props) != RouteTeamID(prevProps) ==>
        selectedTab == RememberedTab(session.lastSelectedTabs, RouteTeamID(props))
      ensures RouteTeamID(props) == RouteTeamID(prevProps) ==> selectedTab == old(selectedTab)
    {
      var teamID := RouteTeamID(props);
      if teamID != RouteTeamID(prevProps) {
        SetSelectedTab(RememberedTab(session.lastSelectedTabs, teamID));
      }
    }

    /** New route props arrive; React re-renders and then runs componentDidUpdate. */
    method ReceiveProps(newProps: RouteProps)
      modifies this`props, this`selectedTab
      ensures props == newProps
      ensures RouteTeamID(newProps) != RouteTeamID(old(props)) ==>
        selectedTab == RememberedTab(session.lastSelectedTabs, RouteTeamID(newProps))
      ensures RouteTeamID(newProps) == RouteTeamID(old(props)) ==> selectedTab == old(selectedTab)
    {
      var prevProps := props;
      props := newProps;
      ComponentDidUpdate(prevProps);
    }
  }

  /**
   * mapDispatchToProps' `_setSelectedTab(key, tab)`: stores the tab under `key` in the
   * session memory, leaving every other entry alone, and selects it in the component.
   */
  method DispatchSetSelectedTab(session: Session, tabs: TabsState, key: string, tab: TabKey)
    requires tabs.session == session
    modifies session, tabs`selectedTab
    ensures session.lastSelectedTabs == old(session.lastSelectedTabs)[key := tab]
    ensures tabs.selectedTab == tab && tabs.props == old(tabs.props)
  {
    session.lastSelectedTabs := session.lastSelectedTabs[key := tab];
    tabs.SetSelectedTab(tab);
  }

  /**
   * The screen's setSelectedTab: the closure built by the merge function, which calls
   * _setSelectedTab with the key it chose.
   */
  method ScreenSetSelectedTab<Row>(session: Session, tabs: TabsState, screen: ScreenProps<Row>, tab: TabKey)
    requires tabs.session == session
    modifies session, tabs`selectedTab
    ensures session.lastSelectedTabs == old(session.lastSelectedTabs)[screen.tabMemoryKey := tab]
    ensures tabs.selectedTab == tab && tabs.props == old(tabs.props)
  {
    DispatchSetSelectedTab(session, tabs, screen.tabMemoryKey, tab);
  }

  /**
   * As written, when a team's name differs from its ID, selecting a tab on its screen does
   * not change the tab a later TabsState for that team starts with.
   */
  lemma SelectionIgnoredOnRemount<Details, Ops, Row>(
    sp: StateProps<Details, Ops>, isMobile: bool, headerRow: Row,
    makeRows: (Details, TabKey, string, Ops) -> seq<Row>,
    memory: map<string, TabKey>, tab: TabKey)
    requires sp.teamnameTodoRemove != sp.teamID
    ensures var key := MergeProps(sp, isMobile, headerRow, makeRows).tabMemoryKey;
      RememberedTab(memory[key := tab], sp.teamID) == RememberedTab(memory, sp.teamID)
  {
  }

  /** The stores used by the concrete scenario below: team "t_1" is named "acme". */
  function AcmeStore(): (st: Store<string, int>)
    ensures st.teamnameOf(st.getTeamDetails("t_1")) == "acme" && st.username == "alice"
  {
    Store((id: string) => if id == "t_1" then "acme" else "", (d: string) => d, (id: string) => 0, "alice")
  }

  /**
   * Concretely: on a fresh session, selecting "channels" on the screen of team "t_1" named
   * "acme" and then mounting that team's screen again starts on "members".
   */
  lemma ChannelsForgottenOnRemount()
    ensures var r := MapStateToProps(AcmeStore(), OwnProps(RouteProps(Some("t_1")), ""));
      r.Ok? &&
      var p := MergeProps(r.value, false, 0, (d: string, t: TabKey, u: string, o: int) => []);
      RememberedTab(map[][p.tabMemoryKey := "channels"], "t_1") == MembersTab
  {
  }

  /** With the tab stored under the team ID, a later TabsState for that team starts on it. */
  lemma SelectionRestoredOnRemount<Details, Ops, Row>(
    sp: StateProps<Details, Ops>, isMobile: bool, headerRow: Row,
    makeRows: (Details, TabKey, string, Ops) -> seq<Row>,
    memory: map<string, TabKey>, tab: TabKey)
    requires tab != ""
    ensures var key := MergePropsIntended(sp, isMobile, headerRow, makeRows).tabMemoryKey;
      RememberedTab(memory[key := tab], sp.teamID) == tab
  {
  }

  /** A selection on one team's screen never changes what another team ID restores. */
  lemma SelectionIsolated(memory: map<string, TabKey>, key: string, tab: TabKey, otherID: string)
    requires otherID != key
    ensures RememberedTab(memory[key := tab], otherID) == RememberedTab(memory, otherID)
  {
  }
}

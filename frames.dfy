/** What View shows: one of four layouts chosen by the state, placed in the
    terminal's width and height, or the bare text "Invalid state". Styling
    (colours, borders, margins) is not modelled; each layout keeps the
    content that varies with the model. */
module Frames {
  import opened Text
  import opened Db
  import opened Transitions

  /** One dashboard tab and whether it is drawn in the active style. */
  datatype Tab = Tab(title: string, active: bool)

  /** The content of each layout. */
  datatype Body =
    | WizardBody(inputs: seq<Field>)                          // title, the five inputs, the connect button
    | DashboardBody(tabs: seq<Tab>, tableLines: seq<string>)  // tab bar, one line per table, quit hint
    | ErrorBody(message: string)                              // "Error: " and the message, retry button
    | LoadingBody                                             // the loading notice

  /** A frame centred in a `width` x `height` area, or unplaced text. */
  datatype Frame = Placed(width: int, height: int, body: Body) | Bare(text: string)

  const TabLabels := ["Dashboard", "Queries", "Logs", "Settings"]
  const InvalidState := "Invalid state"

  /** The row count shown for `table`: Go's map lookup yields 0 for a missing key. */
  function ShownCount(counts: map<string, int>, table: string): (n: int)
  {
    if table in counts then counts[table] else 0
  }

  /** One line of the table list: `<name>: <count> rows`. */
  function TableLine(table: string, counts: map<string, int>): (line: string)
    ensures |table| + 2 + 5 < |line|
    ensures line[..|table| + 2] == table + ": " && line[|line| - 5..] == " rows"
  {
    table + ": " + Decimal(ShownCount(counts, table)) + " rows"
  }

  /** The table list, in the order of `tables`. */
  function TableLines(tables: seq<string>, counts: map<string, int>): (lines: seq<string>)
  {
    seq(|tables|, i requires 0 <= i < |tables| => TableLine(tables[i], counts))
  }

  /** The tab bar with the tab at `selected` marked active. */
  function TabBar(selected: int): (tabs: seq<Tab>)
  {
    seq(|TabLabels|, i requires 0 <= i < |TabLabels| => Tab(TabLabels[i], i == selected))
  }

  function WizardFrame(s: AppState): (f: Frame)
  {
    Placed(s.width, s.height, WizardBody(s.fields))
  }

  function DashboardFrame(s: AppState): (f: Frame)
  {
    Placed(s.width, s.height, DashboardBody(TabBar(s.selectedTab), TableLines(s.tables, s.tableRowCount)))
  }

  function ErrorFrame(s: AppState): (f: Frame)
  {
    Placed(s.width, s.height, ErrorBody(s.errorMessage))
  }

  function LoadingFrame(s: AppState): (f: Frame)
  {
    Placed(s.width, s.height, LoadingBody)
  }

  /** View: a switch on the state. */
  function ViewOf(s: AppState): (f: Frame)
    ensures f.Placed? ==> f.width == s.width && f.height == s.height
    ensures f.Bare? <==> !(StateConfigWizard <= s.state <= StateQuerying)
  {
    if s.state == StateConfigWizard then WizardFrame(s)
    else if s.state == StateConnected then DashboardFrame(s)
    else if s.state == StateError then ErrorFrame(s)
    else if s.state == StateQuerying then LoadingFrame(s)
    else Bare(InvalidState)
  }

  /** The layout is chosen by the state alone: each of the four states has
      its own layout, placed in the model's size, and any other value gives
      "Invalid state". */
  lemma LayoutByState(s: AppState)
    ensures ViewOf(s).Placed? <==> StateConfigWizard <= s.state <= StateQuerying
    ensures ViewOf(s).Placed? ==> ViewOf(s).width == s.width && ViewOf(s).height == s.height
    ensures ViewOf(s).Bare? ==> ViewOf(s) == Bare(InvalidState)
    ensures && (ViewOf(s).Placed? && ViewOf(s).body.WizardBody? <==> s.state == StateConfigWizard)
            && (ViewOf(s).Placed? && ViewOf(s).body.DashboardBody? <==> s.state == StateConnected)
            && (ViewOf(s).Placed? && ViewOf(s).body.ErrorBody? <==> s.state == StateError)
            && (ViewOf(s).Placed? && ViewOf(s).body.LoadingBody? <==> s.state == StateQuerying)
  {
  }

  /** The dashboard shows the four tabs in order with exactly the selected
      one active, and one line per table, in order, starting with the
      table's name and reading back to the count on record (0 if none). */
  lemma DashboardContent(s: AppState)
    requires s.state == StateConnected
    ensures ViewOf(s).Placed? && ViewOf(s).body.DashboardBody?
    ensures var b := ViewOf(s).body;
      && |b.tabs| == TabCount
      && (forall i | 0 <= i < TabCount :: b.tabs[i].title == TabLabels[i] && (b.tabs[i].active <==> i == s.selectedTab))
      && (0 <= s.selectedTab < TabCount ==> exists i :: 0 <= i < TabCount && b.tabs[i].active)
      && |b.tableLines| == |s.tables|
      && forall i | 0 <= i < |s.tables| ::
           var line, name := b.tableLines[i], s.tables[i];
           && |name| + 2 + 5 <= |line|
           && line[..|name| + 2] == name + ": "
           && line[|line| - 5..] == " rows"
           && ParseDecimal(line[|name| + 2..|line| - 5]) == ShownCount(s.tableRowCount, name)
  {
    var b := ViewOf(s).body;
    if 0 <= s.selectedTab < TabCount {
      assert b.tabs[s.selectedTab].active;
    }
    forall i | 0 <= i < |s.tables|
      ensures var line, name := b.tableLines[i], s.tables[i];
           && |name| + 2 + 5 <= |line|
           && line[..|name| + 2] == name + ": "
           && line[|line| - 5..] == " rows"
           && ParseDecimal(line[|name| + 2..|line| - 5]) == ShownCount(s.tableRowCount, name)
    {
      var name := s.tables[i];
      var digits := Decimal(ShownCount(s.tableRowCount, name));
      var line := name + ": " + digits + " rows";
      assert b.tableLines[i] == line;
      assert line[|name| + 2..|line| - 5] == digits;
      DecimalRoundTrip(ShownCount(s.tableRowCount, name));
    }
  }

  /** After a fetch in which every count succeeded, the dashboard lists every
      table of the database in the order listed, each with the count the
      driver returned for it. */
  lemma DashboardAfterFetch(s: AppState, d: Driver)
    requires s.db.Some?
    requires d.select(s.db.value, TablesQuery).Ok?
    requires var tables := d.select(s.db.value, TablesQuery).value;
      forall i | 0 <= i < |tables| :: DriverCount(s.db.value, tables[i], d).Ok?
    ensures var tables := d.select(s.db.value, TablesQuery).value;
      var f := ViewOf(FetchTableData(s, d));
      && f.Placed? && f.body.DashboardBody?
      && |f.body.tableLines| == |tables|
      && forall i | 0 <= i < |tables| ::
           f.body.tableLines[i] == tables[i] + ": " + Decimal(DriverCount(s.db.value, tables[i], d).value) + " rows"
  {
    FetchSucceeds(s, d);
  }

  /** The error screen shows the message on record. */
  lemma ErrorShowsMessage(s: AppState)
    requires s.state == StateError
    ensures ViewOf(s) == Placed(s.width, s.height, ErrorBody(s.errorMessage))
  {
  }
}

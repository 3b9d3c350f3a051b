/** The `model` of ui.go as an object updated in place: the state, the five
    text inputs (an array, focused flag and text each), the focus index,
    the error message, the terminal size, the selected tab, the database
    handle, the table list and the row-count map. Each method is proved to
    do to the fields what the functions of module Transitions and Frames
    say, so the lemmas there are about this object too. */
module Ui {
  import opened Text
  import opened Db
  import opened Transitions
  import opened Frames

  class Model {
    var state: int
    var configInputs: array<Field>
    var focusedInput: int
    var errorMessage: string
    var width: int
    var height: int
    var selectedTab: int
    var db: Option<Handle>
    var tables: seq<string>
    var tableRowCount: map<string, int>

    /** The fields as a value. */
    function Abs(): AppState
      reads this, configInputs
    {
      AppState(state, configInputs[..], focusedInput, errorMessage, width, height,
               selectedTab, db, tables, tableRowCount)
    }

    ghost predicate Valid()
      reads this, configInputs
    {
      configInputs.Length == InputCount && Inv(Abs())
    }

    /** initialModel */
    constructor ()
      ensures Valid() && fresh(configInputs)
      ensures Abs() == Initial()
    {
      var inputs := new Field[InputCount](_ => Field("", false));
      inputs[0] := inputs[0].(focused := true);
      state := StateConfigWizard;
      configInputs := inputs;
      focusedInput := 0;
      errorMessage := "";
      width, height := 0, 0;
      selectedTab := 0;
      db := None;
      tables := [];
      tableRowCount := map[];
      new;
      assert configInputs[..] == Initial().fields;
    }

    /** The Focus/Blur loop over the inputs. */
    method FocusInput()
      requires configInputs.Length == InputCount
      modifies configInputs
      ensures configInputs[..] == FocusOnly(old(configInputs[..]), focusedInput)
    {
      var i := 0;
      while i < configInputs.Length
        invariant 0 <= i <= configInputs.Length
        invariant forall j | 0 <= j < i :: configInputs[j] == old(configInputs[j]).(focused := j == focusedInput)
        invariant forall j | i <= j < configInputs.Length :: configInputs[j] == old(configInputs[j])
      {
        if i == focusedInput {
          configInputs[i] := configInputs[i].(focused := true);
        } else {
          configInputs[i] := configInputs[i].(focused := false);
        }
        i := i + 1;
      }
    }

    /** The pass of a key message over the inputs; only a focused input edits its text. */
    method ForwardKey(key: string, edit: Editor)
      modifies configInputs
      ensures configInputs[..] == EditFocused(old(configInputs[..]), key, edit)
    {
      var i := 0;
      while i < configInputs.Length
        invariant 0 <= i <= configInputs.Length
        invariant forall j | 0 <= j < i ::
          configInputs[j] == if old(configInputs[j]).focused
                             then old(configInputs[j]).(value := edit(old(configInputs[j]).value, key))
                             else old(configInputs[j])
        invariant forall j | i <= j < configInputs.Length :: configInputs[j] == old(configInputs[j])
      {
        if configInputs[i].focused {
          configInputs[i] := configInputs[i].(value := edit(configInputs[i].value, key));
        }
        i := i + 1;
      }
    }

    /** Update: reports whether the program quits and whether the table
        fetch is to be started (the source starts it in a goroutine). */
    method Update(msg: Msg, d: Driver, edit: Editor) returns (quit: bool, startFetch: bool)
      requires Valid()
      modifies this, configInputs
      ensures Valid() && configInputs == old(configInputs)
      ensures var t := Step(old(Abs()), msg, d, edit);
        Abs() == t.next && quit == t.quit && startFetch == t.startFetch
    {
      StepKeepsInv(Abs(), msg, d, edit);
      quit, startFetch := false, false;
      match msg {
        case Resize(w, h) =>
          width, height := w, h;
        case Key(key) =>
          if state == StateConfigWizard {
            if key == "ctrl+c" {
              quit := true;
              return;
            } else if key == "tab" || key == "down" {
              focusedInput := GoRem(focusedInput + 1, configInputs.Length);
              FocusInput();
            } else if key == "shift+tab" || key == "up" {
              focusedInput := GoRem(focusedInput - 1 + configInputs.Length, configInputs.Length);
              FocusInput();
            } else if key == "enter" {
              var config := DBConfig(configInputs[0].value, configInputs[1].value, configInputs[2].value,
                                     configInputs[3].value, configInputs[4].value);
              var conn := ConnectToDatabase(config, d).result;
              if conn.Err? {
                errorMessage := conn.error;
                state := StateError;
              } else {
                db := Some(conn.value);
                state := StateQuerying;
                startFetch := true;
              }
            }
          } else if state == StateError {
            if key == "enter" {
              state := StateConfigWizard;
            } else if key == "ctrl+c" {
              quit := true;
              return;
            }
          } else if state == StateConnected {
            if key == "ctrl+c" || key == "q" {
              quit := true;
              return;
            } else if key == "left" {
              selectedTab := GoRem(selectedTab - 1 + TabCount, TabCount);
            } else if key == "right" {
              selectedTab := GoRem(selectedTab + 1, TabCount);
            }
          }
          ForwardKey(key, edit);
      }
    }

    /** fetchTableData, run to completion: list the tables, store them, then
        record each table's row count in order, stopping at the first error. */
    method FetchTableData(d: Driver)
      requires Valid() && db.Some?
      modifies this
      ensures Valid() && configInputs == old(configInputs)
      ensures Abs() == Transitions.FetchTableData(old(Abs()), d)
    {
      FetchKeepsInv(Abs(), d);
      var listed := FetchTables(db.value, d).result;
      if listed.Err? {
        errorMessage := TablesLoadFailed + listed.error;
        state := StateError;
        return;
      }
      var ts := listed.value;
      tables := ts;
      var i := 0;
      while i < |ts|
        invariant 0 <= i <= |ts|
        invariant db == old(db) && configInputs == old(configInputs)
        invariant CountRows(Abs(), ts[i..], d) == Transitions.FetchTableData(old(Abs()), d)
      {
        var count := FetchRowCount(db.value, ts[i], d).result;
        if count.Err? {
          errorMessage := RowCountFailed + ts[i] + ": " + count.error;
          state := StateError;
          return;
        }
        tableRowCount := tableRowCount[ts[i] := count.value];
        assert ts[i..][1..] == ts[i + 1..];
        i := i + 1;
      }
      state := StateConnected;
    }

    /** View: the layout picked by the state. */
    method View() returns (f: Frame)
      ensures f == ViewOf(Abs())
    {
      if state == StateConfigWizard {
        f := RenderConfigWizard();
      } else if state == StateConnected {
        f := RenderDatabasePanel();
      } else if state == StateError {
        f := RenderErrorUI();
      } else if state == StateQuerying {
        f := RenderLoadingUI();
      } else {
        f := Bare(InvalidState);
      }
    }

    /** renderConfigWizard: the inputs, in order. */
    method RenderConfigWizard() returns (f: Frame)
      ensures f == WizardFrame(Abs())
    {
      var inputs: seq<Field> := [];
      var i := 0;
      while i < configInputs.Length
        invariant 0 <= i <= configInputs.Length
        invariant inputs == configInputs[..i]
      {
        inputs := inputs + [configInputs[i]];
        i := i + 1;
      }
      assert inputs == configInputs[..];
      f := Placed(width, height, WizardBody(inputs));
    }

    /** renderLoadingUI */
    method RenderLoadingUI() returns (f: Frame)
      ensures f == LoadingFrame(Abs())
    {
      f := Placed(width, height, LoadingBody);
    }

    /** renderErrorUI */
    method RenderErrorUI() returns (f: Frame)
      ensures f == ErrorFrame(Abs())
    {
      f := Placed(width, height, ErrorBody(errorMessage));
    }

    /** renderDatabasePanel: the tab bar, then one line per table. */
    method RenderDatabasePanel() returns (f: Frame)
      ensures f == DashboardFrame(Abs())
    {
      var tabs: seq<Tab> := [];
      var i := 0;
      while i < |TabLabels|
        invariant 0 <= i <= |TabLabels|
        invariant |tabs| == i
        invariant forall j | 0 <= j < i :: tabs[j] == Tab(TabLabels[j], j == selectedTab)
      {
        if i == selectedTab {
          tabs := tabs + [Tab(TabLabels[i], true)];
        } else {
          tabs := tabs + [Tab(TabLabels[i], false)];
        }
        i := i + 1;
      }
      var lines: seq<string> := [];
      var k := 0;
      while k < |tables|
        invariant 0 <= k <= |tables|
        invariant |lines| == k
        invariant forall j | 0 <= j < k :: lines[j] == TableLine(tables[j], tableRowCount)
      {
        var table := tables[k];
        var rowCount := if table in tableRowCount then tableRowCount[table] else 0;
        lines := lines + [table + ": " + Decimal(rowCount) + " rows"];
        k := k + 1;
      }
      assert tabs == TabBar(selectedTab);
      assert lines == TableLines(tables, tableRowCount);
      f := Placed(width, height, DashboardBody(tabs, lines));
    }
  }
}

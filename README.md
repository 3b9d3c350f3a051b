# PUI-Admin terminal UI: a verified model

PUI-Admin is a terminal tool. It walks the user through five connection
fields (user, password, host, port, database name) and connects to
PostgreSQL. It then lists the database's public tables with their row
counts on a tabbed dashboard. This project models two parts of it in Dafny:

- the Bubble Tea `model` of `ui.go`: its four states (configuration wizard,
  connected, error, querying), `Update`, `fetchTableData` and `View`;
- the database layer of `db.go`: the connection string, and the
  error wrapping of `connectToDatabase`, `fetchTables` and
  `fetchRowCount`.

Modules, one per file:

- `Text` (text.dfy): splitting and joining on a character, and Go's `%d`
  formatting with its read-back.
- `Db` (db.go → db.dfy): `DBConfig` and the connection string. The driver
  (`sqlx.Connect`, `Ping`, `Select`, `Get`) is a `Driver` record of functions
  passed in as a parameter. `ConnectToDatabase`, `FetchTables` and
  `FetchRowCount` are pure functions. Each returns its result and the list of
  driver calls it made.
- `Transitions` (ui.go → transitions.dfy): the model's fields as the value
  `AppState`; `Update` as `Step`; `fetchTableData` run to completion as
  `FetchTableData`; and the lemmas about them.
- `Frames` (ui.go → frames.dfy): what `View` shows. A frame is one of four
  layouts with its content, placed in the terminal size, or the bare text
  "Invalid state".
- `Ui` (ui.go → ui.dfy): class `Model` with the same fields as the Go
  struct. The inputs are an `array<Field>`. `Update`, `FetchTableData`,
  `View` and the `render*` methods change or read the fields in place, with
  the loops of the source. Each is proved equal to the function of
  `Transitions` or `Frames` applied to the fields. The lemmas about those
  functions therefore hold for the object.

The synchronous connect inside `Update` calls `Db.ConnectToDatabase` with the
driver. The text input's reaction to a key is a parameter
`edit: (string, string) -> string`. It is applied to each focused input,
for every key message that does not quit, in every state, as the loop at
ui.go:197-203 does.

In these places the code does something a user might not expect. The model
follows the code in each, with one exception (the fetch, last in this list):

- In the error state, "enter" returns to the wizard but does not clear
  `errorMessage` (ui.go:175-176).
- In the querying state no key has a case, so "ctrl+c" does not quit while
  the tables load (ui.go:125-190).
- The row-count map is never cleared. A second connection adds its counts to
  those of the first (ui.go:72, 230).
- A row-count failure names the table twice: "Failed to fetch row count for
  table T: failed to fetch row count for table T: …" (ui.go:226, db.go:58).
- The dashboard shows 0 for a table with no count on record, which is Go's
  zero value for a missing map key (ui.go:319).
- The exception: the model applies `fetchTableData` to the model the program
  keeps. The comments at ui.go:167 ("Fetch tables and row counts") and
  ui.go:233 ("Update state to connected after data is fetched") say this is
  intended. The code does not do it. `go m.fetchTableData()`
  (ui.go:169) runs on a pointer to `Update`'s local copy `m`, and
  `Update` returns a copy of `m` (ui.go:201, 205) that the goroutine's later
  writes do not reach. So, as written, the model the program keeps stays in
  the querying state after every successful connect. The dashboard is never
  shown, and no key leaves that state, not even "ctrl+c" (ui.go:125-190).
  Only the row-count map, which both copies share, fills in. In the model
  the fetch ends connected or in the error state (`Transitions.FetchSucceeds`,
  `Transitions.SuccessfulConnectScenario`, `Frames.DashboardAfterFetch`).

## Model

| member | source | states |
|---|---|---|
| `Text.Decimal` | ui.go:320 | Go's `%d`: a leading '-' exactly for negatives, followed by digits without leading zeros ("0" is the only text starting with '0'); its value is pinned by `Text.DecimalRoundTrip` |
| `Text.DecimalRoundTrip` | ui.go:320 | the `%d` text of a row count reads back as that count |
| `Text.SplitJoin` | db.go:21-22 | splitting on the separator undoes joining, when no piece contains it |
| `Db.ConnString` | db.go:21-22 | the connection string: starts with `user=U password=` and ends with ` sslmode=disable` (its full format is `Db.ConnStringIsWords`) |
| `Db.ConnStringIsWords` | db.go:21-22 | the connection string is the six words `user=U`, `password=P`, `host=H`, `port=PT`, `dbname=D`, `sslmode=disable`, in that order, separated by single spaces |
| `Db.ConnStringRoundTrip` | db.go:21-22 | every field is inserted verbatim and in order: reading the string back gives the configuration, when no field holds a space |
| `Db.ConnStringAmbiguous` | db.go:21-22 | values are not quoted: two different configurations can give the same connection string |
| `Db.ConnectToDatabase` | db.go:19-36 | connect, then ping only after a good connect: one or two driver calls, and a returned handle comes with exactly the calls connect and ping on that handle |
| `Db.ConnectUsesConnString` | db.go:21-25 | the first driver call is a "postgres" connect with the connection string of the configuration |
| `Db.ConnectFailureSkipsPing` | db.go:25-28 | a failed connect gives an error prefixed "failed to connect to the database: ", and no ping is made |
| `Db.PingFailureReported` | db.go:31-33 | a failed ping after a good connect gives an error prefixed "could not ping the database: " |
| `Db.ConnectSucceedsIff` | db.go:19-36 | a handle is returned exactly when both connect and ping succeed, and it is the connect's handle; every error has one of the two prefixes |
| `Db.FetchTables` | db.go:39-49 | exactly one driver call, a Select of the public-tables query |
| `Db.FetchTablesOutcome` | db.go:39-49 | one Select of the public-tables query; the list comes back unchanged, or the error is prefixed "failed to fetch tables: " |
| `Db.CountQuery` | db.go:54 | the count query for a table: as long as the prefix and the name together |
| `Db.CountQueryVerbatim` | db.go:54 | the count query is "SELECT COUNT(*) FROM " followed by the table name, without quoting; distinct names give distinct queries |
| `Db.FetchRowCount` | db.go:52-62 | exactly one driver call, a Get of that table's count query |
| `Db.FetchRowCountOutcome` | db.go:52-62 | one Get of the count query; the count comes back as fetched, and a failed Get gives exactly "failed to fetch row count for table T: " followed by the driver's message |
| `Transitions.Initial` | ui.go:39-73 | the initial model: wizard state, five empty inputs with only input 0 focused, focus 0, tab 0, no tables, empty count map |
| `Transitions.GoRemNonNegative` | ui.go:133 | Go's `%` on a non-negative operand is the mathematical remainder and lies in [0, n) |
| `Transitions.HandleKey` | ui.go:124-190 | the key switch per state; it never changes the terminal size |
| `Transitions.Step` | ui.go:121-206 | Update: a quitting key leaves the model as it was and starts nothing; a fetch is started only from the wizard, into the querying state with a handle stored |
| `Transitions.StepKeepsInv` | ui.go:121-206 | every message keeps the invariant: five inputs, focus in [0,5) with exactly that input focused, tab in [0,4), one of the four states |
| `Transitions.QuitKeys` | ui.go:124-190 | a key quits exactly when it is "ctrl+c" in the wizard or error state, or "ctrl+c"/"q" when connected; quitting leaves the model unchanged |
| `Transitions.FetchStartsOnlyFromWizard` | ui.go:152-170 | the fetch is started only by "enter" in the wizard after a successful connect, which stores the handle and enters the querying state |
| `Transitions.FocusNext` | ui.go:132-140 | "tab"/"down" set the focus to (focus+1) mod 5 and focus exactly that input; only the focus and the focused input's text change |
| `Transitions.FocusPrevious` | ui.go:142-150 | "shift+tab"/"up" set the focus to (focus-1) mod 5, in [0,5) (0 goes to 4), and focus exactly that input |
| `Transitions.FocusCycle` | ui.go:132-150 | n focus presses move the focus n places round the five inputs and keep the wizard state |
| `Transitions.FivePressesReturn` | ui.go:132-150 | five presses of a focus key return the focus to its start; if the input ignores the key, the whole model is unchanged |
| `Transitions.EnterConnects` | ui.go:152-170 | "enter" in the wizard connects with inputs 0..4 as user, password, host, port, dbname; an error sets `errorMessage` to its text and the error state; a handle sets `db`, the querying state and starts the fetch; no other field changes except the focused input's text |
| `Transitions.ErrorRetry` | ui.go:173-179 | "enter" in the error state returns to the wizard with focus and inputs kept and `errorMessage` left as it was |
| `Transitions.TabStep` | ui.go:185-188 | "left"/"right" on the dashboard move the tab by one mod 4, staying in [0,4); "left" from 0 gives 3 |
| `Transitions.TabCycle` | ui.go:185-188 | n tab presses move the tab n places round the four tabs and keep the connected state |
| `Transitions.FourTabPressesReturn` | ui.go:185-188 | four "right" (or "left") presses return to the same tab; if the input ignores the key, the model is unchanged |
| `Transitions.LoadingIgnoresKeys` | ui.go:124-203 | in the querying state no key quits, starts a fetch, or changes anything but the focused input's text |
| `Transitions.OtherKeysOnlyEdit` | ui.go:124-203 | in every state, a key without a case of its own (not a quit key, nor focus, enter or tab keys where those apply) neither quits nor starts a fetch and changes only the focused input's text: state, focus, tab and all else are kept |
| `Transitions.ResizeOnlyViewport` | ui.go:192-195 | a resize in any state changes only width and height; repeating it changes nothing more |
| `Transitions.FetchTableData` | ui.go:208-235 | fetchTableData run to completion: it ends connected or in the error state, and leaves the inputs, the focus and the handle alone |
| `Transitions.CountRows` | ui.go:223-234 | the row-count loop over the tables left: it ends connected or in the error state, and leaves the inputs, the focus, the handle and the table list alone |
| `Transitions.CountRowsAllOk` | ui.go:223-234 | when every count succeeds, the loop records each table's count, keeps the other entries, and ends connected |
| `Transitions.CountRowsFailsAt` | ui.go:223-229 | when the count of table k fails, the loop stops in the error state naming table k, with the counts of the tables before k recorded |
| `Transitions.FetchListFails` | ui.go:211-216 | a failed table list gives the error state with "Failed to load tables: failed to fetch tables: …"; tables and counts untouched |
| `Transitions.FetchCountFails` | ui.go:208-229 | a failed count at table k gives the error state naming that table; the table list is stored and exactly the tables before k have counts added |
| `Transitions.FetchSucceeds` | ui.go:208-234 | when everything succeeds, the state is connected, the tables are stored as listed and every listed table has its fetched count |
| `Transitions.FetchKeepsInv` | ui.go:208-235 | the fetch changes only state, message, tables and counts, ends connected or in error, and keeps the invariant |
| `Transitions.SuccessfulConnectScenario` | ui.go:152-234 | from the initial model, "enter" and the fetch against tables users (3 rows) and orders (0 rows) end connected with exactly those counts |
| `Transitions.FailedPingScenario` | ui.go:152-179 | a failing ping shows "could not ping the database: timeout"; "enter" returns to the wizard with the inputs and the message kept |
| `Frames.ViewOf` | ui.go:238-256 | View: "Invalid state" exactly for a state outside the four, and any other frame is placed in the model's size |
| `Frames.TableLine` | ui.go:319-320 | one table line: the name and ": ", then the count, then " rows" |
| `Frames.LayoutByState` | ui.go:238-256 | the layout is determined by the state: each layout kind exactly when its state holds, placed in the model's size; any other state value gives "Invalid state" |
| `Frames.DashboardContent` | ui.go:295-329 | the dashboard shows the four tabs in order with exactly the selected one active, and one "name: count rows" line per table in order, whose number reads back to the recorded count (0 if none) |
| `Frames.DashboardAfterFetch` | ui.go:208-321 | after a fully successful fetch the dashboard lists every table in the listed order with the count the driver returned |
| `Frames.ErrorShowsMessage` | ui.go:284-292 | the error screen shows the message on record |
| `Ui.Model.constructor` | ui.go:39-73 | the new object holds the initial model |
| `Ui.Model.FocusInput` | ui.go:134-140 | the Focus/Blur loop leaves exactly the input at the focus index focused and all texts unchanged |
| `Ui.Model.ForwardKey` | ui.go:197-203 | the pass over the inputs edits only the focused inputs' texts |
| `Ui.Model.Update` | ui.go:121-206 | the new fields, the quit flag and the fetch start are those of `Step`, and the invariant is kept |
| `Ui.Model.FetchTableData` | ui.go:208-235 | the new fields are those of `Transitions.FetchTableData`, and the invariant is kept |
| `Ui.Model.View` | ui.go:238-256 | returns `ViewOf` of the fields |
| `Ui.Model.RenderConfigWizard` | ui.go:259-275 | the wizard frame holds the five inputs in order, placed in the model's size |
| `Ui.Model.RenderLoadingUI` | ui.go:278-281 | the loading frame, placed in the model's size |
| `Ui.Model.RenderErrorUI` | ui.go:284-292 | the error frame carries `errorMessage` |
| `Ui.Model.RenderDatabasePanel` | ui.go:295-329 | the tab bar with the selected tab active, and one line per table built in the order of `tables` |

## Left out

- config.go is not part of this model. It saves and loads connection profiles as JSON through `encoding/json` and the file system, and no UI path calls it.
- main.go is not part of this model. It only starts the Bubble Tea program and exits with code 1 if that fails.
- Concurrency is not modelled. `fetchTableData` runs to completion as one sequential step on the model the UI keeps. In the source it runs in a goroutine on a pointer to `Update`'s local copy of the model. There, only the shared row-count map would reach the model that Bubble Tea keeps.
- Styling and layout (lipgloss styles, borders, `Place`, the fixed titles and button texts) are not modelled. A frame keeps only its layout and the content that depends on the model.
- The text input component (textinput.Model) is not modelled. Its editing is the `edit` parameter. Its rendering (prompt, placeholder, password echo mask, cursor) is not modelled, and the wizard frame carries the inputs themselves. The commands it returns, and the early return on the first non-nil one, are not modelled either. Only the focused input can change, so the model's fields are the same.
- The driver (sqlx over lib/pq) is a parameter. What a real server answers, including how lib/pq itself parses the connection string, is not modelled.
- The zero values that Go returns beside an error (nil handle, nil table list, count 0) are not modelled. An error is `Err(message)`, and callers never read those values.
- The unused `content` field and the empty `Init` are not modelled.
- Go's 64-bit `int` is unbounded here. The focus and tab arithmetic stays below 10, so no overflow can occur. Sizes and counts are copied, never computed.
- Db.ConnStringRoundTrip: is stated only for fields without spaces, because with unquoted values the string cannot be read back in general (`Db.ConnStringAmbiguous`). `Db.ConnStringIsWords` states the format for all inputs.

# EndPointer: the endpoint table's view state

EndPointer is a browser-extension DevTools panel that lists the endpoints
captured from an inspected page. Its default view, `URLsDefaultView`, shows the
filtered endpoints in a scrollable table and keeps six pieces of view state:

- the source-file filter `selectedLocation` and the webpage filter `selectedWebpage`, both `"All"` at first;
- the open flags of the two filter dropdowns;
- the search text;
- `startIndex`, the first row of the rendered window.

Five kinds of user event change this state: picking a location, picking a
webpage, typing in the search box, scrolling the table, and clicking a dropdown
button. This project models that state machine and proves what each handler
does to each field.

The project has two modules:

- `ScrollWindow` (`scroll_window.dfy`) holds the scroll handler's arithmetic: the
  two 200-pixel thresholds, the 20-row step, the clamped forward step
  `min(prev + 20, max(0, len - size))` and the backward step
  `max(prev - 20, 0)`. `Scrolled` gives the first row after one scroll event.
  `ScrolledTimes` gives it after `k` scroll events against the same geometry.
- `DefaultView` (`default_view.dfy`) holds the whole view state as a value
  (`ViewState`), the events (`Event`), a reducer `Apply` and its fold `Run`. It
  also holds the class `URLsDefaultView`. The class has the component's six
  fields and one method per handler. Each method states every field's new value
  and is proved equal to `Apply` on the old state.

The scroll handler reads three things it does not own: the length of the
filtered list (`len`), the window size constant (`size`) and the table
element's geometry. These are parameters of the scroll event. A table element
that is not mounted is `TableRef.Detached`, and a scroll against it changes
nothing. The handler tests the rendered `startIndex` (line 54) and then updates
from `prev` (line 55). The model uses one current value for both.

## Model

| member | source | states |
|---|---|---|
| ScrollWindow.LastStart | src/routes/urls-defaultview.tsx:53 | the last admissible first row is 0 when the list fits in one window, and otherwise the row whose window ends exactly at the list's end |
| ScrollWindow.Advance | src/routes/urls-defaultview.tsx:52-53 | the forward step never goes past the last admissible row and never below 0 from a non-negative row; it moves a full step when there is room and stops at the last row otherwise; from inside the window it never moves back |
| ScrollWindow.Retreat | src/routes/urls-defaultview.tsx:54-55 | the backward step is never negative and never larger than before; it moves a full step when there is room and stops at 0 otherwise |
| ScrollWindow.Scrolled | src/routes/urls-defaultview.tsx:46-58 | one scroll keeps the first row non-negative and inside `[0, max(0, len - size)]` when it started there; the row changes only if the table is mounted and the bottom test holds, or the top test holds with a first row above 0 |
| ScrollWindow.BottomTakesPriority | src/routes/urls-defaultview.tsx:52-55 | when both the bottom and the top tests hold, the window moves forward, not back (the `else if`) |
| ScrollWindow.BottomAdvances | src/routes/urls-defaultview.tsx:52-53 | whenever the bottom test holds, the scroll's result is the clamped forward step, whatever the top test says |
| ScrollWindow.TopRetreats | src/routes/urls-defaultview.tsx:54-55 | when only the top test holds and the first row is above 0, the window moves back by the clamped step and strictly decreases |
| ScrollWindow.AtEndStaysPut | src/routes/urls-defaultview.tsx:52-53 | a window at its last row stays there on a bottom scroll |
| ScrollWindow.BottomScrollReclamps | src/routes/urls-defaultview.tsx:52-53 | a first row past the last admissible row is pulled back to it by a bottom scroll |
| ScrollWindow.AdvanceThenRetreat | src/routes/urls-defaultview.tsx:52-55 | an unclamped bottom scroll followed by a top scroll returns to the starting row |
| ScrollWindow.ScrollDownFromTop | src/routes/urls-defaultview.tsx:52-53 | from row 0, `k` bottom scrolls give `min(20 * k, max(0, len - size))` |
| ScrollWindow.ScrollDownStopsAtSixty | src/routes/urls-defaultview.tsx:52-53 | with 100 rows and a 40-row window, bottom scrolls go 20, 40, 60 and stay at 60 |
| ScrollWindow.ScrollUpToTop | src/routes/urls-defaultview.tsx:54-55 | from a non-negative row, `k` top-only scrolls give `max(start - 20 * k, 0)` |
| ScrollWindow.ScrolledTimesInWindow | src/routes/urls-defaultview.tsx:46-58 | any number of scrolls against one geometry keeps the first row inside `[0, max(0, len - size)]` |
| DefaultView.Apply | src/routes/urls-defaultview.tsx:29-116 | an event that changes any filter (location, webpage or search text) resets the first row to 0; the first row changes only on a scroll or by a reset to 0; it never becomes negative; a scroll changes nothing but the first row; a dropdown toggle changes neither the filters nor the first row |
| DefaultView.ApplyKeepsWindow | src/routes/urls-defaultview.tsx:29-58 | every event keeps the first row inside `[0, max(0, len - size)]` for a fixed list length |
| DefaultView.RunKeepsWindow | src/routes/urls-defaultview.tsx:29-58 | every sequence of events keeps the first row inside `[0, max(0, len - size)]` for a fixed list length |
| DefaultView.RunFromNonNegative | src/routes/urls-defaultview.tsx:29-58 | the first row never becomes negative, whatever the events and list lengths |
| DefaultView.ReachableInWindow | src/routes/urls-defaultview.tsx:12-58 | every state reached from the initial one has its first row inside `[0, max(0, len - size)]` for a fixed list length |
| DefaultView.ApplyKeepsCurrentWindow | src/routes/urls-defaultview.tsx:29-58 | every event keeps the first row inside `[0, max(0, len - size)]` for the list length its current filters select: a filter change resets the row to 0, any other event keeps the filters |
| DefaultView.RunKeepsCurrentWindow | src/routes/urls-defaultview.tsx:29-58 | every sequence of events keeps the first row inside the bounds of the list its current filters select, when each scroll sees that length |
| DefaultView.ReachableInCurrentWindow | src/routes/urls-defaultview.tsx:12-58 | every state reached from the initial one has its first row inside the bounds of the list its filters select |
| DefaultView.ToggleTwiceRestores | src/routes/urls-defaultview.tsx:99-116 | clicking a dropdown button twice restores the whole state |
| DefaultView.SelectIdempotent | src/routes/urls-defaultview.tsx:29-39 | picking the same location (or webpage) twice is the same as picking it once |
| DefaultView.SelectionsCommute | src/routes/urls-defaultview.tsx:29-39 | picking a location and a webpage gives the same state in either order |
| DefaultView.LastSearchWins | src/routes/urls-defaultview.tsx:41-44 | two search edits in a row leave the state the second alone would |
| DefaultView.URLsDefaultView.constructor | src/routes/urls-defaultview.tsx:12-17 | the component mounts with both selections `"All"`, both dropdowns closed, an empty search text and first row 0 |
| DefaultView.URLsDefaultView.HandleSelectLocation | src/routes/urls-defaultview.tsx:29-33 | sets the location, closes its dropdown and resets the first row; the webpage selection, the search text and the webpage dropdown are unchanged |
| DefaultView.URLsDefaultView.HandleSelectWebpage | src/routes/urls-defaultview.tsx:35-39 | sets the webpage, closes its dropdown and resets the first row; the location selection, the search text and the location dropdown are unchanged |
| DefaultView.URLsDefaultView.HandleSearchChange | src/routes/urls-defaultview.tsx:41-44 | sets the search text and resets the first row; both selections and both dropdown flags are unchanged |
| DefaultView.URLsDefaultView.HandleScroll | src/routes/urls-defaultview.tsx:46-58 | sets the first row to `Scrolled` of the old one, keeps it inside the window bounds when it was inside, and changes no other field |
| DefaultView.URLsDefaultView.ToggleLocationDropdown | src/routes/urls-defaultview.tsx:99 | flips the location dropdown's flag and changes no other field |
| DefaultView.URLsDefaultView.ToggleWebpageDropdown | src/routes/urls-defaultview.tsx:116 | flips the webpage dropdown's flag and changes no other field |

## Left out

- src/DevTool/DevtoolRouter.tsx is not part of this model. It only creates the DevTools panel, logs and wires routes through browser and React APIs.
- The record filtering and window slicing (`filteredURLs`, `visibleUrls`, `jsFiles`, `webpages`) happen in `useURLData`, which is not part of this model. The filtered-list length is an opaque parameter of the scroll event.
- The value of `VISIBLE_URL_SIZE` is defined in a constants file that is not part of this model. The window size is a parameter.
- `clearURLs` is a storage side effect implemented elsewhere. The window invariant is proved against the list length the current filters select over an unchanged record store (`count` in `RunKeepsCurrentWindow`). When the store itself changes (cleared, or new endpoints captured), the handlers do not re-clamp `startIndex`. `BottomScrollReclamps` shows that the next bottom scroll pulls it back.
- The JSX markup, CSS classes, `document.location` checks and child components are rendering details with no state of their own.
- React scheduling (setter batching, stale closures, re-render timing) is not modelled. Each handler is one atomic transition.
- ScrollWindow.Scrolled: `scrollTop` is modelled as an integer, but the browser can report it as a fractional number; `scrollHeight` and `clientHeight` are integers. `Scrolled` depends on the geometry only through the two threshold tests, and integer inputs reach all four combinations of their outcomes.

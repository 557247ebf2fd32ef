# yoshi-meter store slices in Dafny

This project models the client-side state layer of yoshi-meter, a mobile app that tracks one
pitcher's games, statistics and news. The layer has five independent store slices. Each slice
is a record of fields plus a set of reducers, and each reducer is a deterministic step from the
old state and an action payload to a new state:

- **stats** (`stats_slice.dfy`, module `Stats`): three strikeout counters (current game, season,
  career) that an increment moves in lockstep, two setters that overwrite one counter each, the
  season stat cards, and the fetch flags.
- **notifications** (`notifications_slice.dfy`, module `Notifications`): a list of preference
  categories, each with its own list of sub-options. Two toggles find a record by id (first
  match) and flip one flag. A missed lookup is a silent no-op, and toggling a category does not
  cascade to its options.
- **news** (`news_slice.dfy`, module `News`): the article list. `addNews` puts an item in front
  without checking for duplicates. There is also bulk replacement and the fetch flags.
- **games** (`games_slice.dfy`, module `Games`): upcoming and previous games and an optional
  current game. `updateCurrentGame` is a shallow field-by-field merge and does nothing when there
  is no current game. There are also the fetch flags.
- **settings** (`settings_slice.dfy`, module `Settings`): language (`ja` or `en`), dark mode and
  use-system-theme. Setting dark mode always clears use-system-theme.

Each slice has the same layout:

- a value record `XState`;
- an action datatype whose constructors are the slice's exported action creators;
- the reducer as a pure function `Reduce(s, a)`, whose contract states what each action changes
  and what it leaves alone;
- a class `XSlice` with one field per state field. Its methods update the fields in place, as the
  source's reducers do, and each method is proved to produce `Reduce(old(State()), action)`.

`Common.Run` folds a reducer over a sequence of dispatched actions. The lemmas about traces use it:
career strikeouts count the increments, the language is the last one chosen, and repeated
additions of news stack up newest first.

The notification toggles call `Notifications.Find`. It is the linear scan behind the source's
`find` calls, and it is proved to return the first match that `FirstIndexOf` specifies.

`fetchGamesSuccess` does not clear the error (store/features/gamesSlice.ts:130-139), so
`Games.Reduce` keeps the previous error on success; the other slices' success reducers behave
the same way.

The source's option field `label` is a reserved word in Dafny, so the model calls it `caption`.

## Model

| member | source | states |
|---|---|---|
| `Stats.Reduce` | store/features/statsSlice.ts:83-105 | An increment raises the current-game, season and career counts by exactly 1 each and changes nothing else. Each setter overwrites only its own counter. Career strikeouts change only on an increment. Start sets loading and clears the error. Success replaces the cards, clears loading and keeps the error. Failure clears loading and records the message. No fetch reducer moves a counter. |
| `Stats.CareerCountsIncrements` | store/features/statsSlice.ts:82-106 | For any sequence of dispatched stats actions, career strikeouts grow by exactly the number of increments in it. No reducer overwrites them. |
| `Stats.LockstepWithoutOverwrite` | store/features/statsSlice.ts:83-93 | For any action sequence that uses neither setter, all three counters move by the same amount: the number of increments. |
| `Stats.StrikeoutsKeepCards` | store/features/statsSlice.ts:83-87 | Any run of increments leaves the stat cards unchanged. |
| `Stats.NStrikeoutsFromInitial` | store/features/statsSlice.ts:22-87 | From the initial all-zero counters, n increments leave the current-game, season and career counts all equal to n, with the cards unchanged. |
| `Stats.StatsSlice.constructor` | store/features/statsSlice.ts:22-77 | The slice starts with all three counters at 0, not loading and with no error. |
| `Stats.StatsSlice.IncrementStrikeout` | store/features/statsSlice.ts:83-87 | Updating the fields in place gives the reducer's result for an increment. |
| `Stats.StatsSlice.SetCurrentGameStrikeouts` | store/features/statsSlice.ts:88-90 | Overwriting the field in place gives the reducer's result for the current-game setter. |
| `Stats.StatsSlice.SetSeasonStrikeouts` | store/features/statsSlice.ts:91-93 | Overwriting the field in place gives the reducer's result for the season setter. |
| `Stats.StatsSlice.FetchStatsStart` | store/features/statsSlice.ts:94-97 | Gives the reducer's result for fetch start. |
| `Stats.StatsSlice.FetchStatsSuccess` | store/features/statsSlice.ts:98-101 | Gives the reducer's result for fetch success. |
| `Stats.StatsSlice.FetchStatsFailure` | store/features/statsSlice.ts:102-105 | Gives the reducer's result for fetch failure. |
| `Notifications.FirstIndexOf` | store/features/notificationsSlice.ts:106 | The lookup finds nothing exactly when the id is absent. Otherwise it returns the position of the id's first occurrence. |
| `Notifications.Find` | store/features/notificationsSlice.ts:106 | The linear scan returns exactly the first match that `FirstIndexOf` specifies. |
| `Notifications.TogglePreferenceIn` | store/features/notificationsSlice.ts:104-110 | The list keeps its length and order. Only the first preference with the given id changes, and only in its enabled flag, so its options stay as they were. An unknown id leaves the list unchanged. |
| `Notifications.ToggleOptionAmong` | store/features/notificationsSlice.ts:118-121 | Only the first option with the given id has its flag flipped. The option list keeps its length and order. An unknown option id leaves it unchanged. |
| `Notifications.ToggleOptionIn` | store/features/notificationsSlice.ts:111-123 | Only the first preference with the given id changes, and only in its options. Its own flag and the other preferences stay the same. A missing preference id, or an option id missing from that first preference, changes nothing. |
| `Notifications.Reduce` | store/features/notificationsSlice.ts:104-135 | The toggles change only the preference list. Start sets loading and clears the error. Success replaces the list, clears loading and keeps the error. Failure clears loading and records the message. |
| `Notifications.TogglesKeepIds` | store/features/notificationsSlice.ts:104-123 | Neither toggle changes any preference id or option id, or their number or order. |
| `Notifications.TogglePreferenceTwice` | store/features/notificationsSlice.ts:108 | Toggling the same preference twice restores the original list. |
| `Notifications.ToggleOptionTwice` | store/features/notificationsSlice.ts:120 | Toggling the same option twice restores the original list. |
| `Notifications.ToggleTwiceRestores` | store/features/notificationsSlice.ts:104-123 | Dispatching either toggle twice with the same payload restores the whole slice state. |
| `Notifications.TogglePreferenceNoCascade` | store/features/notificationsSlice.ts:107-109 | Toggling a preference changes no option's enabled flag in any preference. |
| `Notifications.ToggleGamesFromInitial` | store/features/notificationsSlice.ts:104-110 | In the seeded state, toggling "games" disables that category, keeps its three options as they were and leaves the other two categories unchanged. |
| `Notifications.NotificationsSlice.constructor` | store/features/notificationsSlice.ts:24-98 | The slice starts with the three seeded categories, not loading and with no error. |
| `Notifications.NotificationsSlice.ToggleNotificationPreference` | store/features/notificationsSlice.ts:104-110 | Searching for the first match and flipping it in place gives the reducer's result. |
| `Notifications.NotificationsSlice.ToggleNotificationOption` | store/features/notificationsSlice.ts:111-123 | The two nested searches and the in-place flip give the reducer's result. |
| `Notifications.NotificationsSlice.FetchPreferencesStart` | store/features/notificationsSlice.ts:124-127 | Gives the reducer's result for fetch start. |
| `Notifications.NotificationsSlice.FetchPreferencesSuccess` | store/features/notificationsSlice.ts:128-131 | Gives the reducer's result for fetch success. |
| `Notifications.NotificationsSlice.FetchPreferencesFailure` | store/features/notificationsSlice.ts:132-135 | Gives the reducer's result for fetch failure. |
| `News.Reduce` | store/features/newsSlice.ts:62-76 | After adding, the item is the new head, the tail is the old list and the length is one more. Adding leaves loading and the error as they were. Start sets loading and clears the error. Success sets the list to exactly the payload, clears loading and keeps the error. Failure clears loading and records the message. |
| `News.AddNewsNoDedup` | store/features/newsSlice.ts:74-76 | Adding an item whose id is already in the list still adds one more occurrence of that id. |
| `News.AdditionsPrepend` | store/features/newsSlice.ts:74-76 | Adding items one by one puts them ahead of the old list, newest first, in reverse order of addition. |
| `News.NewsSlice.constructor` | store/features/newsSlice.ts:21-56 | The slice starts with the seed articles, not loading and with no error. |
| `News.NewsSlice.FetchNewsStart` | store/features/newsSlice.ts:62-65 | Gives the reducer's result for fetch start. |
| `News.NewsSlice.FetchNewsSuccess` | store/features/newsSlice.ts:66-69 | Gives the reducer's result for fetch success. |
| `News.NewsSlice.FetchNewsFailure` | store/features/newsSlice.ts:70-73 | Gives the reducer's result for fetch failure. |
| `News.NewsSlice.AddNews` | store/features/newsSlice.ts:74-76 | Putting the item in front of the list in place gives the reducer's result. |
| `Games.Merge` | store/features/gamesSlice.ts:146 | Field by field, each of the seven fields the update supplies replaces the game's, and each field it omits keeps the game's value. A supplied home team, away team or pitcher line replaces the old sub-record whole. An update that supplies nothing keeps the game, and one that supplies every field yields exactly the supplied game. |
| `Games.MergeIdempotent` | store/features/gamesSlice.ts:146 | Applying the same update twice is the same as applying it once. |
| `Games.MergeThen` | store/features/gamesSlice.ts:146 | Two successive updates equal one combined update in which the later update's fields win. |
| `Games.ShallowMergeDropsScore` | store/features/gamesSlice.ts:146 | A supplied home team without a score erases the old score, because the sub-record is not merged field by field. |
| `Games.UpdateCurrent` | store/features/gamesSlice.ts:144-148 | With no current game the result is still no game. Otherwise the result is the merged game. |
| `Games.Reduce` | store/features/gamesSlice.ts:126-148 | Updating the current game changes nothing else, and with no current game it changes nothing at all. Start sets loading and clears the error. Success sets all three game fields from the payload, clears loading and keeps the error. Failure clears loading and records the message. |
| `Games.UpdatesWithoutCurrentGame` | store/features/gamesSlice.ts:144-148 | With no current game, any sequence of updates leaves the whole slice unchanged. |
| `Games.GamesSlice.constructor` | store/features/gamesSlice.ts:35-120 | The slice starts with the seed games, not loading and with no error. |
| `Games.GamesSlice.FetchGamesStart` | store/features/gamesSlice.ts:126-129 | Gives the reducer's result for fetch start. |
| `Games.GamesSlice.FetchGamesSuccess` | store/features/gamesSlice.ts:130-139 | Gives the reducer's result for fetch success. |
| `Games.GamesSlice.FetchGamesFailure` | store/features/gamesSlice.ts:140-143 | Gives the reducer's result for fetch failure. |
| `Games.GamesSlice.UpdateCurrentGame` | store/features/gamesSlice.ts:144-148 | Merging into the field in place, only when a game is present, gives the reducer's result. |
| `Settings.Reduce` | store/features/settingsSlice.ts:22-31 | The language changes only through setLanguage, and setLanguage changes neither theme flag. setDarkMode(b) yields dark mode b and use-system-theme false, whatever came before and whether b is true or false. setUseSystemTheme sets only that flag and keeps dark mode. |
| `Settings.SetDarkModeIdempotent` | store/features/settingsSlice.ts:25-28 | setDarkMode(b) applied twice is the same as applied once. |
| `Settings.SetLanguageCommutes` | store/features/settingsSlice.ts:22-31 | setLanguage commutes with every theme action, so language and theme are independent. |
| `Settings.LanguageIsLastChosen` | store/features/settingsSlice.ts:22-31 | After any action sequence, the language is the last one chosen, or the starting one if none was chosen. It is always `ja` or `en`. |
| `Settings.DarkModeLastWins` | store/features/settingsSlice.ts:25-28 | Whatever was dispatched before, a final setDarkMode(b) leaves dark mode at b and use-system-theme off. |
| `Settings.SettingsSlice.constructor` | store/features/settingsSlice.ts:12-16 | Initial settings are Japanese, dark mode off and system theme on. |
| `Settings.SettingsSlice.SetLanguage` | store/features/settingsSlice.ts:22-24 | Gives the reducer's result for setLanguage. |
| `Settings.SettingsSlice.SetDarkMode` | store/features/settingsSlice.ts:25-28 | Writing the two fields in sequence gives the reducer's result for setDarkMode. |
| `Settings.SettingsSlice.SetUseSystemTheme` | store/features/settingsSlice.ts:29-31 | Gives the reducer's result for setUseSystemTheme. |

## Left out

- Selectors (`selectStrikeoutCount`, `selectNews`, `selectCurrentGame` and the rest): each one reads a single field of its slice. The model reads the class fields directly.
- The aggregate store and dispatch (store/store.ts, app/_layout.tsx, app/index.tsx): this is Redux Toolkit wiring. Successive dispatches to one slice are modelled by `Common.Run`. The five slices never interact.
- Immer drafts behind `createSlice`: each reducer is modelled directly as a method that assigns the fields.
- The asynchronous fetch itself is never implemented. Only the flag transitions of the `fetch*` reducers are modelled.
- Seed data of the stats cards, news articles and games: the constructors take it as a parameter. Only the seed values that matter are fixed: the zero counters, the settings defaults and the notification categories.
- Stats.Reduce: counters are unbounded integers. The source's JavaScript numbers lose precision above 2^53, and the setters could receive non-integer numbers. Neither is modelled.
- Games.Merge: an update key given explicitly as `undefined` is not modelled. The spread would copy `undefined` into the game. The model treats every absent field as not supplied.
- `inningsPitched` and a stat card's numeric value are opaque `real`s. A team's `score`, the pitcher line's `pitchCount` and `strikeouts`, and a stat card's `rank` are stored as `int`s, though the source types them as JavaScript numbers. Nothing computes with any of them, and floating point and fractional values are not modelled.
- `setLanguage` with a value other than `ja`/`en` cannot be written: the `Language` datatype has only those two values, as the source's type does. A runtime value that bypasses the type is not modelled.
- The presentation components are not part of this model. This covers the cards, the notification switches, and StrikeoutCounter's display arithmetic and local expand state.

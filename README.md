# Verified model of the conference app's screen logic

This project models the small pieces of the conference companion app's
screen code that have precise rules:

- **Sessions pager** (`SessionsPager`, in `Sessions.dfy`). The sessions screen's pager adapter keeps a list of tabs. The list is empty until rooms arrive. Then it is rebuilt as the fixed "All" tab followed by one tab per room, in the rooms' order. Positional lookups give each tab's title and page. The rooms observer drives a progress indicator and the rebuild.
- **Search screen** (`SearchBeforePager` and `SearchScreen`, in `Search.dfy`). The screen stores the last query, or `""` when there is none, and forwards it. It shows the results region iff the query is not blank, and the before-search region otherwise. Submitting does nothing. A favourite click flips the session's flag in place, then forwards the session. A successful search replaces both list sections. An item click navigates by kind. The before-search pager has three fixed tabs.
- **Session card** (`Highlighting` and `SessionItems`, in `SpeechSessionItem.dfy`). The search string is highlighted by scanning left to right for case-insensitive matches that do not overlap. Each match becomes a `[start, end)` span. The text itself never changes. The card also chooses highlighted or plain text, fills five speaker-avatar slots, joins the speaker names with `", "`, and takes the item id from the session id.

`Model.dfy` holds the shared entities. `SpeechSession` is a class because
its `isFavorited` flag is changed in place on the object the list sections
hold. Views are abstracted:

- Visibility is a boolean.
- List sections are sequences.
- The view model, its query sink and the navigation controller are logs of what they were sent.

The matcher's search (`FindFrom`) and the whole scan (`Spans`) are
specification functions. `AdaptHighlightString` is the source's
`while (matcher.find())` loop, proved to produce exactly `Spans`. The span
lemmas then state bounds, order, matching and completeness.

Two matcher behaviours are kept as the code has them:

- An empty highlight string gives a zero-length span at every index `0..|text|`, as the regex matcher reports empty matches. It does not give "no spans" (`EmptyQuerySpans`).
- Spans are half-open `[start, end)`, from `matcher.start()`/`matcher.end()`. They are not inclusive ranges.

## Model

| member | source | states |
|---|---|---|
| SessionsPager.RoomTabs | app/src/main/java/io/github/droidkaigi/confsched2018/presentation/sessions/SessionsFragment.kt:115-117 | one room tab per room, same length, position i wraps rooms[i] (order preserved) |
| SessionsPager.TabsForShape | app/src/main/java/io/github/droidkaigi/confsched2018/presentation/sessions/SessionsFragment.kt:91-95 | the rebuilt list has \|rooms\| + 1 tabs; position 0 is All, titled "All", opening the all-sessions page |
| SessionsPager.TabsForAt | app/src/main/java/io/github/droidkaigi/confsched2018/presentation/sessions/SessionsFragment.kt:86-94 | position i+1 is RoomTab(rooms[i]), titled rooms[i].name, opening that room's page |
| SessionsPager.TabsForMembers | app/src/main/java/io/github/droidkaigi/confsched2018/presentation/sessions/SessionsFragment.kt:92-94 | a tab occurs iff it is All or the tab of a given room: nothing from an earlier list survives the rebuild |
| SessionsPager.TabsForInjective | app/src/main/java/io/github/droidkaigi/confsched2018/presentation/sessions/SessionsFragment.kt:114-119 | equal tab lists come from equal room lists, so rooms and their pages correspond one to one |
| SessionsPager.SessionsViewPagerAdapter.constructor | app/src/main/java/io/github/droidkaigi/confsched2018/presentation/sessions/SessionsFragment.kt:83-84 | both lists start empty, so the count is 0 before any rooms are set |
| SessionsPager.SessionsViewPagerAdapter.SetupTabs | app/src/main/java/io/github/droidkaigi/confsched2018/presentation/sessions/SessionsFragment.kt:91-96 | the tab list becomes exactly All followed by the current room tabs, and the adapter is valid and installed |
| SessionsPager.SessionsViewPagerAdapter.SetRooms | app/src/main/java/io/github/droidkaigi/confsched2018/presentation/sessions/SessionsFragment.kt:114-119 | the whole tab list is replaced by TabsFor(rooms), whatever it held before; the count becomes \|rooms\| + 1 |
| SessionsPager.SessionsViewPagerAdapter.GetCount | app/src/main/java/io/github/droidkaigi/confsched2018/presentation/sessions/SessionsFragment.kt:112 | the count is 0 before any room list is installed (and then there are no rooms), else \|rooms\| + 1 |
| SessionsPager.SessionsViewPagerAdapter.GetPageTitle | app/src/main/java/io/github/droidkaigi/confsched2018/presentation/sessions/SessionsFragment.kt:98 | for 0 <= position < count: "All" at 0, else the name of rooms[position - 1] |
| SessionsPager.SessionsViewPagerAdapter.GetItem | app/src/main/java/io/github/droidkaigi/confsched2018/presentation/sessions/SessionsFragment.kt:100-110 | for 0 <= position < count: the all-sessions page at 0, else the page of rooms[position - 1] |
| SessionsPager.SetRoomsTwice | app/src/main/java/io/github/droidkaigi/confsched2018/presentation/sessions/SessionsFragment.kt:114-119 | installing the same rooms twice gives the same tabs as once (idempotent) |
| SessionsPager.SessionsFragment.OnRoomsResult | app/src/main/java/io/github/droidkaigi/confsched2018/presentation/sessions/SessionsFragment.kt:44-57 | progress shown iff in progress; success installs the rooms; in progress and failure leave the adapter unchanged |
| SearchBeforePager.OrdinalRoundTrip | app/src/main/java/io/github/droidkaigi/confsched2018/presentation/search/SearchFragment.kt:175-179 | enum positions and tabs correspond one to one (Tab.values() round trip) |
| SearchBeforePager.GetCount | app/src/main/java/io/github/droidkaigi/confsched2018/presentation/search/SearchFragment.kt:193 | the pager has exactly three tabs |
| SearchBeforePager.GetPageTitle | app/src/main/java/io/github/droidkaigi/confsched2018/presentation/search/SearchFragment.kt:181-182 | titles in order: session, topic, speaker resources |
| SearchBeforePager.GetItem | app/src/main/java/io/github/droidkaigi/confsched2018/presentation/search/SearchFragment.kt:184-191 | position 0, 1, 2 opens the sessions, topics and speakers page respectively, and only that position does |
| SearchScreen.RegionsFor | app/src/main/java/io/github/droidkaigi/confsched2018/presentation/search/SearchFragment.kt:140-146 | results visible iff the query has a non-whitespace character; exactly one of the two regions is visible |
| SearchScreen.SpacesShowBeforeSearch | app/src/main/java/io/github/droidkaigi/confsched2018/presentation/search/SearchFragment.kt:140 | a query of spaces only counts as blank: before-search shown, results hidden |
| SearchScreen.SearchFragment.constructor | app/src/main/java/io/github/droidkaigi/confsched2018/presentation/search/SearchFragment.kt:45-60 | the stored query starts as "" and both sections start empty |
| SearchScreen.SearchFragment.OnQueryTextChange | app/src/main/java/io/github/droidkaigi/confsched2018/presentation/search/SearchFragment.kt:136-148 | stores newText or "", forwards exactly that string, applies the region rule, returns false |
| SearchScreen.SearchFragment.OnQueryTextSubmit | app/src/main/java/io/github/droidkaigi/confsched2018/presentation/search/SearchFragment.kt:134 | returns false and changes no state (no modifies clause) |
| SearchScreen.SearchFragment.OnFavoriteClick | app/src/main/java/io/github/droidkaigi/confsched2018/presentation/search/SearchFragment.kt:52-58 | flips the session's flag in place once, and the forwarded command already sees the flipped flag |
| SearchScreen.FavoriteClickTwice | app/src/main/java/io/github/droidkaigi/confsched2018/presentation/search/SearchFragment.kt:52-57 | two clicks restore the original flag; the two commands carry opposite flags; only the command log of the screen changes |
| SearchScreen.SearchFragment.OnSearchResult | app/src/main/java/io/github/droidkaigi/confsched2018/presentation/search/SearchFragment.kt:88-101 | success installs result.sessions (highlighted with the current query) and result.speakers; failure and in-progress keep both sections |
| SearchScreen.SearchFragment.OnItemClick | app/src/main/java/io/github/droidkaigi/confsched2018/presentation/search/SearchFragment.kt:108-117 | a session item navigates with its session, a speaker item with the speaker's id, anything else does nothing |
| Highlighting.FindFrom | app/src/main/java/io/github/droidkaigi/confsched2018/presentation/sessions/item/SpeechSessionItem.kt:79-81 | one find: the first position at or after the resume point where the query matches up to ASCII case, or none if there is no match |
| Highlighting.AdaptHighlightString | app/src/main/java/io/github/droidkaigi/confsched2018/presentation/sessions/item/SpeechSessionItem.kt:76-89 | the text is returned unchanged, with exactly the spans of the successive finds attached |
| Highlighting.SpansMatch | app/src/main/java/io/github/droidkaigi/confsched2018/presentation/sessions/item/SpeechSessionItem.kt:81-85 | every span lies within the text, is as long as the query, and starts where the query matches |
| Highlighting.SpansWithinText | app/src/main/java/io/github/droidkaigi/confsched2018/presentation/sessions/item/SpeechSessionItem.kt:80-85 | 0 <= start <= end <= \|message\| and the spanned substring equals the query up to ASCII case |
| Highlighting.SpansOrdered | app/src/main/java/io/github/droidkaigi/confsched2018/presentation/sessions/item/SpeechSessionItem.kt:81-83 | spans are strictly left to right and none overlaps a later one |
| Highlighting.SpansComplete | app/src/main/java/io/github/droidkaigi/confsched2018/presentation/sessions/item/SpeechSessionItem.kt:81-83 | no occurrence is missed: each match position starts a span or lies inside an earlier match's span |
| Highlighting.GreedyExample | app/src/main/java/io/github/droidkaigi/confsched2018/presentation/sessions/item/SpeechSessionItem.kt:79-83 | "aaaa" with "aa" gives [0,2), [2,4) |
| Highlighting.EmptyQuerySpans | app/src/main/java/io/github/droidkaigi/confsched2018/presentation/sessions/item/SpeechSessionItem.kt:79-81 | an empty query gives the zero-length span [i,i) for every i in 0..\|text\| |
| SessionItems.TextFor | app/src/main/java/io/github/droidkaigi/confsched2018/presentation/sessions/item/SpeechSessionItem.kt:35-41 | text is highlighted iff a highlight string is present, with the scan's spans; its characters are never changed |
| SessionItems.Bind | app/src/main/java/io/github/droidkaigi/confsched2018/presentation/sessions/item/SpeechSessionItem.kt:32-74 | title and description are highlighted iff a highlight string is present and keep their text; avatar slot i of 5 is visible iff i < \|speakers\| and then loads speakers[i].imageUrl; speakers text is the joined names; topic and day-number flag are passed through |
| SessionItems.JoinNamesAppend | app/src/main/java/io/github/droidkaigi/confsched2018/presentation/sessions/item/SpeechSessionItem.kt:69 | joining two non-empty speaker lists is the two joins with one ", " between them |
| SessionItems.JoinNames | app/src/main/java/io/github/droidkaigi/confsched2018/presentation/sessions/item/SpeechSessionItem.kt:69 | the join of no speakers is ""; otherwise its length is the names' total length plus two per separator |
| SessionItems.JoinNamesFirst | app/src/main/java/io/github/droidkaigi/confsched2018/presentation/sessions/item/SpeechSessionItem.kt:69 | one speaker joins to their name; more join to the first name, ", ", then the join of the rest |
| SessionItems.ParseLong | app/src/main/java/io/github/droidkaigi/confsched2018/presentation/sessions/item/SpeechSessionItem.kt:29 | session.id.toLong() yields a value only within the Long range |
| SessionItems.ParseLongRoundTrip | app/src/main/java/io/github/droidkaigi/confsched2018/presentation/sessions/item/SpeechSessionItem.kt:29 | every Long written in decimal (with "-" when negative) reads back as itself, so the identity is the session id's value |
| SessionItems.ParseLongRejectsOutOfRange | app/src/main/java/io/github/droidkaigi/confsched2018/presentation/sessions/item/SpeechSessionItem.kt:29 | a decimal number beyond the Long range, unsigned, with "+" or with "-", is a number format error (None) |
| SessionItems.ParseLongRejectsMalformed | app/src/main/java/io/github/droidkaigi/confsched2018/presentation/sessions/item/SpeechSessionItem.kt:29 | an empty string, a lone sign, or any non-digit after the optional sign is a number format error (None) |
| SessionItems.ParseLongAllDecimals | app/src/main/java/io/github/droidkaigi/confsched2018/presentation/sessions/item/SpeechSessionItem.kt:29 | every decimal natural number reads back as itself when it fits a Long, and as a number format error otherwise |
| SessionItems.ItemId | app/src/main/java/io/github/droidkaigi/confsched2018/presentation/sessions/item/SpeechSessionItem.kt:29 | the item's identity is session.id read as a Long: a decimal id that fits is that number, one beyond the range fails |

## Left out

- The `refreshResult` observer is left out (SessionsFragment.kt:59-67). It only logs and shows a transient notice, and changes no model state.
- Android plumbing is left out:
  - `notifyDataSetChanged`
  - `setupWithViewPager`
  - `scrollToPosition(0)` after a search result
  - RecyclerView animators
  - the lifecycle observer
  - menu inflation, `maxWidth`, and the recursive `changeSearchViewTextColor` walk

  These calls redraw views or configure widgets. They hold no state the model keeps.
- Logging is left out. `Timber` calls are side effects only.
- The progress indicator is a boolean. How it is drawn is left out.
- The initial visibility of the two search regions is a constructor parameter. It comes from the layout, which is not part of this model.
- Image loading is left out. A visible avatar slot records the URL it loads, but the Glide request, placeholder, size and circle crop are not modelled.
- The level label (`session.level.getNameByLang(lang())`) is not part of this model. The Level type and the device locale are not part of it either.
- The favourite listener installed by `Bind` (SpeechSessionItem.kt:70-72) is not recorded on the card. The click path it forwards to is `SearchFragment.OnFavoriteClick`.
- The data-binding of the whole session object to the card is left out, except for `isFavorited`.
- Each match's two spans (bold and yellow background) are merged into one `[start, end)` range. Colours, typefaces and span flags are not modelled.
- `SearchBeforePager.GetPageTitle` returns the string resource's name. The localised text from `context.getString` is not modelled.
- Highlighting.AdaptHighlightString: requires a literal query with no regular-expression metacharacters. A query that is a real pattern follows a regex engine that is not part of this model. So does one that fails to compile and throws.
- Highlighting.MatchesAt: case-insensitivity is ASCII only (CASE_INSENSITIVE without UNICODE_CASE). A platform regex engine that folds non-ASCII letters would find matches this model does not.
- Highlighting.Spans: offsets count Unicode scalar values. The source counts UTF-16 code units, so spans after a supplementary character are shifted by one per such character.
- SessionItems.ParseLong: accepts only ASCII digits. `Long.parseLong` also accepts other Unicode decimal digits.
- The item id assumes `session.id` is a decimal string read by `toLong()`. The Session model class is not part of this model.
- SearchScreen.IsWhitespace: is a fixed list of Kotlin/JVM whitespace characters. It leaves out characters whose class depends on the platform's Unicode version (U+180E).
- Collaborators are left out: the view models, `SimpleSessionsSection`, `SearchSpeakersSection` and `NavigationController`. Each is reduced to the sequence it holds or the log of calls it receives. The asynchronous favourite round trip and the reactive streams are left out; each emission is one sequential method call.
- Tab lookups at a position outside `[0, count)` are excluded by precondition. In the source they throw `IndexOutOfBoundsException`, a programming error that the pager never triggers.

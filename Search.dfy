/** The pager shown on the search screen before anything is searched: three fixed tabs. */
module SearchBeforePager {

  /** The tabs of the pager, in declaration order. */
  datatype Tab = Session | Topic | Speakers

  /** The page each tab opens. */
  datatype Page = SearchSessionsPage | SearchTopicsPage | SearchSpeakersPage

  /** The enum's values in declaration order. */
  const Values: seq<Tab> := [Session, Topic, Speakers]

  /** The string resource naming a tab. */
  function TitleRes(tab: Tab): string
  {
    match tab
    case Session => "search_before_tab_session"
    case Topic => "search_before_tab_topic"
    case Speakers => "search_before_tab_speaker"
  }

  /** The position of a tab among the enum's values. */
  function Ordinal(tab: Tab): nat
  {
    match tab
    case Session => 0
    case Topic => 1
    case Speakers => 2
  }

  /** Positions and tabs correspond one to one. */
  lemma OrdinalRoundTrip(tab: Tab, position: nat)
    ensures Ordinal(tab) < |Values| && Values[Ordinal(tab)] == tab
    ensures position < |Values| ==> Ordinal(Values[position]) == position
  {
  }

  /** The pager shows exactly three tabs. */
  function GetCount(): (n: nat)
    ensures n == 3
  {
    |Values|
  }

  /** The title resource of the tab at a position, in the order session, topic, speaker. */
  function GetPageTitle(position: int): (title: string)
    requires 0 <= position < GetCount()
    ensures position == 0 ==> title == "search_before_tab_session"
    ensures position == 1 ==> title == "search_before_tab_topic"
    ensures position == 2 ==> title == "search_before_tab_speaker"
  {
    TitleRes(Values[position])
  }

  /** The page of the tab at a position, in the order sessions, topics, speakers. */
  function GetItem(position: int): (page: Page)
    requires 0 <= position < GetCount()
    ensures position == 0 <==> page == SearchSessionsPage
    ensures position == 1 <==> page == SearchTopicsPage
    ensures position == 2 <==> page == SearchSpeakersPage
  {
    match Values[position]
    case Session => SearchSessionsPage
    case Topic => SearchTopicsPage
    case Speakers => SearchSpeakersPage
  }
}

/**
 * The search screen's controller: it keeps the last query, decides which
 * of its two regions is shown, optimistically flips favourites, installs
 * search results into its two list sections and dispatches item clicks.
 */
module SearchScreen {
  import opened Model

  /**
   * Kotlin's Char.isWhitespace on the JVM: Character.isWhitespace (the
   * breaking Unicode space separators and the ASCII controls tab, line
   * feed, vertical tab, form feed, carriage return and U+001C..U+001F) or
   * Character.isSpaceChar (every Unicode space separator, line separator
   * and paragraph separator, non-breaking spaces included).
   */
  predicate IsWhitespace(c: char)
  {
    ('\t' <= c <= '\r') || ('\U{1C}' <= c <= '\U{1F}') ||
    c == ' ' || c == '\U{A0}' || c == '\U{1680}' || ('\U{2000}' <= c <= '\U{200A}') ||
    c == '\U{2028}' || c == '\U{2029}' || c == '\U{202F}' || c == '\U{205F}' || c == '\U{3000}'
  }

  /** Kotlin's isBlank: every character is whitespace (so the empty string is blank). */
  predicate IsBlank(s: string)
  {
    forall i :: 0 <= i < |s| ==> IsWhitespace(s[i])
  }

  /** Which of the screen's two regions is shown. */
  datatype Regions = Regions(beforeSearchVisible: bool, resultVisible: bool)

  /**
   * The region rule of a query change: the results region is shown iff the
   * query holds a character that is not whitespace, and then the
   * before-search region is hidden; otherwise the reverse.
   */
  function RegionsFor(query: string): (r: Regions)
    ensures r.resultVisible <==> exists i :: 0 <= i < |query| && !IsWhitespace(query[i])
    ensures r.beforeSearchVisible <==> !r.resultVisible
  {
    if !IsBlank(query) then Regions(false, true) else Regions(true, false)
  }

  /** A query of spaces only keeps the before-search region on screen. */
  lemma SpacesShowBeforeSearch(n: nat)
    ensures RegionsFor(seq(n, _ => ' ')).beforeSearchVisible
    ensures !RegionsFor(seq(n, _ => ' ')).resultVisible
  {
  }

  /** Kotlin's orEmpty: the text itself, or "" when there is none. */
  function OrEmpty(text: Option<string>): string
  {
    match text
    case Some(s) => s
    case None => ""
  }

  /** A favourite command handed to the view model, with the flag the session had when it was sent. */
  datatype FavoriteCommand = FavoriteCommand(session: SpeechSession, isFavorited: bool)

  /** A navigation the screen asked for. */
  datatype Navigation = SessionDetail(session: SpeechSession) | SpeakerDetail(speakerId: string)

  /** A clicked item of the result list, by kind. */
  datatype ListItem = SessionListItem(session: SpeechSession)
                  | SearchResultSpeakerItem(speaker: Speaker)
                  | OtherItem

  class SearchFragment {
    var searchedQuery: string
    var beforeSearchVisible: bool
    var resultVisible: bool
    /** The sessions section: its sessions and the string it highlights in them. */
    var sessions: seq<SpeechSession>
    var highlight: string
    /** The speakers section. */
    var speakers: seq<Speaker>
    /** Every query forwarded to the view model, oldest first. */
    var queries: seq<string>
    /** Every favourite command forwarded to the view model, oldest first. */
    var favoriteCommands: seq<FavoriteCommand>
    /** Every navigation requested, oldest first. */
    var navigations: seq<Navigation>

    /** The query starts empty and both sections start empty; the layout decides the first visibility. */
    constructor (beforeSearchVisible: bool, resultVisible: bool)
      ensures searchedQuery == "" && highlight == ""
      ensures sessions == [] && speakers == []
      ensures queries == [] && favoriteCommands == [] && navigations == []
      ensures this.beforeSearchVisible == beforeSearchVisible && this.resultVisible == resultVisible
    {
      searchedQuery := "";
      this.beforeSearchVisible := beforeSearchVisible;
      this.resultVisible := resultVisible;
      sessions := [];
      highlight := "";
      speakers := [];
      queries := [];
      favoriteCommands := [];
      navigations := [];
    }

    /**
     * The query text changed: keep it (or "" when absent), forward exactly
     * that string, show one region by the blank rule, and report the event
     * as not handled.
     */
    method OnQueryTextChange(newText: Option<string>) returns (handled: bool)
      modifies this`searchedQuery, this`queries, this`beforeSearchVisible, this`resultVisible
      ensures searchedQuery == OrEmpty(newText)
      ensures queries == old(queries) + [searchedQuery]
      ensures Regions(beforeSearchVisible, resultVisible) == RegionsFor(searchedQuery)
      ensures beforeSearchVisible != resultVisible
      ensures !handled
    {
      var query := OrEmpty(newText);
      searchedQuery := query;
      queries := queries + [query];
      if !IsBlank(query) {
        beforeSearchVisible := false;
        resultVisible := true;
      } else {
        beforeSearchVisible := true;
        resultVisible := false;
      }
      handled := false;
    }

    /** Submitting is not acted on: nothing changes and the event is reported as not handled. */
    method OnQueryTextSubmit(query: Option<string>) returns (handled: bool)
      ensures !handled
    {
      handled := false;
    }

    /** A favourite click flips the session's flag in place, then forwards the session. */
    method OnFavoriteClick(session: SpeechSession)
      modifies session, this`favoriteCommands
      ensures session.isFavorited == !old(session.isFavorited)
      ensures favoriteCommands == old(favoriteCommands) + [FavoriteCommand(session, session.isFavorited)]
    {
      session.isFavorited := !session.isFavorited;
      favoriteCommands := favoriteCommands + [FavoriteCommand(session, session.isFavorited)];
    }

    /**
     * A search emission: a success replaces both sections, the sessions
     * highlighted with the current query; anything else keeps them.
     */
    method OnSearchResult(result: Result<SearchResult>)
      modifies this`sessions, this`highlight, this`speakers
      ensures result.Success? ==> sessions == result.data.sessions && speakers == result.data.speakers
      ensures result.Success? ==> highlight == searchedQuery
      ensures !result.Success? ==> sessions == old(sessions) && speakers == old(speakers)
      ensures !result.Success? ==> highlight == old(highlight)
    {
      match result {
        case Success(searchResult) =>
          sessions := searchResult.sessions;
          highlight := searchedQuery;
          speakers := searchResult.speakers;
        case Failure(_) =>
        case InProgress =>
      }
    }

    /** A click on a session opens that session, a click on a speaker opens it by id, others do nothing. */
    method OnItemClick(item: ListItem)
      modifies this`navigations
      ensures item.SessionListItem? ==> navigations == old(navigations) + [SessionDetail(item.session)]
      ensures item.SearchResultSpeakerItem? ==> navigations == old(navigations) + [SpeakerDetail(item.speaker.id)]
      ensures item.OtherItem? ==> navigations == old(navigations)
    {
      match item {
        case SessionListItem(session) =>
          navigations := navigations + [SessionDetail(session)];
        case SearchResultSpeakerItem(speaker) =>
          navigations := navigations + [SpeakerDetail(speaker.id)];
        case OtherItem =>
      }
    }
  }

  /** Two favourite clicks on one session restore its flag, and the two commands carry opposite flags. */
  method FavoriteClickTwice(screen: SearchFragment, session: SpeechSession)
    modifies screen`favoriteCommands, session
    ensures session.isFavorited == old(session.isFavorited)
    ensures screen.favoriteCommands == old(screen.favoriteCommands) +
      [FavoriteCommand(session, !old(session.isFavorited)), FavoriteCommand(session, old(session.isFavorited))]
  {
    screen.OnFavoriteClick(session);
    screen.OnFavoriteClick(session);
  }
}

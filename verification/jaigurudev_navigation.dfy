/** The app's navigation: the route names and the helpers that put an id
    into a player route, the logged-in flag that decides which of the two
    navigation graphs exists, the bottom bar, and the gates that show a
    player only for a valid, non-empty id. Of the navigation library only
    the shape of a route with one `{argument}` segment is modelled: such a
    route is matched by `base/<argument>` with a non-empty argument holding
    no '/'. */
module JaigurudevNavigation {
  import opened KotlinStd
  import opened KotlinText
  import opened Lists
  import opened SpiritualRepository
  import MusicPlayerScreen
  import PDFViewerScreen
  import VideoPlayerScreen

  // ---------------------------------------------------------------------
  // Routes
  // ---------------------------------------------------------------------

  const Login := "login"
  const Signup := "signup"
  const Home := "home"
  const Books := "books"
  const Videos := "videos"
  const MusicRoute := "music"
  const Chat := "chat"
  const Meetings := "meetings"
  const Profile := "profile"
  const Events := "events"
  const MusicPlayer := "music_player/{songId}"
  const PdfViewer := "pdf_viewer/{bookId}"
  const VideoPlayer := "video_player/{videoId}"

  const AllRoutes: seq<string> :=
    [Login, Signup, Home, Books, Videos, MusicRoute, Chat, Meetings, Profile, Events,
     MusicPlayer, PdfViewer, VideoPlayer]

  /** No two route names coincide. */
  lemma RoutesDistinct()
    ensures NoDuplicates(AllRoutes)
  {
    forall i, j | 0 <= i < j < |AllRoutes| ensures AllRoutes[i] != AllRoutes[j] {
      assert |AllRoutes[i]| != |AllRoutes[j]| || AllRoutes[i][0] != AllRoutes[j][0];
    }
  }

  /** `Routes.musicPlayer(songId)` */
  function MusicPlayerRoute(songId: string): (r: string)
    ensures StartsWith(r, "music_player/") && r[|"music_player/"|..] == songId
  {
    "music_player/" + songId
  }

  /** `Routes.pdfViewer(bookId)` */
  function PdfViewerRoute(bookId: string): (r: string)
    ensures StartsWith(r, "pdf_viewer/") && r[|"pdf_viewer/"|..] == bookId
  {
    "pdf_viewer/" + bookId
  }

  /** `Routes.videoPlayer(videoId)` */
  function VideoPlayerRoute(videoId: string): (r: string)
    ensures StartsWith(r, "video_player/") && r[|"video_player/"|..] == videoId
  {
    "video_player/" + videoId
  }

  /** The argument a one-argument route `base/{name}` reads from a concrete
      route: the rest after `base/`, when it is non-empty and holds no '/'. */
  function RouteArgument(route: string, base: string): (arg: Option<string>)
    ensures arg.Some? ==> route == base + "/" + arg.value && arg.value != "" && '/' !in arg.value
    ensures arg.None? ==> forall a :: a != "" && '/' !in a ==> route != base + "/" + a
  {
    var prefix := base + "/";
    if StartsWith(route, prefix) && |route| > |prefix| && '/' !in route[|prefix|..] then
      assert route == prefix + route[|prefix|..];
      Some(route[|prefix|..])
    else
      assert forall a :: route == prefix + a ==> route[|prefix|..] == a;
      None
  }

  /** The helpers build routes the player destinations read back: for an
      id that is a single non-empty path segment, the argument is the id. */
  lemma HelperRoutesRoundTrip(id: string)
    requires id != "" && '/' !in id
    ensures RouteArgument(MusicPlayerRoute(id), "music_player") == Some(id)
    ensures RouteArgument(PdfViewerRoute(id), "pdf_viewer") == Some(id)
    ensures RouteArgument(VideoPlayerRoute(id), "video_player") == Some(id)
  {
    assert MusicPlayerRoute(id) == "music_player" + "/" + id;
    assert PdfViewerRoute(id) == "pdf_viewer" + "/" + id;
    assert VideoPlayerRoute(id) == "video_player" + "/" + id;
  }

  /** The related-video cards of the video player use the helper's route. */
  lemma RelatedRouteIsHelperRoute(v: Video)
    ensures VideoPlayerScreen.RelatedRoute(v) == VideoPlayerRoute(v.id)
  {
  }

  // ---------------------------------------------------------------------
  // Routes as the catalog screens build them
  // ---------------------------------------------------------------------

  /** The Books screen's route to a book: the route pattern, a '/', the id. */
  function ScreenBookRoute(bookId: string): (route: string)
    ensures route == "pdf_viewer/{bookId}/" + bookId
  {
    PdfViewer + "/" + bookId
  }

  /** The Music screen's route to a track. */
  function ScreenMusicRoute(songId: string): (route: string)
    ensures route == "music_player/{songId}/" + songId
  {
    MusicPlayer + "/" + songId
  }

  /** The Videos screen's route to a video. */
  function ScreenVideoRoute(videoId: string): (route: string)
    ensures route == "video_player/{videoId}/" + videoId
  {
    VideoPlayer + "/" + videoId
  }

  /** The screens' routes keep the `{argument}` placeholder in front of the
      id: no id reads back from them, so none equals a helper route. */
  lemma ScreenRoutesNeverMatch(id: string, other: string)
    ensures RouteArgument(ScreenBookRoute(id), "pdf_viewer") == None
    ensures RouteArgument(ScreenMusicRoute(id), "music_player") == None
    ensures RouteArgument(ScreenVideoRoute(id), "video_player") == None
    ensures '/' !in other ==>
      && ScreenBookRoute(id) != PdfViewerRoute(other)
      && ScreenMusicRoute(id) != MusicPlayerRoute(other)
      && ScreenVideoRoute(id) != VideoPlayerRoute(other)
  {
    BookRouteBlocked(id);
    MusicRouteBlocked(id);
    VideoRouteBlocked(id);
    if '/' !in other {
      if other == "" {
        assert |ScreenBookRoute(id)| > |PdfViewerRoute(other)|;
        assert |ScreenMusicRoute(id)| > |MusicPlayerRoute(other)|;
        assert |ScreenVideoRoute(id)| > |VideoPlayerRoute(other)|;
      } else {
        assert PdfViewerRoute(other) == "pdf_viewer" + "/" + other;
        assert MusicPlayerRoute(other) == "music_player" + "/" + other;
        assert VideoPlayerRoute(other) == "video_player" + "/" + other;
      }
    }
  }

  lemma BookRouteBlocked(id: string)
    ensures RouteArgument(ScreenBookRoute(id), "pdf_viewer") == None
  {
    var route := ScreenBookRoute(id);
    assert route[|"pdf_viewer/"|..][8] == route[19] == '/';
  }

  lemma MusicRouteBlocked(id: string)
    ensures RouteArgument(ScreenMusicRoute(id), "music_player") == None
  {
    var route := ScreenMusicRoute(id);
    assert route[|"music_player/"|..][8] == route[21] == '/';
  }

  lemma VideoRouteBlocked(id: string)
    ensures RouteArgument(ScreenVideoRoute(id), "video_player") == None
  {
    var route := ScreenVideoRoute(id);
    assert route[|"video_player/"|..][9] == route[22] == '/';
  }

  /** The first shipped book's route as the Books screen builds it. */
  lemma ShippedBookRoute()
    ensures ScreenBookRoute(B001.id) == "pdf_viewer/{bookId}/b001"
    ensures PdfViewerRoute(B001.id) == "pdf_viewer/b001"
  {
  }

  // ---------------------------------------------------------------------
  // Player destinations and their gates
  // ---------------------------------------------------------------------

  datatype PlayerView =
    | PlayMusic(song: Music)
    | ReadBook(book: Book)
    | PlayVideo(video: Video)
    | NotFound(message: string)

  /** The music-player destination: the player for a valid, non-empty id,
      else the "Music not found" error screen. */
  function MusicGate(c: Catalog, songId: string): (v: PlayerView)
    ensures v.PlayMusic? <==> songId != "" && IsValidMusicId(c, songId)
    ensures v.PlayMusic? ==> v.song.id == songId && v.song in c.music
    ensures !v.PlayMusic? ==> v == NotFound("Music not found")
  {
    if IsValidMusicId(c, songId) && songId != "" then PlayMusic(MusicPlayerScreen.CurrentSong(c, songId))
    else NotFound("Music not found")
  }

  /** The PDF-viewer destination. */
  function BookGate(c: Catalog, bookId: string): (v: PlayerView)
    ensures v.ReadBook? <==> bookId != "" && IsValidBookId(c, bookId)
    ensures v.ReadBook? ==> v.book.id == bookId && v.book in c.books
    ensures !v.ReadBook? ==> v == NotFound("Book not found")
  {
    if IsValidBookId(c, bookId) && bookId != "" then ReadBook(PDFViewerScreen.BookData(c, bookId))
    else NotFound("Book not found")
  }

  /** The video-player destination. */
  function VideoGate(c: Catalog, videoId: string): (v: PlayerView)
    ensures v.PlayVideo? <==> videoId != "" && IsValidVideoId(c, videoId)
    ensures v.PlayVideo? ==> v.video.id == videoId && v.video in c.videos
    ensures !v.PlayVideo? ==> v == NotFound("Video not found")
  {
    if IsValidVideoId(c, videoId) && videoId != "" then PlayVideo(VideoPlayerScreen.VideoData(c, videoId))
    else NotFound("Video not found")
  }

  /** Opening a player route: the destination whose `base/{argument}` shape
      the route has, with its gate; `None` when no player route matches. */
  function OpenPlayer(c: Catalog, route: string): (v: Option<PlayerView>)
    ensures v.Some? ==>
      || (exists a :: route == MusicPlayerRoute(a) && v.value == MusicGate(c, a))
      || (exists a :: route == PdfViewerRoute(a) && v.value == BookGate(c, a))
      || (exists a :: route == VideoPlayerRoute(a) && v.value == VideoGate(c, a))
  {
    match (RouteArgument(route, "music_player"), RouteArgument(route, "pdf_viewer"), RouteArgument(route, "video_player"))
    case (Some(a), _, _) =>
      assert route == MusicPlayerRoute(a);
      Some(MusicGate(c, a))
    case (_, Some(a), _) =>
      assert route == PdfViewerRoute(a);
      Some(BookGate(c, a))
    case (_, _, Some(a)) =>
      assert route == VideoPlayerRoute(a);
      Some(VideoGate(c, a))
    case _ => None
  }

  /** Every catalog item opens in its player through the helper route, as
      long as its id is a single non-empty path segment. */
  lemma CatalogItemsOpen(c: Catalog, m: Music, b: Book, v: Video)
    requires m in c.music && m.id != "" && '/' !in m.id
    requires b in c.books && b.id != "" && '/' !in b.id
    requires v in c.videos && v.id != "" && '/' !in v.id
    ensures OpenPlayer(c, MusicPlayerRoute(m.id)).Some?
    ensures OpenPlayer(c, MusicPlayerRoute(m.id)).value.PlayMusic?
    ensures OpenPlayer(c, MusicPlayerRoute(m.id)).value.song.id == m.id
    ensures OpenPlayer(c, PdfViewerRoute(b.id)).Some?
    ensures OpenPlayer(c, PdfViewerRoute(b.id)).value.ReadBook?
    ensures OpenPlayer(c, PdfViewerRoute(b.id)).value.book.id == b.id
    ensures OpenPlayer(c, VideoPlayerRoute(v.id)).Some?
    ensures OpenPlayer(c, VideoPlayerRoute(v.id)).value.PlayVideo?
    ensures OpenPlayer(c, VideoPlayerRoute(v.id)).value.video.id == v.id
  {
    HelperRoutesRoundTrip(m.id);
    HelperRoutesRoundTrip(b.id);
    HelperRoutesRoundTrip(v.id);
    var i :| 0 <= i < |c.music| && c.music[i] == m;
    var j :| 0 <= j < |c.books| && c.books[j] == b;
    var k :| 0 <= k < |c.videos| && c.videos[k] == v;
    assert IsValidMusicId(c, m.id) && IsValidBookId(c, b.id) && IsValidVideoId(c, v.id);
    PrefixesDiffer(m.id, b.id, v.id);
  }

  /** A helper route matches only its own player's base. */
  lemma PrefixesDiffer(m: string, b: string, v: string)
    ensures RouteArgument(MusicPlayerRoute(m), "pdf_viewer").None?
    ensures RouteArgument(MusicPlayerRoute(m), "video_player").None?
    ensures RouteArgument(PdfViewerRoute(b), "music_player").None?
    ensures RouteArgument(PdfViewerRoute(b), "video_player").None?
    ensures RouteArgument(VideoPlayerRoute(v), "music_player").None?
    ensures RouteArgument(VideoPlayerRoute(v), "pdf_viewer").None?
  {
    assert MusicPlayerRoute(m)[0] == 'm' && PdfViewerRoute(b)[0] == 'p' && VideoPlayerRoute(v)[0] == 'v';
    assert ("pdf_viewer" + "/")[0] == 'p' && ("video_player" + "/")[0] == 'v' && ("music_player" + "/")[0] == 'm';
  }

  /** A card of the Books, Music or Videos screen opens no player at all:
      navigating to its route finds no destination. */
  lemma ScreenRoutesOpenNothing(c: Catalog, id: string)
    ensures OpenPlayer(c, ScreenBookRoute(id)).None?
    ensures OpenPlayer(c, ScreenMusicRoute(id)).None?
    ensures OpenPlayer(c, ScreenVideoRoute(id)).None?
  {
    ScreenRoutesNeverMatch(id, "");
    var b, m, v := ScreenBookRoute(id), ScreenMusicRoute(id), ScreenVideoRoute(id);
    assert b[0] == 'p' && m[0] == 'm' && v[0] == 'v';
    assert ("pdf_viewer" + "/")[0] == 'p' && ("video_player" + "/")[0] == 'v' && ("music_player" + "/")[0] == 'm';
  }

  /** Ids the catalog does not hold, and the empty id, show the error
      screen. */
  lemma UnknownIdsShowError(c: Catalog, id: string)
    requires !IsValidMusicId(c, id) || id == ""
    ensures MusicGate(c, id) == NotFound("Music not found")
  {
  }

  // ---------------------------------------------------------------------
  // The logged-in flag and the two graphs
  // ---------------------------------------------------------------------

  datatype AppState = AppState(isLoggedIn: bool)

  /** The flag starts false. */
  const Launched := AppState(false)

  /** The routes of the graph drawn for a state: the sign-in screens
      before signing in, the content screens and players after. */
  function Graph(st: AppState): (routes: set<string>)
    ensures Login in routes <==> !st.isLoggedIn
    ensures Signup in routes <==> !st.isLoggedIn
    ensures Home in routes <==> st.isLoggedIn
    ensures PdfViewer in routes <==> st.isLoggedIn
    ensures forall r :: r in routes ==> r in AllRoutes
  {
    if st.isLoggedIn then
      {Home, Books, Videos, MusicRoute, Chat, Meetings, Events, Profile, MusicPlayer, PdfViewer, VideoPlayer}
    else
      {Login, Signup}
  }

  function StartDestination(st: AppState): (r: string)
    ensures r in Graph(st)
    ensures st.isLoggedIn ==> r == Home
    ensures !st.isLoggedIn ==> r == Login
  {
    if st.isLoggedIn then Home else Login
  }

  /** The two graphs share no route and together hold every route. */
  lemma GraphsPartitionRoutes()
    ensures Graph(AppState(true)) * Graph(AppState(false)) == {}
    ensures forall r :: r in AllRoutes <==> r in Graph(AppState(true)) + Graph(AppState(false))
  {
  }

  /** `onLoginSuccess` and `onSignupSuccess` both set the flag; the Skip
      Login button calls the same callback. */
  function SignedIn(st: AppState): (next: AppState)
    ensures next.isLoggedIn
    ensures StartDestination(next) == Home
  {
    AppState(true)
  }

  /** `onLogout`: the flag is cleared whether or not the navigation to the
      sign-in screen throws. */
  function Logout(st: AppState, navigationThrows: bool): (next: AppState)
    ensures !next.isLoggedIn
    ensures StartDestination(next) == Login
  {
    AppState(false)
  }

  /** Signing in and out are inverse on the flag, from any state. */
  lemma LogoutUndoesSignIn(st: AppState, navigationThrows: bool)
    ensures Logout(SignedIn(st), navigationThrows) == Launched
    ensures SignedIn(Logout(st, navigationThrows)) == SignedIn(st)
  {
  }

  // ---------------------------------------------------------------------
  // Bottom bar
  // ---------------------------------------------------------------------

  datatype BottomNavItem = BottomNavItem(route: string, title: string)

  const BottomItems: seq<BottomNavItem> :=
    [BottomNavItem(Home, "Home"), BottomNavItem(Books, "Books"),
     BottomNavItem(Videos, "Videos"), BottomNavItem(MusicRoute, "Music")]

  /** An item is drawn selected iff the current route is its route. */
  predicate Selected(it: BottomNavItem, currentRoute: Option<string>)
  {
    currentRoute == Some(it.route)
  }

  /** At most one bottom item is selected at a time, and on a player route
      none is. */
  lemma AtMostOneSelected(currentRoute: Option<string>)
    ensures forall i, j :: (0 <= i < |BottomItems| && 0 <= j < |BottomItems|
      && Selected(BottomItems[i], currentRoute) && Selected(BottomItems[j], currentRoute)) ==> i == j
    ensures (currentRoute == Some(MusicPlayer) || currentRoute == Some(PdfViewer) || currentRoute == Some(VideoPlayer)) ==>
      forall i :: 0 <= i < |BottomItems| ==> !Selected(BottomItems[i], currentRoute)
  {
    RoutesDistinct();
    assert forall i :: 0 <= i < |BottomItems| ==> BottomItems[i].route == AllRoutes[i + 2];
  }
}

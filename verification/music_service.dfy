/** The background music service: its playing flag and current song, the
    commands it accepts as intent actions, and the media notification it
    redraws after every command. The media player itself is not part of the
    service yet, so playback is only the flag. */
module MusicService {
  import opened KotlinStd

  const ActionPlay := "ACTION_PLAY"
  const ActionPause := "ACTION_PAUSE"
  const ActionNext := "ACTION_NEXT"
  const ActionPrevious := "ACTION_PREVIOUS"
  const ActionStop := "ACTION_STOP"

  /** Android's `Service.START_STICKY`. */
  const StartSticky := 1

  /** A notification button: its title and the action its intent carries. */
  datatype NotificationAction = NotificationAction(title: string, action: string)

  datatype Notification = Notification(title: string, actions: seq<NotificationAction>, ongoing: bool)

  datatype ServiceState = ServiceState(
    isPlaying: bool,
    currentSong: Option<string>,
    /** Started in the foreground with the notification. */
    foreground: bool,
    /** The notification on screen, if any. */
    notification: Option<Notification>,
    /** `stopSelf` has not been called. */
    running: bool)

  const Created := ServiceState(false, None, false, None, true)

  /** The notification for the current state: previous, play or pause, and
      next buttons; the title is the song, or "Spiritual Music" without
      one; it cannot be swiped away while playing. */
  function BuildNotification(isPlaying: bool, currentSong: Option<string>): (n: Notification)
    ensures |n.actions| == 3
    ensures n.actions[0].action == ActionPrevious && n.actions[2].action == ActionNext
    ensures n.actions[1].title == "Pause" <==> isPlaying
    ensures n.actions[1].action == ActionPause <==> isPlaying
    ensures n.ongoing == isPlaying
    ensures currentSong.Some? ==> n.title == currentSong.value
    ensures currentSong.None? ==> n.title == "Spiritual Music"
  {
    Notification(
      currentSong.GetOr("Spiritual Music"),
      [ NotificationAction("Previous", ActionPrevious),
        if isPlaying then NotificationAction("Pause", ActionPause) else NotificationAction("Play", ActionPlay),
        NotificationAction("Next", ActionNext) ],
      isPlaying)
  }

  /** `showNotification`: while playing the service runs in the foreground
      with the notification; otherwise it leaves the foreground, keeping the
      notification on screen. */
  function ShowNotification(st: ServiceState): (next: ServiceState)
    ensures next.foreground == st.isPlaying
    ensures next.notification == Some(BuildNotification(st.isPlaying, st.currentSong))
    ensures next.isPlaying == st.isPlaying && next.currentSong == st.currentSong && next.running == st.running
  {
    st.(foreground := st.isPlaying, notification := Some(BuildNotification(st.isPlaying, st.currentSong)))
  }

  /** The notification and the foreground status agree with the flags. */
  ghost predicate Consistent(st: ServiceState)
  {
    st.notification.Some? ==>
      st.notification.value == BuildNotification(st.isPlaying, st.currentSong) && st.foreground == st.isPlaying
  }

  /** `playMusic(songId)`: a given song becomes current, none keeps the
      current one; playing starts. */
  function PlayMusic(st: ServiceState, songId: Option<string>): (next: ServiceState)
    ensures next.isPlaying && next.foreground && Consistent(next)
    ensures songId.Some? ==> next.currentSong == songId
    ensures songId.None? ==> next.currentSong == st.currentSong
  {
    var withSong := match songId case Some(s) => st.(currentSong := Some(s)) case None => st;
    ShowNotification(withSong.(isPlaying := true))
  }

  /** `pauseMusic` */
  function PauseMusic(st: ServiceState): (next: ServiceState)
    ensures !next.isPlaying && !next.foreground && next.notification.Some? && Consistent(next)
    ensures next.currentSong == st.currentSong
  {
    ShowNotification(st.(isPlaying := false))
  }

  /** `stopMusic`: playback stops, the song is forgotten, the notification
      is removed with the foreground status, and the service stops itself. */
  function StopMusic(st: ServiceState): (next: ServiceState)
    ensures !next.isPlaying && next.currentSong.None? && !next.foreground
    ensures next.notification.None? && !next.running
  {
    ServiceState(false, None, false, None, false)
  }

  /** `playNext` and `playPrevious` only redraw the notification. */
  function Redraw(st: ServiceState): (next: ServiceState)
    ensures next.isPlaying == st.isPlaying && next.currentSong == st.currentSong
    ensures Consistent(next) && next.notification.Some?
  {
    ShowNotification(st)
  }

  /** `onStartCommand`: the intent's action selects the command; a missing
      or unknown action does nothing. The service asks to be restarted
      either way. */
  function OnStartCommand(st: ServiceState, action: Option<string>): (r: (ServiceState, int))
    ensures r.1 == StartSticky
    ensures action == Some(ActionPlay) ==> r.0 == PlayMusic(st, None)
    ensures action == Some(ActionPause) ==> r.0 == PauseMusic(st)
    ensures action == Some(ActionStop) ==> r.0 == StopMusic(st)
    ensures action == Some(ActionNext) || action == Some(ActionPrevious) ==> r.0 == Redraw(st)
    ensures action.None? ==> r.0 == st
    ensures action.Some? && action.value !in [ActionPlay, ActionPause, ActionNext, ActionPrevious, ActionStop] ==>
      r.0 == st
  {
    var next :=
      match action
      case None => st
      case Some(a) =>
        if a == ActionPlay then PlayMusic(st, None)
        else if a == ActionPause then PauseMusic(st)
        else if a == ActionNext then Redraw(st)
        else if a == ActionPrevious then Redraw(st)
        else if a == ActionStop then StopMusic(st)
        else st;
    (next, StartSticky)
  }

  /** Every command keeps the notification in step with the flags. */
  lemma CommandsKeepConsistent(st: ServiceState, action: Option<string>)
    requires Consistent(st)
    ensures Consistent(OnStartCommand(st, action).0)
  {
  }

  /** The notification's middle button toggles playback and keeps the
      song: the action it carries is the opposite of the current state. */
  lemma MiddleButtonToggles(st: ServiceState)
    requires st.notification.Some? && Consistent(st)
    ensures var next := OnStartCommand(st, Some(st.notification.value.actions[1].action)).0;
      next.isPlaying == !st.isPlaying && next.currentSong == st.currentSong
  {
    var n := st.notification.value;
    if st.isPlaying {
      assert n.actions[1].action == ActionPause;
    } else {
      assert n.actions[1].action == ActionPlay;
    }
  }

  /** Pausing and playing again without a song id resumes the same song. */
  lemma PauseThenPlayResumes(st: ServiceState, songId: string)
    ensures PlayMusic(PauseMusic(PlayMusic(st, Some(songId))), None).currentSong == Some(songId)
    ensures PlayMusic(PauseMusic(PlayMusic(st, Some(songId))), None) == PlayMusic(st, Some(songId))
  {
  }

  /** After a stop, playing without a song id shows the generic title. */
  lemma PlayAfterStopHasNoSong(st: ServiceState)
    ensures PlayMusic(StopMusic(st), None).currentSong.None?
    ensures PlayMusic(StopMusic(st), None).notification.value.title == "Spiritual Music"
  {
  }
}

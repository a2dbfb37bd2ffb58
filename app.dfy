/**
 * The application shell (`App`): the open file, its dirty flag, the set of
 * project paths that failed to open, and the keyboard shortcuts that
 * change tempo, cycle tracks and toggle playback. The player and the
 * project list are the `AlphaTab.Player` and `Projects.ProjectStore`
 * objects; file reads arrive as `MainIpc` results.
 */
module App {
  import opened Wrappers
  import opened AlphaTab
  import opened Projects
  import opened MainIpc

  // ---------------------------------------------------------------- tempo keys

  const TEMPO_MIN := 25
  const TEMPO_MAX := 200
  const TEMPO_KEY_STEP := 5

  /** Ctrl/Cmd and '=': `min(2, tempo + 0.05)`. */
  function TempoUp(t: int): (u: int)
    ensures u <= TEMPO_MAX
    ensures t <= TEMPO_MAX - TEMPO_KEY_STEP ==> u == t + TEMPO_KEY_STEP
    ensures t >= TEMPO_MAX - TEMPO_KEY_STEP ==> u == TEMPO_MAX
  {
    Min(TEMPO_MAX, t + TEMPO_KEY_STEP)
  }

  /** Ctrl/Cmd and '-': `max(0.25, tempo - 0.05)`. */
  function TempoDown(t: int): (d: int)
    ensures d >= TEMPO_MIN
    ensures t >= TEMPO_MIN + TEMPO_KEY_STEP ==> d == t - TEMPO_KEY_STEP
    ensures t <= TEMPO_MIN + TEMPO_KEY_STEP ==> d == TEMPO_MIN
  {
    Max(TEMPO_MIN, t - TEMPO_KEY_STEP)
  }

  /** The tempo keys keep a tempo in [0.25, 2] there, and away from the ends one undoes the other. */
  lemma TempoKeys(t: int)
    ensures TEMPO_MIN <= t <= TEMPO_MAX ==> TEMPO_MIN <= TempoUp(t) <= TEMPO_MAX
    ensures TEMPO_MIN <= t <= TEMPO_MAX ==> TEMPO_MIN <= TempoDown(t) <= TEMPO_MAX
    ensures TEMPO_MIN <= t <= TEMPO_MAX - TEMPO_KEY_STEP ==> TempoDown(TempoUp(t)) == t
    ensures TEMPO_MIN + TEMPO_KEY_STEP <= t <= TEMPO_MAX ==> TempoUp(TempoDown(t)) == t
  {
  }

  /** Pressing a tempo key `n` times from anywhere in range never leaves the range. */
  lemma {:induction false} TempoKeysRepeated(t: int, ups: seq<bool>)
    requires TEMPO_MIN <= t <= TEMPO_MAX
    ensures TEMPO_MIN <= Presses(t, ups) <= TEMPO_MAX
  {
    if ups != [] {
      TempoKeysRepeated(t, ups[..|ups| - 1]);
    }
  }

  /** The tempo after a sequence of presses, `true` for up and `false` for down. */
  function Presses(t: int, ups: seq<bool>): int {
    if ups == [] then t
    else
      var before := Presses(t, ups[..|ups| - 1]);
      if ups[|ups| - 1] then TempoUp(before) else TempoDown(before)
  }

  // ---------------------------------------------------------------- track keys

  /** `selectedTracks[0]?.index ?? 0`. */
  function CurrentIndex(selected: seq<Track>): nat {
    if selected == [] then 0 else selected[0].index
  }

  /** Ctrl/Cmd and ']': `(i + 1) % n`. */
  function NextIndex(i: nat, n: nat): (j: nat)
    requires n > 0
    ensures j < n
    ensures i < n - 1 ==> j == i + 1
    ensures i == n - 1 ==> j == 0
  {
    (i + 1) % n
  }

  /** Ctrl/Cmd and '[': `(i - 1 + n) % n`. */
  function PrevIndex(i: nat, n: nat): (j: nat)
    requires n > 0
    ensures j < n
    ensures 0 < i <= n ==> j == i - 1
    ensures i == 0 ==> j == n - 1
  {
    (i - 1 + n) % n
  }

  /** For an index of a listed track, next then previous (or previous then next) comes back to it. */
  lemma TrackCycle(i: nat, n: nat)
    requires n > 0 && i < n
    ensures PrevIndex(NextIndex(i, n), n) == i
    ensures NextIndex(PrevIndex(i, n), n) == i
  {
  }

  // ---------------------------------------------------------------- space and title

  /** Space toggles playback only outside text fields, with a score loaded and the player ready. */
  predicate SpacePlays(tag: string, hasScore: bool, isPlayerReady: bool) {
    tag != "textarea" && tag != "input" && hasScore && isPlayerReady
  }

  const APP_TITLE := "Guitar Tab Reader"
  const DIRTY_MARK := " •"
  const TITLE_SEPARATOR := " — "

  /** The window title: the app's name alone without a file name, else the name, the dirty mark and the app's name. */
  function Title(fileName: Option<string>, isDirty: bool): (t: string)
    ensures fileName.None? || fileName.value == "" ==> t == APP_TITLE
    ensures fileName.Some? && fileName.value != "" ==>
      && |t| >= |fileName.value| + |TITLE_SEPARATOR + APP_TITLE|
      && t[..|fileName.value|] == fileName.value
      && t[|t| - |TITLE_SEPARATOR + APP_TITLE|..] == TITLE_SEPARATOR + APP_TITLE
  {
    if fileName.None? || fileName.value == "" then APP_TITLE
    else fileName.value + (if isDirty then DIRTY_MARK else "") + TITLE_SEPARATOR + APP_TITLE
  }

  /** The dirty mark is visible: for the same file name the two titles differ, the dirty one by exactly the mark. */
  lemma DirtyMarkShows(name: string)
    requires name != ""
    ensures Title(Some(name), true) != Title(Some(name), false)
    ensures |Title(Some(name), true)| == |Title(Some(name), false)| + |DIRTY_MARK|
    ensures Title(Some(name), true)[|name|..|name| + |DIRTY_MARK|] == DIRTY_MARK
  {
    var t := Title(Some(name), true);
    assert t == name + DIRTY_MARK + (TITLE_SEPARATOR + APP_TITLE);
  }

  // ---------------------------------------------------------------- the shell

  class AppState {
    const player: Player
    const store: ProjectStore
    var fileName: Option<string>
    var filePath: Option<string>
    var isDirty: bool
    var errorPaths: set<string>
    var isPracticePanelOpen: bool

    constructor (player: Player, store: ProjectStore)
      ensures this.player == player && this.store == store
      ensures fileName == None && filePath == None && !isDirty && errorPaths == {}
      ensures !isPracticePanelOpen
    {
      this.player := player;
      this.store := store;
      fileName, filePath, isDirty, errorPaths := None, None, false, {};
      isPracticePanelOpen := false;
    }

    /**
     * `handleFileOpened`: the file becomes the open one, it is registered
     * (moved to the front of the project list) and it no longer counts as
     * failing; other failing paths stay.
     */
    method FileOpened(path: string, name: string, now: int)
      modifies this`fileName, this`filePath, this`errorPaths, store
      ensures fileName == Some(name) && filePath == Some(path)
      ensures store.projects == AddProject(old(store.projects), path, name, now) && store.Persisted()
      ensures errorPaths == old(errorPaths) - {path}
      ensures path !in errorPaths
      ensures forall p :: p != path ==> (p in errorPaths <==> p in old(errorPaths))
    {
      fileName := Some(name);
      filePath := Some(path);
      store.Add(path, name, now);
      if path in errorPaths {
        errorPaths := errorPaths - {path};
      }
    }

    /**
     * `handleProjectSelect` with the answer of the read: the open file
     * again does nothing; otherwise playback stops, and a failed read marks
     * the path while a successful one opens the file, loads it and clears
     * the dirty flag.
     */
    method ProjectSelected(path: string, result: ReadResult, now: int)
      modifies this`fileName, this`filePath, this`errorPaths, this`isDirty, store, player`playing, player`loaded
      ensures Some(path) == old(filePath) ==>
        && fileName == old(fileName) && filePath == old(filePath) && errorPaths == old(errorPaths)
        && isDirty == old(isDirty) && store.projects == old(store.projects)
        && player.playing == old(player.playing) && player.loaded == old(player.loaded)
      ensures Some(path) != old(filePath) && result.ReadErr? ==>
        && errorPaths == old(errorPaths) + {path}
        && fileName == old(fileName) && filePath == old(filePath) && isDirty == old(isDirty)
        && store.projects == old(store.projects) && player.loaded == old(player.loaded)
      ensures Some(path) != old(filePath) ==> player.playing == (if player.hasApi then false else old(player.playing))
      ensures Some(path) != old(filePath) && result.Read? ==>
        && fileName == Some(result.fileName) && filePath == Some(result.filePath)
        && errorPaths == old(errorPaths) - {result.filePath}
        && store.projects == AddProject(old(store.projects), result.filePath, result.fileName, now)
        && player.loaded == (if player.hasApi then Some(result.data) else old(player.loaded))
        && !isDirty
    {
      if Some(path) == filePath {
        return;
      }
      player.Stop();
      if result.ReadErr? {
        errorPaths := errorPaths + {path};
        return;
      }
      FileOpened(result.filePath, result.fileName, now);
      player.LoadFile(result.data);
      isDirty := false;
    }

    /** `handleProjectRemove`: the path leaves both the project list and the failing set. */
    method ProjectRemoved(path: string)
      modifies this`errorPaths, store
      ensures store.projects == RemoveProject(old(store.projects), path) && store.Persisted()
      ensures errorPaths == old(errorPaths) - {path}
      ensures forall e :: e in store.projects ==> e.filePath != path
    {
      store.Remove(path);
      if path in errorPaths {
        errorPaths := errorPaths - {path};
      }
    }

    /**
     * `handleFileDrop`: a dropped file is opened as a chosen one is, with
     * the name and path the drop reports: it is registered, loaded and
     * no longer dirty.
     */
    method FileDropped(data: seq<int>, name: string, path: string, now: int)
      modifies this`fileName, this`filePath, this`errorPaths, this`isDirty, store, player`loaded
      ensures fileName == Some(name) && filePath == Some(path) && !isDirty
      ensures errorPaths == old(errorPaths) - {path}
      ensures store.projects == AddProject(old(store.projects), path, name, now) && store.Persisted()
      ensures player.loaded == (if player.hasApi then Some(data) else old(player.loaded))
    {
      FileOpened(path, name, now);
      player.LoadFile(data);
      isDirty := false;
    }

    /** Ctrl/Cmd+L (`handleTogglePracticeMode`): the practice panel opens when closed and closes when open. */
    method PracticePanelKey()
      modifies this`isPracticePanelOpen
      ensures isPracticePanelOpen == !old(isPracticePanelOpen)
    {
      isPracticePanelOpen := !isPracticePanelOpen;
    }

    /** Ctrl/Cmd+O with the dialog's answer: nothing when cancelled, else the file is opened and loaded. */
    method OpenShortcut(chosen: Option<Opened>, now: int)
      modifies this`fileName, this`filePath, this`errorPaths, this`isDirty, store, player`loaded
      ensures chosen.None? ==>
        fileName == old(fileName) && filePath == old(filePath) && isDirty == old(isDirty)
        && errorPaths == old(errorPaths) && store.projects == old(store.projects) && player.loaded == old(player.loaded)
      ensures chosen.Some? ==>
        && fileName == Some(chosen.value.fileName) && filePath == Some(chosen.value.filePath) && !isDirty
        && errorPaths == old(errorPaths) - {chosen.value.filePath}
        && store.projects == AddProject(old(store.projects), chosen.value.filePath, chosen.value.fileName, now)
        && player.loaded == (if player.hasApi then Some(chosen.value.data) else old(player.loaded))
    {
      if chosen.Some? {
        FileOpened(chosen.value.filePath, chosen.value.fileName, now);
        player.LoadFile(chosen.value.data);
        isDirty := false;
      }
    }

    /**
     * Ctrl/Cmd+S: with a score and a (non-empty) path, a successful write
     * clears the dirty flag. `saved` is what `file:save` answers: whether
     * the write completed without throwing.
     */
    method SaveShortcut(saved: bool)
      modifies this`isDirty
      ensures isDirty == (if player.score.Some? && filePath.Some? && filePath.value != "" && saved
                          then false else old(isDirty))
    {
      if player.score.Some? && filePath.Some? && filePath.value != "" {
        if saved {
          isDirty := false;
        }
      }
    }

    /** The tempo keys. */
    method TempoKey(up: bool)
      modifies player`tempo, player`speed
      ensures player.tempo == (if up then TempoUp(old(player.tempo)) else TempoDown(old(player.tempo)))
      ensures TEMPO_MIN <= old(player.tempo) <= TEMPO_MAX ==> TEMPO_MIN <= player.tempo <= TEMPO_MAX
    {
      TempoKeys(player.tempo);
      if up {
        player.SetTempo(TempoUp(player.tempo));
      } else {
        player.SetTempo(TempoDown(player.tempo));
      }
    }

    /**
     * The track keys: with tracks loaded and the engine present, the next or
     * previous track (cyclically) alone becomes selected and is rendered;
     * with no tracks, or no engine for `selectTrack` to act on, nothing changes.
     */
    method TrackKey(next: bool)
      modifies player`selectedTracks, player`rendered
      ensures |player.tracks| == 0 || !player.hasApi ==>
        player.selectedTracks == old(player.selectedTracks) && player.rendered == old(player.rendered)
      ensures |player.tracks| > 0 && player.hasApi ==>
        var n := |player.tracks|;
        var i := CurrentIndex(old(player.selectedTracks));
        && player.selectedTracks == [player.tracks[if next then NextIndex(i, n) else PrevIndex(i, n)]]
        && player.rendered == player.selectedTracks
    {
      var n := |player.tracks|;
      if n == 0 {
        return;
      }
      var i := CurrentIndex(player.selectedTracks);
      var j := if next then NextIndex(i, n) else PrevIndex(i, n);
      player.SelectTrack(player.tracks[j], false);
    }

    /** Space. */
    method SpaceKey(tag: string)
      modifies player`playing
      ensures player.playing == (if SpacePlays(tag, player.score.Some?, player.isPlayerReady) && player.hasApi
                                 then !old(player.playing) else old(player.playing))
    {
      if SpacePlays(tag, player.score.Some?, player.isPlayerReady) {
        player.PlayPause();
      }
    }

    /** The title the window shows for the current state. */
    function WindowTitle(): (t: string)
      reads this
      ensures fileName.None? ==> t == APP_TITLE
    {
      Title(fileName, isDirty)
    }
  }
}

/**
 * The score/playback engine as the renderer sees it (`useAlphaTab`): the
 * score's bars and tracks, and one abstract player record holding the
 * playback properties that the hooks read and write. Rendering, synthesis
 * and file parsing belong to the engine and are not modelled.
 */
module AlphaTab {
  import opened Wrappers

  /** One staff of a track; `tuning[k]` is the open MIDI pitch of string k+1. */
  datatype Staff = Staff(tuning: seq<int>)

  /** A track, identified by its position `index` in the score. */
  datatype Track = Track(index: nat, program: int, staves: seq<Staff>)

  /** A master bar: its start tick and its duration in ticks. */
  datatype Bar = Bar(start: int, duration: int)

  datatype Score = Score(bars: seq<Bar>, tracks: seq<Track>)

  /** The playback range handed to the player, in ticks. */
  datatype TickRange = TickRange(startTick: int, endTick: int)

  /** `tracks.some(t => t.index === track.index)`: the selection test by index. */
  predicate IsSelected(tracks: seq<Track>, track: Track) {
    exists i :: 0 <= i < |tracks| && tracks[i].index == track.index
  }

  /** `tracks.filter(t => t.index !== index)`. */
  function WithoutIndex(tracks: seq<Track>, index: nat): (r: seq<Track>)
    ensures |r| <= |tracks|
    ensures forall i :: 0 <= i < |r| ==> r[i] in tracks && r[i].index != index
    ensures forall t :: t in tracks && t.index != index ==> t in r
    ensures (forall i :: 0 <= i < |tracks| ==> tracks[i].index != index) ==> r == tracks
  {
    if tracks == [] then []
    else
      assert tracks == [tracks[0]] + tracks[1..];
      if tracks[0].index == index then WithoutIndex(tracks[1..], index)
      else [tracks[0]] + WithoutIndex(tracks[1..], index)
  }

  /**
   * The selection after a click on `track`: a plain click selects only that
   * track; with `append` the track is toggled, except that the last
   * selected track cannot be toggled off.
   */
  function NewSelection(selected: seq<Track>, track: Track, append: bool): (r: seq<Track>)
    ensures r != []
    ensures forall t :: t in r ==> t in selected || t == track
  {
    if !append then [track]
    else if IsSelected(selected, track) then
      var rest := WithoutIndex(selected, track.index);
      if rest == [] then [track] else rest
    else selected + [track]
  }

  /** What a click does to the selection, case by case. */
  lemma NewSelectionCases(selected: seq<Track>, track: Track, append: bool)
    ensures NewSelection(selected, track, append) != []
    ensures !append ==> NewSelection(selected, track, append) == [track]
    ensures append && !IsSelected(selected, track) ==>
      NewSelection(selected, track, append) == selected + [track]
    ensures append && IsSelected(selected, track) ==>
      var r := NewSelection(selected, track, append);
      r == [track] || (forall i :: 0 <= i < |r| ==> r[i].index != track.index)
    ensures append && IsSelected(selected, track) ==>
      var r := NewSelection(selected, track, append);
      r == [track] <==> forall i :: 0 <= i < |selected| ==> selected[i].index == track.index
  {
    if append && IsSelected(selected, track) {
      var rest := WithoutIndex(selected, track.index);
      if forall i :: 0 <= i < |selected| ==> selected[i].index == track.index {
        WithoutIndexAll(selected, track.index);
      } else {
        var i :| 0 <= i < |selected| && selected[i].index != track.index;
        assert selected[i] in rest;
        assert rest != [track];
      }
    }
  }

  /** Two ctrl/cmd-clicks on an unselected track restore the selection (an empty one becomes just that track). */
  lemma AppendToggleTwice(selected: seq<Track>, track: Track)
    requires !IsSelected(selected, track)
    ensures NewSelection(NewSelection(selected, track, true), track, true)
         == (if selected == [] then [track] else selected)
  {
    var once := selected + [track];
    assert once[|selected|] == track;
    assert IsSelected(once, track);
    assert WithoutIndex(once, track.index) == selected by {
      WithoutIndexAppend(selected, track);
    }
  }

  lemma {:induction false} WithoutIndexAppend(selected: seq<Track>, track: Track)
    requires !IsSelected(selected, track)
    ensures WithoutIndex(selected + [track], track.index) == selected
  {
    if selected == [] {
      assert WithoutIndex([track], track.index) == WithoutIndex([], track.index);
    } else {
      assert (selected + [track])[1..] == selected[1..] + [track];
      WithoutIndexAppend(selected[1..], track);
    }
  }

  lemma {:induction false} WithoutIndexAll(tracks: seq<Track>, index: nat)
    requires forall i :: 0 <= i < |tracks| ==> tracks[i].index == index
    ensures WithoutIndex(tracks, index) == []
  {
    if tracks != [] {
      WithoutIndexAll(tracks[1..], index);
    }
  }

  /** Sets the program of every track carrying `index` (the engine shares one track object). */
  function WithProgram(tracks: seq<Track>, index: nat, program: int): (r: seq<Track>)
    ensures |r| == |tracks|
    ensures forall i :: 0 <= i < |r| ==> r[i].index == tracks[i].index && r[i].staves == tracks[i].staves
    ensures forall i :: 0 <= i < |r| ==>
      r[i].program == (if tracks[i].index == index then program else tracks[i].program)
  {
    seq(|tracks|, i requires 0 <= i < |tracks| =>
      if tracks[i].index == index then tracks[i].(program := program) else tracks[i])
  }

  /**
   * The player record: the `useAlphaTab` state cells (`score`, `tracks`,
   * `selectedTracks`, `tempo`, `isPlayerReady`) and the properties of the
   * engine object (`hasApi` says whether it exists; `speed`, `range`,
   * `looping`, `countIn`, `playing`, `rendered`, `loaded`). Tempo and speed
   * are in hundredths of normal speed. `score` stands both for the state
   * cell and for the engine's own score, which `getScore` and the guard of
   * `changeTrackProgram` read (useAlphaTab.ts:193-200): the cell is set
   * from the engine's score-loaded event (useAlphaTab.ts:91-97), so the two
   * agree once that event has fired; the gap before the state update lands
   * is not modelled.
   */
  class Player {
    var hasApi: bool
    var isPlayerReady: bool
    var score: Option<Score>
    var tracks: seq<Track>
    var selectedTracks: seq<Track>
    var rendered: seq<Track>
    var tempo: int
    var speed: int
    var range: Option<TickRange>
    var looping: bool
    var countIn: int
    var playing: bool
    var loaded: Option<seq<int>>

    /** The state right after the hook mounts (`tempo` starts at 1, i.e. 100). */
    constructor (hasApi: bool)
      ensures this.hasApi == hasApi && !isPlayerReady
      ensures score == None && tracks == [] && selectedTracks == [] && rendered == []
      ensures tempo == 100 && speed == 100
      ensures range == None && !looping && countIn == 0 && !playing && loaded == None
    {
      this.hasApi := hasApi;
      isPlayerReady := false;
      score, tracks, selectedTracks, rendered := None, [], [], [];
      tempo, speed := 100, 100;
      range, looping, countIn, playing := None, false, 0, false;
      loaded := None;
    }

    /** `stop()`: ends playback when the engine exists. */
    method Stop()
      modifies this`playing
      ensures playing == (if hasApi then false else old(playing))
    {
      if hasApi {
        playing := false;
      }
    }

    /** `playPause()`: toggles playback when the engine exists. */
    method PlayPause()
      modifies this`playing
      ensures playing == (if hasApi then !old(playing) else old(playing))
    {
      if hasApi {
        playing := !playing;
      }
    }

    /** `setTempo(speed)`: the engine's speed (if any) and the tempo cell get the same value. */
    method SetTempo(t: int)
      modifies this`tempo, this`speed
      ensures tempo == t
      ensures speed == (if hasApi then t else old(speed))
      ensures hasApi ==> speed == tempo
    {
      if hasApi {
        speed := t;
      }
      tempo := t;
    }

    method SetPlaybackRange(r: Option<TickRange>)
      modifies this`range
      ensures range == r
    {
      range := r;
    }

    method SetLooping(on: bool)
      modifies this`looping
      ensures looping == on
    {
      looping := on;
    }

    method SetCountIn(volume: int)
      modifies this`countIn
      ensures countIn == volume
    {
      countIn := volume;
    }

    /** `loadFile(data)`: hands the bytes to the engine, which parses them later. */
    method LoadFile(data: seq<int>)
      modifies this`loaded
      ensures loaded == (if hasApi then Some(data) else old(loaded))
    {
      if hasApi {
        loaded := Some(data);
      }
    }

    /** The `scoreLoaded` event: copies the tracks and selects the first one, if any. */
    method ScoreLoaded(s: Score)
      modifies this`score, this`tracks, this`selectedTracks
      ensures score == Some(s) && tracks == s.tracks
      ensures selectedTracks == (if |s.tracks| > 0 then [s.tracks[0]] else old(selectedTracks))
    {
      score := Some(s);
      tracks := s.tracks;
      if |s.tracks| > 0 {
        selectedTracks := [s.tracks[0]];
      }
    }

    /** `selectTrack(track, append)`: nothing without the engine; otherwise selects and renders the new selection. */
    method SelectTrack(track: Track, append: bool)
      modifies this`selectedTracks, this`rendered
      ensures !hasApi ==> selectedTracks == old(selectedTracks) && rendered == old(rendered)
      ensures hasApi ==> selectedTracks == NewSelection(old(selectedTracks), track, append)
      ensures hasApi ==> rendered == selectedTracks && selectedTracks != []
    {
      if !hasApi {
        return;
      }
      var next := NewSelection(selectedTracks, track, append);
      NewSelectionCases(selectedTracks, track, append);
      selectedTracks := next;
      rendered := next;
    }

    /** `changeTrackProgram`: nothing without the engine or a score; otherwise the track's program changes and the score re-renders. */
    method ChangeTrackProgram(track: Track, program: int)
      modifies this`tracks, this`selectedTracks, this`rendered, this`score
      ensures !hasApi || score.None? ==>
        tracks == old(tracks) && selectedTracks == old(selectedTracks) && rendered == old(rendered) && score == old(score)
      ensures hasApi && old(score).Some? ==>
        && tracks == WithProgram(old(tracks), track.index, program)
        && selectedTracks == WithProgram(old(selectedTracks), track.index, program)
        && rendered == WithProgram(old(rendered), track.index, program)
        && score == Some(old(score).value.(tracks := WithProgram(old(score).value.tracks, track.index, program)))
    {
      if !hasApi || score.None? {
        return;
      }
      tracks := WithProgram(tracks, track.index, program);
      selectedTracks := WithProgram(selectedTracks, track.index, program);
      rendered := WithProgram(rendered, track.index, program);
      score := Some(score.value.(tracks := WithProgram(score.value.tracks, track.index, program)));
    }
  }
}

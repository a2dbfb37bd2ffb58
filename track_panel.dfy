/**
 * The track panel (`TrackPanel`): the instrument table grouped by
 * category, the program-to-name lookup built from it, the name shown for
 * a program, and how a click selects a track. Program numbers are the
 * 0-based General MIDI program numbers.
 */
module TrackPanel {
  import opened Wrappers
  import opened Text
  import opened AlphaTab

  datatype Instrument = Instrument(program: int, name: string)

  datatype Group = Group(title: string, instruments: seq<Instrument>)

  const MIDI_INSTRUMENTS: seq<Group> := [
    Group("Piano", [
      Instrument(0, "Acoustic Grand Piano"),
      Instrument(1, "Bright Acoustic Piano"),
      Instrument(4, "Electric Piano 1"),
      Instrument(5, "Electric Piano 2")]),
    Group("Guitar", [
      Instrument(24, "Nylon Guitar"),
      Instrument(25, "Steel Guitar"),
      Instrument(26, "Jazz Guitar"),
      Instrument(27, "Clean Guitar"),
      Instrument(28, "Muted Guitar"),
      Instrument(29, "Overdriven Guitar"),
      Instrument(30, "Distortion Guitar"),
      Instrument(31, "Guitar Harmonics")]),
    Group("Bass", [
      Instrument(32, "Acoustic Bass"),
      Instrument(33, "Finger Bass"),
      Instrument(34, "Pick Bass"),
      Instrument(35, "Fretless Bass"),
      Instrument(36, "Slap Bass 1"),
      Instrument(38, "Synth Bass 1")]),
    Group("Strings", [
      Instrument(40, "Violin"),
      Instrument(41, "Viola"),
      Instrument(42, "Cello"),
      Instrument(48, "String Ensemble")]),
    Group("Brass & Wind", [
      Instrument(56, "Trumpet"),
      Instrument(57, "Trombone"),
      Instrument(60, "French Horn"),
      Instrument(65, "Alto Sax"),
      Instrument(66, "Tenor Sax"),
      Instrument(73, "Flute")]),
    Group("Synth & Other", [
      Instrument(80, "Synth Lead (Square)"),
      Instrument(81, "Synth Lead (Saw)"),
      Instrument(88, "Synth Pad (New Age)"),
      Instrument(104, "Sitar"),
      Instrument(105, "Banjo")])
  ]

  /** Every instrument of every group, group by group. */
  function Entries(groups: seq<Group>): seq<Instrument> {
    if groups == [] then [] else Entries(groups[..|groups| - 1]) + groups[|groups| - 1].instruments
  }

  /** The map after setting each entry in turn: a later entry for the same program replaces an earlier one. */
  function MapOf(es: seq<Instrument>): map<int, string> {
    if es == [] then map[] else MapOf(es[..|es| - 1])[es[|es| - 1].program := es[|es| - 1].name]
  }

  /** The map's keys are exactly the programs listed. */
  lemma {:induction false} MapKeys(es: seq<Instrument>, p: int)
    ensures p in MapOf(es) <==> exists i :: 0 <= i < |es| && es[i].program == p
  {
    if es != [] {
      var init := es[..|es| - 1];
      MapKeys(init, p);
      if exists i :: 0 <= i < |init| && init[i].program == p {
        var i :| 0 <= i < |init| && init[i].program == p;
        assert es[i].program == p;
      }
    }
  }

  predicate ProgramsUnique(es: seq<Instrument>) {
    forall i, j :: 0 <= i < j < |es| ==> es[i].program != es[j].program
  }

  /** With unique programs nothing is overwritten: every entry's program maps to its own name. */
  lemma {:induction false} MapOfUnique(es: seq<Instrument>, k: nat)
    requires ProgramsUnique(es) && k < |es|
    ensures es[k].program in MapOf(es) && MapOf(es)[es[k].program] == es[k].name
  {
    var n := |es| - 1;
    if k < n {
      var init := es[..n];
      assert ProgramsUnique(init);
      MapOfUnique(init, k);
      assert es[k].program != es[n].program;
    }
  }

  /** The source's nested loop over the groups and their instruments. */
  method BuildProgramNameMap(groups: seq<Group>) returns (m: map<int, string>)
    ensures m == MapOf(Entries(groups))
  {
    m := map[];
    var g := 0;
    while g < |groups|
      invariant 0 <= g <= |groups|
      invariant m == MapOf(Entries(groups[..g]))
    {
      var insts := groups[g].instruments;
      var j := 0;
      assert Entries(groups[..g]) + insts[..j] == Entries(groups[..g]);
      while j < |insts|
        invariant 0 <= j <= |insts|
        invariant m == MapOf(Entries(groups[..g]) + insts[..j])
      {
        var es := Entries(groups[..g]) + insts[..j + 1];
        assert es[..|es| - 1] == Entries(groups[..g]) + insts[..j];
        m := m[insts[j].program := insts[j].name];
        j := j + 1;
      }
      assert insts[..j] == insts;
      assert groups[..g + 1][..g] == groups[..g];
      g := g + 1;
    }
    assert groups[..g] == groups;
  }

  /** The name shown for a program: the table's, or "Program " and the number. */
  function InstrumentName(table: map<int, string>, program: int): (name: string)
    ensures program in table ==> name == table[program]
    ensures program !in table ==> name == "Program " + IntToString(program)
  {
    if program in table then table[program] else "Program " + IntToString(program)
  }

  /** The fallback name gives the program number back. */
  lemma FallbackNameRoundTrip(table: map<int, string>, program: int)
    requires program !in table
    ensures var name := InstrumentName(table, program);
      && |name| > 8 && name[..8] == "Program "
      && ParseInt(name[8..]) == program
  {
    var name := InstrumentName(table, program);
    assert name[8..] == IntToString(program);
    IntToStringRoundTrip(program);
  }

  /** `getInstrumentName` over the lookup built from the table. */
  function GetInstrumentName(program: int): string {
    InstrumentName(MapOf(Entries(MIDI_INSTRUMENTS)), program)
  }

  /** Programs strictly increase along the list. */
  predicate Ascending(es: seq<Instrument>) {
    forall i :: 0 <= i < |es| - 1 ==> es[i].program < es[i + 1].program
  }

  lemma {:induction false} AscendingBetween(es: seq<Instrument>, i: nat, j: nat)
    requires Ascending(es) && i < j < |es|
    ensures es[i].program < es[j].program
    decreases j - i
  {
    if i + 1 < j {
      AscendingBetween(es, i + 1, j);
    }
  }

  lemma AscendingIsUnique(es: seq<Instrument>)
    requires Ascending(es)
    ensures ProgramsUnique(es)
  {
    forall i, j | 0 <= i < j < |es|
      ensures es[i].program != es[j].program
    {
      AscendingBetween(es, i, j);
    }
  }

  lemma AscendingAppend(a: seq<Instrument>, b: seq<Instrument>)
    requires Ascending(a) && Ascending(b)
    requires a != [] && b != [] && a[|a| - 1].program < b[0].program
    ensures Ascending(a + b)
  {
    var c := a + b;
    forall i | 0 <= i < |c| - 1
      ensures c[i].program < c[i + 1].program
    {
      if i == |a| - 1 {
        assert c[i] == a[|a| - 1] && c[i + 1] == b[0];
      } else if i < |a| - 1 {
        assert c[i] == a[i] && c[i + 1] == a[i + 1];
      } else {
        assert c[i] == b[i - |a|] && c[i + 1] == b[i - |a| + 1];
      }
    }
  }

  lemma EntriesSnoc(groups: seq<Group>, k: nat)
    requires k < |groups|
    ensures Entries(groups[..k + 1]) == Entries(groups[..k]) + groups[k].instruments
  {
    assert groups[..k + 1][..k] == groups[..k];
  }

  lemma PianoAscending(s: seq<Instrument>)
    requires s == MIDI_INSTRUMENTS[0].instruments
    ensures Ascending(s)
  {
    forall i | 0 <= i < |s| - 1
      ensures s[i].program < s[i + 1].program
    {
      if i == 0 {} else if i == 1 {} else {}
    }
  }

  lemma GuitarAscending(s: seq<Instrument>)
    requires s == MIDI_INSTRUMENTS[1].instruments
    ensures Ascending(s)
  {
    forall i | 0 <= i < |s| - 1
      ensures s[i].program < s[i + 1].program
    {
      if i == 0 {} else if i == 1 {} else if i == 2 {} else if i == 3 {} else if i == 4 {} else if i == 5 {} else {}
    }
  }

  lemma BassAscending(s: seq<Instrument>)
    requires s == MIDI_INSTRUMENTS[2].instruments
    ensures Ascending(s)
  {
    forall i | 0 <= i < |s| - 1
      ensures s[i].program < s[i + 1].program
    {
      if i == 0 {} else if i == 1 {} else if i == 2 {} else if i == 3 {} else {}
    }
  }

  lemma StringsAscending(s: seq<Instrument>)
    requires s == MIDI_INSTRUMENTS[3].instruments
    ensures Ascending(s)
  {
    forall i | 0 <= i < |s| - 1
      ensures s[i].program < s[i + 1].program
    {
      if i == 0 {} else if i == 1 {} else {}
    }
  }

  lemma BrassAndWindAscending(s: seq<Instrument>)
    requires s == MIDI_INSTRUMENTS[4].instruments
    ensures Ascending(s)
  {
    forall i | 0 <= i < |s| - 1
      ensures s[i].program < s[i + 1].program
    {
      if i == 0 {} else if i == 1 {} else if i == 2 {} else if i == 3 {} else {}
    }
  }

  lemma SynthAndOtherAscending(s: seq<Instrument>)
    requires s == MIDI_INSTRUMENTS[5].instruments
    ensures Ascending(s)
  {
    forall i | 0 <= i < |s| - 1
      ensures s[i].program < s[i + 1].program
    {
      if i == 0 {} else if i == 1 {} else if i == 2 {} else {}
    }
  }

  /** The table lists its programs in increasing order, group after group. */
  lemma TableAscending()
    ensures Ascending(Entries(MIDI_INSTRUMENTS))
  {
    var g := MIDI_INSTRUMENTS;
    PianoAscending(g[0].instruments);
    GuitarAscending(g[1].instruments);
    BassAscending(g[2].instruments);
    StringsAscending(g[3].instruments);
    BrassAndWindAscending(g[4].instruments);
    SynthAndOtherAscending(g[5].instruments);
    assert g[..0] == [];
    EntriesSnoc(g, 0);
    EntriesSnoc(g, 1);
    AscendingAppend(Entries(g[..1]), g[1].instruments);
    EntriesSnoc(g, 2);
    AscendingAppend(Entries(g[..2]), g[2].instruments);
    EntriesSnoc(g, 3);
    AscendingAppend(Entries(g[..3]), g[3].instruments);
    EntriesSnoc(g, 4);
    AscendingAppend(Entries(g[..4]), g[4].instruments);
    EntriesSnoc(g, 5);
    AscendingAppend(Entries(g[..5]), g[5].instruments);
    assert g[..6] == g;
  }

  /**
   * No program is listed twice, so building the lookup overwrites nothing:
   * every listed program is shown with its own name.
   */
  lemma TableLookup(k: nat)
    requires k < |Entries(MIDI_INSTRUMENTS)|
    ensures GetInstrumentName(Entries(MIDI_INSTRUMENTS)[k].program) == Entries(MIDI_INSTRUMENTS)[k].name
  {
    TableAscending();
    AscendingIsUnique(Entries(MIDI_INSTRUMENTS));
    MapOfUnique(Entries(MIDI_INSTRUMENTS), k);
  }

  /** A program the table does not list is shown as "Program " and its number. */
  lemma UnlistedProgram(program: int)
    requires forall k :: 0 <= k < |Entries(MIDI_INSTRUMENTS)| ==> Entries(MIDI_INSTRUMENTS)[k].program != program
    ensures GetInstrumentName(program) == "Program " + IntToString(program)
  {
    MapKeys(Entries(MIDI_INSTRUMENTS), program);
  }

  /** The table's first instrument and the first guitar. */
  lemma TableExamples()
    ensures GetInstrumentName(0) == "Acoustic Grand Piano"
    ensures GetInstrumentName(24) == "Nylon Guitar"
  {
    var g := MIDI_INSTRUMENTS;
    assert g[..0] == [];
    EntriesSnoc(g, 0);
    EntriesSnoc(g, 1);
    var es := Entries(g[..2]);
    assert es[0] == Instrument(0, "Acoustic Grand Piano");
    assert es[4] == Instrument(24, "Nylon Guitar");
    EntriesPrefix(g, 2);
    TableLookup(0);
    TableLookup(4);
  }

  /** The entries of the first groups are a prefix of all entries. */
  lemma {:induction false} EntriesPrefix(groups: seq<Group>, k: nat)
    requires k <= |groups|
    ensures |Entries(groups[..k])| <= |Entries(groups)|
    ensures forall i :: 0 <= i < |Entries(groups[..k])| ==> Entries(groups)[i] == Entries(groups[..k])[i]
    decreases |groups| - k
  {
    if k < |groups| {
      EntriesSnoc(groups, k);
      EntriesPrefix(groups, k + 1);
    } else {
      assert groups[..k] == groups;
    }
  }

  /** A track shows as selected iff a selected track has its index. */
  function ShowsSelected(selected: seq<Track>, track: Track): (r: bool)
    ensures r <==> exists t :: t in selected && t.index == track.index
  {
    assert forall i :: 0 <= i < |selected| ==> selected[i] in selected;
    IsSelected(selected, track)
  }

  /**
   * A click appends to the selection exactly when Meta or Ctrl is held; with
   * the engine present the new selection is rendered, and without it
   * nothing changes.
   */
  method TrackClicked(player: Player, track: Track, metaKey: bool, ctrlKey: bool)
    modifies player`selectedTracks, player`rendered
    ensures !player.hasApi ==> player.selectedTracks == old(player.selectedTracks)
    ensures !player.hasApi ==> player.rendered == old(player.rendered)
    ensures player.hasApi ==> player.rendered == player.selectedTracks
    ensures player.hasApi ==> player.selectedTracks == NewSelection(old(player.selectedTracks), track, metaKey || ctrlKey)
    ensures player.hasApi && !metaKey && !ctrlKey ==> player.selectedTracks == [track]
    ensures player.hasApi ==> ShowsSelected(player.selectedTracks, track) || (metaKey || ctrlKey)
  {
    var append := metaKey || ctrlKey;
    player.SelectTrack(track, append);
    if player.hasApi && !append {
      assert player.selectedTracks[0] == track;
    }
  }
}

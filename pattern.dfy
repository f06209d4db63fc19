/** The pattern side of the drum machine: the sequencer's note grid (an
    abstract library object, seen only through its accessors), the menu's
    per-track step editors, and the edits the router applies to them. */
module Pattern {
  import opened Midi

  /** Range of the pattern length the Length menu item allows. */
  const MinLength := 1
  const MaxLength := 16
  /** Range of the tempo the BPM menu item allows. */
  const MinBpm := 60
  const MaxBpm := 240

  /** A grid cell: (track, position). */
  type Cell = (int, int)

  /** The step sequencer, reduced to its note grid and two settings. A cell of
      `notes` holds the note number stored there; a cell outside the map has
      no note. */
  class Sequencer {
    const tracks: int
    var length: int
    var bpm: int
    var notes: map<Cell, int>

    constructor (length: int, tracks: int, bpm: int)
      ensures this.length == length && this.tracks == tracks && this.bpm == bpm
      ensures notes == map[]
    {
      this.length := length;
      this.tracks := tracks;
      this.bpm := bpm;
      notes := map[];
    }

    method HasNote(position: int, track: int) returns (present: bool)
      ensures present <==> (track, position) in notes
    {
      present := (track, position) in notes;
    }

    /** Store `notenum` at the cell, replacing any note already there. */
    method SetNote(position: int, notenum: int, track: int)
      modifies this`notes
      ensures notes == old(notes)[(track, position) := notenum]
    {
      notes := notes[(track, position) := notenum];
    }

    /** Clear the cell; clearing an empty cell changes nothing. */
    method RemoveNote(position: int, track: int)
      modifies this`notes
      ensures notes == old(notes) - {(track, position)}
    {
      notes := notes - {(track, position)};
    }
  }

  /** The grid after bringing track `track` in line with `value`, position by
      position in increasing order: a true position without a note gets note
      number `track + 1`, a false position is cleared, and a true position that
      already has a note keeps it. */
  function SyncTrack(notes: map<Cell, int>, track: int, value: seq<bool>): map<Cell, int>
    decreases |value|
  {
    if value == [] then notes
    else
      var i := |value| - 1;
      var before := SyncTrack(notes, track, value[..i]);
      if value[i] && (track, i) !in before then before[(track, i) := track + 1]
      else if !value[i] then before - {(track, i)}
      else before
  }

  /** After the sync, a position of the track below `|value|` has a note exactly
      when `value` says so; a note it has was either there before (and is kept
      unchanged) or is new with note number `track + 1`. */
  lemma {:induction false} SyncTrackCells(notes: map<Cell, int>, track: int, value: seq<bool>, i: int)
    requires 0 <= i < |value|
    ensures (track, i) in SyncTrack(notes, track, value) <==> value[i]
    ensures value[i] && (track, i) in notes ==>
      SyncTrack(notes, track, value)[(track, i)] == notes[(track, i)]
    ensures value[i] && (track, i) !in notes ==>
      SyncTrack(notes, track, value)[(track, i)] == track + 1
    decreases |value|
  {
    var j := |value| - 1;
    if i < j {
      assert value[..j][i] == value[i];
      SyncTrackCells(notes, track, value[..j], i);
    } else {
      SyncTrackOutside(notes, track, value[..j], (track, i));
    }
  }

  /** The sync leaves every cell of other tracks, and every position of the
      track outside 0..|value|-1, exactly as it was. */
  lemma {:induction false} SyncTrackOutside(notes: map<Cell, int>, track: int, value: seq<bool>, c: Cell)
    requires c.0 != track || c.1 < 0 || c.1 >= |value|
    ensures c in SyncTrack(notes, track, value) <==> c in notes
    ensures c in notes ==> SyncTrack(notes, track, value)[c] == notes[c]
    decreases |value|
  {
    if value != [] {
      SyncTrackOutside(notes, track, value[..|value| - 1], c);
    }
  }

  /** Syncing a track a second time with the same value changes nothing. */
  lemma SyncTrackIdempotent(notes: map<Cell, int>, track: int, value: seq<bool>)
    ensures SyncTrack(SyncTrack(notes, track, value), track, value) == SyncTrack(notes, track, value)
  {
    var once := SyncTrack(notes, track, value);
    var twice := SyncTrack(once, track, value);
    forall c | true
      ensures (c in twice <==> c in once) && (c in once ==> twice[c] == once[c])
    {
      if c.0 == track && 0 <= c.1 < |value| {
        SyncTrackCells(notes, track, value, c.1);
        SyncTrackCells(once, track, value, c.1);
      } else {
        SyncTrackOutside(once, track, value, c);
      }
    }
  }

  /** A step editor of the menu, one per track: the values of its step cells
      (room for the longest pattern) and how many of them are in use. */
  class SequenceItem {
    const steps: array<bool>
    var length: int

    ghost predicate Valid()
      reads this
    {
      MinLength <= length <= steps.Length
    }

    constructor (length: int)
      requires MinLength <= length <= MaxLength
      ensures Valid() && this.length == length
      ensures fresh(steps) && steps.Length == MaxLength
      ensures forall k :: 0 <= k < steps.Length ==> !steps[k]
    {
      steps := new bool[MaxLength](_ => false);
      this.length := length;
    }
  }

  /** The menu item that is selected when a touch pad is pressed. A step
      editor is also a group, so only a plain group is looked into. */
  datatype MenuNode =
    | SequenceNode(sequence: SequenceItem)
    | GroupNode(current: MenuNode)
    | LeafNode

  /** The step editor a touch press edits: the selected editor itself, or the
      current item of a selected plain group when that is an editor. */
  function Focused(selected: MenuNode): Option<SequenceItem> {
    match selected
    case SequenceNode(s) => Some(s)
    case GroupNode(SequenceNode(s)) => Some(s)
    case _ => None
  }

  /** The step values after a touch press at `position` on an editor of length
      `length`: the step at `position % length` is flipped and no other. */
  function ToggleStep(steps: seq<bool>, length: int, position: int): (r: seq<bool>)
    requires MinLength <= length <= |steps|
    ensures |r| == |steps|
    ensures forall k :: 0 <= k < |steps| ==> (r[k] != steps[k] <==> k == position % length)
  {
    steps[position % length := !steps[position % length]]
  }

  /** Touching the same pad twice restores the pattern. */
  lemma ToggleStepTwice(steps: seq<bool>, length: int, position: int)
    requires MinLength <= length <= |steps|
    ensures ToggleStep(ToggleStep(steps, length, position), length, position) == steps
  {
  }
}

/** The scanner's fixed note table: the seventeen rows of the calibration grid,
    from the top anchor through fifteen notes to the bottom anchor. */
module Notes {

  /** One row of the table: a label and its MIDI note number (0 for an anchor). */
  datatype NoteEntry = NoteEntry(name: string, midi: nat)

  const AnchorTopName: string := "ANCHOR_TOP"
  const AnchorBottomName: string := "ANCHOR_BOTTOM"

  /** The table in top-to-bottom order. */
  const Table: seq<NoteEntry> := [
    NoteEntry(AnchorTopName, 0),
    NoteEntry("C4", 60),
    NoteEntry("D4", 62),
    NoteEntry("E4", 64),
    NoteEntry("F4", 65),
    NoteEntry("G4", 67),
    NoteEntry("A4", 69),
    NoteEntry("B4", 71),
    NoteEntry("C5", 72),
    NoteEntry("D5", 74),
    NoteEntry("E5", 76),
    NoteEntry("F5", 77),
    NoteEntry("G5", 79),
    NoteEntry("A5", 81),
    NoteEntry("C6", 84),
    NoteEntry("B6", 95),
    NoteEntry(AnchorBottomName, 0)
  ]

  /** Number of grid regions, anchors included. */
  const NumRegions: nat := |Table|

  /** The pitch a MIDI number sounds at. The scanner converts MIDI numbers to Hertz
      with a strictly increasing function; the model keeps the MIDI number itself,
      which preserves equality and order of pitches. */
  function MidiPitch(midi: nat): nat
  {
    midi
  }

  /** The frequency a table row carries: silent (0) for MIDI number 0, which only the
      anchors use, and the row's pitch otherwise. */
  function Frequency(midi: nat): (f: nat)
    ensures f == 0 <==> midi == 0
  {
    if midi != 0 then MidiPitch(midi) else 0
  }

  /** Shape of the table: seventeen rows, the anchors at both ends, and in between
      fifteen sounding notes with distinct labels, none of them an anchor label, in
      rising pitch. */
  lemma TableShape()
    ensures NumRegions == 17
    ensures Table[0] == NoteEntry(AnchorTopName, 0)
    ensures Table[NumRegions - 1] == NoteEntry(AnchorBottomName, 0)
    ensures forall i :: 1 <= i < NumRegions - 1 ==>
              Table[i].midi != 0 && Table[i].name != AnchorTopName && Table[i].name != AnchorBottomName
    ensures forall i, j :: 1 <= i < j < NumRegions - 1 ==> Table[i].midi < Table[j].midi
    ensures forall i, j :: 1 <= i < j < NumRegions - 1 ==> Table[i].name != Table[j].name
    ensures AnchorTopName != AnchorBottomName
  {
  }
}

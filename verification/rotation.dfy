/** The fixed emoji-to-angle table and the lookup a reaction goes through
    (src/main.rs:15-34), plus the three-way dispatch on the angle
    (src/main.rs:81-86). */
module Rotation {
  import opened Wrappers
  import opened Discord

  // The eight recognised symbols, spelled by code point. The four arrows
  // carry the emoji variation selector U+FE0F; the four circular arrows do not.
  const RightHook: string := "\U{21AA}\U{FE0F}"     // rightwards arrow with hook
  const LeftHook: string := "\U{21A9}\U{FE0F}"      // leftwards arrow with hook
  const CurveDown: string := "\U{2935}\U{FE0F}"     // arrow curving down
  const CurveUp: string := "\U{2934}\U{FE0F}"       // arrow curving up
  const ClockwiseArrows: string := "\U{1F503}"       // clockwise vertical arrows
  const RepeatArrows: string := "\U{1F501}"          // repeat button
  const CounterclockwiseArrows: string := "\U{1F504}" // counterclockwise arrows button
  const CircleArrows: string := "\U{1F5D8}"          // clockwise right and left semicircle arrows

  /** The table as the source declares it: symbol to degrees. */
  const Rotations: map<string, int> := map[
    RightHook := 270,
    LeftHook := 90,
    CurveDown := 90,
    CurveUp := 270,
    ClockwiseArrows := 180,
    RepeatArrows := 180,
    CounterclockwiseArrows := 180,
    CircleArrows := 180
  ]

  /** The only angles the pipeline ever rotates by. */
  const Angles: set<int> := {90, 180, 270}

  // The table's contents described group by group, independently of the map.
  const QuarterSymbols: set<string> := {LeftHook, CurveDown}
  const ThreeQuarterSymbols: set<string> := {RightHook, CurveUp}
  const HalfSymbols: set<string> := {ClockwiseArrows, RepeatArrows, CounterclockwiseArrows, CircleArrows}
  const Symbols: set<string> := QuarterSymbols + ThreeQuarterSymbols + HalfSymbols

  /** The angle a reaction asks for: only a Unicode emoji found in the table
      yields one; a custom emoji never does, whatever its name. */
  function GetRotation(reaction: Reaction): (r: Option<int>)
    ensures r.Some? ==> r.value in Angles
    ensures reaction.emoji.Custom? ==> r == None
    ensures r == Some(90) <==> reaction.emoji.Unicode? && reaction.emoji.symbol in QuarterSymbols
    ensures r == Some(180) <==> reaction.emoji.Unicode? && reaction.emoji.symbol in HalfSymbols
    ensures r == Some(270) <==> reaction.emoji.Unicode? && reaction.emoji.symbol in ThreeQuarterSymbols
    ensures r == None <==> reaction.emoji.Custom? || reaction.emoji.symbol !in Symbols
  {
    match reaction.emoji
    case Unicode(symbol) => if symbol in Rotations then Some(Rotations[symbol]) else None
    case Custom(_, _, _) => None
  }

  /** The table is closed and has exactly eight keys. */
  lemma TableHasEightSymbols()
    ensures Rotations.Keys == Symbols
    ensures |Rotations| == 8
    ensures Rotations.Values == Angles
  {
  }

  /** The arm of the rotation `match` an angle selects. */
  datatype Turn = Rotate90 | Rotate180 | Rotate270 {
    function Degrees(): int {
      match this
      case Rotate90 => 90
      case Rotate180 => 180
      case Rotate270 => 270
    }
  }

  /** The `match` on the angle: `None` stands for its `panic!()` arm. */
  function SelectTurn(angle: int): (r: Option<Turn>)
    ensures r.Some? <==> angle in Angles
    ensures r.Some? ==> r.value.Degrees() == angle
  {
    if angle == 90 then Some(Rotate90)
    else if angle == 180 then Some(Rotate180)
    else if angle == 270 then Some(Rotate270)
    else None
  }

  /** Every angle the lookup can produce takes a non-panicking arm, and
      the arm taken rotates by exactly that angle. */
  lemma PanicArmUnreachable(reaction: Reaction)
    ensures GetRotation(reaction).Some? ==>
              SelectTurn(GetRotation(reaction).value).Some? &&
              SelectTurn(GetRotation(reaction).value).value.Degrees() == GetRotation(reaction).value
  {
  }

  /** The table matches symbols exactly: an arrow without its variation
      selector, or one followed by anything more, is not recognised. */
  lemma ArrowsNeedVariationSelector(channel: ChannelId, message: MessageId, user: UserId)
    ensures GetRotation(Reaction(Unicode("\U{2934}"), channel, message, user)) == None
    ensures GetRotation(Reaction(Unicode(CurveUp), channel, message, user)) == Some(270)
    ensures GetRotation(Reaction(Unicode(CounterclockwiseArrows + "\U{FE0F}"), channel, message, user)) == None
  {
    assert "\U{2934}" !in Symbols by {
      assert forall s | s in Symbols :: |s| != 1 || s[0] != '\U{2934}';
    }
    assert CounterclockwiseArrows + "\U{FE0F}" !in Symbols by {
      assert forall s | s in Symbols :: |s| != 2 || s[0] != '\U{1F504}';
    }
  }
}

/** The volume slider: the speaking volume it sets and the icon that shows
    the volume's level. */
module VolumeIcon {

  /** The slider's position as a speaking volume: the position divided by 100. */
  function VolumeOf(slider: int): (volume: real)
    ensures 0 <= slider <= 100 ==> 0.0 <= volume <= 1.0
  {
    slider as real / 100.0
  }

  /** Which of the four volume icons (level 0 to 3) shows a volume. The chain
      of thresholds is written as the input handler writes it, with its
      redundant upper bounds. */
  function IconLevel(volume: real): (level: nat)
    ensures level <= 3
  {
    if volume >= 0.67 then 3
    else if volume < 0.67 && volume >= 0.34 then 2
    else if volume < 0.34 && volume >= 0.01 then 1
    else 0
  }

  /** A louder volume never shows a lower icon. */
  lemma IconLevelMonotone(quieter: real, louder: real)
    requires quieter <= louder
    ensures IconLevel(quieter) <= IconLevel(louder)
  {
  }

  /** For a slider position in 0..100, each icon level covers exactly one
      range of positions. */
  lemma SliderLevels(slider: int)
    requires 0 <= slider <= 100
    ensures IconLevel(VolumeOf(slider)) == 3 <==> 67 <= slider
    ensures IconLevel(VolumeOf(slider)) == 2 <==> 34 <= slider < 67
    ensures IconLevel(VolumeOf(slider)) == 1 <==> 1 <= slider < 34
    ensures IconLevel(VolumeOf(slider)) == 0 <==> slider == 0
  {
  }

  /** The page's one piece of mutable speech state: the volume the read
      button speaks with. */
  class VolumeControl {
    var volume: real

    /** The page starts at full volume. */
    constructor ()
      ensures volume == 1.0
    {
      volume := 1.0;
    }

    /** The slider's input handler: stores the new volume and returns the
        level of the icon it shows. */
    method OnInput(slider: int) returns (level: nat)
      modifies this
      ensures volume == VolumeOf(slider)
      ensures level == IconLevel(volume)
    {
      volume := VolumeOf(slider);
      level := IconLevel(volume);
    }
  }
}

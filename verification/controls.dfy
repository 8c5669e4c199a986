/**
 * What src/components/MasterControls.jsx shows: the master-volume icon and
 * the pause-all button.
 */
module Controls {

  datatype VolumeIcon = Muted | Low | Medium | High

  /** `getVolumeIcon`: silent at exactly 0, then below 30, below 70, and the rest. */
  function IconFor(masterVolume: int): VolumeIcon {
    if masterVolume == 0 then Muted
    else if masterVolume < 30 then Low
    else if masterVolume < 70 then Medium
    else High
  }

  /** The emoji each icon renders as. */
  function Glyph(icon: VolumeIcon): string {
    match icon
    case Muted => "\U{1F507}"
    case Low => "\U{1F508}"
    case Medium => "\U{1F509}"
    case High => "\U{1F50A}"
  }

  /** How loud an icon looks, from 0 (muted) to 3. */
  function Loudness(icon: VolumeIcon): (n: nat)
    ensures n <= 3
  {
    match icon
    case Muted => 0
    case Low => 1
    case Medium => 2
    case High => 3
  }

  /**
   * The icon bands: muted exactly at 0; low for any other volume below 30,
   * negative ones included; medium from 30 to 69; high from 70 up.
   */
  lemma IconBands(v: int)
    ensures IconFor(v) == Muted <==> v == 0
    ensures IconFor(v) == Low <==> v != 0 && v < 30
    ensures IconFor(v) == Medium <==> 30 <= v < 70
    ensures IconFor(v) == High <==> 70 <= v
  {
  }

  /** On the slider's range the icon never looks quieter for a louder volume. */
  lemma IconMonotone(v: int, w: int)
    requires 0 <= v <= w
    ensures Loudness(IconFor(v)) <= Loudness(IconFor(w))
  {
  }

  /** Distinct icons render as distinct glyphs. */
  lemma GlyphsDistinct(a: VolumeIcon, b: VolumeIcon)
    ensures Glyph(a) == Glyph(b) <==> a == b
  {
  }

  /** The pause-all button as rendered. */
  datatype PauseButton = PauseButton(disabled: bool, ariaLabel: string, glyph: string, caption: string)

  /** The pause-all button for the current pause flag and whether anything plays. */
  function PauseButtonFor(isPaused: bool, hasActiveSounds: bool): PauseButton {
    PauseButton(
      !hasActiveSounds,
      if isPaused then "Resume all sounds" else "Pause all sounds",
      if isPaused then "\U{25B6}\U{FE0F}" else "\U{23F8}\U{FE0F}",
      if isPaused then "Resume" else "Pause")
  }

  /**
   * The button is disabled exactly when nothing plays, and its three texts
   * all offer to resume exactly when the mix is paused.
   */
  lemma PauseButtonStates(isPaused: bool, hasActiveSounds: bool)
    ensures PauseButtonFor(isPaused, hasActiveSounds).disabled <==> !hasActiveSounds
    ensures PauseButtonFor(isPaused, hasActiveSounds).caption == "Resume" <==> isPaused
    ensures PauseButtonFor(isPaused, hasActiveSounds).ariaLabel == "Resume all sounds" <==> isPaused
    ensures PauseButtonFor(isPaused, hasActiveSounds).glyph == "\U{25B6}\U{FE0F}" <==> isPaused
    ensures PauseButtonFor(isPaused, hasActiveSounds).caption != PauseButtonFor(!isPaused, hasActiveSounds).caption
  {
  }
}

/**
 * The radio side of sync.h that has decision logic: GetModulation_rig's
 * translation of the hamlib native mode into the label SDR++ understands.
 * The hamlib calls themselves (rig_init, rig_open, rig_get_mode, ...) are
 * foreign code and are not modelled; the mode arrives as a value.
 */
module Hamlib {
  import Rigctl
  import opened Wrappers
  import opened CInt

  /**
   * The native modes rig_get_mode may report, as the source lists them (ModeNone
   * is RIG_MODE_NONE);
   * Unlisted stands only for an rmode_t value equal to none of the constants
   * listed here (for example a combination of mode bits); it never carries the
   * bit of a listed mode.
   */
  datatype RigMode =
    | ModeNone | AM | CW | USB | LSB | RTTY | FM | WFM | CWR | RTTYR | DSB | SAM | SSB
    | SSTV | FAX | PKTLSB | PKTUSB | PKTFM | ECSSUSB | ECSSLSB | FAXS | HELL | FSK
    | PAC | GTOR | THROB | MFSK | AFSK | DRM | SAL | SAT | TOR | ALE | OPDS | FLEX | MAX
    | Unlisted(bits: nat)

  /** The closed set of labels GetModulation_rig can return. */
  const LABELS: set<string> := {"AM", "FM", "CW", "USB", "LSB"}

  /**
   * GetModulation_rig's switch: AM, FM, CW, USB and LSB keep their names,
   * reversed CW folds into CW, and every other mode falls back to AM.
   */
  function ModulationLabel(m: RigMode): (name: string)
    ensures name in LABELS
    ensures name == "FM" <==> m == FM
    ensures name == "CW" <==> m == CW || m == CWR
    ensures name == "USB" <==> m == USB
    ensures name == "LSB" <==> m == LSB
    ensures name == "AM" <==> m !in {FM, CW, CWR, USB, LSB}
  {
    match m
    case AM => "AM"
    case FM => "FM"
    case CW => "CW"
    case CWR => "CW"
    case USB => "USB"
    case LSB => "LSB"
    case _ => "AM"
  }

  /** Each label is a short line of text: no NUL, no newline, one to three chars. */
  lemma LabelShape(name: string)
    requires name in LABELS
    ensures '\0' !in name && '\n' !in name && 1 <= |name| <= 3
  {
  }

  /**
   * Every label goes through the SDR++ protocol intact: SetModulation's
   * command with it fits the buffer, and an SDR++ reply carrying it as one
   * line reads back as the same label.
   */
  lemma LabelsTravel(m: RigMode, bandwidth: Int)
    ensures '\0' !in ModulationLabel(m)
    ensures |Rigctl.ModeCommand(ModulationLabel(m), bandwidth)| < Rigctl.BUFSIZE
    ensures Rigctl.ModulationOf(ModulationLabel(m) + "\n") == Some(ModulationLabel(m))
  {
    var name := ModulationLabel(m);
    LabelShape(name);
    DecimalLongLength(bandwidth);
    assert |Rigctl.ModeCommand(name, bandwidth)| == |name| + |Decimal(bandwidth)| + 4;
    Rigctl.ModeReplyRoundTrip(name);
  }
}

/** The per-packet decision path of the radar signal processor: extract the
    telemetry fields of one packet (with defaults), classify its signal
    strength into a proximity label, and decide which event, if any, the
    packet triggers. Every packet is handled on its own; nothing is kept
    between packets. */
module SignalProcessor {
  import opened PyStrings

  datatype Option<T> = None | Some(value: T)

  datatype Result<T, E> = Success(value: T) | Failure(error: E)

  // Signal-strength thresholds in dBm: the closer to 0, the stronger the
  // signal and the closer the device is to the access point.
  const RssiThresholdImmediate: int := -45
  const RssiThresholdNear: int := -65
  const RssiThresholdFar: int := -75

  /** Signal strength assumed for a packet that carries none. */
  const DefaultRssi: int := -100
  /** Probed network name reported for a packet that carries none. */
  const DefaultSsid: string := "N/A"

  /** Device MAC addresses (VIP clients, asset tags) that raise an alert. */
  const WatchList: seq<string> := ["00:11:22:33:44:55", "AA:BB:CC:DD:EE:FF"]

  /** Proximity of a device to the detecting access point, closest first. */
  datatype Category = Immediate | Near | Far | Noise {
    /** Position in the order closest-to-farthest. */
    function Rank(): nat {
      match this
      case Immediate => 0
      case Near => 1
      case Far => 2
      case Noise => 3
    }
  }

  /** The human-readable label the processor reports for a category. */
  function Label(c: Category): string {
    match c
    case Immediate => "IMMEDIATE (< 2m)"
    case Near => "NEAR (2m - 10m)"
    case Far => "FAR (> 10m)"
    case Noise => "NOISE (Weak signal - Ignore)"
  }

  /** The range of signal strengths that each category covers, stated
      without reference to the order in which the thresholds are tested. */
  predicate InBand(rssi: int, c: Category) {
    match c
    case Immediate => RssiThresholdImmediate <= rssi
    case Near => RssiThresholdNear <= rssi < RssiThresholdImmediate
    case Far => RssiThresholdFar <= rssi < RssiThresholdNear
    case Noise => rssi < RssiThresholdFar
  }

  /** Proximity classification: the thresholds are tested strongest first,
      and anything below the weakest one is noise. Every integer is
      classified; the result is the category whose band holds `rssi`. */
  function Classify(rssi: int): (c: Category)
    ensures InBand(rssi, c)
  {
    if rssi >= RssiThresholdImmediate then Immediate
    else if rssi >= RssiThresholdNear then Near
    else if rssi >= RssiThresholdFar then Far
    else Noise
  }

  /** Proximity step as the processor performs it: signal strength to label. */
  function CalculateProximity(rssi: int): (status: string)
    ensures Contains(status, "NOISE") <==> rssi < RssiThresholdFar
    ensures Contains(status, "IMMEDIATE") <==> rssi >= RssiThresholdImmediate
  {
    NoiseKeyword(Classify(rssi));
    ImmediateKeyword(Classify(rssi));
    Label(Classify(rssi))
  }

  // ---------------------------------------------------------------------
  // Packets and field extraction

  /** The `rssi` entry of a packet: missing, a value that converts to an
      integer, or a value the integer conversion rejects. */
  datatype RssiField = Missing | Coercible(n: int) | NotCoercible

  /** One telemetry packet as received: every entry is optional. */
  datatype Packet = Packet(
    deviceMac: Option<string>,
    rssi: RssiField,
    apMac: Option<string>,
    ssid: Option<string>)

  /** The fields of a packet after extraction and defaulting. */
  datatype Observation = Observation(
    mac: Option<string>,
    rssi: int,
    ap: Option<string>,
    ssid: string)

  /** Why a packet was dropped. */
  datatype ParseFailure = RssiNotInteger

  /** Field extraction: a missing signal strength becomes -100, a missing
      probed network name becomes "N/A", the MAC addresses are taken as
      they are (possibly absent). Only the integer conversion of the signal
      strength can fail. */
  function Extract(p: Packet): (r: Result<Observation, ParseFailure>)
    ensures r.Failure? <==> p.rssi.NotCoercible?
    ensures r.Success? ==>
      && r.value.mac == p.deviceMac
      && r.value.ap == p.apMac
      && r.value.rssi == (if p.rssi.Coercible? then p.rssi.n else DefaultRssi)
      && r.value.ssid == (if p.ssid.Some? then p.ssid.value else DefaultSsid)
  {
    var ssid := match p.ssid case Some(name) => name case None => DefaultSsid;
    match p.rssi
    case NotCoercible => Failure(RssiNotInteger)
    case Missing => Success(Observation(p.deviceMac, DefaultRssi, p.apMac, ssid))
    case Coercible(n) => Success(Observation(p.deviceMac, n, p.apMac, ssid))
  }

  // ---------------------------------------------------------------------
  // Trigger evaluation

  /** What processing one packet amounts to. `Alert` is the watch-list
      warning, `Activity` the "active user" note; `status` is the proximity
      label both report. */
  datatype Action =
    | Suppressed
    | Alert(mac: Option<string>, rssi: int, status: string, ap: Option<string>)
    | Activity(mac: Option<string>, rssi: int, status: string, ap: Option<string>, ssid: string)
    | NoAction
    | ParseError

  /** Python's `mac in WATCH_LIST`: an absent MAC is on no list. */
  predicate OnWatchList(mac: Option<string>) {
    mac.Some? && mac.value in WatchList
  }

  /** Trigger evaluation on a proximity label, in priority order: weak
      signals are dropped, then a watch-listed device raises an alert, then
      a device right under the access point is reported as active, and
      anything else is deliberately ignored. */
  function TriggerEvents(mac: Option<string>, rssi: int, distance: string, ap: Option<string>, ssid: string): (a: Action)
  {
    if Contains(distance, "NOISE") then Suppressed
    else if OnWatchList(mac) then Alert(mac, rssi, distance, ap)
    else if Contains(distance, "IMMEDIATE") then Activity(mac, rssi, distance, ap, ssid)
    else NoAction
  }

  /** One packet end to end: a packet whose signal strength cannot be
      converted is dropped with a parse error; otherwise its strength is
      classified and the triggers are evaluated. */
  function AnalyzePacket(p: Packet): (a: Action)
    ensures a.ParseError? <==> p.rssi.NotCoercible?
  {
    match Extract(p)
    case Failure(_) => ParseError
    case Success(o) => TriggerEvents(o.mac, o.rssi, CalculateProximity(o.rssi), o.ap, o.ssid)
  }

  // ---------------------------------------------------------------------
  // Properties of the classifier

  /** Only the noise label contains "NOISE". */
  lemma NoiseKeyword(c: Category)
    ensures Contains(Label(c), "NOISE") <==> c == Noise
  {
    if c == Immediate {
      MissingCharacterExcludes(Label(Immediate), "NOISE", 0);
    } else if c == Near {
      MissingCharacterExcludes(Label(Near), "NOISE", 1);
    } else if c == Far {
      MissingCharacterExcludes(Label(Far), "NOISE", 0);
    } else {
      PrefixContained(Label(Noise), "NOISE");
    }
  }

  /** Only the immediate label contains "IMMEDIATE". */
  lemma ImmediateKeyword(c: Category)
    ensures Contains(Label(c), "IMMEDIATE") <==> c == Immediate
  {
    if c == Immediate {
      PrefixContained(Label(Immediate), "IMMEDIATE");
    } else if c == Near {
      MissingCharacterExcludes(Label(Near), "IMMEDIATE", 0);
    } else if c == Far {
      MissingCharacterExcludes(Label(Far), "IMMEDIATE", 0);
    } else {
      MissingCharacterExcludes(Label(Noise), "IMMEDIATE", 1);
    }
  }

  /** The bands of the four categories partition the integers: every
      signal strength lies in the band of its classification and in no
      other. */
  lemma ClassifyPartition(rssi: int, c: Category)
    ensures Classify(rssi) == c <==> InBand(rssi, c)
  {
  }

  /** The threshold values themselves belong to the stronger category. */
  lemma ClassifyBoundaries()
    ensures Classify(-45) == Immediate && Classify(-46) == Near
    ensures Classify(-65) == Near && Classify(-66) == Far
    ensures Classify(-75) == Far && Classify(-76) == Noise
  {
  }

  /** A stronger signal never places a device farther away. */
  lemma ClassifyMonotone(weaker: int, stronger: int)
    requires weaker <= stronger
    ensures Classify(stronger).Rank() <= Classify(weaker).Rank()
  {
  }

  // ---------------------------------------------------------------------
  // Properties of packet analysis

  /** The substring-driven evaluation of a packet agrees with a decision
      stated on categories: noise first, then the watch list, then
      immediate proximity, else nothing. */
  lemma AnalyzeDecision(p: Packet)
    ensures Extract(p).Success? ==>
      var o := Extract(p).value;
      var c := Classify(o.rssi);
      AnalyzePacket(p) ==
        if c == Noise then Suppressed
        else if OnWatchList(o.mac) then Alert(o.mac, o.rssi, Label(c), o.ap)
        else if c == Immediate then Activity(o.mac, o.rssi, Label(c), o.ap, o.ssid)
        else NoAction
  {
  }

  /** A packet is suppressed exactly when its signal is noise, whether or
      not the device is on the watch list. */
  lemma SuppressedIffNoise(p: Packet)
    ensures AnalyzePacket(p) == Suppressed <==>
      Extract(p).Success? && Classify(Extract(p).value.rssi) == Noise
  {
  }

  /** A packet raises an alert exactly when its signal is not noise and its
      device is watch-listed, even at immediate range; the alert reports
      the device, its signal strength and label, and the access point. */
  lemma AlertIffWatched(p: Packet)
    ensures AnalyzePacket(p).Alert? <==>
      && !p.rssi.NotCoercible?
      && Classify(Extract(p).value.rssi) != Noise
      && OnWatchList(p.deviceMac)
    ensures AnalyzePacket(p).Alert? ==>
      var o := Extract(p).value;
      AnalyzePacket(p) == Alert(p.deviceMac, o.rssi, Label(Classify(o.rssi)), p.apMac)
  {
  }

  /** A packet is reported as an active user exactly when its signal is
      immediate and its device is not watch-listed; the report carries the
      probed network name, "N/A" when the packet has none. */
  lemma ActivityIffImmediateUnwatched(p: Packet)
    ensures AnalyzePacket(p).Activity? <==>
      && !p.rssi.NotCoercible?
      && Classify(Extract(p).value.rssi) == Immediate
      && !OnWatchList(p.deviceMac)
    ensures AnalyzePacket(p).Activity? ==>
      && AnalyzePacket(p).status == Label(Immediate)
      && AnalyzePacket(p).ssid == (if p.ssid.Some? then p.ssid.value else DefaultSsid)
  {
  }

  /** Near and far devices that are not watch-listed are deliberately
      ignored, and those are the only packets ignored that way. */
  lemma NoActionIffMidRangeUnwatched(p: Packet)
    ensures AnalyzePacket(p) == NoAction <==>
      && !p.rssi.NotCoercible?
      && Classify(Extract(p).value.rssi) in {Near, Far}
      && !OnWatchList(p.deviceMac)
  {
  }

  /** A packet without a signal strength is taken at -100 dBm, which is
      noise, so it is always suppressed. */
  lemma MissingRssiSuppressed(p: Packet)
    requires p.rssi.Missing?
    ensures AnalyzePacket(p) == Suppressed
  {
  }
}

# Radar signal processor — per-packet decision path

This project models the core of a wireless-signal monitor that receives
telemetry packets from access points (device MAC, received signal strength
in dBm, detecting access point, probed network name). For each packet
`CiscoSignalProcessor.analyze_packet`:

1. extracts the fields, defaulting a missing signal strength to -100 dBm and
   a missing network name to `"N/A"`; a signal strength that does not convert
   to an integer drops the packet with a logged parse error;
2. classifies the signal strength into one of four proximity labels with the
   thresholds -45, -65 and -75 dBm, tested strongest first
   (`_calculate_proximity`);
3. evaluates the triggers on that label (`_trigger_events`), in priority
   order: a label containing `NOISE` is dropped; a watch-listed device raises
   a warning ("TARGET DETECTED"); a label containing `IMMEDIATE` produces an
   "active user" note with the probed network name; anything else is ignored.

The model is pure, as the source is: the processor's thresholds and watch list
are constants that are never reassigned, and the two log calls become the
`Alert` and `Activity` values of the `Action` each packet yields.

Files:

- `py_strings.dfy` — module `PyStrings`: Python's `needle in haystack` on
  strings (`Contains`), proved equal to "there is an index where the pattern
  occurs", with two lemmas used to decide it on the fixed labels.
- `signal_processor.dfy` — module `SignalProcessor`: the constants, the
  `Category` order, the labels, `Classify`, `CalculateProximity`, `Packet`,
  `Extract`, `TriggerEvents`, `AnalyzePacket`, and the lemmas about them.

The trigger evaluator is modelled as written: it tests the label strings with
substring checks, not category equality. The lemmas `NoiseKeyword` and
`ImmediateKeyword` prove that exactly one of the four labels contains each
keyword; `CalculateProximity` carries that fact in its contract, from which
`AnalyzeDecision` follows: the substring-driven evaluation equals a decision
stated on categories.

A watch-listed device whose signal is noise is suppressed, not alerted, because
the noise filter comes first; `SuppressedIffNoise` and `AlertIffWatched` state
this ordering as it is written.

## Model

| member | source | states |
|---|---|---|
| `PyStrings.Contains` | radar_signal_processor.py:58 | Python's substring test is true exactly when the pattern occurs at some index of the string |
| `SignalProcessor.Classify` | radar_signal_processor.py:40-51 | every integer signal strength is classified, into the category whose threshold band holds it |
| `SignalProcessor.ClassifyPartition` | radar_signal_processor.py:44-51 | the four bands partition the integers: a strength is in the band of its classification and in no other |
| `SignalProcessor.ClassifyBoundaries` | radar_signal_processor.py:13-15 | each threshold value belongs to the stronger category: -45 Immediate, -46 Near, -65 Near, -66 Far, -75 Far, -76 Noise |
| `SignalProcessor.ClassifyMonotone` | radar_signal_processor.py:12-15 | a stronger (greater) signal never yields a farther category than a weaker one |
| `SignalProcessor.CalculateProximity` | radar_signal_processor.py:40-51 | the returned label contains "NOISE" exactly when the strength is below -75, and "IMMEDIATE" exactly when it is at least -45 |
| `SignalProcessor.NoiseKeyword` | radar_signal_processor.py:45-51 | of the four labels, only the noise label contains "NOISE" |
| `SignalProcessor.ImmediateKeyword` | radar_signal_processor.py:45-51 | of the four labels, only the immediate label contains "IMMEDIATE" |
| `SignalProcessor.Extract` | radar_signal_processor.py:26-29 | extraction fails exactly when the signal strength cannot be converted; otherwise the MACs pass through, a missing strength becomes -100 and a missing network name "N/A" |
| `SignalProcessor.AnalyzePacket` | radar_signal_processor.py:20-38 | a packet yields a parse error exactly when its signal strength cannot be converted, so such a packet never alerts or reports activity |
| `SignalProcessor.AnalyzeDecision` | radar_signal_processor.py:53-76 | for a parsed packet the substring-driven evaluation equals the category decision: Noise suppressed, else watch-listed alerted, else Immediate reported, else nothing |
| `SignalProcessor.SuppressedIffNoise` | radar_signal_processor.py:57-59 | a packet is suppressed exactly when it parses and its signal is noise, watch-listed or not |
| `SignalProcessor.AlertIffWatched` | radar_signal_processor.py:64-66 | a packet alerts exactly when it parses, is not noise and its MAC is on the watch list (Immediate included); the alert carries MAC, strength, label and access point |
| `SignalProcessor.ActivityIffImmediateUnwatched` | radar_signal_processor.py:69-71 | a packet is reported as an active user exactly when it parses, is Immediate and is not watch-listed; the report carries the immediate label and the network name or "N/A" |
| `SignalProcessor.NoActionIffMidRangeUnwatched` | radar_signal_processor.py:73-76 | a packet is deliberately ignored exactly when it parses, is Near or Far and is not watch-listed |
| `SignalProcessor.MissingRssiSuppressed` | radar_signal_processor.py:27 | a packet without a signal strength is taken at -100 dBm and is always suppressed |

## Left out

- `mock_cisco_data_stream` (radar_signal_processor.py:79-105): an endless driver loop over random sample packets with random jitter, a sleep and console output; randomness, timing and I/O, not decision logic.
- Logging configuration and the text of the log lines: the two log calls are modelled as the `Alert` and `Activity` values carrying the fields the lines print, and the parse-error log line as `ParseError`.
- Python's `int()` conversion rules (floats truncated, whitespace in strings, booleans): the `rssi` entry is modelled abstractly as missing, convertible to a given integer, or not convertible.
- A packet entry that is present with the value `None`: for `deviceMac` and `apMac` it is the same as a missing entry, which the model covers; for `ssid` Python would report `None` rather than `"N/A"`, and the model treats every present `ssid` as a string.
- Exceptions other than a failed signal-strength conversion: nothing else in the extraction or evaluation can raise for the inputs modelled.

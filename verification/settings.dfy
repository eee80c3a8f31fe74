/**
 The fixed configuration of the sync script: the coach sheets it scans, in
 scan order, the pay rate written for each coach, the fallback pay rate, the
 prefix a queue tag must carry and the marker of a processed queue row.
 */
module Settings {

  import opened Text

  /** The coach sheets, in the order the roster index scans them, and the
      coach-to-pay table. */
  datatype Config = Config(coachSheets: seq<string>, coachPay: map<string, string>)

  const CoachSheets: seq<string> := [
    "Coach: Olivia Hill",
    "Coach: Meghan Lindsay",
    "Coach: Beth Winiger",
    "Coach: Brittany Burris",
    "Coach: Megan Argueta",
    "Coach: Leah Davis"
  ]

  const CoachPay: map<string, string> := map[
    "Coach: Olivia Hill" := "$250.00",
    "Coach: Meghan Lindsay" := "$125.00",
    "Coach: Beth Winiger" := "$125.00",
    "Coach: Brittany Burris" := "$125.00",
    "Coach: Megan Argueta" := "$125.00",
    "Coach: Leah Davis" := "$125.00"
  ]

  /** The configuration the script runs with. */
  const Shipped: Config := Config(CoachSheets, CoachPay)

  /** Pay written for a coach the pay table does not list. */
  const DefaultPay: string := "$100.00"

  /** A queue tag names a coach only if it starts with this, case-sensitively. */
  const CoachPrefix: string := "Coach: "

  /** The content of the `Synced` cell of a processed queue row (U+2705). */
  const SyncedMark: string := "\U{2705}"

  /** The pay rate written for a client newly added to `coach`'s sheet. */
  function PayFor(cfg: Config, coach: string): (pay: string)
    ensures coach in cfg.coachPay ==> pay == cfg.coachPay[coach]
    ensures coach !in cfg.coachPay ==> pay == DefaultPay
  {
    if coach in cfg.coachPay then cfg.coachPay[coach] else DefaultPay
  }

  /** Every shipped coach sheet is a valid queue tag and has its own pay rate,
      so the fallback pay only applies to tags naming unlisted sheets. */
  lemma {:induction false} ShippedSheetsArePaidTags()
    ensures forall i :: 0 <= i < |Shipped.coachSheets| ==>
      StartsWith(Shipped.coachSheets[i], CoachPrefix) && Shipped.coachSheets[i] in Shipped.coachPay
    ensures PayFor(Shipped, "Coach: Olivia Hill") == "$250.00"
    ensures PayFor(Shipped, "Coach: Someone Else") == DefaultPay
  {
  }

}

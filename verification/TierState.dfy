/** The persisted tier record, its mapping form, and the file it lives in. */
module TierStates {
  import opened Common

  const UNKNOWN_TIER := "unknown"

  datatype TierState = TierState(tier: string, enteredCycle: int, belowCount: int, lastSettledEquity: Option<real>)

  const DEFAULT_STATE := TierState("normal", 0, 0, None)

  /** What a JSON object of a tier record can hold. */
  datatype Json = Text(s: string) | Whole(i: int) | Number(x: real) | Null

  function ToMapping(t: TierState): map<string, Json> {
    map["tier" := Text(t.tier), "entered_cycle" := Whole(t.enteredCycle), "below_count" := Whole(t.belowCount),
        "last_settled_equity" := if t.lastSettledEquity.Some? then Number(t.lastSettledEquity.value) else Null]
  }

  function TextAt(m: map<string, Json>, k: string, default: string): string {
    if k in m && m[k].Text? then m[k].s else default
  }

  function WholeAt(m: map<string, Json>, k: string): int { if k in m && m[k].Whole? then m[k].i else 0 }

  /** Missing keys take the defaults of an old record. */
  function FromMapping(m: map<string, Json>): TierState {
    TierState(TextAt(m, "tier", "normal"), WholeAt(m, "entered_cycle"), WholeAt(m, "below_count"),
              if "last_settled_equity" in m && m["last_settled_equity"].Number?
              then Some(m["last_settled_equity"].x) else None)
  }

  /** What is saved is what is loaded, in every field. */
  lemma MappingRoundTrip(t: TierState)
    ensures FromMapping(ToMapping(t)) == t
  {
    assert ToMapping(t)["tier"] == Text(t.tier);
  }

  /** The state file and the temporary file next to it; a write cut short leaves garbage in the latter. */
  datatype Content = Absent | Garbage | Record(m: map<string, Json>)

  datatype Disk = Disk(live: Content, temp: Content)

  /** A file that is not there yet loads as the default record. */
  function Load(d: Disk): TierState { if d.live.Record? then FromMapping(d.live.m) else DEFAULT_STATE }

  /** Saving in three moves: open the temporary file, fill it, put it in place of the live one. */
  datatype SavePoint = BeforeSave | TempOpened | TempWritten | Replaced

  function SavedUpTo(d: Disk, t: TierState, p: SavePoint): Disk {
    match p
    case BeforeSave => d
    case TempOpened => d.(temp := Garbage)
    case TempWritten => d.(temp := Record(ToMapping(t)))
    case Replaced => Disk(Record(ToMapping(t)), Absent)
  }

  class StateFile {
    var live: Content
    var temp: Content

    constructor ()
      ensures State() == Disk(Absent, Absent)
    {
      live, temp := Absent, Absent;
    }

    function State(): Disk
      reads this
    {
      Disk(live, temp)
    }

    method Save(t: TierState)
      modifies this
      ensures State() == SavedUpTo(old(State()), t, Replaced)
    {
      temp := Garbage;
      temp := Record(ToMapping(t));
      live, temp := temp, Absent;
    }
  }

  // -------------------------------------------------------------------------
  // Merging two records
  // -------------------------------------------------------------------------

  predicate UpperCase(c: char) { 'A' <= c <= 'Z' }

  /** Lower case of the letters that tier names are made of. */
  function Lower(s: string): (r: string)
    ensures |r| == |s|
  {
    seq(|s|, i requires 0 <= i < |s| => if UpperCase(s[i]) then (s[i] as int + 32) as char else s[i])
  }

  /** Names are ranked in any spelling; unrecognised ones rank with the unknown tier. */
  function Severity(tier: string): nat {
    var name := Lower(tier);
    if name == "normal" then 0 else if name == "caution" then 1 else if name == "cooldown" then 3 else 2
  }

  lemma LowerIsIdle(s: string)
    requires forall i :: 0 <= i < |s| ==> !UpperCase(s[i])
    ensures Lower(s) == s
  {
  }

  /** The four names are ranked alike when they are written in capitals. */
  lemma CapitalsRankAlike()
    ensures Severity("NORMAL") == Severity("normal") == 0 && Severity("CAUTION") == Severity("caution") == 1
    ensures Severity("SURVIVAL") == Severity("survival") == 2 && Severity("COOLDOWN") == Severity("cooldown") == 3
  {
    assert Lower("NORMAL") == "normal" == Lower("normal");
    assert Lower("CAUTION") == "caution" == Lower("caution");
    assert Lower("SURVIVAL") == "survival" == Lower("survival");
    assert Lower("COOLDOWN") == "cooldown" == Lower("cooldown");
  }

  lemma LowerTwice(s: string)
    ensures Lower(Lower(s)) == Lower(s) && Severity(Lower(s)) == Severity(s)
  {
    LowerIsIdle(Lower(s));
  }

  function MoreDefensive(a: TierState, b: TierState): TierState {
    if Severity(a.tier) >= Severity(b.tier) then a else b
  }

  /** Merging never launders a defended tier, however it is spelled: the result is
      one of the two, the first on a tie, at least as severe as both, and merging
      more records in any grouping agrees. */
  lemma MergeKeepsDefense(a: TierState, b: TierState, c: TierState)
    ensures MoreDefensive(a, b) in {a, b} && (Severity(a.tier) == Severity(b.tier) ==> MoreDefensive(a, b) == a)
    ensures Severity(MoreDefensive(a.(tier := Lower(a.tier)), b).tier) == Severity(MoreDefensive(a, b).tier)
    ensures Severity(MoreDefensive(a, b).tier) >= Severity(a.tier)
    ensures Severity(MoreDefensive(a, b).tier) >= Severity(b.tier)
    ensures MoreDefensive(MoreDefensive(a, b), c) == MoreDefensive(a, MoreDefensive(b, c))
  {
    hide Lower, Severity;
    LowerTwice(a.tier);
  }
}

/** The module-level `moonPhases` catalogue and the threshold classifier of
    `getMoonCalc`. The catalogue entries are shared objects: the classifier's
    caller writes the current phase value and angle into the chosen entry. */
module MoonPhases {
  import opened Wrappers
  import opened Js

  const Names: seq<string> := [
    "New Moon", "Waxing Crescent", "First Quarter", "Waxing Gibbous",
    "Full Moon", "Waning Gibbous", "Last Quarter", "Waning Crescent"]

  const Emojis: seq<string> := [
    "\U{1F31A}", "\U{1F312}", "\U{1F313}", "\U{1F314}",
    "\U{1F31D}", "\U{1F316}", "\U{1F317}", "\U{1F318}"]

  const Codes: seq<string> := [
    ":new_moon_with_face:", ":waxing_crescent_moon:", ":first_quarter_moon:",
    ":waxing_gibbous_moon:", ":full_moon_with_face:", ":waning_gibbous_moon:",
    ":last_quarter_moon:", ":waning_crescent_moon:"]

  const Weights: seq<real> := [1.0, 6.3825, 1.0, 6.3825, 1.0, 6.3825, 1.0, 6.3825]

  /** One catalogue entry. `value` and `angle` are absent until a moon
      calculation writes them. */
  class PhaseEntry {
    const emoji: string
    const code: string
    const name: string
    const weight: real
    var value: Option<Num>
    var angle: Option<Num>

    constructor (emoji: string, code: string, name: string, weight: real)
      ensures this.emoji == emoji && this.code == code
      ensures this.name == name && this.weight == weight
      ensures value.None? && angle.None?
    {
      this.emoji, this.code, this.name, this.weight := emoji, code, name, weight;
      value, angle := None, None;
    }
  }

  /** `entries` is the catalogue: the eight entries in order. As their names
      differ, the entries are eight distinct objects. */
  predicate IsCatalogue(entries: seq<PhaseEntry>) {
    |entries| == 8 &&
    forall k :: 0 <= k < 8 ==>
      && entries[k].name == Names[k] && entries[k].emoji == Emojis[k]
      && entries[k].code == Codes[k] && entries[k].weight == Weights[k]
  }

  lemma CatalogueEntriesDistinct(entries: seq<PhaseEntry>, j: int, k: int)
    requires IsCatalogue(entries) && 0 <= j < 8 && 0 <= k < 8 && j != k
    ensures entries[j] != entries[k]
  {
    assert entries[j].name == Names[j] && entries[k].name == Names[k];
  }

  /** Allocates the catalogue as the module does when it is loaded. */
  method NewCatalogue() returns (entries: seq<PhaseEntry>)
    ensures IsCatalogue(entries)
    ensures forall k :: 0 <= k < 8 ==> fresh(entries[k]) && entries[k].value.None?
  {
    entries := [];
    var k := 0;
    while k < 8
      invariant 0 <= k <= 8 && |entries| == k
      invariant forall j :: 0 <= j < k ==>
        && entries[j].name == Names[j] && entries[j].emoji == Emojis[j]
        && entries[j].code == Codes[j] && entries[j].weight == Weights[j]
      invariant forall j :: 0 <= j < k ==> fresh(entries[j]) && entries[j].value.None?
    {
      var e := new PhaseEntry(Emojis[k], Codes[k], Names[k], Weights[k]);
      entries := entries + [e];
      k := k + 1;
    }
  }

  // ---------------------------------------------------------------------
  // Classification of the illumination phase

  /** The seven thresholds, in order. */
  const Bounds: seq<real> := [0.01, 0.25, 0.26, 0.50, 0.51, 0.75, 0.76]

  /** The band of entry k: each band is closed below and open above, except
      that 0.75 itself belongs to Waning Gibbous (5) and not to Last Quarter (6). */
  predicate InBand(k: int, p: real)
    requires 0 <= k < 8
  {
    && (k == 0 || (k == 6 && p > 0.75) || (k != 6 && p >= Bounds[k - 1]))
    && (k == 7 || (k == 5 && p <= 0.75) || (k != 5 && p < Bounds[k]))
  }

  /** The catalogue index `getMoonCalc` selects for the illumination phase `p`. */
  function PhaseIndex(p: real): (k: int)
    ensures 0 <= k < 8
    ensures InBand(k, p)
  {
    if p < 0.01 then 0
    else if p < 0.25 then 1
    else if p < 0.26 then 2
    else if p < 0.50 then 3
    else if p < 0.51 then 4
    else if p <= 0.75 then 5
    else if p < 0.76 then 6
    else 7
  }

  /** The bands do not overlap: each phase belongs to exactly one entry. */
  lemma BandsDisjoint(j: int, k: int, p: real)
    requires 0 <= j < 8 && 0 <= k < 8
    requires InBand(j, p) && InBand(k, p)
    ensures j == k
  {
  }

  /** A later phase never selects an earlier entry. */
  lemma PhaseIndexMonotone(p: real, q: real)
    requires p <= q
    ensures PhaseIndex(p) <= PhaseIndex(q)
  {
  }

  /** The entry for a phase that may be NaN: every comparison with NaN is
      false, so NaN falls through to the last entry. */
  function PhaseOf(phase: Num): (k: int)
    ensures 0 <= k < 8
    ensures phase.NaN? ==> k == 7
    ensures phase.Fin? ==> InBand(k, phase.v)
  {
    match phase
    case NaN => 7
    case Fin(p) => PhaseIndex(p)
  }

  /** Each threshold and a value just below it select the neighbouring entries. */
  lemma PhaseBoundaryExamples()
    ensures PhaseIndex(0.0) == 0 && PhaseIndex(0.009) == 0
    ensures PhaseIndex(0.01) == 1 && PhaseIndex(0.249) == 1
    ensures PhaseIndex(0.25) == 2 && PhaseIndex(0.259) == 2
    ensures PhaseIndex(0.26) == 3 && PhaseIndex(0.499) == 3
    ensures PhaseIndex(0.50) == 4 && PhaseIndex(0.509) == 4
    ensures PhaseIndex(0.51) == 5 && PhaseIndex(0.75) == 5
    ensures PhaseIndex(0.759) == 6
    ensures PhaseIndex(0.76) == 7 && PhaseIndex(0.99) == 7
  {
  }

  /** The angle written into the chosen entry: `phase * 360` degrees, converted
      to radians only when the configured angle type is exactly "rad". */
  function PhaseAngle(phase: Num, angleType: string, e: Engine): (a: Num)
    ensures angleType != "rad" && phase.Fin? ==> a == Fin(phase.v * 360.0)
    ensures angleType != "rad" && phase.NaN? ==> a.NaN?
    // "rad" converts the same degrees to radians
    ensures angleType == "rad" && phase.Fin? ==> a == e.degToRad(Fin(phase.v * 360.0))
    ensures angleType == "rad" && phase.NaN? ==> a == e.degToRad(NaN)
  {
    var degrees := if phase.NaN? then NaN else Fin(phase.v * 360.0);
    if angleType == "rad" then e.degToRad(degrees) else degrees
  }
}

/**
 * The analysis result shown to the user and the advice derived from it:
 * the demo result generator (`simulatedResult`) and the per-soil
 * recommendation lookup (`generateRecommendations`).
 */
module Soil {

  /** One analysis result: soil name, pH, moisture descriptor, temperature in °C, confidence in percent. */
  datatype Analysis = Analysis(name: string, ph: real, moisture: string, temp: int, conf: int)

  const Loam: string := "ดินร่วน"
  const Clay: string := "ดินเหนียว"
  const Sand: string := "ดินทราย"

  /** The soil names that have advice of their own. */
  const KnownSoils: set<string> := {Loam, Clay, Sand}

  const GenericAdvice: string := "แนะนำการดูแลทั่วไป: เติมอินทรียวัตถุ ปรับ pH ถ้าจำเป็น"

  /** `Math.round`: to the nearest integer, halves toward +∞. */
  function Round(x: real): (n: int)
    ensures n as real - 0.5 <= x < n as real + 0.5
  {
    (x + 0.5).Floor
  }

  /**
   * The demo's soil table, one row per soil type, with the confidence of each
   * row drawn from its own uniform sample u in [0, 1).
   */
  function SoilTypes(uLoam: real, uClay: real, uSand: real): (table: seq<Analysis>)
  {
    [ Analysis(Loam, 6.5, "ปานกลาง", 28, Round(70.0 + uLoam * 25.0)),
      Analysis(Clay, 5.8, "ชื้น", 26, Round(60.0 + uClay * 30.0)),
      Analysis(Sand, 7.1, "แห้ง", 30, Round(55.0 + uSand * 35.0)) ]
  }

  /** The samples `Math.random()` may return. */
  predicate IsUnitSample(u: real) { 0.0 <= u < 1.0 }

  /**
   * `simulatedResult`: picks row `floor(pick * 3)` of the soil table. The four
   * calls to `Math.random()` are the four parameters.
   */
  function SimulatedResult(uLoam: real, uClay: real, uSand: real, pick: real): (r: Analysis)
    requires IsUnitSample(uLoam) && IsUnitSample(uClay) && IsUnitSample(uSand) && IsUnitSample(pick)
    ensures r.name in KnownSoils
    ensures r.name == Loam ==> r.ph == 6.5 && r.temp == 28 && 70 <= r.conf <= 95
    ensures r.name == Clay ==> r.ph == 5.8 && r.temp == 26 && 60 <= r.conf <= 90
    ensures r.name == Sand ==> r.ph == 7.1 && r.temp == 30 && 55 <= r.conf <= 90
    ensures r in SoilTypes(uLoam, uClay, uSand)
    ensures pick < 1.0 / 3.0 ==> r.name == Loam
    ensures 1.0 / 3.0 <= pick < 2.0 / 3.0 ==> r.name == Clay
    ensures 2.0 / 3.0 <= pick ==> r.name == Sand
  {
    var table := SoilTypes(uLoam, uClay, uSand);
    var i := (pick * 3.0).Floor;
    table[i]
  }

  /**
   * `generateRecommendations`: the advice list for a result. The lookup is
   * total: a known soil gets its own two pieces of advice, and any other
   * name, however close, gets the single generic one.
   */
  function Recommendations(res: Analysis): (r: seq<string>)
    ensures r != []
    ensures res.name in KnownSoils <==> |r| == 2
    ensures res.name !in KnownSoils <==> r == [GenericAdvice]
    ensures res.name in KnownSoils ==> GenericAdvice !in r
  {
    if res.name == Loam then ["ปลูกผักสวนครัวได้ดี", "ใส่ปุ๋ยคอกบางครั้งเพื่อรักษาความชื้น"]
    else if res.name == Clay then ["เพิ่มทรายและปุ๋ยหมักเพื่อปรับโครงสร้าง", "ระบายน้ำดีเพื่อป้องกันรากเน่า"]
    else if res.name == Sand then ["เพิ่มการเก็บความชื้นโดยคลุมดิน", "เติมปุ๋ยคอกและอินทรียวัตถุ"]
    else [GenericAdvice]
  }

  /** Different known soils share no piece of advice. */
  lemma RecommendationsDistinct(a: Analysis, b: Analysis)
    requires a.name in KnownSoils && b.name in KnownSoils && a.name != b.name
    ensures forall x :: x in Recommendations(a) ==> x !in Recommendations(b)
  {
  }

  /** Only the soil name matters: pH, moisture, temperature and confidence do not. */
  lemma RecommendationsByName(a: Analysis, b: Analysis)
    requires a.name == b.name
    ensures Recommendations(a) == Recommendations(b)
  {
  }

  /** Every result the demo can produce gets soil-specific advice, never the generic fallback. */
  lemma SimulatedGetsSpecificAdvice(uLoam: real, uClay: real, uSand: real, pick: real)
    requires IsUnitSample(uLoam) && IsUnitSample(uClay) && IsUnitSample(uSand) && IsUnitSample(pick)
    ensures |Recommendations(SimulatedResult(uLoam, uClay, uSand, pick))| == 2
  {
  }
}

/**
 * The layout pipeline of the tech map: the density sampler and per-company
 * augmentation of `processCompanies` (src/pages/Techmap.jsx, lines 183-233)
 * and the radius sort and 3D lift of `ConstellationScene` (lines 374-389).
 *
 * Positions are kept in polar form (angle in degrees, radius): the source
 * turns them into x and y with `Math.cos`/`Math.sin`, which are left out.
 */
module Layout {
  import opened Util
  import opened Constellations
  import opened Metrics
  import opened StableSort

  /** A company record as loaded; `employees` may be missing. */
  datatype Company = Company(
    id: string,
    name: string,
    description: string,
    employees: Option<string>,
    founded: int,
    logo: string)

  /** Where a company is drawn: in the plane after `processCompanies`,
      with a depth after `ConstellationScene` lifts it. */
  datatype Position =
    | Flat(angleDeg: real, radius: real)
    | Raised(angleDeg: real, radius: real, z: real)

  /** A company with the attributes the layout adds to it. */
  datatype Placed = Placed(
    company: Company,
    brightness: nat,
    constellation: Badge,
    color: string,
    position: Position,
    orbitRadius: real)

  datatype Density = Low | Medium | High

  const LayoutMaxRadius := 60.0
  const LayoutMinRadius := 15.0
  /** Degrees between consecutive companies of the sampled list. */
  const GoldenAngleDeg := 137.5
  /** Width of the radius jitter: `(Math.random() - 0.5) * 15`. */
  const JitterSpan := 15.0
  /** The x and y scale of the scene, and the width of its depth band. */
  const PlaneScale := 0.5
  const DepthSpan := 20.0

  /** `densityLimits[densityMode]` for a list of length `n`. */
  function Limit(mode: Density, n: nat): (cap: nat)
    ensures cap <= n
  {
    match mode
    case Low => Min(100, n)
    case Medium => Min(300, n)
    case High => n
  }

  /** The sort key of the density sampler: brighter first. */
  function BrightnessKey(c: Company): (k: real)
    ensures -(HighestTenths as real) <= k <= -(LowestTenths as real)
  {
    -(Brightness(c.employees) as real)
  }

  /** The comparator `brightnessB - brightnessA` puts the brighter company first. */
  lemma BrighterSortsFirst(a: Company, b: Company)
    ensures BrightnessKey(a) <= BrightnessKey(b) <==> Brightness(b.employees) <= Brightness(a.employees)
  {
  }

  /** The companies `processCompanies` keeps: all of them, in order, when
      they fit the limit; otherwise the first `limit` of the list stably
      sorted by descending brightness. */
  function Sampled(companies: seq<Company>, mode: Density): (kept: seq<Company>)
    ensures |kept| == Limit(mode, |companies|)
    ensures |companies| <= Limit(mode, |companies|) ==> kept == companies
    ensures multiset(kept) <= multiset(companies)
  {
    var cap := Limit(mode, |companies|);
    if |companies| > cap then
      var sorted := InsertionSort(companies, BrightnessKey);
      assert sorted == sorted[..cap] + sorted[cap..];
      sorted[..cap]
    else
      companies
  }

  /** The brightness of the kept companies never increases along the list. */
  lemma SampledBrightestFirst(companies: seq<Company>, mode: Density)
    requires |companies| > Limit(mode, |companies|)
    ensures forall i, j :: 0 <= i < j < |Sampled(companies, mode)| ==>
      Brightness(Sampled(companies, mode)[i].employees) >= Brightness(Sampled(companies, mode)[j].employees)
  {
    InsertionSortIsStable(companies, BrightnessKey);
  }

  /** What a prefix leaves out of a sequence is found after the prefix. */
  lemma DroppedLiesBeyond<T>(t: seq<T>, n: nat, x: T) returns (j: nat)
    requires n <= |t| && x in multiset(t) - multiset(t[..n])
    ensures n <= j < |t| && t[j] == x
  {
    assert t == t[..n] + t[n..];
    assert multiset(t) == multiset(t[..n]) + multiset(t[n..]);
    assert x in multiset(t[n..]);
    assert x in t[n..];
    var k :| 0 <= k < |t| - n && t[n..][k] == x;
    j := n + k;
  }

  /** A company left out is never brighter than a company kept. */
  lemma SampledKeepsBrightest(companies: seq<Company>, mode: Density, dropped: Company, kept: Company)
    requires dropped in multiset(companies) - multiset(Sampled(companies, mode))
    requires kept in Sampled(companies, mode)
    ensures Brightness(dropped.employees) <= Brightness(kept.employees)
  {
    var cap := Limit(mode, |companies|);
    if |companies| > cap {
      var sorted := InsertionSort(companies, BrightnessKey);
      assert Sampled(companies, mode) == sorted[..cap];
      InsertionSortSorted(companies, BrightnessKey);
      var j := DroppedLiesBeyond(sorted, cap, dropped);
      var i :| 0 <= i < cap && sorted[i] == kept;
      assert BrightnessKey(sorted[i]) <= BrightnessKey(sorted[j]);
    }
  }

  /** The key class of a prefix is a prefix of the key class. */
  lemma {:induction false} KeyClassOfPrefix<T>(t: seq<T>, n: nat, key: T -> real, v: real)
    requires n <= |t|
    ensures KeyClass(t[..n], key, v) <= KeyClass(t, key, v)
  {
    if n < |t| {
      var init := t[..|t| - 1];
      KeyClassOfPrefix(init, n, key, v);
      assert init[..n] == t[..n];
    } else {
      assert t[..n] == t;
    }
  }

  /** Among companies of equal brightness (equal key `v`), the ones kept are
      the earliest in the input, in input order: ties are broken by the
      stable sort. */
  lemma SampledKeepsEarliestOfEqualBrightness(companies: seq<Company>, mode: Density, v: real)
    ensures KeyClass(Sampled(companies, mode), BrightnessKey, v) <= KeyClass(companies, BrightnessKey, v)
  {
    var cap := Limit(mode, |companies|);
    if |companies| > cap {
      assert Sampled(companies, mode) == InsertionSort(companies, BrightnessKey)[..cap];
      SortedPrefixKeepsEarliest(companies, cap, BrightnessKey, v);
    } else {
      assert Sampled(companies, mode) == companies;
    }
  }

  /** A prefix of the stable sort holds, for each key, the first elements of that key in input order. */
  lemma SortedPrefixKeepsEarliest<T>(s: seq<T>, n: nat, key: T -> real, v: real)
    requires n <= |s|
    ensures KeyClass(InsertionSort(s, key)[..n], key, v) <= KeyClass(s, key, v)
  {
    var sorted := InsertionSort(s, key);
    assert KeyClass(sorted, key, v) == KeyClass(s, key, v) by {
      InsertionSortIsStable(s, key);
    }
    KeyClassOfPrefix(sorted, n, key, v);
  }

  /** The attributes `processCompanies` adds to the company at `index` of the
      sampled list, `jitter` standing for that call's `Math.random()`. */
  function Augment(c: Company, index: nat, currentYear: int, jitter: real): (p: Placed)
    requires 0.0 <= jitter < 1.0
    ensures p.company == c && p.brightness == Brightness(c.employees)
    ensures p.constellation == BadgeOf(DetermineConstellation(c.description))
    ensures p.color == p.constellation.color
    ensures p.orbitRadius == OrbitRadius(c.founded, LayoutMaxRadius, LayoutMinRadius, currentYear)
    ensures p.position.Flat? && p.position.angleDeg == index as real * GoldenAngleDeg
    ensures p.orbitRadius - JitterSpan / 2.0 <= p.position.radius < p.orbitRadius + JitterSpan / 2.0
  {
    var constellation := DetermineConstellation(c.description);
    var orbitRadius := OrbitRadius(c.founded, LayoutMaxRadius, LayoutMinRadius, currentYear);
    var radiusVariation := orbitRadius + (jitter - 0.5) * JitterSpan;
    Placed(c, Brightness(c.employees), BadgeOf(constellation), constellation.color,
           Flat(index as real * GoldenAngleDeg, radiusVariation), orbitRadius)
  }

  /** Every jitter draw lies in [0, 1), as `Math.random()` guarantees. */
  ghost predicate UnitDraws(draws: seq<real>)
  {
    forall i :: 0 <= i < |draws| ==> 0.0 <= draws[i] < 1.0
  }

  /** `filteredCompanies.map((company, index) => ...)`. */
  function Augmented(kept: seq<Company>, currentYear: int, jitter: seq<real>): (placed: seq<Placed>)
    requires |kept| <= |jitter| && UnitDraws(jitter)
    ensures |placed| == |kept|
    ensures forall i :: 0 <= i < |kept| ==> placed[i] == Augment(kept[i], i, currentYear, jitter[i])
  {
    seq(|kept|, i requires 0 <= i < |kept| => Augment(kept[i], i, currentYear, jitter[i]))
  }

  /** `processCompanies(companies, densityMode)` as a value. */
  function Processed(companies: seq<Company>, mode: Density, currentYear: int, jitter: seq<real>): (placed: seq<Placed>)
    requires Limit(mode, |companies|) <= |jitter| && UnitDraws(jitter)
    ensures |placed| == Limit(mode, |companies|)
    ensures forall i :: 0 <= i < |placed| ==> placed[i].company in multiset(companies)
    ensures forall i :: 0 <= i < |placed| ==> placed[i].position.Flat? && placed[i].position.angleDeg == i as real * GoldenAngleDeg
  {
    Augmented(Sampled(companies, mode), currentYear, jitter)
  }

  /** `processCompanies`: when the list exceeds the limit the caller's array
      is sorted in place by descending brightness before it is cut. */
  method ProcessCompanies(companies: array<Company>, mode: Density, currentYear: int, jitter: seq<real>)
    returns (placed: seq<Placed>)
    requires Limit(mode, companies.Length) <= |jitter| && UnitDraws(jitter)
    modifies companies
    ensures companies.Length > Limit(mode, companies.Length) ==>
      companies[..] == InsertionSort(old(companies[..]), BrightnessKey)
    ensures companies.Length <= Limit(mode, companies.Length) ==> companies[..] == old(companies[..])
    ensures placed == Processed(old(companies[..]), mode, currentYear, jitter)
  {
    var cap := Limit(mode, companies.Length);
    var kept: seq<Company>;
    if companies.Length > cap {
      SortInPlace(companies, BrightnessKey);
      kept := companies[..cap];
    } else {
      kept := companies[..];
    }
    placed := Augmented(kept, currentYear, jitter);
  }

  /** The sort key of the scene: inner orbits first. */
  function OrbitKey(p: Placed): real
  {
    p.orbitRadius
  }

  /** The scene's 3D position: x and y halved, a depth drawn from
      `(Math.random() - 0.5) * 20`. */
  function Lift(p: Placed, depth: real): (q: Placed)
    requires 0.0 <= depth < 1.0
    ensures q.company == p.company && q.brightness == p.brightness && q.orbitRadius == p.orbitRadius
    ensures q.constellation == p.constellation && q.color == p.color
    ensures q.position.Raised? && q.position.angleDeg == p.position.angleDeg
    ensures q.position.radius == PlaneScale * p.position.radius
    ensures -DepthSpan / 2.0 <= q.position.z < DepthSpan / 2.0
  {
    p.(position := Raised(p.position.angleDeg, PlaneScale * p.position.radius, (depth - 0.5) * DepthSpan))
  }

  function Lifted(sorted: seq<Placed>, depth: seq<real>): (scene: seq<Placed>)
    requires |sorted| <= |depth| && UnitDraws(depth)
    ensures |scene| == |sorted|
    ensures forall i :: 0 <= i < |sorted| ==> scene[i] == Lift(sorted[i], depth[i])
  {
    seq(|sorted|, i requires 0 <= i < |sorted| => Lift(sorted[i], depth[i]))
  }

  /** The density mode the scene uses. */
  const SceneDensity := Medium

  /** `processedCompanies` of `ConstellationScene` as a value. */
  function SceneOf(companies: seq<Company>, currentYear: int, jitter: seq<real>, depth: seq<real>): (scene: seq<Placed>)
    requires Limit(SceneDensity, |companies|) <= |jitter| && UnitDraws(jitter)
    requires Limit(SceneDensity, |companies|) <= |depth| && UnitDraws(depth)
    ensures |scene| == Limit(SceneDensity, |companies|)
    ensures forall i :: 0 <= i < |scene| ==> scene[i].company in multiset(companies)
  {
    var processed := Processed(companies, SceneDensity, currentYear, jitter);
    var sorted := InsertionSort(processed, OrbitKey);
    PermutationKeepsCompanies(processed, sorted, companies);
    Lifted(sorted, depth)
  }

  /** Reordering placed records keeps every record's company among the input companies. */
  lemma PermutationKeepsCompanies(placed: seq<Placed>, reordered: seq<Placed>, companies: seq<Company>)
    requires multiset(placed) == multiset(reordered)
    requires forall i :: 0 <= i < |placed| ==> placed[i].company in multiset(companies)
    ensures forall i :: 0 <= i < |reordered| ==> reordered[i].company in multiset(companies)
  {
    forall i | 0 <= i < |reordered|
      ensures reordered[i].company in multiset(companies)
    {
      assert reordered[i] in multiset(placed);
      var j :| 0 <= j < |placed| && placed[j] == reordered[i];
    }
  }

  /** The `useMemo` of `ConstellationScene`: process, sort the result in
      place by ascending orbit radius, then lift every company to 3D. */
  method LayoutScene(companies: array<Company>, currentYear: int, jitter: seq<real>, depth: seq<real>)
    returns (scene: seq<Placed>)
    requires Limit(SceneDensity, companies.Length) <= |jitter| && UnitDraws(jitter)
    requires Limit(SceneDensity, companies.Length) <= |depth| && UnitDraws(depth)
    modifies companies
    ensures companies.Length > Limit(SceneDensity, companies.Length) ==>
      companies[..] == InsertionSort(old(companies[..]), BrightnessKey)
    ensures companies.Length <= Limit(SceneDensity, companies.Length) ==> companies[..] == old(companies[..])
    ensures scene == SceneOf(old(companies[..]), currentYear, jitter, depth)
  {
    ghost var before := companies[..];
    var processed := ProcessCompanies(companies, SceneDensity, currentYear, jitter);
    ghost var after := companies[..];
    var sorted := new Placed[|processed|](i requires 0 <= i < |processed| => processed[i]);
    assert sorted[..] == processed;
    SortInPlace(sorted, OrbitKey);
    assert companies[..] == after;
    scene := Lifted(sorted[..], depth);
    assert scene == SceneOf(before, currentYear, jitter, depth);
  }

  /** The jittered radius is never negative for a company founded by the
      current year: its orbit is at least 15, the jitter at most 7.5 inward. */
  lemma RadiusPositiveForPastFounding(c: Company, index: nat, currentYear: int, jitter: real)
    requires 0.0 <= jitter < 1.0 && c.founded <= currentYear
    ensures Augment(c, index, currentYear, jitter).position.radius >= LayoutMinRadius - JitterSpan / 2.0 > 0.0
  {
  }

  /** Nothing clamps the jittered radius at zero: a company founded twenty
      years after the current year, drawn with jitter 0, gets radius -10.5. */
  lemma NegativeRadiusForFutureFounding(c: Company, currentYear: int)
    requires c.founded == currentYear + 20
    ensures Augment(c, 0, currentYear, 0.0).position.radius == -10.5
  {
  }

  /** The scene holds at most 300 companies, and all of them when there are fewer. */
  lemma SceneLength(companies: seq<Company>, currentYear: int, jitter: seq<real>, depth: seq<real>)
    requires Limit(SceneDensity, |companies|) <= |jitter| && UnitDraws(jitter)
    requires Limit(SceneDensity, |companies|) <= |depth| && UnitDraws(depth)
    ensures |SceneOf(companies, currentYear, jitter, depth)| == Min(300, |companies|)
  {
  }

  /** The scene lists inner orbits first. */
  lemma SceneSortedByOrbit(companies: seq<Company>, currentYear: int, jitter: seq<real>, depth: seq<real>)
    requires Limit(SceneDensity, |companies|) <= |jitter| && UnitDraws(jitter)
    requires Limit(SceneDensity, |companies|) <= |depth| && UnitDraws(depth)
    ensures var scene := SceneOf(companies, currentYear, jitter, depth);
      forall i, j :: 0 <= i < j < |scene| ==> scene[i].orbitRadius <= scene[j].orbitRadius
  {
    var processed := Processed(companies, SceneDensity, currentYear, jitter);
    InsertionSortSorted(processed, OrbitKey);
  }

  /** Angles are fixed before the radius sort: each company of the scene has
      the angle of its index in the sampled list, not of its index in the scene. */
  lemma SceneAngleIsSampledIndex(companies: seq<Company>, currentYear: int, jitter: seq<real>, depth: seq<real>, i: nat)
    requires Limit(SceneDensity, |companies|) <= |jitter| && UnitDraws(jitter)
    requires Limit(SceneDensity, |companies|) <= |depth| && UnitDraws(depth)
    requires i < |SceneOf(companies, currentYear, jitter, depth)|
    ensures var scene, kept := SceneOf(companies, currentYear, jitter, depth), Sampled(companies, SceneDensity);
      exists k :: 0 <= k < |kept| && scene[i].company == kept[k] && scene[i].position.angleDeg == k as real * GoldenAngleDeg
  {
    var kept := Sampled(companies, SceneDensity);
    var processed := Processed(companies, SceneDensity, currentYear, jitter);
    var sorted := InsertionSort(processed, OrbitKey);
    var scene := SceneOf(companies, currentYear, jitter, depth);
    assert scene == Lifted(sorted, depth);
    var k := PermutedIndex(processed, sorted, i);
    assert processed[k] == Augment(kept[k], k, currentYear, jitter[k]);
    assert scene[i].company == kept[k] && scene[i].position.angleDeg == k as real * GoldenAngleDeg;
  }

  /** Where an element of a reordering sits in the original sequence. */
  lemma PermutedIndex<T>(s: seq<T>, t: seq<T>, i: nat) returns (k: nat)
    requires multiset(s) == multiset(t) && i < |t|
    ensures k < |s| && s[k] == t[i]
  {
    assert t[i] in multiset(s);
    k :| 0 <= k < |s| && s[k] == t[i];
  }

  /** Radii never decrease along a list whose founding years never increase. */
  lemma OrbitsAscendWhenAgesAscend(kept: seq<Company>, currentYear: int, jitter: seq<real>)
    requires |kept| <= |jitter| && UnitDraws(jitter)
    requires forall i, j :: 0 <= i < j < |kept| ==> kept[j].founded <= kept[i].founded
    ensures SortedBy(Augmented(kept, currentYear, jitter), OrbitKey)
  {
    var placed := Augmented(kept, currentYear, jitter);
    forall i, j | 0 <= i < j < |placed|
      ensures OrbitKey(placed[i]) <= OrbitKey(placed[j])
    {
      OrbitMonotone(kept[i].founded, kept[j].founded, LayoutMaxRadius, LayoutMinRadius, currentYear);
    }
  }

  /** When the input fits the budget and no company is younger than the one
      before it, the radius sort changes nothing: the scene is the input, in
      order, at angles 0, 137.5, 275, ... degrees. */
  lemma SceneKeepsOrderWhenAgesAscend(companies: seq<Company>, currentYear: int, jitter: seq<real>, depth: seq<real>)
    requires |companies| <= 300
    requires Limit(SceneDensity, |companies|) <= |jitter| && UnitDraws(jitter)
    requires Limit(SceneDensity, |companies|) <= |depth| && UnitDraws(depth)
    requires forall i, j :: 0 <= i < j < |companies| ==> companies[j].founded <= companies[i].founded
    ensures var scene := SceneOf(companies, currentYear, jitter, depth);
      |scene| == |companies| &&
      forall i :: 0 <= i < |scene| ==>
        scene[i].company == companies[i] && scene[i].position.angleDeg == i as real * GoldenAngleDeg
  {
    var processed := Augmented(companies, currentYear, jitter);
    assert Processed(companies, SceneDensity, currentYear, jitter) == processed by {
      assert Sampled(companies, SceneDensity) == companies;
    }
    assert InsertionSort(processed, OrbitKey) == processed by {
      OrbitsAscendWhenAgesAscend(companies, currentYear, jitter);
      SortedIsFixed(processed, OrbitKey);
    }
    var scene := SceneOf(companies, currentYear, jitter, depth);
    assert scene == Lifted(processed, depth);
    forall i | 0 <= i < |scene|
      ensures scene[i].company == companies[i] && scene[i].position.angleDeg == i as real * GoldenAngleDeg
    {
      assert scene[i] == Lift(processed[i], depth[i]);
      assert processed[i] == Augment(companies[i], i, currentYear, jitter[i]);
    }
  }
}

/** ARevealLightManager: every frame, ranks the registered reveal lights by their
    squared distance to the player's viewpoint and publishes the four nearest
    into the reveal parameter collection, one slot of four parameters per rank. */
module RevealManager {
  import opened Scene
  import opened RevealLights

  /** Number of output slots, fixed by the shader. */
  const SlotCount: nat := 4

  /** Range published for a lit light that has no cached spot light. */
  const DefaultRange: real := 5000.0

  /** Cone cosine of an empty slot: no real cone has a cosine above 1. */
  const SentinelCone: real := 2.0

  // ---------------------------------------------------------------------------
  // Parameter names

  /** The four parameters of a slot. */
  datatype SlotParam = Pos | Dir | Cone | Range

  function Prefix(p: SlotParam): (prefix: string) {
    match p
    case Pos => "LightPos_"
    case Dir => "LightDir_"
    case Cone => "LightCone_"
    case Range => "LightRange_"
  }

  function Digit(d: nat): (c: char)
    requires d < 10
    ensures '0' <= c <= '9'
    ensures DigitValue(c) == d
  {
    "0123456789"[d]
  }

  /** The value of a decimal digit. */
  function DigitValue(c: char): (d: nat)
    requires '0' <= c <= '9'
    ensures d < 10
  {
    c as int - '0' as int
  }

  ghost predicate AllDigits(s: string) {
    forall k :: 0 <= k < |s| ==> '0' <= s[k] <= '9'
  }

  /** The number a string of decimal digits denotes, most significant first. */
  function DecimalValue(s: string): (n: nat)
    requires AllDigits(s)
  {
    if s == [] then 0 else 10 * DecimalValue(s[..|s| - 1]) + DigitValue(s[|s| - 1])
  }

  /** Printf's %d for a non-negative integer. */
  function NatToString(n: nat): (s: string)
    ensures |s| >= 1
    ensures |s| == 1 <==> n < 10
  {
    if n < 10 then [Digit(n)] else NatToString(n / 10) + [Digit(n % 10)]
  }

  /** The printed text is decimal digits without a leading zero, and reading it
      back gives the number. */
  lemma {:induction false} NatToStringValue(n: nat)
    ensures var s := NatToString(n);
      && AllDigits(s) && (s[0] == '0' ==> n == 0)
      && DecimalValue(s) == n
  {
    var s := NatToString(n);
    if n >= 10 {
      NatToStringValue(n / 10);
      assert s[..|s| - 1] == NatToString(n / 10);
    }
  }

  /** Different numbers print differently. */
  lemma {:induction false} NatToStringInjective(m: nat, n: nat)
    requires NatToString(m) == NatToString(n)
    ensures m == n
  {
    if m >= 10 && n >= 10 {
      var sm, sn := NatToString(m), NatToString(n);
      assert sm[|sm| - 1] == Digit(m % 10) && sn[|sn| - 1] == Digit(n % 10);
      assert sm[..|sm| - 1] == NatToString(m / 10);
      assert sn[..|sn| - 1] == NatToString(n / 10);
      NatToStringInjective(m / 10, n / 10);
    }
  }

  /** The name of parameter p of slot i: "LightPos_i", "LightDir_i", ...: the
      kind's prefix followed by the decimal digits of i. */
  function SlotName(p: SlotParam, i: nat): (name: string) {
    Prefix(p) + NatToString(i)
  }

  /** A slot name reads back as its kind's prefix followed by the slot number. */
  lemma SlotNameReadsBack(p: SlotParam, i: nat)
    ensures var name := SlotName(p, i);
      && |name| > |Prefix(p)| && name[..|Prefix(p)|] == Prefix(p)
      && AllDigits(name[|Prefix(p)|..]) && DecimalValue(name[|Prefix(p)|..]) == i
  {
    assert SlotName(p, i)[|Prefix(p)|..] == NatToString(i);
    NatToStringValue(i);
  }

  /** The names the constructor caches for the four slots. */
  lemma SlotNamesSpelledOut()
    ensures SlotName(Pos, 0) == "LightPos_0" && SlotName(Dir, 0) == "LightDir_0"
    ensures SlotName(Cone, 0) == "LightCone_0" && SlotName(Range, 0) == "LightRange_0"
    ensures SlotName(Pos, 1) == "LightPos_1" && SlotName(Dir, 1) == "LightDir_1"
    ensures SlotName(Cone, 1) == "LightCone_1" && SlotName(Range, 1) == "LightRange_1"
    ensures SlotName(Pos, 2) == "LightPos_2" && SlotName(Dir, 2) == "LightDir_2"
    ensures SlotName(Cone, 2) == "LightCone_2" && SlotName(Range, 2) == "LightRange_2"
    ensures SlotName(Pos, 3) == "LightPos_3" && SlotName(Dir, 3) == "LightDir_3"
    ensures SlotName(Cone, 3) == "LightCone_3" && SlotName(Range, 3) == "LightRange_3"
  {
  }

  /** No two slot parameters share a name, so no write of a Tick overwrites another. */
  lemma SlotNamesDistinct(p: SlotParam, i: nat, q: SlotParam, j: nat)
    ensures SlotName(p, i) == SlotName(q, j) <==> p == q && i == j
  {
    if SlotName(p, i) == SlotName(q, j) {
      var s := SlotName(p, i);
      assert s[5] == Prefix(p)[5] && s[5] == Prefix(q)[5];
      assert p == q;
      assert NatToString(i) == s[|Prefix(p)|..];
      assert NatToString(j) == s[|Prefix(q)|..];
      NatToStringInjective(i, j);
    }
  }

  // ---------------------------------------------------------------------------
  // Ranking by distance

  /** The sort key of ARevealLightManager::Tick: squared distance from the view
      location. */
  function DistanceFrom(viewLocation: Vec3): (key: Vec3 -> real) {
    p => DistSquared(viewLocation, p)
  }

  lemma SquareNonnegative(x: real)
    ensures x * x >= 0.0
  {
    if x < 0.0 {
      assert x * x == (-x) * (-x);
    }
  }

  /** The sort key is never negative, and is zero at the view location itself. */
  lemma DistanceFromNonnegative(viewLocation: Vec3, p: Vec3)
    ensures DistanceFrom(viewLocation)(p) >= 0.0
    ensures DistanceFrom(viewLocation)(viewLocation) == 0.0
  {
    var dx, dy, dz := viewLocation.x - p.x, viewLocation.y - p.y, viewLocation.z - p.z;
    SquareNonnegative(dx);
    SquareNonnegative(dy);
    SquareNonnegative(dz);
    assert DistanceFrom(viewLocation)(p) == dx * dx + dy * dy + dz * dz;
  }

  /** The ranking below is stated for any distance function `distanceTo` from
      the viewpoint; Tick ranks with DistanceFrom(viewLocation). */
  function Distance(distanceTo: Vec3 -> real, l: RevealLightComponent): (d: real)
    reads l
  {
    distanceTo(l.location)
  }

  /** The distances of a list of lights, in list order. */
  function Distances(s: seq<RevealLightComponent>, distanceTo: Vec3 -> real): (d: seq<real>)
    reads s
    ensures |d| == |s|
  {
    if s == [] then [] else [Distance(distanceTo, s[0])] + Distances(s[1..], distanceTo)
  }

  lemma {:induction false} DistanceAt(s: seq<RevealLightComponent>, distanceTo: Vec3 -> real, k: nat)
    requires k < |s|
    ensures Distances(s, distanceTo)[k] == Distance(distanceTo, s[k])
  {
    if k > 0 {
      DistanceAt(s[1..], distanceTo, k - 1);
    }
  }

  ghost predicate Sorted(d: seq<real>) {
    forall i, j :: 0 <= i < j < |d| ==> d[i] <= d[j]
  }

  /** Nearest first: distances never decrease along the list. */
  ghost predicate SortedByDistance(s: seq<RevealLightComponent>, distanceTo: Vec3 -> real)
    reads s
  {
    Sorted(Distances(s, distanceTo))
  }

  /** Two sorted lists with the same elements are equal. */
  lemma {:induction false} SortedUnique(a: seq<real>, b: seq<real>)
    requires Sorted(a) && Sorted(b) && multiset(a) == multiset(b)
    ensures a == b
    decreases |a|
  {
    assert |a| == |b| by { assert |multiset(a)| == |multiset(b)|; }
    if a != [] {
      assert a[0] in multiset(b) by { assert a[0] in multiset(a); }
      assert b[0] in multiset(a) by { assert b[0] in multiset(b); }
      var i :| 0 <= i < |b| && b[i] == a[0];
      var j :| 0 <= j < |a| && a[j] == b[0];
      assert b[0] <= a[0] && a[0] <= b[0];
      assert a == [a[0]] + a[1..] && b == [b[0]] + b[1..];
      assert multiset(a[1..]) == multiset(a) - multiset{a[0]};
      assert multiset(b[1..]) == multiset(b) - multiset{b[0]};
      SortedTail(a);
      SortedTail(b);
      SortedUnique(a[1..], b[1..]);
    }
  }

  lemma SortedTail(a: seq<real>)
    requires Sorted(a) && a != []
    ensures Sorted(a[1..])
  {
    forall p, q | 0 <= p < q < |a| - 1
      ensures a[1..][p] <= a[1..][q]
    {
      assert a[1..][p] == a[p + 1] && a[1..][q] == a[q + 1];
    }
  }

  lemma {:induction false} DistancesAppend(s: seq<RevealLightComponent>, t: seq<RevealLightComponent>, distanceTo: Vec3 -> real)
    ensures Distances(s + t, distanceTo) == Distances(s, distanceTo) + Distances(t, distanceTo)
  {
    if s != [] {
      assert (s + t)[1..] == s[1..] + t;
      DistancesAppend(s[1..], t, distanceTo);
    } else {
      assert s + t == t;
    }
  }

  /** The distances of a list with one light singled out. */
  lemma DistancesAround(front: seq<RevealLightComponent>, l: RevealLightComponent,
                        back: seq<RevealLightComponent>, distanceTo: Vec3 -> real)
    ensures Distances(front + [l] + back, distanceTo)
         == Distances(front, distanceTo) + [Distance(distanceTo, l)] + Distances(back, distanceTo)
  {
    DistancesAppend(front + [l], back, distanceTo);
    DistancesAppend(front, [l], distanceTo);
    assert Distances([l], distanceTo) == [Distance(distanceTo, l)] by {
      assert [l][1..] == [];
    }
  }

  /** Dropping the same element from two permutations of each other leaves
      permutations of each other. */
  lemma PermutationTail<T>(s: seq<T>, t: seq<T>, k: nat)
    requires multiset(s) == multiset(t) && s != [] && k < |t| && t[k] == s[0]
    ensures t == t[..k] + [s[0]] + t[k + 1..]
    ensures multiset(s[1..]) == multiset(t[..k] + t[k + 1..])
  {
    assert s == [s[0]] + s[1..];
    assert t == t[..k] + [t[k]] + t[k + 1..];
    assert multiset(s[1..]) == multiset(s) - multiset{s[0]};
    assert multiset(t[..k] + t[k + 1..]) == multiset(t) - multiset{t[k]};
  }

  /** Reordering the lights reorders their distances. */
  lemma {:induction false} DistancesOfPermutation(s: seq<RevealLightComponent>, t: seq<RevealLightComponent>, distanceTo: Vec3 -> real)
    requires multiset(s) == multiset(t)
    ensures multiset(Distances(s, distanceTo)) == multiset(Distances(t, distanceTo))
    decreases |s|
  {
    if s == [] {
      assert |t| == |multiset(t)| == 0;
    } else {
      assert s[0] in multiset(t) by { assert s[0] in multiset(s); }
      var k :| 0 <= k < |t| && t[k] == s[0];
      var front, back := t[..k], t[k + 1..];
      PermutationTail(s, t, k);
      DistancesOfPermutation(s[1..], front + back, distanceTo);
      var x := Distance(distanceTo, s[0]);
      var dFront, dBack := Distances(front, distanceTo), Distances(back, distanceTo);
      assert Distances(s, distanceTo) == [x] + Distances(s[1..], distanceTo);
      DistancesAppend(front, back, distanceTo);
      DistancesAround(front, s[0], back, distanceTo);
      assert multiset(Distances(s, distanceTo)) == multiset{x} + multiset(dFront + dBack);
    }
  }

  /** Sorting leaves only the order among equally distant lights open: any two
      rankings of the same registry see the same distance at every rank. */
  lemma RankingsAgreeOnDistances(s: seq<RevealLightComponent>, t: seq<RevealLightComponent>, distanceTo: Vec3 -> real)
    requires multiset(s) == multiset(t)
    requires SortedByDistance(s, distanceTo) && SortedByDistance(t, distanceTo)
    ensures Distances(s, distanceTo) == Distances(t, distanceTo)
  {
    DistancesOfPermutation(s, t, distanceTo);
    SortedUnique(Distances(s, distanceTo), Distances(t, distanceTo));
  }

  /** The lights that get a slot: the first SlotCount of the ranking. */
  function Nearest(ranked: seq<RevealLightComponent>): (r: seq<RevealLightComponent>)
    ensures |r| <= SlotCount && |r| <= |ranked| && r == ranked[..|r|]
    ensures |r| == SlotCount || r == ranked
  {
    if |ranked| <= SlotCount then ranked else ranked[..SlotCount]
  }

  /** No registered light left without a slot is nearer than a light that got one. */
  lemma RankedFirstAreNearest(ranked: seq<RevealLightComponent>, registry: seq<RevealLightComponent>, distanceTo: Vec3 -> real, i: nat, m: RevealLightComponent)
    requires multiset(ranked) == multiset(registry)
    requires SortedByDistance(ranked, distanceTo)
    requires i < |Nearest(ranked)|
    requires m in multiset(registry) - multiset(Nearest(ranked))
    ensures Distance(distanceTo, ranked[i]) <= Distance(distanceTo, m)
  {
    var top := Nearest(ranked);
    assert ranked == top + ranked[|top|..];
    assert multiset(ranked) == multiset(top) + multiset(ranked[|top|..]);
    assert m in multiset(ranked[|top|..]);
    var k :| |top| <= k < |ranked| && ranked[k] == m;
    DistanceAt(ranked, distanceTo, i);
    DistanceAt(ranked, distanceTo, k);
  }

  /** TArray::Sort with the distance predicate, in place. TArray::Sort's own
      algorithm is not modelled: any sorted permutation will do, because Tick's
      ensures quantifies over the ranking. This one is an insertion sort. */
  method SortByDistance(a: array<RevealLightComponent>, distanceTo: Vec3 -> real)
    modifies a
    ensures SortedByDistance(a[..], distanceTo)
    ensures multiset(a[..]) == multiset(old(a[..]))
  {
    for i := 0 to a.Length
      invariant SortedByDistance(a[..i], distanceTo)
      invariant multiset(a[..]) == multiset(old(a[..]))
    {
      InsertIntoPrefix(a, i, distanceTo);
    }
    assert a[..a.Length] == a[..];
  }

  /** Moves a[i] down into the sorted prefix a[..i], past every light further
      away than it. */
  method InsertIntoPrefix(a: array<RevealLightComponent>, i: nat, distanceTo: Vec3 -> real)
    requires i < a.Length
    requires SortedByDistance(a[..i], distanceTo)
    modifies a
    ensures SortedByDistance(a[..i + 1], distanceTo)
    ensures multiset(a[..]) == multiset(old(a[..]))
  {
    ghost var s := a[..];
    var x := a[i];
    var j := ShiftFarther(a, i, distanceTo);
    a[j] := x;
    InsertionStep(s, a[..], i, j, distanceTo);
  }

  /** The shifting loop of an insertion: every light of a[..i] further away than
      a[i], from the end of the prefix down, moves one place up; j is the hole left. */
  method ShiftFarther(a: array<RevealLightComponent>, i: nat, distanceTo: Vec3 -> real) returns (j: nat)
    requires i < a.Length
    modifies a
    ensures j <= i
    ensures forall k :: 0 <= k < j ==> a[k] == old(a[k])
    ensures forall k :: j < k <= i ==> a[k] == old(a[k - 1])
    ensures forall k :: i < k < a.Length ==> a[k] == old(a[k])
    ensures j > 0 ==> Distance(distanceTo, old(a[j - 1])) <= Distance(distanceTo, old(a[i]))
    ensures forall k :: j <= k < i ==> Distance(distanceTo, old(a[k])) > Distance(distanceTo, old(a[i]))
  {
    ghost var s := a[..];
    var x := a[i];
    j := i;
    while j > 0 && Distance(distanceTo, a[j - 1]) > Distance(distanceTo, x)
      invariant 0 <= j <= i
      invariant forall k :: 0 <= k < j ==> a[k] == s[k]
      invariant forall k :: j < k <= i ==> a[k] == s[k - 1]
      invariant forall k :: i < k < a.Length ==> a[k] == s[k]
      invariant forall k :: j <= k < i ==> Distance(distanceTo, s[k]) > Distance(distanceTo, x)
    {
      a[j] := a[j - 1];
      j := j - 1;
    }
  }

  /** What the shifting loop leaves behind, on sequences: t is s with s[i] moved
      down to index j, past the lights of s[j..i], all further away than it. */
  lemma InsertionStep(s: seq<RevealLightComponent>, t: seq<RevealLightComponent>, i: nat, j: nat, distanceTo: Vec3 -> real)
    requires j <= i < |s| == |t|
    requires forall k :: 0 <= k < j ==> t[k] == s[k]
    requires t[j] == s[i]
    requires forall k :: j < k <= i ==> t[k] == s[k - 1]
    requires forall k :: i < k < |t| ==> t[k] == s[k]
    requires SortedByDistance(s[..i], distanceTo)
    requires j > 0 ==> Distance(distanceTo, s[j - 1]) <= Distance(distanceTo, s[i])
    requires forall k :: j <= k < i ==> Distance(distanceTo, s[k]) > Distance(distanceTo, s[i])
    ensures SortedByDistance(t[..i + 1], distanceTo)
    ensures multiset(t) == multiset(s)
  {
    MovedDown(s, t, i, j);
    InsertionPlace(s[..j], s[j..i], s[i], distanceTo);
  }

  lemma MovedDown<T>(s: seq<T>, t: seq<T>, i: nat, j: nat)
    requires j <= i < |s| == |t|
    requires forall k :: 0 <= k < j ==> t[k] == s[k]
    requires t[j] == s[i]
    requires forall k :: j < k <= i ==> t[k] == s[k - 1]
    requires forall k :: i < k < |t| ==> t[k] == s[k]
    ensures t[..i + 1] == s[..j] + [s[i]] + s[j..i]
    ensures s[..i] == s[..j] + s[j..i]
    ensures multiset(t) == multiset(s)
  {
    var front, back, x, rest := s[..j], s[j..i], s[i], s[i + 1..];
    var moved := front + [x] + back;
    assert |moved| == i + 1;
    forall k | 0 <= k <= i
      ensures t[k] == moved[k]
    {
      if k < j {
        assert moved[k] == front[k];
      } else if j < k {
        assert moved[k] == back[k - j - 1];
      }
    }
    assert t[..i + 1] == moved;
    assert s[..i] == front + back;
    assert t == t[..i + 1] + rest;
    assert s == s[..i] + [x] + rest;
  }

  /** The step of an insertion: x placed after lights no further away and before
      lights further away, in a ranking that was sorted without it. */
  lemma InsertionPlace(front: seq<RevealLightComponent>, back: seq<RevealLightComponent>, x: RevealLightComponent, distanceTo: Vec3 -> real)
    requires SortedByDistance(front + back, distanceTo)
    requires front != [] ==> Distance(distanceTo, front[|front| - 1]) <= Distance(distanceTo, x)
    requires forall k :: 0 <= k < |back| ==> Distance(distanceTo, back[k]) > Distance(distanceTo, x)
    ensures SortedByDistance(front + [x] + back, distanceTo)
  {
    DistancesAppend(front, back, distanceTo);
    DistancesAppend(front + [x], back, distanceTo);
    DistancesAppend(front, [x], distanceTo);
    assert Distances([x], distanceTo) == [Distance(distanceTo, x)] by {
      assert [x][1..] == [];
    }
    if front != [] {
      DistanceAt(front, distanceTo, |front| - 1);
    }
    forall k | 0 <= k < |back|
      ensures Distances(back, distanceTo)[k] > Distance(distanceTo, x)
    {
      DistanceAt(back, distanceTo, k);
    }
    InsertKeepsSorted(Distances(front, distanceTo), Distance(distanceTo, x), Distances(back, distanceTo));
  }

  /** Placing x between a smaller-or-equal prefix and a larger suffix of a sorted
      list keeps it sorted. */
  lemma InsertKeepsSorted(front: seq<real>, x: real, back: seq<real>)
    requires Sorted(front + back)
    requires front != [] ==> front[|front| - 1] <= x
    requires forall k :: 0 <= k < |back| ==> back[k] > x
    ensures Sorted(front + [x] + back)
  {
    var fb, r, n := front + back, front + [x] + back, |front|;
    forall p, q | 0 <= p < q < |r|
      ensures r[p] <= r[q]
    {
      if q < n {
        assert r[p] == fb[p] && r[q] == fb[q];
      } else if q == n {
        assert r[p] == fb[p] <= fb[n - 1] == front[n - 1];
      } else if p < n {
        assert r[p] == fb[p] && r[q] == back[q - n - 1] == fb[q - 1];
      } else if p == n {
        assert r[q] == back[q - n - 1];
      } else {
        assert r[p] == fb[p - 1] && r[q] == fb[q - 1];
      }
    }
  }

  // ---------------------------------------------------------------------------
  // Slots

  /** What a slot publishes: a position, a direction, a cone cosine and a range. */
  datatype SlotParams = SlotParams(pos: Vec3, dir: Vec3, cone: real, range: real)

  /** Zero position, forward direction, impossible cone, zero range. */
  const Sentinel := SlotParams(ZeroVector, ForwardVector, SentinelCone, 0.0)

  /** The values of a spot light that a slot reads. */
  datatype SpotView = SpotView(outerConeAngle: real, attenuationRadius: real)

  /** The values of a reveal light that a slot reads. */
  datatype LightView = LightView(location: Vec3, forward: Vec3, coneCosAngle: real,
                                 isLightOn: bool, spot: Option<SpotView>)

  function View(l: RevealLightComponent): (v: LightView)
    reads l, l.spotLightCache
  {
    var spot := l.spotLightCache;
    LightView(l.location, l.forward, l.coneCosAngle, l.isLightOn,
              if spot == null then None else Some(SpotView(spot.outerConeAngle, spot.attenuationRadius)))
  }

  /** The views of a list of lights, in list order. */
  function Views(s: seq<RevealLightComponent>): (v: seq<LightView>)
    reads s, set l | l in s :: l.spotLightCache
    ensures |v| == |s|
    ensures forall i :: 0 <= i < |s| ==> v[i] == View(s[i])
  {
    if s == [] then [] else [View(s[0])] + Views(s[1..])
  }

  /** Nearest first, read off the views of the lights. */
  ghost predicate NearestFirst(views: seq<LightView>, distanceTo: Vec3 -> real) {
    forall i, j :: 0 <= i < j < |views| ==> distanceTo(views[i].location) <= distanceTo(views[j].location)
  }

  /** A list sorted by distance shows its views nearest first. */
  lemma ViewsNearestFirst(s: seq<RevealLightComponent>, distanceTo: Vec3 -> real)
    requires SortedByDistance(s, distanceTo)
    ensures NearestFirst(Views(s), distanceTo)
  {
    forall i, j | 0 <= i < j < |s|
      ensures distanceTo(Views(s)[i].location) <= distanceTo(Views(s)[j].location)
    {
      DistanceAt(s, distanceTo, i);
      DistanceAt(s, distanceTo, j);
    }
  }

  /** The converse: views nearest first come from a list sorted by distance. */
  lemma NearestFirstSorted(s: seq<RevealLightComponent>, distanceTo: Vec3 -> real)
    requires NearestFirst(Views(s), distanceTo)
    ensures SortedByDistance(s, distanceTo)
  {
    var d := Distances(s, distanceTo);
    forall i, j | 0 <= i < j < |d|
      ensures d[i] <= d[j]
    {
      DistanceAt(s, distanceTo, i);
      DistanceAt(s, distanceTo, j);
      assert Views(s)[i] == View(s[i]) && Views(s)[j] == View(s[j]);
    }
  }

  /** The slot of a light that is on: cone and range from its spot light when it
      has one, from its own fallback cosine and the default range otherwise.
      cosOfDegrees stands for FMath::Cos(FMath::DegreesToRadians(.)). */
  function LitSlot(v: LightView, cosOfDegrees: real -> real): (slot: SlotParams)
    ensures slot.pos == v.location && slot.dir == v.forward
    ensures v.spot.Some? ==> slot.cone == cosOfDegrees(v.spot.value.outerConeAngle) && slot.range == v.spot.value.attenuationRadius
    ensures v.spot.None? ==> slot.cone == v.coneCosAngle && slot.range == DefaultRange
  {
    match v.spot
    case Some(spot) => SlotParams(v.location, v.forward, cosOfDegrees(spot.outerConeAngle), spot.attenuationRadius)
    case None => SlotParams(v.location, v.forward, v.coneCosAngle, DefaultRange)
  }

  /** Slot i looks only at the light of rank i. */
  function SlotAt(ranked: seq<LightView>, i: nat, cosOfDegrees: real -> real): (slot: SlotParams)
    ensures i >= |ranked| || !ranked[i].isLightOn ==> slot == Sentinel
    ensures i < |ranked| && ranked[i].isLightOn ==> slot.pos == ranked[i].location && slot.dir == ranked[i].forward
  {
    if i < |ranked| && ranked[i].isLightOn then LitSlot(ranked[i], cosOfDegrees) else Sentinel
  }

  /** The four slots for lights already ranked nearest first. A slot with no light
      at its rank, or whose light is switched off, is the sentinel. A lit slot
      carries its light's position and direction, and cone and range from the
      cached spot light if there is one, else from the fallbacks. */
  function Selection(ranked: seq<LightView>, cosOfDegrees: real -> real): (r: seq<SlotParams>)
    ensures |r| == SlotCount
    ensures forall i :: 0 <= i < SlotCount && (i >= |ranked| || !ranked[i].isLightOn) ==> r[i] == Sentinel
    ensures forall i :: 0 <= i < SlotCount && i < |ranked| && ranked[i].isLightOn ==>
      && r[i].pos == ranked[i].location && r[i].dir == ranked[i].forward
      && (ranked[i].spot.Some? ==>
            r[i].cone == cosOfDegrees(ranked[i].spot.value.outerConeAngle) && r[i].range == ranked[i].spot.value.attenuationRadius)
      && (ranked[i].spot.None? ==> r[i].cone == ranked[i].coneCosAngle && r[i].range == DefaultRange)
  {
    seq(SlotCount, i requires 0 <= i < SlotCount => SlotAt(ranked, i, cosOfDegrees))
  }

  /** A switched-off light keeps its rank: the slots of two rankings that hold the
      same light at rank i agree at i whatever the other ranks hold, so a lit light
      further down is never promoted into a blanked slot. */
  lemma SlotDependsOnlyOnItsRank(a: seq<LightView>, b: seq<LightView>, i: nat, cosOfDegrees: real -> real)
    requires i < SlotCount
    requires (i < |a|) == (i < |b|)
    requires i < |a| ==> a[i] == b[i]
    ensures Selection(a, cosOfDegrees)[i] == Selection(b, cosOfDegrees)[i]
  {
  }

  // ---------------------------------------------------------------------------
  // Publishing

  /** The vector parameters after slots 0 .. n-1 were written in order. */
  function PublishVectors(m: map<string, LinearColor>, slots: seq<SlotParams>, n: nat): (r: map<string, LinearColor>)
    requires n <= |slots|
    ensures m.Keys <= r.Keys
  {
    if n == 0 then m
    else PublishVectors(m, slots, n - 1)[SlotName(Pos, n - 1) := FromVector(slots[n - 1].pos)]
                                        [SlotName(Dir, n - 1) := FromVector(slots[n - 1].dir)]
  }

  /** The scalar parameters after slots 0 .. n-1 were written in order. */
  function PublishScalars(m: map<string, real>, slots: seq<SlotParams>, n: nat): (r: map<string, real>)
    requires n <= |slots|
    ensures m.Keys <= r.Keys
  {
    if n == 0 then m
    else PublishScalars(m, slots, n - 1)[SlotName(Cone, n - 1) := slots[n - 1].cone]
                                        [SlotName(Range, n - 1) := slots[n - 1].range]
  }

  /** Reading a map after two writes: the second write wins, the first one shows
      through a different key. */
  lemma ReadAfterWrites<K, V>(m: map<K, V>, k1: K, v1: V, k2: K, v2: V, k: K)
    ensures k == k2 ==> k in m[k1 := v1][k2 := v2] && m[k1 := v1][k2 := v2][k] == v2
    ensures k != k2 && k == k1 ==> k in m[k1 := v1][k2 := v2] && m[k1 := v1][k2 := v2][k] == v1
    ensures k != k2 && k != k1 ==> (k in m[k1 := v1][k2 := v2] <==> k in m)
    ensures k != k2 && k != k1 && k in m ==> m[k1 := v1][k2 := v2][k] == m[k]
  {
  }

  /** After publishing, each of the first n slots holds its own position and
      direction, whatever later slots wrote. */
  lemma {:induction false} PublishedVectors(m: map<string, LinearColor>, slots: seq<SlotParams>, n: nat, i: nat)
    requires i < n <= |slots|
    ensures SlotName(Pos, i) in PublishVectors(m, slots, n) && SlotName(Dir, i) in PublishVectors(m, slots, n)
    ensures PublishVectors(m, slots, n)[SlotName(Pos, i)] == FromVector(slots[i].pos)
    ensures PublishVectors(m, slots, n)[SlotName(Dir, i)] == FromVector(slots[i].dir)
  {
    var prev := PublishVectors(m, slots, n - 1);
    var pos, dir := SlotName(Pos, i), SlotName(Dir, i);
    var lastPos, lastDir := SlotName(Pos, n - 1), SlotName(Dir, n - 1);
    var vPos, vDir := FromVector(slots[n - 1].pos), FromVector(slots[n - 1].dir);
    assert PublishVectors(m, slots, n) == prev[lastPos := vPos][lastDir := vDir];
    SlotNamesDistinct(Pos, i, Dir, n - 1);
    SlotNamesDistinct(Dir, i, Dir, n - 1);
    SlotNamesDistinct(Pos, i, Pos, n - 1);
    SlotNamesDistinct(Dir, i, Pos, n - 1);
    ReadAfterWrites(prev, lastPos, vPos, lastDir, vDir, pos);
    ReadAfterWrites(prev, lastPos, vPos, lastDir, vDir, dir);
    if i < n - 1 {
      PublishedVectors(m, slots, n - 1, i);
    }
  }

  /** After publishing, each of the first n slots holds its own cone and range. */
  lemma {:induction false} PublishedScalars(m: map<string, real>, slots: seq<SlotParams>, n: nat, i: nat)
    requires i < n <= |slots|
    ensures SlotName(Cone, i) in PublishScalars(m, slots, n) && SlotName(Range, i) in PublishScalars(m, slots, n)
    ensures PublishScalars(m, slots, n)[SlotName(Cone, i)] == slots[i].cone
    ensures PublishScalars(m, slots, n)[SlotName(Range, i)] == slots[i].range
  {
    var prev := PublishScalars(m, slots, n - 1);
    var cone, range := SlotName(Cone, i), SlotName(Range, i);
    var lastCone, lastRange := SlotName(Cone, n - 1), SlotName(Range, n - 1);
    var vCone, vRange := slots[n - 1].cone, slots[n - 1].range;
    assert PublishScalars(m, slots, n) == prev[lastCone := vCone][lastRange := vRange];
    SlotNamesDistinct(Cone, i, Range, n - 1);
    SlotNamesDistinct(Range, i, Range, n - 1);
    SlotNamesDistinct(Cone, i, Cone, n - 1);
    SlotNamesDistinct(Range, i, Cone, n - 1);
    ReadAfterWrites(prev, lastCone, vCone, lastRange, vRange, cone);
    ReadAfterWrites(prev, lastCone, vCone, lastRange, vRange, range);
    if i < n - 1 {
      PublishedScalars(m, slots, n - 1, i);
    }
  }

  /** Publishing touches only slot parameter names of the first n slots. */
  lemma {:induction false} PublishLeavesOtherNames(vs: map<string, LinearColor>, ss: map<string, real>, slots: seq<SlotParams>, n: nat, k: string)
    requires n <= |slots|
    requires forall p, i :: 0 <= i < n ==> k != SlotName(p, i)
    ensures k in PublishVectors(vs, slots, n) <==> k in vs
    ensures k in vs ==> PublishVectors(vs, slots, n)[k] == vs[k]
    ensures k in PublishScalars(ss, slots, n) <==> k in ss
    ensures k in ss ==> PublishScalars(ss, slots, n)[k] == ss[k]
  {
    if n > 0 {
      PublishLeavesOtherNames(vs, ss, slots, n - 1, k);
    }
  }

  // ---------------------------------------------------------------------------
  // The manager actor

  /** The local copy of the registry that Tick sorts, nearest light first. */
  method RankLights(registry: LightRegistry, viewLocation: Vec3) returns (localLights: array<RevealLightComponent>)
    ensures fresh(localLights)
    ensures multiset(localLights[..]) == multiset(registry.allRevealLights)
    ensures SortedByDistance(localLights[..], DistanceFrom(viewLocation))
  {
    var all := registry.allRevealLights;
    localLights := new RevealLightComponent[|all|](i requires 0 <= i < |all| => all[i]);
    assert localLights[..] == all;
    SortByDistance(localLights, DistanceFrom(viewLocation));
  }

  /** The body of the Tick loop up to the writes: slot i of the sorted lights,
      read field by field from the light of rank i and its cached spot light. */
  method ReadSlot(lights: array<RevealLightComponent>, i: nat, cosOfDegrees: real -> real)
    returns (slot: SlotParams)
    ensures slot == SlotAt(Views(lights[..]), i, cosOfDegrees)
  {
    slot := Sentinel;
    // ARevealLightManager::Tick also tests the entry for null; entries are never null here.
    if i < lights.Length && lights[i].isLightOn {
      var lightComp := lights[i];
      var spotLight := lightComp.spotLightCache;
      if spotLight != null {
        slot := SlotParams(lightComp.location, lightComp.forward,
                           cosOfDegrees(spotLight.outerConeAngle), spotLight.attenuationRadius);
      } else {
        slot := SlotParams(lightComp.location, lightComp.forward, lightComp.coneCosAngle, DefaultRange);
      }
    }
  }

  class RevealLightManager {
    /** The collection to update; null when none is assigned. */
    var revealMPC: ParameterCollection?
    /** Parameter names cached by the constructor. */
    var lightPosNames: array<string>
    var lightDirNames: array<string>
    var lightConeNames: array<string>
    var lightRangeNames: array<string>

    ghost predicate Valid()
      reads this, lightPosNames, lightDirNames, lightConeNames, lightRangeNames
    {
      && lightPosNames.Length == SlotCount && lightDirNames.Length == SlotCount
      && lightConeNames.Length == SlotCount && lightRangeNames.Length == SlotCount
      && forall i :: 0 <= i < SlotCount ==>
           && lightPosNames[i] == SlotName(Pos, i) && lightDirNames[i] == SlotName(Dir, i)
           && lightConeNames[i] == SlotName(Cone, i) && lightRangeNames[i] == SlotName(Range, i)
    }

    constructor (revealMPC: ParameterCollection?)
      ensures Valid() && this.revealMPC == revealMPC
      ensures fresh(lightPosNames) && fresh(lightDirNames) && fresh(lightConeNames) && fresh(lightRangeNames)
    {
      var pos := new string[SlotCount];
      var dir := new string[SlotCount];
      var cone := new string[SlotCount];
      var range := new string[SlotCount];
      for i := 0 to SlotCount
        invariant forall j :: 0 <= j < i ==>
          && pos[j] == SlotName(Pos, j) && dir[j] == SlotName(Dir, j)
          && cone[j] == SlotName(Cone, j) && range[j] == SlotName(Range, j)
      {
        pos[i] := SlotName(Pos, i);
        dir[i] := SlotName(Dir, i);
        cone[i] := SlotName(Cone, i);
        range[i] := SlotName(Range, i);
      }
      this.revealMPC := revealMPC;
      lightPosNames, lightDirNames, lightConeNames, lightRangeNames := pos, dir, cone, range;
    }

    /** One frame. The net mode and the player's viewpoint come from the engine:
        `viewPoint` is None when there is no player controller. */
    method Tick(registry: LightRegistry, isDedicatedServer: bool, viewPoint: Option<Vec3>,
                cosOfDegrees: real -> real)
      requires Valid()
      modifies revealMPC
      ensures unchanged(registry)
      ensures (isDedicatedServer || viewPoint.None?) && revealMPC != null ==> unchanged(revealMPC)
      ensures !isDedicatedServer && revealMPC != null && viewPoint.Some? ==>
        exists ranked: seq<RevealLightComponent> ::
          && multiset(ranked) == multiset(registry.allRevealLights)
          && var views := Views(ranked);
          && NearestFirst(views, DistanceFrom(viewPoint.value))
          && revealMPC.vectors == PublishVectors(old(revealMPC.vectors), Selection(views, cosOfDegrees), SlotCount)
          && revealMPC.scalars == PublishScalars(old(revealMPC.scalars), Selection(views, cosOfDegrees), SlotCount)
    {
      if isDedicatedServer || revealMPC == null {
        return;
      }
      if viewPoint.None? {
        return;
      }
      var localLights := RankLights(registry, viewPoint.value);
      ghost var ranked := localLights[..];
      ViewsNearestFirst(ranked, DistanceFrom(viewPoint.value));
      PublishSlots(revealMPC, localLights, cosOfDegrees);
    }

    /** The loop of Tick: slot i of the collection gets the parameters of the
        light of rank i, or the sentinel. */
    method PublishSlots(mpc: ParameterCollection, lights: array<RevealLightComponent>, cosOfDegrees: real -> real)
      requires Valid()
      modifies mpc
      ensures mpc.vectors == PublishVectors(old(mpc.vectors), Selection(Views(lights[..]), cosOfDegrees), SlotCount)
      ensures mpc.scalars == PublishScalars(old(mpc.scalars), Selection(Views(lights[..]), cosOfDegrees), SlotCount)
      ensures Views(lights[..]) == old(Views(lights[..]))
    {
      ghost var views := Views(lights[..]);
      ghost var selection := Selection(views, cosOfDegrees);
      for i := 0 to SlotCount
        invariant forall k :: 0 <= k < lights.Length ==> View(lights[k]) == views[k]
        invariant mpc.vectors == PublishVectors(old(mpc.vectors), selection, i)
        invariant mpc.scalars == PublishScalars(old(mpc.scalars), selection, i)
      {
        PublishSlot(mpc, lights, i, cosOfDegrees, views);
      }
    }

    /** One turn of the loop: read slot i from the light of rank i, then write it.
        The lights are not touched, so they read the same afterwards. */
    method PublishSlot(mpc: ParameterCollection, lights: array<RevealLightComponent>, i: nat,
                       cosOfDegrees: real -> real, ghost views: seq<LightView>)
      requires Valid() && i < SlotCount
      requires |views| == lights.Length
      requires forall k :: 0 <= k < lights.Length ==> View(lights[k]) == views[k]
      modifies mpc
      ensures forall k :: 0 <= k < lights.Length ==> View(lights[k]) == views[k]
      ensures var slot := SlotAt(views, i, cosOfDegrees);
        && mpc.vectors == old(mpc.vectors)[SlotName(Pos, i) := FromVector(slot.pos)][SlotName(Dir, i) := FromVector(slot.dir)]
        && mpc.scalars == old(mpc.scalars)[SlotName(Cone, i) := slot.cone][SlotName(Range, i) := slot.range]
    {
      var slot := ReadSlot(lights, i, cosOfDegrees);
      assert lights[..] == old(lights[..]);
      assert Views(lights[..]) == views;
      WriteSlot(mpc, i, slot);
    }

    /** The four writes of one slot, under the names cached by the constructor. */
    method WriteSlot(mpc: ParameterCollection, i: nat, slot: SlotParams)
      requires Valid() && i < SlotCount
      modifies mpc
      ensures mpc.vectors == old(mpc.vectors)[SlotName(Pos, i) := FromVector(slot.pos)][SlotName(Dir, i) := FromVector(slot.dir)]
      ensures mpc.scalars == old(mpc.scalars)[SlotName(Cone, i) := slot.cone][SlotName(Range, i) := slot.range]
    {
      mpc.SetVectorParameterValue(lightPosNames[i], FromVector(slot.pos));
      mpc.SetVectorParameterValue(lightDirNames[i], FromVector(slot.dir));
      mpc.SetScalarParameterValue(lightConeNames[i], slot.cone);
      mpc.SetScalarParameterValue(lightRangeNames[i], slot.range);
    }
  }
}

/** The plain records of the city: resources and buildings. Building variants are a tagged
    datatype instead of the Python class hierarchy (Building, ProducerBuilding,
    StorageBuilding and the fixed-profile subclasses). */
module Entities {

  import opened Wrappers
  import opened Text

  /** A Python dict from resource name to an integer, in insertion order. */
  type Dict = seq<(string, int)>

  /** Keys of a dict literal are distinct. */
  predicate DistinctKeys(d: Dict) {
    forall i, j :: 0 <= i < j < |d| ==> d[i].0 != d[j].0
  }

  /** Names in a sequence are pairwise distinct. */
  predicate Distinct(names: seq<string>) {
    forall i, j :: 0 <= i < j < |names| ==> names[i] != names[j]
  }

  /** Sum of the values stored under `name`; for a dict with distinct keys, its value or 0. */
  function Total(d: Dict, name: string): int {
    if d == [] then 0
    else Total(d[..|d| - 1], name) + (if d[|d| - 1].0 == name then d[|d| - 1].1 else 0)
  }

  /** Every value of the dict is at least zero. */
  predicate NonNegative(d: Dict) {
    forall i :: 0 <= i < |d| ==> d[i].1 >= 0
  }

  lemma {:induction false} TotalOfDistinct(d: Dict, i: nat)
    requires DistinctKeys(d) && i < |d|
    ensures Total(d, d[i].0) == d[i].1
  {
    if i < |d| - 1 {
      TotalOfDistinct(d[..|d| - 1], i);
    } else {
      TotalOfAbsent(d[..|d| - 1], d[i].0);
    }
  }

  lemma {:induction false} TotalOfAbsent(d: Dict, name: string)
    requires forall i :: 0 <= i < |d| ==> d[i].0 != name
    ensures Total(d, name) == 0
  {
    if d != [] {
      TotalOfAbsent(d[..|d| - 1], name);
    }
  }

  lemma {:induction false} TotalNonNegative(d: Dict, name: string)
    requires NonNegative(d)
    ensures Total(d, name) >= 0
  {
    if d != [] {
      TotalNonNegative(d[..|d| - 1], name);
    }
  }

  /** A named quantity held by the city; only the amount is ever replaced. A new resource
      holds 0 unless an amount is given. */
  datatype Resource = Resource(name: string, amount: int := 0)

  /** A constructed building. `id` and `kind` are fixed at construction; a producer's work
      cost is 0 unless given. */
  datatype Building =
    | Plain(id: int, kind: string)
    | Producer(id: int, kind: string, produces: Dict, workCost: int := 0)
    | Storage(id: int, kind: string, addsCapacity: Dict)

  /** The fixed profiles of entities.py. */
  function Farm(id: int): Building { Producer(id, "farm", [("food", 5)]) }
  function LumberMill(id: int): Building { Producer(id, "lumber_mill", [("wood", 4)]) }
  function House(id: int): Building { Producer(id, "house", [("people", 1)]) }
  function Apartament(id: int): Building { Producer(id, "apartament", [("people", 3)]) }
  function CoalMine(id: int): Building { Producer(id, "coal_mine", [("coal", 8)]) }

  /** Each fixed profile is a producer of exactly one resource, with work cost 0. */
  lemma FixedProfiles(id: int)
    ensures var ps := [Farm(id), LumberMill(id), House(id), Apartament(id), CoalMine(id)];
            forall k :: 0 <= k < |ps| ==> ps[k].Producer? && ps[k].id == id && |ps[k].produces| == 1 && ps[k].workCost == 0
    ensures Total(House(id).produces, "people") == 1 && Total(Apartament(id).produces, "people") == 3
    ensures Total(CoalMine(id).produces, "coal") == 8 && Total(Farm(id).produces, "food") == 5
    ensures Total(LumberMill(id).produces, "wood") == 4
  {
  }

  /** `b.summary()`: "#<id> [<kind>]", the kind closed in brackets after the id. */
  function Summary(b: Building): (s: string)
    ensures |s| > |b.kind| + 4 && s[0] == '#' && s[|s| - 1] == ']'
    ensures s[|s| - |b.kind| - 3..] == " [" + b.kind + "]"
  {
    var tail := " [" + b.kind + "]";
    var s := ("#" + IntToString(b.id)) + tail;
    assert s[|s| - |tail|..] == tail;
    s
  }

  /** Index of the first space at or after `i`, or |s|. */
  function SpaceFrom(s: string, i: nat): (k: nat)
    requires i <= |s|
    ensures i <= k <= |s|
    ensures k < |s| ==> s[k] == ' '
    decreases |s| - i
  {
    if i == |s| || s[i] == ' ' then i else SpaceFrom(s, i + 1)
  }

  /** Reads an id and a kind back from a summary line. */
  function ParseSummary(s: string): Option<(int, string)> {
    if |s| < 2 || s[0] != '#' || s[|s| - 1] != ']' then None
    else
      var k := SpaceFrom(s, 1);
      if k + 2 > |s| - 1 || s[k + 1] != '[' then None
      else match ParseInt(s[1..k])
        case None => None
        case Some(id) => Some((id, s[k + 2..|s| - 1]))
  }

  lemma {:induction false} SpaceFromSkips(s: string, i: nat, k: nat)
    requires i <= k < |s| && s[k] == ' '
    requires forall j :: i <= j < k ==> s[j] != ' '
    ensures SpaceFrom(s, i) == k
    decreases k - i
  {
    if i < k {
      SpaceFromSkips(s, i + 1, k);
    }
  }

  /** The summary line determines the building's id and kind. */
  lemma SummaryRoundTrip(b: Building)
    ensures ParseSummary(Summary(b)) == Some((b.id, b.kind))
  {
    var t := IntToString(b.id);
    var s := Summary(b);
    assert s == "#" + t + " [" + b.kind + "]";
    IntToStringRoundTrip(b.id);
    IntToStringHasNoSpace(b.id);
    assert s[1 + |t|] == ' ';
    SpaceFromSkips(s, 1, 1 + |t|);
    assert |s| == |t| + |b.kind| + 4;
    assert s[1..1 + |t|] == t;
    assert s[|t| + 3..|s| - 1] == b.kind;
  }
}

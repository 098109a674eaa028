/** Field-name to column-index maps of the power-flow case format
    (gym_smartgrid/constants.py).

    Each map is built in Python as `dict(zip(headers, range(len(headers))))`:
    the pairs are inserted left to right, so a name that occurs twice keeps
    the index of its LAST occurrence. */
module CaseHeaders {

  /** No name occurs twice. */
  predicate Distinct(names: seq<string>) {
    forall i, j :: 0 <= i < j < |names| ==> names[i] != names[j]
  }

  /** The positions 0 .. n-1 of a sequence of length n. */
  function Positions(n: nat): (s: set<nat>)
    ensures forall i :: i in s <==> 0 <= i < n
  {
    if n == 0 then {} else Positions(n - 1) + {n - 1}
  }

  /** `dict(zip(names, range(len(names))))`: the prefix map extended with the
      last name, which overwrites an earlier entry under the same name.
      The contract is the meaning of that fold: the keys are exactly the
      names, and each name is sent to the position of its last occurrence. */
  function HeaderMap(names: seq<string>): (m: map<string, nat>)
    ensures forall k :: k in m <==> k in names
    ensures forall k :: k in m ==> m[k] < |names| && names[m[k]] == k
    ensures forall i :: 0 <= i < |names| ==> names[i] in m && i <= m[names[i]]
    decreases |names|
  {
    if |names| == 0 then map[]
    else
      var n := |names| - 1;
      assert names == names[..n] + [names[n]];
      HeaderMap(names[..n])[names[n] := n]
  }

  /** For distinct names the map sends every name to its own position. */
  lemma HeaderMapDistinctIndex(names: seq<string>)
    requires Distinct(names)
    ensures forall i :: 0 <= i < |names| ==> HeaderMap(names)[names[i]] == i
  {
    var m := HeaderMap(names);
    forall i | 0 <= i < |names|
      ensures m[names[i]] == i
    {
      var j := m[names[i]];
      assert names[j] == names[i];
    }
  }

  /** For distinct names the map has one key per name. */
  lemma {:induction false} HeaderMapDistinctSize(names: seq<string>)
    requires Distinct(names)
    ensures |HeaderMap(names)| == |names|
  {
    if |names| > 0 {
      var n := |names| - 1;
      var prefix := names[..n];
      assert Distinct(prefix);
      HeaderMapDistinctSize(prefix);
      var pm := HeaderMap(prefix);
      assert names[n] !in pm;
      assert HeaderMap(names) == pm[names[n] := n];
    }
  }

  /** For distinct names the values of the map are exactly the positions
      0 .. |names|-1. */
  lemma HeaderMapDistinctValues(names: seq<string>)
    requires Distinct(names)
    ensures HeaderMap(names).Values == Positions(|names|)
  {
    var m := HeaderMap(names);
    HeaderMapDistinctIndex(names);
    forall v | v in Positions(|names|)
      ensures v in m.Values
    {
      assert m[names[v]] == v;
    }
  }

  /** The map is injective for any names, repeated or not: no two keys
      share a column, since each key's column holds that key. */
  lemma HeaderMapInjective(names: seq<string>)
    ensures forall a, b :: a in HeaderMap(names) && b in HeaderMap(names) && a != b ==>
              HeaderMap(names)[a] != HeaderMap(names)[b]
  {
  }

  /** A repeated name keeps its last position, as `dict(zip(...))` does. */
  lemma HeaderMapLaterDuplicateWins(names: seq<string>, i: nat, j: nat)
    requires i < j < |names| && names[i] == names[j]
    requires forall k :: j < k < |names| ==> names[k] != names[j]
    ensures HeaderMap(names)[names[i]] == j
  {
  }

  // The three record layouts and the operating-range keys.

  const HeadersBus: seq<string> := ["BUS_I", "BUS_TYPE", "GS", "BS", "VMAX", "VMIN"]

  const HeadersDev: seq<string> :=
    ["BUS_I", "DEV_TYPE", "Q/P", "QMAX", "QMIN",
     "DEV_STATUS", "PMAX", "PMIN", "PC1", "PC2", "QC1MIN",
     "QC1MAX", "QC2MIN", "QC2MAX", "SOC_MAX", "EFF"]

  const HeadersBranch: seq<string> :=
    ["F_BUS", "T_BUS", "BR_R", "BR_X", "BR_B", "RATE_A",
     "TAP", "SHIFT", "BR_STATUS", "ANGMIN", "ANGMAX"]

  const GridSpecs: seq<string> :=
    ["PMIN_BUS", "PMAX_BUS", "QMIN_BUS", "QMAX_BUS", "VMIN_BUS",
     "VMAX_BUS", "PMIN_DEV", "PMAX_DEV", "QMIN_DEV", "QMAX_DEV",
     "DEV_TYPE", "IMAX_BR", "SOC_MIN", "SOC_MAX"]

  const BusH: map<string, nat> := HeaderMap(HeadersBus)
  const DevH: map<string, nat> := HeaderMap(HeadersDev)
  const BranchH: map<string, nat> := HeaderMap(HeadersBranch)

  /** Everything the case-format code relies on about one layout. */
  predicate WellIndexed(names: seq<string>, m: map<string, nat>) {
    && |m| == |names|
    && (forall k :: k in m ==> k in names)
    && m.Values == Positions(|names|)
    && (forall i :: 0 <= i < |names| ==> names[i] in m && m[names[i]] == i)
  }

  lemma DistinctWellIndexed(names: seq<string>)
    requires Distinct(names)
    ensures WellIndexed(names, HeaderMap(names))
  {
    HeaderMapDistinctIndex(names);
    HeaderMapDistinctSize(names);
    HeaderMapDistinctValues(names);
  }

  lemma BusHeadersDistinct()
    ensures Distinct(HeadersBus)
  {
  }

  lemma DevHeadersDistinct()
    ensures Distinct(HeadersDev)
  {
  }

  lemma BranchHeadersDistinct()
    ensures Distinct(HeadersBranch)
  {
  }

  lemma BusLayout()
    ensures Distinct(HeadersBus)
    ensures |HeadersBus| == 6
    ensures WellIndexed(HeadersBus, BusH)
  {
    BusHeadersDistinct();
    DistinctWellIndexed(HeadersBus);
  }

  lemma DevLayout()
    ensures Distinct(HeadersDev)
    ensures |HeadersDev| == 16
    ensures WellIndexed(HeadersDev, DevH)
  {
    DevHeadersDistinct();
    DistinctWellIndexed(HeadersDev);
  }

  lemma BranchLayout()
    ensures Distinct(HeadersBranch)
    ensures |HeadersBranch| == 11
    ensures WellIndexed(HeadersBranch, BranchH)
  {
    BranchHeadersDistinct();
    DistinctWellIndexed(HeadersBranch);
  }

  /** The host-bus column of a device record lines up with the bus-id
      column of a bus record. */
  lemma BusIdIsFirstColumn()
    ensures "BUS_I" in BusH && BusH["BUS_I"] == 0
    ensures "BUS_I" in DevH && DevH["BUS_I"] == 0
  {
    BusLayout();
    DevLayout();
    assert HeadersBus[0] == "BUS_I";
    assert HeadersDev[0] == "BUS_I";
  }

  lemma GridSpecsShape()
    ensures |GridSpecs| == 14
    ensures Distinct(GridSpecs)
  {
  }
}

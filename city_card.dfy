/** The city card's region badge and cost icons. */
module CityCard {
  import opened Wrappers
  import opened Text

  /** `region.replace(/_/g, " ")`. */
  function Spaced(s: string): (r: string)
    ensures |r| == |s|
    ensures forall i :: 0 <= i < |s| ==> r[i] == if s[i] == '_' then ' ' else s[i]
  {
    seq(|s|, i requires 0 <= i < |s| => if s[i] == '_' then ' ' else s[i])
  }

  /**
   * The region badge: underscores become spaces and the first character is upper-cased; a
   * missing or empty region reads "Unknown".
   */
  function RegionLabel(region: Option<string>): string
  {
    var spaced := if region.Some? then Spaced(region.value) else "";
    if spaced != "" then [UpperChar(spaced[0])] + spaced[1..] else "Unknown"
  }

  /**
   * A present, non-empty region gives a label of the same length, without underscores, whose
   * first character is the region's first upper-cased and whose other characters are the
   * region's with underscores spaced out; otherwise the label is "Unknown".
   */
  lemma RegionLabelShape(region: Option<string>)
    ensures region.None? || region.value == "" ==> RegionLabel(region) == "Unknown"
    ensures region.Some? && region.value != "" ==>
              var s, r := region.value, RegionLabel(region);
              |r| == |s| && '_' !in r &&
              r[0] == UpperChar(if s[0] == '_' then ' ' else s[0]) &&
              forall i :: 1 <= i < |s| ==> r[i] == if s[i] == '_' then ' ' else s[i]
  {
    if region.Some? && region.value != "" {
      var s, r := region.value, RegionLabel(region);
      assert r == [UpperChar(Spaced(s)[0])] + Spaced(s)[1..];
      forall i | 0 <= i < |r| ensures r[i] != '_' {
        if i > 0 { assert r[i] == Spaced(s)[i]; }
      }
    }
  }

  /**
   * The number of cost icons, `Array.from({ length: cost_index || 3 })`: the cost index, or 3 when
   * it is missing or 0; a negative length makes no icons.
   */
  function CostIconCount(costIndex: Option<int>): (n: nat)
    ensures costIndex.None? || costIndex.value == 0 ==> n == 3
    ensures costIndex.Some? && costIndex.value > 0 ==> n == costIndex.value
    ensures costIndex.Some? && costIndex.value < 0 ==> n == 0
  {
    var length := if costIndex.None? || costIndex.value == 0 then 3 else costIndex.value;
    if length < 0 then 0 else length
  }
}

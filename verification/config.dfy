/** The compiled-in region table: region code and human-readable display name,
    in the table's iteration order. */
module Config {

  const Regions: seq<(string, string)> := [
    ("ap-northeast-1", "東京"),
    ("us-east-1", "米国東部(バージニア北部)"),
    ("us-east-2", "米国東部(オハイオ)"),
    ("us-west-1", "米国西部(北カリフォルニア)"),
    ("us-west-2", "米国西部(オレゴン)")
  ]

  /** The region codes, in the order a scheduled run visits them: one per table
      entry, and no region twice. */
  function RegionCodes(): (codes: seq<string>)
    ensures |codes| == |Regions|
    ensures forall i :: 0 <= i < |codes| ==> codes[i] == Regions[i].0
    ensures forall i, j :: 0 <= i < j < |codes| ==> codes[i] != codes[j]
  {
    var codes := seq(|Regions|, i requires 0 <= i < |Regions| => Regions[i].0);
    assert codes[0][0] == 'a' && codes[1][0] == 'u';
    assert codes[1][3] == 'e' && codes[2][3] == 'e' && codes[3][3] == 'w' && codes[4][3] == 'w';
    assert codes[1][8] == '1' && codes[2][8] == '2';
    assert codes[3][8] == '1' && codes[4][8] == '2';
    codes
  }

  /** The display name looked up in `table`; a region missing from the table is
      rendered as the text of an absent value, "None". */
  function Lookup(table: seq<(string, string)>, region: string): (name: string)
    ensures (forall i :: 0 <= i < |table| ==> table[i].0 != region) ==> name == "None"
    ensures name == "None" || exists i :: 0 <= i < |table| && table[i] == (region, name)
  {
    if table == [] then "None"
    else if table[0].0 == region then table[0].1
    else Lookup(table[1..], region)
  }

  /** The name a notification uses for `region`. */
  function DisplayName(region: string): string
  {
    Lookup(Regions, region)
  }

  /** Each configured region is announced under its own display name. */
  lemma DisplayNameOfConfigured(i: nat)
    requires i < |Regions|
    ensures DisplayName(Regions[i].0) == Regions[i].1
  {
    LookupFirst(Regions, i);
  }

  lemma {:induction false} LookupFirst(table: seq<(string, string)>, i: nat)
    requires i < |table|
    requires forall j :: 0 <= j < i ==> table[j].0 != table[i].0
    ensures Lookup(table, table[i].0) == table[i].1
  {
    if i > 0 {
      LookupFirst(table[1..], i - 1);
    }
  }
}

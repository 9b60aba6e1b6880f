/**
 * The compiled-in region catalog and the naming convention that turns a
 * region name into the names of the shell's per-region constants:
 * `region.replace('-', '_').upper()` followed by `_FLAVOR_ID`,
 * `_NETWORK_ID` or `_IMAGE_ID`.
 */
module Regions {
  import opened Cloud

  /** The regions, in the order every target tries them. */
  const REGIONS: seq<string> := ["nz-hlz-1", "nz-por-1", "nz_wlg_2"]

  /** The class constants of the shell, by attribute name. */
  const SHELL_CONSTANTS: map<string, string> := map[
    "NZ_POR_1_NETWORK_ID" := "715662b0-dc96-4bbd-9c7f-1a3332a86b27",
    "NZ_WLG_2_NETWORK_ID" := "77b5a8f2-59d3-4291-9ad0-a0a9d17bcb66",
    "NZ_HLZ_1_NETWORK_ID" := "2bef9c59-934f-45f1-904d-6ba9afb65a27",
    "NZ_POR_1_FLAVOR_ID" := "28153197-6690-4485-9dbc-fc24489b0683",
    "NZ_WLG_2_FLAVOR_ID" := "6371ec4a-47d1-4159-a42f-83b84b80eea7",
    "NZ_HLZ_1_FLAVOR_ID" := "99fb31cc-fdad-4636-b12b-b1e23e84fb25",
    "NZ_POR_1_IMAGE_ID" := "5017b18e-e7f6-47b0-b1a2-c60ddf9d0033",
    "NZ_WLG_2_IMAGE_ID" := "d105d837-67b7-4db6-8aeb-41d92ecb31e1",
    "NZ_HLZ_1_IMAGE_ID" := "4bc88816-d240-47d7-ae7d-f7325bca396e"
  ]

  ghost function RegionSet(): set<string> {
    set r | r in REGIONS
  }

  predicate IsLower(c: char) {
    'a' <= c <= 'z'
  }

  /** `str.upper()` on one character; only ASCII letters are modelled. */
  function UpperChar(c: char): (u: char)
    ensures !IsLower(u)
    ensures IsLower(c) ==> u as int == c as int - 32
    ensures !IsLower(c) ==> u == c
  {
    if IsLower(c) then (c as int - 32) as char else c
  }

  /** `s.replace('-', '_')` */
  function ReplaceDashes(s: string): string {
    seq(|s|, i requires 0 <= i < |s| => if s[i] == '-' then '_' else s[i])
  }

  /** `s.upper()` */
  function Upper(s: string): string {
    seq(|s|, i requires 0 <= i < |s| => UpperChar(s[i]))
  }

  /** `region.replace('-', '_').upper()` */
  function CapitalRegion(region: string): string {
    Upper(ReplaceDashes(region))
  }

  /** `getattr(shell, name)`; `None` stands for the AttributeError it raises. */
  function GetAttr(name: string): Option<string> {
    if name in SHELL_CONSTANTS then Some(SHELL_CONSTANTS[name]) else None
  }

  /** The three lookups a region attempt makes; `None` if any of them raises. */
  function RegionResources(region: string): Option<Resources> {
    var prefix := CapitalRegion(region);
    match (GetAttr(prefix + "_FLAVOR_ID"), GetAttr(prefix + "_NETWORK_ID"), GetAttr(prefix + "_IMAGE_ID"))
    case (Some(f), Some(n), Some(i)) => Some(Resources(f, n, i))
    case _ => None
  }

  /**
   * The derived prefix has one character per character of the region name,
   * and keeps no dash and no lower-case letter, whatever the region's spelling.
   */
  lemma CapitalRegionCanonical(region: string)
    ensures |CapitalRegion(region)| == |region|
    ensures forall i :: 0 <= i < |region| ==>
      CapitalRegion(region)[i] == (if region[i] == '-' then '_' else UpperChar(region[i]))
    ensures '-' !in CapitalRegion(region)
    ensures forall i :: 0 <= i < |region| ==> !IsLower(CapitalRegion(region)[i])
  {
    var c := CapitalRegion(region);
    forall i | 0 <= i < |c| ensures c[i] != '-' {
      assert region[i] == '-' ==> c[i] == '_';
    }
  }

  /**
   * The table lookups of `capital + suffix` for each capitalised region
   * name; the attribute names of one suffix differ at their fourth
   * character, which is what separates them in the table.
   */
  lemma HamiltonConstants()
    ensures GetAttr("NZ_HLZ_1" + "_FLAVOR_ID") == Some("99fb31cc-fdad-4636-b12b-b1e23e84fb25")
    ensures GetAttr("NZ_HLZ_1" + "_NETWORK_ID") == Some("2bef9c59-934f-45f1-904d-6ba9afb65a27")
    ensures GetAttr("NZ_HLZ_1" + "_IMAGE_ID") == Some("4bc88816-d240-47d7-ae7d-f7325bca396e")
  {
    assert "NZ_HLZ_1" + "_FLAVOR_ID" == "NZ_HLZ_1_FLAVOR_ID";
    assert "NZ_HLZ_1_FLAVOR_ID"[3] != "NZ_POR_1_FLAVOR_ID"[3];
    assert "NZ_HLZ_1_FLAVOR_ID"[3] != "NZ_WLG_2_FLAVOR_ID"[3];
    assert "NZ_HLZ_1" + "_NETWORK_ID" == "NZ_HLZ_1_NETWORK_ID";
    assert "NZ_HLZ_1_NETWORK_ID"[3] != "NZ_POR_1_NETWORK_ID"[3];
    assert "NZ_HLZ_1_NETWORK_ID"[3] != "NZ_WLG_2_NETWORK_ID"[3];
    assert "NZ_HLZ_1" + "_IMAGE_ID" == "NZ_HLZ_1_IMAGE_ID";
    assert "NZ_HLZ_1_IMAGE_ID"[3] != "NZ_POR_1_IMAGE_ID"[3];
    assert "NZ_HLZ_1_IMAGE_ID"[3] != "NZ_WLG_2_IMAGE_ID"[3];
  }

  lemma PoriruaConstants()
    ensures GetAttr("NZ_POR_1" + "_FLAVOR_ID") == Some("28153197-6690-4485-9dbc-fc24489b0683")
    ensures GetAttr("NZ_POR_1" + "_NETWORK_ID") == Some("715662b0-dc96-4bbd-9c7f-1a3332a86b27")
    ensures GetAttr("NZ_POR_1" + "_IMAGE_ID") == Some("5017b18e-e7f6-47b0-b1a2-c60ddf9d0033")
  {
    assert "NZ_POR_1" + "_FLAVOR_ID" == "NZ_POR_1_FLAVOR_ID";
    assert "NZ_HLZ_1_FLAVOR_ID"[3] != "NZ_POR_1_FLAVOR_ID"[3];
    assert "NZ_POR_1_FLAVOR_ID"[3] != "NZ_WLG_2_FLAVOR_ID"[3];
    assert "NZ_POR_1" + "_NETWORK_ID" == "NZ_POR_1_NETWORK_ID";
    assert "NZ_HLZ_1_NETWORK_ID"[3] != "NZ_POR_1_NETWORK_ID"[3];
    assert "NZ_POR_1_NETWORK_ID"[3] != "NZ_WLG_2_NETWORK_ID"[3];
    assert "NZ_POR_1" + "_IMAGE_ID" == "NZ_POR_1_IMAGE_ID";
    assert "NZ_HLZ_1_IMAGE_ID"[3] != "NZ_POR_1_IMAGE_ID"[3];
    assert "NZ_POR_1_IMAGE_ID"[3] != "NZ_WLG_2_IMAGE_ID"[3];
  }

  lemma WellingtonConstants()
    ensures GetAttr("NZ_WLG_2" + "_FLAVOR_ID") == Some("6371ec4a-47d1-4159-a42f-83b84b80eea7")
    ensures GetAttr("NZ_WLG_2" + "_NETWORK_ID") == Some("77b5a8f2-59d3-4291-9ad0-a0a9d17bcb66")
    ensures GetAttr("NZ_WLG_2" + "_IMAGE_ID") == Some("d105d837-67b7-4db6-8aeb-41d92ecb31e1")
  {
    assert "NZ_WLG_2" + "_FLAVOR_ID" == "NZ_WLG_2_FLAVOR_ID";
    assert "NZ_HLZ_1_FLAVOR_ID"[3] != "NZ_WLG_2_FLAVOR_ID"[3];
    assert "NZ_POR_1_FLAVOR_ID"[3] != "NZ_WLG_2_FLAVOR_ID"[3];
    assert "NZ_WLG_2" + "_NETWORK_ID" == "NZ_WLG_2_NETWORK_ID";
    assert "NZ_HLZ_1_NETWORK_ID"[3] != "NZ_WLG_2_NETWORK_ID"[3];
    assert "NZ_POR_1_NETWORK_ID"[3] != "NZ_WLG_2_NETWORK_ID"[3];
    assert "NZ_WLG_2" + "_IMAGE_ID" == "NZ_WLG_2_IMAGE_ID";
    assert "NZ_HLZ_1_IMAGE_ID"[3] != "NZ_WLG_2_IMAGE_ID"[3];
    assert "NZ_POR_1_IMAGE_ID"[3] != "NZ_WLG_2_IMAGE_ID"[3];
  }

  lemma HamiltonPrefix()
    ensures CapitalRegion("nz-hlz-1") == "NZ_HLZ_1"
  {
  }

  lemma HamiltonResolves()
    ensures RegionResources("nz-hlz-1") == Some(Resources(
      "99fb31cc-fdad-4636-b12b-b1e23e84fb25", "2bef9c59-934f-45f1-904d-6ba9afb65a27", "4bc88816-d240-47d7-ae7d-f7325bca396e"))
  {
    HamiltonPrefix();
    HamiltonConstants();
  }

  lemma PoriruaPrefix()
    ensures CapitalRegion("nz-por-1") == "NZ_POR_1"
  {
  }

  lemma PoriruaResolves()
    ensures RegionResources("nz-por-1") == Some(Resources(
      "28153197-6690-4485-9dbc-fc24489b0683", "715662b0-dc96-4bbd-9c7f-1a3332a86b27", "5017b18e-e7f6-47b0-b1a2-c60ddf9d0033"))
  {
    PoriruaPrefix();
    PoriruaConstants();
  }

  lemma WellingtonPrefix()
    ensures CapitalRegion("nz_wlg_2") == "NZ_WLG_2"
  {
  }

  lemma WellingtonResolves()
    ensures RegionResources("nz_wlg_2") == Some(Resources(
      "6371ec4a-47d1-4159-a42f-83b84b80eea7", "77b5a8f2-59d3-4291-9ad0-a0a9d17bcb66", "d105d837-67b7-4db6-8aeb-41d92ecb31e1"))
  {
    WellingtonPrefix();
    WellingtonConstants();
  }

  /** Every catalog region names the three constants that are defined for it. */
  lemma RegionConstantsDefined(region: string)
    requires region in REGIONS
    ensures RegionResources(region).Some?
    ensures region == "nz-hlz-1" ==> RegionResources(region).value == Resources(
      "99fb31cc-fdad-4636-b12b-b1e23e84fb25", "2bef9c59-934f-45f1-904d-6ba9afb65a27", "4bc88816-d240-47d7-ae7d-f7325bca396e")
    ensures region == "nz-por-1" ==> RegionResources(region).value == Resources(
      "28153197-6690-4485-9dbc-fc24489b0683", "715662b0-dc96-4bbd-9c7f-1a3332a86b27", "5017b18e-e7f6-47b0-b1a2-c60ddf9d0033")
    ensures region == "nz_wlg_2" ==> RegionResources(region).value == Resources(
      "6371ec4a-47d1-4159-a42f-83b84b80eea7", "77b5a8f2-59d3-4291-9ad0-a0a9d17bcb66", "d105d837-67b7-4db6-8aeb-41d92ecb31e1")
  {
    assert region == REGIONS[0] || region == REGIONS[1] || region == REGIONS[2];
    if region == REGIONS[0] {
      HamiltonResolves();
    } else if region == REGIONS[1] {
      PoriruaResolves();
    } else {
      WellingtonResolves();
    }
  }

  /**
   * The three `getattr` calls of a region attempt; for a catalog region
   * none of them raises.
   */
  method ResolveResources(region: string) returns (r: Resources)
    requires region in REGIONS
    ensures RegionResources(region) == Some(r)
  {
    RegionConstantsDefined(region);
    var prefix := CapitalRegion(region);
    r := Resources(GetAttr(prefix + "_FLAVOR_ID").value, GetAttr(prefix + "_NETWORK_ID").value,
                   GetAttr(prefix + "_IMAGE_ID").value);
  }
}

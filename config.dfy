/**
 * The control's configuration as `updateView` reads it: the column of each
 * alias, and the flags and keys from the raw manifest parameters (a
 * missing parameter or raw value is `None`).
 */
module Config {
  import opened Host

  /** The index of the first column carrying `alias`, if any. */
  function FirstWithAlias(columns: seq<Column>, alias: string): (r: Option<nat>)
    ensures r.Some? ==> (r.value < |columns| && columns[r.value].alias == alias
                         && forall j :: 0 <= j < r.value ==> columns[j].alias != alias)
    ensures r.None? ==> forall j :: 0 <= j < |columns| ==> columns[j].alias != alias
  {
    if columns == [] then None
    else if columns[0].alias == alias then Some(0)
    else
      var rest := FirstWithAlias(columns[1..], alias);
      if rest.None? then None else Some(rest.value + 1)
  }

  /** `getColumnName`: the name of the first column with the alias, else "". */
  function GetColumnName(columns: seq<Column>, alias: string): (r: string)
    ensures (forall j :: 0 <= j < |columns| ==> columns[j].alias != alias) ==> r == ""
    ensures (exists k :: 0 <= k < |columns| && columns[k].alias == alias) ==>
      exists k :: 0 <= k < |columns| && columns[k].alias == alias && r == columns[k].name
                  && forall j :: 0 <= j < k ==> columns[j].alias != alias
  {
    var k := FirstWithAlias(columns, alias);
    if k.None? then "" else columns[k.value].name
  }

  /** What `updateView` derives from the raw parameters. */
  datatype Settings = Settings(
    azureMapsKey: string,
    polygonField: string,
    showCountriesWithoutRevenue: bool,
    showCard: bool,
    showVisual: bool)

  /** `raw || d` for a raw text parameter. */
  function RawOr(raw: Option<string>, d: string): (r: string)
    ensures raw.Some? && raw.value != "" ==> r == raw.value
    ensures raw.None? || raw.value == "" ==> r == d
  {
    if raw.Some? && raw.value != "" then raw.value else d
  }

  /**
   * The settings: countries without revenue only on the exact text "true";
   * the card and the visual on when the raw value is missing, empty or
   * "true"; the key and polygon column "" when missing.
   */
  function SettingsOf(azureMapsKey: Option<string>, polygonField: Option<string>, showCountriesWithoutRevenue: Option<string>,
                      showCard: Option<string>, showVisual: Option<string>): (s: Settings)
    ensures s.showCountriesWithoutRevenue <==> showCountriesWithoutRevenue == Some("true")
    ensures s.showCard <==> showCard.None? || showCard.value == "" || showCard.value == "true"
    ensures s.showVisual <==> showVisual.None? || showVisual.value == "" || showVisual.value == "true"
    ensures azureMapsKey.None? ==> s.azureMapsKey == ""
    ensures polygonField.None? ==> s.polygonField == ""
    ensures azureMapsKey.Some? ==> s.azureMapsKey == azureMapsKey.value
    ensures polygonField.Some? ==> s.polygonField == polygonField.value
  {
    Settings(RawOr(azureMapsKey, ""), RawOr(polygonField, ""),
             showCountriesWithoutRevenue == Some("true"),
             RawOr(showCard, "true") == "true",
             RawOr(showVisual, "true") == "true")
  }

  // ---------------------------------------------------------------------
  // Properties
  // ---------------------------------------------------------------------

  /** The column name found is that of the first column with the alias; without one it is "". */
  lemma ColumnNameFirst(columns: seq<Column>, alias: string)
    ensures (forall j :: 0 <= j < |columns| ==> columns[j].alias != alias) ==> GetColumnName(columns, alias) == ""
    ensures forall k :: (0 <= k < |columns| && columns[k].alias == alias
                         && forall j :: 0 <= j < k ==> columns[j].alias != alias)
                        ==> GetColumnName(columns, alias) == columns[k].name
  {
    var r := FirstWithAlias(columns, alias);
    forall k | 0 <= k < |columns| && columns[k].alias == alias && (forall j :: 0 <= j < k ==> columns[j].alias != alias)
      ensures GetColumnName(columns, alias) == columns[k].name
    {
      assert r.Some?;
    }
  }
}

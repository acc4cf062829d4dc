/**
 * The page script for adding an organization
 * (assets/ts/entrypoints/add-organization.ts): the parent of each area or
 * municipality in the recruitment-area tree, and the guard of the save
 * button. The DOM is replaced by the values the script reads from it, and the
 * tree-building calls (`addCountry`, `addArea`, `addMunicipality`) by the list
 * of calls made, in order.
 */
module AddOrganization {
  import opened Wrappers
  import opened Strings

  /** `GEO_TYPES`. */
  datatype GeoType = CountryType | AreaType | MunicipalityType

  /** A `GeoData` entry; `path` and `area` may be undefined. */
  datatype GeoData = GeoData(id: string, name: string, geoType: GeoType, path: Option<string>, area: Option<string>)

  /** One property of the `geodata` object, in the order `for ... in` visits them. */
  datatype GeoEntry = GeoEntry(key: string, data: GeoData)

  /**
   * `getParentID`: the second-to-last segment of the dot-separated path, or
   * the fallback when the path is the id itself or has a single segment.
   */
  function GetParentId(id: string, path: string, fallbackId: string): (parentId: string)
    ensures path == id ==> parentId == fallbackId
    ensures path != id && '.' !in path ==> parentId == fallbackId
    ensures path != id && '.' in path ==>
      var segments := Split(path, '.');
      parentId == segments[|segments| - 2]
    ensures parentId == fallbackId || parentId in Split(path, '.')
    ensures parentId != fallbackId ==> '.' !in parentId
  {
    if path == id then fallbackId
    else
      var pathList := Split(path, '.');
      if |pathList| < 2 then fallbackId else pathList[|pathList| - 2]
  }

  /** For a path built from segments, the parent is the segment before the last. */
  lemma ParentOfJoinedPath(segments: seq<string>, id: string, fallbackId: string)
    requires |segments| >= 2
    requires forall i :: 0 <= i < |segments| ==> '.' !in segments[i]
    requires Join(segments, '.') != id
    ensures GetParentId(id, Join(segments, '.'), fallbackId) == segments[|segments| - 2]
  {
    SplitJoin(segments, '.');
  }

  /** Entries the loop adds to the tree: areas with a path and municipalities with an area. */
  predicate Eligible(data: GeoData) {
    || (data.geoType == AreaType && data.path.Some?)
    || (data.geoType == MunicipalityType && data.area.Some?)
  }

  /** One call to the tree-building functions, with the parent the script computed. */
  datatype Addition =
    | AddedCountry(id: string, name: string)
    | AddedArea(id: string, name: string, parentId: string)
    | AddedMunicipality(id: string, name: string, parentId: string)

  /** The call the loop makes for an eligible entry. */
  function AdditionFor(data: GeoData, countryId: string): (a: Addition)
    requires Eligible(data)
    ensures a.id == data.id && a.name == data.name && !a.AddedCountry?
    ensures data.geoType == AreaType ==> a == AddedArea(data.id, data.name, GetParentId(data.id, data.path.value, countryId))
    ensures data.geoType == MunicipalityType ==> a.AddedMunicipality?
    ensures a.AddedMunicipality? ==> (a.parentId == data.area.value || (data.area.value == "" && a.parentId == countryId))
    ensures a.AddedMunicipality? && a.parentId == "" ==> countryId == ""
  {
    if data.geoType == AreaType then
      AddedArea(data.id, data.name, GetParentId(data.id, data.path.value, countryId))
    else
      AddedMunicipality(data.id, data.name, if data.area.value == "" then countryId else data.area.value)
  }

  /** The calls the loop makes for the entries, in order. */
  function EntryAdditions(entries: seq<GeoEntry>, countryId: string): seq<Addition> {
    if entries == [] then []
    else
      var last := entries[|entries| - 1].data;
      EntryAdditions(entries[..|entries| - 1], countryId)
        + (if Eligible(last) then [AdditionFor(last, countryId)] else [])
  }

  /** Exactly the eligible entries are added. */
  lemma {:induction false} EntryAdditionsExactlyEligible(entries: seq<GeoEntry>, countryId: string)
    ensures forall a :: a in EntryAdditions(entries, countryId) <==>
      exists e :: e in entries && Eligible(e.data) && a == AdditionFor(e.data, countryId)
  {
    if entries != [] {
      var init := entries[..|entries| - 1];
      var last := entries[|entries| - 1];
      EntryAdditionsExactlyEligible(init, countryId);
      assert entries == init + [last];
      assert forall e :: e in entries <==> e in init || e == last;
    }
  }

  function CountEligible(entries: seq<GeoEntry>): nat {
    if entries == [] then 0
    else CountEligible(entries[..|entries| - 1]) + (if Eligible(entries[|entries| - 1].data) then 1 else 0)
  }

  /** One call per eligible entry, and none for the others. */
  lemma {:induction false} EntryAdditionsCount(entries: seq<GeoEntry>, countryId: string)
    ensures |EntryAdditions(entries, countryId)| == CountEligible(entries)
  {
    if entries != [] {
      EntryAdditionsCount(entries[..|entries| - 1], countryId);
    }
  }

  /** The first entry with the key, as `geodata[key]` reads it. */
  function LookupKey(geodata: seq<GeoEntry>, key: string): (r: Option<GeoData>)
    ensures r.None? <==> forall e :: e in geodata ==> e.key != key
    ensures r.Some? ==> exists e :: e in geodata && e.key == key && e.data == r.value
  {
    if geodata == [] then None
    else if geodata[0].key == key then Some(geodata[0].data)
    else LookupKey(geodata[1..], key)
  }

  /**
   * The page-load handler: the country first, then the loop over `geodata`,
   * then the search and save handlers are installed. When `countryID` is not
   * a key, reading its name throws before anything is added or installed.
   */
  method OnPageLoad(geodata: seq<GeoEntry>, countryId: string) returns (additions: seq<Addition>, handlersInstalled: bool)
    ensures handlersInstalled <==> exists e :: e in geodata && e.key == countryId
    ensures LookupKey(geodata, countryId).None? ==> additions == []
    ensures LookupKey(geodata, countryId).Some? ==>
      additions == [AddedCountry(countryId, LookupKey(geodata, countryId).value.name)] + EntryAdditions(geodata, countryId)
  {
    var country := LookupKey(geodata, countryId);
    if country.None? {
      return [], false;
    }
    var parentId := "";
    additions := [AddedCountry(countryId, country.value.name)];
    var i := 0;
    while i < |geodata|
      invariant 0 <= i <= |geodata|
      invariant additions == [AddedCountry(countryId, country.value.name)] + EntryAdditions(geodata[..i], countryId)
    {
      var data := geodata[i].data;
      assert geodata[..i + 1][..i] == geodata[..i];
      if data.geoType == AreaType && data.path.Some? {
        parentId := GetParentId(data.id, data.path.value, countryId);
        additions := additions + [AddedArea(data.id, data.name, parentId)];
      } else if data.geoType == MunicipalityType && data.area.Some? {
        parentId := data.area.value;
        if parentId == "" {
          parentId := countryId;
        }
        additions := additions + [AddedMunicipality(data.id, data.name, parentId)];
      }
      i := i + 1;
    }
    assert geodata[..i] == geodata;
    handlersInstalled := true;
  }

  /** A form element as the script reads it: its value and, for the checkbox, `checked`. */
  datatype InputElement = InputElement(value: string, checked: bool)

  /** The arguments of `sendCreateOrganizationRequest`. */
  datatype CreateRequest = CreateRequest(
    name: string,
    description: string,
    active: bool,
    countries: seq<string>,
    areas: seq<string>,
    municipalities: seq<string>)

  /**
   * The save button's handler, installed only by a page load that found the
   * country (`OnPageLoad`'s `handlersInstalled`): nothing is sent unless each of the name,
   * description and active element lists is non-empty; otherwise the first
   * element of each and the checked selections are sent.
   */
  method OnSave(
    nameElements: seq<InputElement>,
    descriptionElements: seq<InputElement>,
    activeElements: seq<InputElement>,
    checkedCountries: seq<string>,
    checkedAreas: seq<string>,
    checkedMunicipalities: seq<string>)
    returns (request: Option<CreateRequest>)
    ensures request.None? <==> |nameElements| == 0 || |descriptionElements| == 0 || |activeElements| == 0
    ensures request.Some? ==> request.value == CreateRequest(
      nameElements[0].value, descriptionElements[0].value, activeElements[0].checked,
      checkedCountries, checkedAreas, checkedMunicipalities)
  {
    var name := "";
    var description := "";
    var active := false;
    if |nameElements| > 0 && |descriptionElements| > 0 && |activeElements| > 0 {
      name := nameElements[0].value;
      description := descriptionElements[0].value;
      active := activeElements[0].checked;
    } else {
      return None;
    }
    request := Some(CreateRequest(name, description, active, checkedCountries, checkedAreas, checkedMunicipalities));
  }
}

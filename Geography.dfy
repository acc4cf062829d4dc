/**
 * The geography administration page (app/web/handlers/admin/geography.py):
 * the countries, and the municipalities and areas of the first country, with
 * the areas ordered by depth in the area tree. The permission check, the
 * geography store and the template engine are inputs.
 */
module Geography {
  import opened Wrappers
  import opened Records
  import opened Strings
  import opened Sorting
  import opened Base

  /** The depth of an area: the number of `.` in its path. */
  function AreaDepth(a: Area): nat {
    CountChar(a.path, '.')
  }

  predicate DepthLess(x: nat, y: nat) {
    x < y
  }

  lemma DepthLessIsStrictTotalOrder()
    ensures StrictTotalOrder(DepthLess)
  {
  }

  /** `sorted(areas, key=lambda a: a.path.count('.'))`. */
  function SortAreas(areas: seq<Area>): (sorted: seq<Area>)
    ensures multiset(sorted) == multiset(areas)
    ensures forall i, j :: 0 <= i < j < |sorted| ==> AreaDepth(sorted[i]) <= AreaDepth(sorted[j])
  {
    DepthLessIsStrictTotalOrder();
    SortByKeySorted(areas, AreaDepth, DepthLess);
    SortByKey(areas, AreaDepth, DepthLess)
  }

  /** Areas of the same depth keep their original relative order. */
  lemma SortAreasStable(areas: seq<Area>, depth: nat)
    ensures WithKey(SortAreas(areas), AreaDepth, depth) == WithKey(areas, AreaDepth, depth)
  {
    DepthLessIsStrictTotalOrder();
    SortByKeyStable(areas, AreaDepth, DepthLess, depth);
  }

  const DenialMessage := "You don't have permission to edit the geography"
  const GeographyTemplate := "admin/geography.html"

  /** How the handler ends: `countries[0]` raised `IndexError`, or the page was rendered. */
  datatype Outcome = IndexError | Rendered(template: string, args: PageArgs)

  /** The 403 reply `respond` was asked for, if any, and how the handler ended. */
  datatype GeographyResponse = GeographyResponse(denial: Option<Reply>, outcome: Outcome)

  /**
   * `GeographyHandler.get`. A failed permission check responds with 403 but
   * does not return, so the page is still rendered (with `admin` false).
   */
  function Get(
    permission: bool,
    countries: seq<Country>,
    municipalitiesOf: Uuid -> seq<Municipality>,
    areasOf: Uuid -> seq<Area>)
    : (r: GeographyResponse)
    ensures r.denial.Some? <==> !permission
    ensures r.denial.Some? ==> r.denial.value == WriteEnvelope(403, Envelope(false, DenialMessage, None))
    ensures r.outcome.IndexError? <==> countries == []
    ensures r.outcome.Rendered? ==>
      && r.outcome.template == GeographyTemplate
      && r.outcome.args.GeographyArgs?
      && r.outcome.args.admin == permission
      && r.outcome.args.title == "Geography"
      && r.outcome.args.countries == countries
      && r.outcome.args.municipalities == municipalitiesOf(countries[0].id)
      && multiset(r.outcome.args.areas) == multiset(areasOf(countries[0].id))
      && (forall i, j :: 0 <= i < j < |r.outcome.args.areas| ==>
            AreaDepth(r.outcome.args.areas[i]) <= AreaDepth(r.outcome.args.areas[j]))
  {
    var denial := if !permission then Some(RespondReply(DenialMessage, 403, None, false)) else None;
    if countries == [] then GeographyResponse(denial, IndexError)
    else
      var first := countries[0].id;
      var args := GeographyArgs(permission, "Geography", countries, municipalitiesOf(first), SortAreas(areasOf(first)));
      GeographyResponse(denial, Rendered(GeographyTemplate, args))
  }

  /** A denied request gets the 403 envelope and then the rendered page as well. */
  lemma DeniedStillRenders(
    countries: seq<Country>,
    municipalitiesOf: Uuid -> seq<Municipality>,
    areasOf: Uuid -> seq<Area>)
    requires countries != []
    ensures var r := Get(false, countries, municipalitiesOf, areasOf);
      && r.denial == Some(WriteEnvelope(403, Envelope(false, DenialMessage, None)))
      && r.outcome.Rendered?
      && r.outcome.args == GeographyArgs(false, "Geography", countries,
           municipalitiesOf(countries[0].id), SortAreas(areasOf(countries[0].id)))
  {
  }

  /** The rendered areas keep, within each depth, the order the store returned them in. */
  lemma {:induction false} GetAreasStable(
    permission: bool,
    countries: seq<Country>,
    municipalitiesOf: Uuid -> seq<Municipality>,
    areasOf: Uuid -> seq<Area>,
    depth: nat)
    requires countries != []
    ensures var r := Get(permission, countries, municipalitiesOf, areasOf);
      WithKey(r.outcome.args.areas, AreaDepth, depth) == WithKey(areasOf(countries[0].id), AreaDepth, depth)
  {
    SortAreasStable(areasOf(countries[0].id), depth);
  }
}

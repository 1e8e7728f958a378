/** The static section list and the detail renderer's dispatch on a section's id.
    The display text is kept abstract: only the ids and the payload shapes matter. */
module Sections {
  import opened Options
  import opened Navigation

  type Text = string

  datatype Category = Category(name: Text, items: seq<Text>)

  datatype Department = Department(name: Text, staff: seq<Text>)

  /** The per-section payload: four shapes, one per known id. */
  datatype Details =
    | Catalog(intro: Text, categories: seq<Category>, additional: Text)
    | Staff(intro: Text, departments: seq<Department>)
    | Facility(intro: Text, address: Text, highlights: seq<Text>, description: Text)
    | BranchList(intro: Text, headquarters: Text, scranton: Text, otherBranches: seq<Text>, note: Text)

  datatype Section = Section(id: string, title: Text, desc: Text, bg: Text, thumb: Text, details: Details)

  /** The ids of the four sections, in display order. */
  const SectionIds: seq<string> := ["products", "employees", "warehouse", "branches"]

  /** The id whose layout reads this payload shape. */
  function ShapeId(d: Details): string {
    match d
    case Catalog(_, _, _) => "products"
    case Staff(_, _) => "employees"
    case Facility(_, _, _, _) => "warehouse"
    case BranchList(_, _, _, _, _) => "branches"
  }

  /** A section whose id is a known one carries the payload shape that id's layout reads. */
  predicate Shaped(s: Section) {
    s.id in SectionIds ==> ShapeId(s.details) == s.id
  }

  /** The static list: N sections, with the known ids in order and matching payloads. */
  predicate Catalogue(sections: seq<Section>) {
    |sections| == N &&
    forall i :: 0 <= i < N ==> sections[i].id == SectionIds[i] && ShapeId(sections[i].details) == SectionIds[i]
  }

  /** `renderDetailsContent`: nothing without a selection, the payload laid out by the
      selection's id when the id is known, and nothing for any other id. */
  function RenderDetails(selected: Option<Section>): (r: Option<Details>)
    requires selected.Some? ==> Shaped(selected.value)
    ensures r.Some? <==> selected.Some? && selected.value.id in SectionIds
    ensures r.Some? ==> r.value == selected.value.details && ShapeId(r.value) == selected.value.id
  {
    match selected
    case None => None
    case Some(s) =>
      match s.id
      case "products" => Some(s.details)
      case "employees" => Some(s.details)
      case "warehouse" => Some(s.details)
      case "branches" => Some(s.details)
      case _ => None
  }

  /** The ids of the static list are distinct, so each section renders its own layout. */
  lemma CatalogueIdsDistinct(sections: seq<Section>, i: int, j: int)
    requires Catalogue(sections)
    requires 0 <= i < N && 0 <= j < N && i != j
    ensures sections[i].id != sections[j].id
  {
  }

  /** Every section of the static list renders a layout of its own shape. */
  lemma CatalogueRenders(sections: seq<Section>, i: int)
    requires Catalogue(sections)
    requires 0 <= i < N
    ensures Shaped(sections[i])
    ensures RenderDetails(Some(sections[i])) == Some(sections[i].details)
  {
  }
}

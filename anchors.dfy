/**
 * The lookup-with-fallback both the home page's service cards and the
 * portfolio's "View Details" buttons use: a title mapped to a truthy
 * (non-empty) section id links to `/services#<id>`, anything else to
 * `/services`.
 */
module Anchors {
  import opened Wrappers
  import Services

  const ServicesPath: string := "/services"

  /** The route a click on the item titled `title` navigates to. */
  function Target(ids: map<string, string>, title: string): (r: string)
    ensures title in ids && ids[title] != "" ==> r == ServicesPath + "#" + ids[title]
    ensures !(title in ids && ids[title] != "") ==> r == ServicesPath
  {
    if title in ids && ids[title] != "" then ServicesPath + "#" + ids[title] else ServicesPath
  }

  /** The `#` fragment of a route on the services page, if it has one. */
  function Fragment(route: string): (f: Option<string>)
    ensures f.Some? ==> route == ServicesPath + "#" + f.value
  {
    var p := ServicesPath + "#";
    if |route| >= |p| && route[..|p|] == p then Some(route[|p|..]) else None
  }

  /** Reading the fragment back from a target gives the section id that was looked up. */
  lemma FragmentOfTarget(ids: map<string, string>, title: string)
    ensures Fragment(Target(ids, title)) == if title in ids && ids[title] != "" then Some(ids[title]) else None
  {
    var p := ServicesPath + "#";
    if title in ids && ids[title] != "" {
      assert Target(ids, title)[..|p|] == p;
      assert Target(ids, title)[|p|..] == ids[title];
    } else {
      assert |Target(ids, title)| < |p|;
    }
  }

  /** The fragment of the link for `title` names a section id of the services page. */
  predicate LandsOnSection(ids: map<string, string>, title: string)
  {
    var f := Fragment(Target(ids, title));
    f.Some? && Services.IsSectionId(f.value)
  }

  /** A mapped title lands on a section exactly when its id is one of the page's section ids. */
  lemma LandsIff(ids: map<string, string>, title: string)
    requires title in ids && ids[title] != ""
    ensures LandsOnSection(ids, title) <==> ids[title] in Services.SectionIds
  {
    FragmentOfTarget(ids, title);
    Services.SectionIdIff(ids[title]);
  }
}

/** Record types shared by the gallery and the admin panel (src/types.ts). */
module Types {

  /** An optional value; `None` stands for JavaScript's `undefined`/`null`. */
  datatype Option<T> = None | Some(value: T)

  /** A gallery item. The optional text fields are absent on generated demo items. */
  datatype Project = Project(
    id: int,
    title: string,
    category: string,
    imageUrl: string,
    height: int,
    description: Option<string>,
    client: Option<string>,
    year: Option<string>,
    timeline: Option<string>,
    services: Option<string>)

  /** `Omit<Project, 'id' | 'height'>`: what the admin form edits and the API creates. */
  datatype ProjectFields = ProjectFields(
    title: string,
    category: string,
    imageUrl: string,
    description: Option<string>,
    client: Option<string>,
    year: Option<string>,
    timeline: Option<string>,
    services: Option<string>)

  /** One editable content block of a public page. */
  datatype PageContent = PageContent(
    id: string,
    page: string,
    sectionKey: string,
    content: string,
    createdAt: string,
    updatedAt: string)

  /** One key/value site setting. */
  datatype SiteSetting = SiteSetting(
    id: string,
    key: string,
    value: string,
    createdAt: string,
    updatedAt: string)

  /** No two items of the list share an id (the keyed-render identity). */
  predicate DistinctIds(ps: seq<Project>)
  {
    forall i, j :: 0 <= i < j < |ps| ==> ps[i].id != ps[j].id
  }

  /** The ids of the list are exactly 1, 2, ..., |ps| in order. */
  predicate ContiguousIds(ps: seq<Project>)
  {
    forall i :: 0 <= i < |ps| ==> ps[i].id == i + 1
  }

  lemma ContiguousIdsAreDistinct(ps: seq<Project>)
    requires ContiguousIds(ps)
    ensures DistinctIds(ps)
    ensures forall p :: p in ps ==> 1 <= p.id <= |ps|
  {
  }

  /** `r` is `s` with some items left out and the rest kept in order. */
  ghost predicate IsSubsequence<T>(r: seq<T>, s: seq<T>)
    decreases |s|
  {
    if |r| == 0 then true
    else if |s| == 0 then false
    else (r[0] == s[0] && IsSubsequence(r[1..], s[1..])) || IsSubsequence(r, s[1..])
  }
}

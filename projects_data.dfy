/**
 * The demo gallery data (src/data/projects.ts): a generator of numbered
 * placeholder projects and the initial list of twenty. The generator's two
 * random draws per item (category and height) are inputs here.
 */
module ProjectData {
  import opened Types
  import opened Text

  /** The curated image ids; item `i` uses the id at `i` modulo their count. */
  const PexelsImageIds: seq<string> := [
    "1646953", "1279813", "1762851", "3568518", "3094799",
    "1036848", "1105666", "1579739", "3585094", "3137074",
    "2983881", "2166456", "1563256", "3705549", "3765274",
    "327509", "1482476", "3874342", "3764984", "691640",
    "1493226", "1910229", "3760529", "326503", "6444"]

  /** The five categories a generated item is drawn from. */
  const Categories: seq<string> := ["Branding", "Web Design", "Illustration", "Typography", "Packaging"]

  /** The length of `initialProjects`. */
  const InitialCount: nat := 20

  /**
   * The two random draws made for one item: `Math.floor(Math.random() * 5)`
   * picks the category and `Math.floor(Math.random() * 400)` the height offset.
   */
  datatype Draw = Draw(category: nat, heightOffset: nat)

  /** Every draw lies in the range the random expressions can produce. */
  predicate ValidDraws(draws: seq<Draw>)
  {
    forall i :: 0 <= i < |draws| ==> draws[i].category < |Categories| && draws[i].heightOffset < 400
  }

  /** `getRandomHeight`: a height between 200 and 599 pixels. */
  function RandomHeight(offset: nat): (h: int)
    requires offset < 400
    ensures 200 <= h <= 599
  {
    offset + 200
  }

  /** Every height from 200 to 599 comes from exactly one drawn offset. */
  lemma RandomHeightOnto(h: int)
    requires 200 <= h <= 599
    ensures RandomHeight(h - 200) == h
    ensures forall offset: nat :: offset < 400 && RandomHeight(offset) == h ==> offset == h - 200
  {
  }

  /** The Pexels address built for an image id. */
  function ImageUrl(imageId: string): string
  {
    "https://images.pexels.com/photos/" + imageId + "/pexels-photo-" + imageId
      + ".jpeg?auto=compress&cs=tinysrgb&w=800&h=800&dpr=1"
  }

  /** The title of the item with number `n`. */
  function Title(n: nat): string
  {
    "Project " + Decimal(n)
  }

  /** Item `i` of a generated list, made from its draw. */
  function GeneratedItem(i: nat, d: Draw): Project
    requires d.category < |Categories| && d.heightOffset < 400
  {
    Project(i + 1, Title(i + 1), Categories[d.category],
      ImageUrl(PexelsImageIds[i % |PexelsImageIds|]), RandomHeight(d.heightOffset),
      None, None, None, None, None)
  }

  /**
   * `generateProjects(count)`: `count` items numbered 1 to `count`, cycling
   * through the image ids, each with a drawn category and height and no
   * optional text.
   */
  function GenerateProjects(count: nat, draws: seq<Draw>): (ps: seq<Project>)
    requires |draws| == count && ValidDraws(draws)
    ensures |ps| == count
    ensures ContiguousIds(ps)
    ensures forall i :: 0 <= i < count ==> ps[i].title == Title(i + 1)
    ensures forall i :: 0 <= i < count ==> ps[i].imageUrl == ImageUrl(PexelsImageIds[i % |PexelsImageIds|])
    ensures forall i :: 0 <= i < count ==> ps[i].category in Categories && 200 <= ps[i].height <= 599
    ensures forall i :: 0 <= i < count ==>
      ps[i].description.None? && ps[i].client.None? && ps[i].year.None? && ps[i].timeline.None? && ps[i].services.None?
  {
    seq(count, i requires 0 <= i < count => GeneratedItem(i, draws[i]))
  }

  /** Distinct item numbers give distinct titles. */
  lemma TitleInjective(m: nat, n: nat)
    requires Title(m) == Title(n)
    ensures m == n
  {
    var prefix := "Project ";
    assert Decimal(m) == Title(m)[|prefix|..];
    assert Decimal(n) == Title(n)[|prefix|..];
    DecimalInjective(m, n);
  }

  /** No two generated items share a title (nor, by `ContiguousIds`, an id). */
  lemma GeneratedTitlesDistinct(count: nat, draws: seq<Draw>)
    requires |draws| == count && ValidDraws(draws)
    ensures forall i, j :: 0 <= i < j < count ==> GenerateProjects(count, draws)[i].title != GenerateProjects(count, draws)[j].title
  {
    var ps := GenerateProjects(count, draws);
    forall i, j | 0 <= i < j < count
      ensures ps[i].title != ps[j].title
    {
      if ps[i].title == ps[j].title {
        TitleInjective(i + 1, j + 1);
      }
    }
  }

  /** `initialProjects`: twenty generated items with ids 1 to 20. */
  function InitialProjects(draws: seq<Draw>): (ps: seq<Project>)
    requires |draws| == InitialCount && ValidDraws(draws)
    ensures |ps| == InitialCount
    ensures ContiguousIds(ps) && DistinctIds(ps)
    ensures forall p :: p in ps ==> 1 <= p.id <= InitialCount
  {
    var ps := GenerateProjects(InitialCount, draws);
    ContiguousIdsAreDistinct(ps);
    ps
  }
}

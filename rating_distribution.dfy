/**
 * src/viewmodels/rating_distribution.py: one row per rating of the
 * report's rating histogram, with its label and its row of stars.
 */
module RatingDistribution {
  import opened ViewHelpers

  const NoRatingText: string := "Без рейтинга"
  const StarBright: string := "star2"
  const StarPale: string := "star3"

  /** One record of the distribution: a rating and the share of goods that have it. */
  datatype RatingDistributionItem = RatingDistributionItem(rating: real, ratio: real)

  /** `label` returns either a text or the rating itself. */
  datatype Label = Text(text: string) | Value(rating: real)

  /** `RatingDistributionItem.label`. */
  function ItemLabel(item: RatingDistributionItem): (l: Label)
    ensures l == Text(NoRatingText) <==> item.rating == 0.0
    ensures item.rating != 0.0 ==> l == Value(item.rating)
  {
    if item.rating == 0.0 then Text(NoRatingText) else Value(item.rating)
  }

  /**
   * `RatingDistributionItem.images`: nothing for a rating that is not
   * positive, else one bright star per whole point and pale stars up to five.
   */
  function ItemImages(item: RatingDistributionItem): (r: seq<string>)
    ensures item.rating <= 0.0 ==> r == []
    ensures item.rating > 0.0 ==>
      var full := TruncToInt(item.rating);
      && |r| == (if full >= 5 then full else 5)
      && forall i :: 0 <= i < |r| ==> r[i] == (if i < full then StarBright else StarPale)
  {
    if item.rating > 0.0 then Bag(item.rating, StarPale, StarBright) else []
  }

  /** A whole rating r from 1 to 5 shows r bright stars, then 5 - r pale ones. */
  lemma WholeRatingStars(r: nat, ratio: real)
    requires 1 <= r <= 5
    ensures ItemImages(RatingDistributionItem(r as real, ratio)) == Repeat(StarBright, r) + Repeat(StarPale, 5 - r)
  {
    BagOfWholeScore(r, StarPale, StarBright);
  }

  /** `RatingDistributionList`: the items built from the distribution records. */
  class RatingDistributionList {
    var items: seq<RatingDistributionItem>

    /** One item per record, in the records' order. */
    constructor (distributions: seq<RatingDistributionItem>)
      ensures items == distributions
    {
      items := [];
      new;
      var i := 0;
      while i < |distributions|
        invariant 0 <= i <= |distributions|
        invariant items == distributions[..i]
      {
        items := items + [RatingDistributionItem(distributions[i].rating, distributions[i].ratio)];
        i := i + 1;
      }
    }
  }
}

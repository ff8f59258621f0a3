/** The driver review form, the star rows of the listed reviews, and the ranked
    list of top drivers. */
module DriverFeedbackPage {
  import opened Common
  import opened StarRating

  class DriverFeedbackForm {
    var rating: int
    var driverName: string
    var plateNumber: string
    var route: string
    var category: string
    var comment: string
    var isAnonymous: bool

    predicate Valid()
      reads this
    {
      ValidRating(rating)
    }

    constructor ()
      ensures rating == 5 && driverName == "" && plateNumber == "" && route == ""
      ensures category == "" && comment == "" && !isAnonymous
      ensures Valid()
    {
      rating := 5;
      driverName := "";
      plateNumber := "";
      route := "";
      category := "";
      comment := "";
      isAnonymous := false;
    }

    /** Every field but the rating and the checkbox is required. */
    predicate Complete()
      reads this
    {
      driverName != "" && plateNumber != "" && route != "" && category != "" && comment != ""
    }

    /** A star button. */
    method SetRating(star: int)
      requires ValidRating(star)
      modifies this
      ensures rating == star
      ensures driverName == old(driverName) && plateNumber == old(plateNumber) && route == old(route)
      ensures category == old(category) && comment == old(comment) && isAnonymous == old(isAnonymous)
      ensures Valid()
    {
      rating := star;
    }

    /** `handleSubmit`: rating back to 5 and the five text fields cleared; the
        anonymous choice is kept. */
    method Submit()
      requires Complete()
      modifies this
      ensures rating == 5 && driverName == "" && plateNumber == "" && route == ""
      ensures category == "" && comment == ""
      ensures isAnonymous == old(isAnonymous)
      ensures Valid() && !Complete()
    {
      rating := 5;
      driverName := "";
      plateNumber := "";
      route := "";
      category := "";
      comment := "";
    }
  }

  /** The five stars of a listed review: index `i` (0 to 4) is filled when `i < k`. */
  function ReviewStars(k: int): (row: seq<bool>)
    ensures |row| == 5
  {
    seq(5, i => i < k)
  }

  /** A review's stars follow the same rule as the form's buttons, so a review rated
      `k` from 1 to 5 shows exactly `k` filled stars. */
  lemma ReviewStarsMatchButtons(k: int)
    requires ValidRating(k)
    ensures ReviewStars(k) == StarButtons(k)
    ensures Count(ReviewStars(k), (b: bool) => b) == k
  {
    assert forall i :: 0 <= i < 5 ==> ReviewStars(k)[i] == StarButtons(k)[i];
    FilledStarsCountRating(k);
  }

  /** A row of `topDrivers`; the rating is kept in tenths. */
  datatype TopDriver = TopDriver(name: string, ratingTenths: nat, reviews: nat, plate: string)

  function TopDrivers(): seq<TopDriver> {
    [TopDriver("Pedro Gonzales", 49, 127, "ABC 1234"),
     TopDriver("Ramon Torres", 48, 98, "DEF 5678"),
     TopDriver("Carlos Diaz", 47, 85, "GHI 9012")]
  }

  /** The badge in front of a top driver: a trophy for the first, else the place. */
  datatype RankBadge = Trophy | Place(n: nat)

  function RankBadgeAt(index: nat): (b: RankBadge)
    ensures b == Trophy <==> index == 0
    ensures b.Place? ==> b.n == index + 1 && b.n >= 2
  {
    if index == 0 then Trophy else Place(index + 1)
  }

  /** The badges of a list are pairwise distinct. */
  lemma RankBadgesDistinct(i: nat, j: nat)
    requires i != j
    ensures RankBadgeAt(i) != RankBadgeAt(j)
  {
  }

  /** The list is in order of rating, best first, so the trophy goes to the best. */
  lemma TopDriversRanked()
    ensures forall i, j :: 0 <= i < j < |TopDrivers()| ==> TopDrivers()[i].ratingTenths >= TopDrivers()[j].ratingTenths
    ensures RankBadgeAt(0) == Trophy && TopDrivers()[0].name == "Pedro Gonzales"
  {
  }
}

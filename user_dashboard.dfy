/** The signed-in user's home page: the mock fare estimator and the quick
    feedback form. `Math.random()` is the `draw` parameter, a real in [0, 1). */
module UserDashboard {
  import opened Common
  import opened StarRating

  /** The mock trip length: `Math.floor(draw * 10) + 1`. */
  function TripDistance(draw: real): (d: int)
    requires 0.0 <= draw < 1.0
    ensures 1 <= d <= 10
    ensures (d - 1) as real <= draw * 10.0 < d as real
  {
    (draw * 10.0).Floor + 1
  }

  /** The mock fare: base fare 10 plus 2 per kilometre. */
  function MockFare(draw: real): (fare: int)
    requires 0.0 <= draw < 1.0
    ensures fare % 2 == 0 && 12 <= fare <= 30
  {
    10 + 2 * TripDistance(draw)
  }

  /** Every even fare from 12 to 30 is produced by some draw. */
  lemma EveryEvenFareReachable(fare: int)
    requires 12 <= fare <= 30 && fare % 2 == 0
    ensures exists draw: real :: 0.0 <= draw < 1.0 && MockFare(draw) == fare
  {
    var d := (fare - 10) / 2;
    var draw := (d - 1) as real / 10.0;
    assert draw * 10.0 == (d - 1) as real;
    assert TripDistance(draw) == d;
    assert MockFare(draw) == fare;
  }

  /** What pressing "Calculate Fare" leaves as the estimate: a new mock fare when both
      places are chosen, otherwise the previous estimate. The two places are never
      compared. */
  function FareEstimate(origin: string, destination: string, draw: real, previous: Option<int>): (est: Option<int>)
    requires 0.0 <= draw < 1.0
    ensures origin == "" || destination == "" ==> est == previous
    ensures origin != "" && destination != "" ==> est == Some(MockFare(draw))
  {
    if origin != "" && destination != "" then Some(MockFare(draw)) else previous
  }

  /** Choosing the same place twice is not rejected: it is priced like any trip. */
  lemma SameEndpointsArePriced(place: string, draw: real, previous: Option<int>)
    requires place != "" && 0.0 <= draw < 1.0
    ensures FareEstimate(place, place, draw, previous).Some?
    ensures 12 <= FareEstimate(place, place, draw, previous).value <= 30
  {
  }

  /** The page's state cells, the sidebar toggle left out. */
  class Dashboard {
    var origin: string
    var destination: string
    var estimatedFare: Option<int>
    var rating: int
    var feedback: string

    /** The rating is one a star button can set, and any estimate is a mock fare. */
    predicate Valid()
      reads this
    {
      ValidRating(rating) &&
      (estimatedFare.Some? ==> estimatedFare.value % 2 == 0 && 12 <= estimatedFare.value <= 30)
    }

    constructor ()
      ensures origin == "" && destination == "" && estimatedFare == None
      ensures rating == 5 && feedback == ""
      ensures Valid()
    {
      origin := "";
      destination := "";
      estimatedFare := None;
      rating := 5;
      feedback := "";
    }

    /** The origin and destination selects. */
    method SetPlaces(newOrigin: string, newDestination: string)
      modifies this
      ensures origin == newOrigin && destination == newDestination
      ensures estimatedFare == old(estimatedFare) && rating == old(rating) && feedback == old(feedback)
    {
      origin := newOrigin;
      destination := newDestination;
    }

    /** `calculateFare`, with the random draw as a parameter. */
    method CalculateFare(draw: real)
      requires 0.0 <= draw < 1.0 && Valid()
      modifies this
      ensures estimatedFare == FareEstimate(origin, destination, draw, old(estimatedFare))
      ensures origin == old(origin) && destination == old(destination)
      ensures rating == old(rating) && feedback == old(feedback)
      ensures Valid()
    {
      if origin != "" && destination != "" {
        var distance := TripDistance(draw);
        var fare := 10 + distance * 2;
        estimatedFare := Some(fare);
      }
    }

    /** A star button. */
    method SetRating(star: int)
      requires ValidRating(star) && Valid()
      modifies this
      ensures rating == star
      ensures origin == old(origin) && destination == old(destination)
      ensures estimatedFare == old(estimatedFare) && feedback == old(feedback)
      ensures Valid()
      ensures StarButtons(rating) == StarButtons(star)
    {
      rating := star;
    }

    /** Typing in the feedback box. */
    method SetFeedback(text: string)
      modifies this
      ensures feedback == text
      ensures origin == old(origin) && destination == old(destination)
      ensures estimatedFare == old(estimatedFare) && rating == old(rating)
    {
      feedback := text;
    }

    /** `handleFeedbackSubmit`: clear the text and put the rating back to 5; the fare
        estimator is untouched. */
    method SubmitFeedback()
      requires Valid()
      modifies this
      ensures feedback == "" && rating == 5
      ensures origin == old(origin) && destination == old(destination)
      ensures estimatedFare == old(estimatedFare)
      ensures Valid()
    {
      feedback := "";
      rating := 5;
    }
  }
}

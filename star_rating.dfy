/** The five-star input shared by the dashboard's quick feedback, the feedback page
    and the driver feedback page: the star buttons, which stars are filled, and
    the word shown beside them. */
module StarRating {
  import opened Common

  /** The values a star button can set, and the initial value 5. */
  predicate ValidRating(rating: int) {
    1 <= rating <= 5
  }

  /** Star `star` (1 to 5) is drawn filled when `star <= rating`. */
  predicate StarFilled(star: int, rating: int) {
    star <= rating
  }

  /** The row of five star buttons, left to right: filled or not. */
  function StarButtons(rating: int): (row: seq<bool>)
    ensures |row| == 5
    ensures forall i :: 0 <= i < 5 ==> (row[i] <==> StarFilled(i + 1, rating))
  {
    [StarFilled(1, rating), StarFilled(2, rating), StarFilled(3, rating),
     StarFilled(4, rating), StarFilled(5, rating)]
  }

  /** The filled stars come first and number exactly the rating; clicking star `k`
      therefore fills stars 1 to `k` and no other. */
  lemma FilledStarsCountRating(rating: int)
    requires ValidRating(rating)
    ensures Count(StarButtons(rating), (b: bool) => b) == rating
    ensures forall i, j :: 0 <= i < j < 5 && StarButtons(rating)[j] ==> StarButtons(rating)[i]
  {
    CountFive(StarButtons(rating), (b: bool) => b);
  }

  /** The word beside the stars. */
  function RatingLabel(rating: int): (text: string)
    ensures rating == 5 ==> text == "Excellent"
    ensures rating == 4 ==> text == "Good"
    ensures rating == 3 ==> text == "Average"
    ensures rating == 2 ==> text == "Poor"
    ensures rating !in {2, 3, 4, 5} ==> text == "Very Poor"
  {
    if rating == 5 then "Excellent"
    else if rating == 4 then "Good"
    else if rating == 3 then "Average"
    else if rating == 2 then "Poor"
    else "Very Poor"
  }

  /** On the five values a button can set, each rating has its own word. */
  lemma LabelsDistinct(a: int, b: int)
    requires ValidRating(a) && ValidRating(b) && a != b
    ensures RatingLabel(a) != RatingLabel(b)
  {
    var words := ["Very Poor", "Poor", "Average", "Good", "Excellent"];
    assert RatingLabel(a) == words[a - 1] && RatingLabel(b) == words[b - 1];
    assert |words[0]| == 9 && |words[1]| == 4 && |words[2]| == 7 && |words[3]| == 4 && |words[4]| == 9;
    assert words[1][0] != words[3][0] && words[0][0] != words[4][0];
  }
}

/** The general feedback form: eight state cells, the anonymous switch that hides
    the contact fields, and the submit handler that clears the message but keeps
    the contact details. */
module FeedbackPage {
  import opened Common
  import opened App
  import opened StarRating

  /** `user?.name || ''` and `user?.email || ''`. */
  function InitialContact(user: Option<User>): (contact: (string, string))
    ensures user.None? ==> contact == ("", "")
    ensures user.Some? ==> contact == (user.value.name, user.value.email)
  {
    if user.Some? then (user.value.name, user.value.email) else ("", "")
  }

  /** The form's fields the browser will not let through empty. */
  function RequiredFields(isAnonymous: bool): (fields: set<string>)
    ensures {"category", "subject", "message"} <= fields
    ensures "name" in fields <==> !isAnonymous
    ensures "email" !in fields
  {
    {"category", "subject", "message"} + (if isAnonymous then {} else {"name"})
  }

  /** The fields drawn on the form: the contact fields only when not anonymous. */
  function VisibleFields(isAnonymous: bool): (fields: set<string>)
    ensures "name" in fields <==> !isAnonymous
    ensures "email" in fields <==> !isAnonymous
    ensures RequiredFields(isAnonymous) <= fields
  {
    {"rating", "category", "route", "subject", "message"} +
    (if isAnonymous then {} else {"name", "email"})
  }

  class FeedbackForm {
    var rating: int
    var category: string
    var route: string
    var name: string
    var email: string
    var subject: string
    var message: string
    var isAnonymous: bool

    predicate Valid()
      reads this
    {
      ValidRating(rating)
    }

    constructor (user: Option<User>)
      ensures rating == 5 && category == "" && route == "" && subject == "" && message == ""
      ensures (name, email) == InitialContact(user)
      ensures !isAnonymous
      ensures Valid()
    {
      rating := 5;
      category := "";
      route := "";
      name := InitialContact(user).0;
      email := InitialContact(user).1;
      subject := "";
      message := "";
      isAnonymous := false;
    }

    /** The text held by a named text field; "" for a name that is not one. */
    function FieldText(field: string): string
      reads this
    {
      if field == "category" then category
      else if field == "subject" then subject
      else if field == "message" then message
      else if field == "name" then name
      else if field == "email" then email
      else if field == "route" then route
      else ""
    }

    /** The browser submits only when every required field holds text: category,
        subject and message always, the name unless the form is anonymous. */
    predicate Complete()
      reads this
      ensures Complete() <==>
        category != "" && subject != "" && message != "" && (isAnonymous || name != "")
    {
      assert "category"[0] == 'c' && "subject"[0] == 's' && "message"[0] == 'm' && "name"[0] == 'n';
      assert FieldText("category") == category && FieldText("subject") == subject;
      assert FieldText("message") == message && FieldText("name") == name;
      assert RequiredFields(isAnonymous) ==
        {"category", "subject", "message"} + (if isAnonymous then {} else {"name"});
      forall field :: field in RequiredFields(isAnonymous) ==> FieldText(field) != ""
    }

    /** A star button. */
    method SetRating(star: int)
      requires ValidRating(star)
      modifies this
      ensures rating == star && RatingLabel(rating) == RatingLabel(star)
      ensures category == old(category) && route == old(route) && name == old(name) && email == old(email)
      ensures subject == old(subject) && message == old(message) && isAnonymous == old(isAnonymous)
      ensures Valid()
    {
      rating := star;
    }

    /** The anonymous checkbox: hiding the contact fields keeps what they hold. */
    method SetAnonymous(checked: bool)
      modifies this
      ensures isAnonymous == checked
      ensures rating == old(rating) && category == old(category) && route == old(route)
      ensures name == old(name) && email == old(email)
      ensures subject == old(subject) && message == old(message)
    {
      isAnonymous := checked;
    }

    /** `handleSubmit`: rating back to 5; category, route, subject and message
        cleared; name, email and the anonymous choice kept. */
    method Submit()
      requires Complete()
      modifies this
      ensures rating == 5 && category == "" && route == "" && subject == "" && message == ""
      ensures name == old(name) && email == old(email) && isAnonymous == old(isAnonymous)
      ensures Valid() && !Complete()
    {
      rating := 5;
      category := "";
      route := "";
      subject := "";
      message := "";
    }
  }
}

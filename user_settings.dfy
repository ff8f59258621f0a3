/** The profile settings form: six fields, editable only after "Edit Profile";
    Save keeps the edits, Cancel puts back the page's initial values. */
module UserSettings {
  import opened Common
  import opened App

  datatype FormData = FormData(
    name: string,
    email: string,
    phone: string,
    address: string,
    emergencyContact: string,
    preferredRoute: string)

  /** The six inputs, one per field. */
  datatype Field = Name | Email | Phone | Address | EmergencyContact | PreferredRoute

  function Get(form: FormData, f: Field): string {
    match f
    case Name => form.name
    case Email => form.email
    case Phone => form.phone
    case Address => form.address
    case EmergencyContact => form.emergencyContact
    case PreferredRoute => form.preferredRoute
  }

  /** `{ ...formData, <field>: value }`. */
  function WithField(form: FormData, f: Field, value: string): (r: FormData)
    ensures Get(r, f) == value
    ensures forall g :: g != f ==> Get(r, g) == Get(form, g)
  {
    match f
    case Name => form.(name := value)
    case Email => form.(email := value)
    case Phone => form.(phone := value)
    case Address => form.(address := value)
    case EmergencyContact => form.(emergencyContact := value)
    case PreferredRoute => form.(preferredRoute := value)
  }

  /** Two forms that agree on every field are the same form. */
  lemma FormExtensional(a: FormData, b: FormData)
    requires forall f :: Get(a, f) == Get(b, f)
    ensures a == b
  {
    assert Get(a, Name) == Get(b, Name) && Get(a, Email) == Get(b, Email);
    assert Get(a, Phone) == Get(b, Phone) && Get(a, Address) == Get(b, Address);
    assert Get(a, EmergencyContact) == Get(b, EmergencyContact);
    assert Get(a, PreferredRoute) == Get(b, PreferredRoute);
  }

  /** Editing a field and then writing back its old value restores the form. */
  lemma EditUndone(form: FormData, f: Field, value: string)
    ensures WithField(WithField(form, f, value), f, Get(form, f)) == form
  {
    var r := WithField(WithField(form, f, value), f, Get(form, f));
    forall g ensures Get(r, g) == Get(form, g) {
    }
    FormExtensional(r, form);
  }

  /** The initial values: the user's name and e-mail (or ""), and four fixed defaults. */
  function InitialForm(user: Option<User>): (form: FormData)
    ensures form.name == (if user.Some? then user.value.name else "")
    ensures form.email == (if user.Some? then user.value.email else "")
    ensures form.phone == "+63 912 345 6789" && form.address == "Suarez, Iligan City"
    ensures form.emergencyContact == "+63 912 345 6780" && form.preferredRoute == "Suarez to Poblacion"
  {
    FormData(if user.Some? then user.value.name else "",
             if user.Some? then user.value.email else "",
             "+63 912 345 6789", "Suarez, Iligan City", "+63 912 345 6780", "Suarez to Poblacion")
  }

  class SettingsForm {
    const user: Option<User>
    var isEditing: bool
    var formData: FormData

    constructor (u: Option<User>)
      ensures user == u && !isEditing && formData == InitialForm(u)
    {
      user := u;
      isEditing := false;
      formData := InitialForm(u);
    }

    /** "Edit Profile" is shown only when not editing; Save and Cancel only while editing. */
    predicate EditButtonShown()
      reads this
    {
      !isEditing
    }

    predicate SaveCancelShown()
      reads this
    {
      isEditing
    }

    /** The browser submits the form only when the four `required` inputs (name,
        e-mail, phone and address) hold text. */
    predicate Complete()
      reads this
    {
      formData.name != "" && formData.email != "" && formData.phone != "" && formData.address != ""
    }

    /** "Edit Profile". */
    method StartEditing()
      modifies this
      ensures isEditing && formData == old(formData)
      ensures !EditButtonShown() && SaveCancelShown()
    {
      isEditing := true;
    }

    /** Typing in an input: disabled inputs ignore it; an enabled one changes only its
        own field. */
    method Edit(f: Field, value: string)
      modifies this
      ensures isEditing == old(isEditing)
      ensures old(isEditing) ==> formData == WithField(old(formData), f, value)
      ensures !old(isEditing) ==> formData == old(formData)
      ensures forall g :: g != f ==> Get(formData, g) == Get(old(formData), g)
    {
      if isEditing {
        formData := WithField(formData, f, value);
      }
    }

    /** `handleSave`: leave editing and keep what was typed. The Save button is shown
        only while editing, and the form's `required` inputs block the submission
        unless they are filled. */
    method Save()
      requires isEditing && Complete()
      modifies this
      ensures !isEditing && formData == old(formData)
      ensures EditButtonShown() && !SaveCancelShown()
    {
      isEditing := false;
    }

    /** `handleCancel`: leave editing and restore the initial values, not the last
        saved ones. */
    method Cancel()
      modifies this
      ensures !isEditing && formData == InitialForm(user)
      ensures EditButtonShown() && !SaveCancelShown()
    {
      formData := InitialForm(user);
      isEditing := false;
    }
  }

  /** A saved change to the phone number is lost by a later edit-and-cancel: the form
      goes back to the defaults, not to what was saved. The save goes through only for
      a signed-in user whose name and e-mail are not empty, and a non-empty phone. */
  method CancelDiscardsSavedEdits(u: Option<User>, phone: string) returns (s: SettingsForm)
    requires u.Some? && u.value.name != "" && u.value.email != ""
    requires phone != "" && phone != "+63 912 345 6789"
    ensures s.formData == InitialForm(u) && s.formData.phone != phone
  {
    s := new SettingsForm(u);
    s.StartEditing();
    s.Edit(Phone, phone);
    s.Save();
    assert s.formData.phone == phone;
    s.StartEditing();
    s.Cancel();
  }
}

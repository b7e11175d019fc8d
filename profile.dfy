/** The profile screen: the saved user data, an edit form that is copied
    from it, a validator with one message per field, and the edit, cancel,
    save and typing handlers. */
module Profile {
  import opened Screen
  import opened JsString

  datatype UserData = UserData(name: string, email: string, bio: string, joinDate: string, profileImage: string)

  datatype EditForm = EditForm(name: string, bio: string, profileImage: string)

  /** One message per field; the empty string is "no error". */
  datatype Errors = Errors(name: string, bio: string)

  /** The fields `handleInputChange` is called with. */
  datatype Field = NameField | BioField | ProfileImageField

  const MaxNameLength: nat := 50
  const MaxBioLength: nat := 200
  const NameRequired: string := "Name is required"
  const NameTooLong: string := "Name must be 50 characters or less"
  const BioTooLong: string := "Bio must be 200 characters or less"
  const NoErrors: Errors := Errors("", "")

  /** The record the screen starts with. */
  function InitialUser(): UserData {
    UserData(
      "Alex",
      "alex@mindmate.com",
      "Finding peace in small moments and gratitude in everyday life. Mental wellness is a journey, not a destination.",
      "January 2024",
      "")
  }

  /** Editing the initial record unchanged raises no name error. */
  lemma InitialNameValid()
    ensures !IsBlank(InitialUser().name) && Utf16Length(InitialUser().name) <= MaxNameLength
    ensures Validate(FormOf(InitialUser())).name == ""
  {
    assert !IsWhitespace(InitialUser().name[0]);
    TrimEmptyIffBlank(InitialUser().name);
  }

  /** The form a user record is edited through. */
  function FormOf(u: UserData): EditForm {
    EditForm(u.name, u.bio, u.profileImage)
  }

  /** The `newErrors` record `validateForm` builds. */
  function Validate(form: EditForm): Errors {
    Errors(
      if !HasText(form.name) then NameRequired
      else if Utf16Length(form.name) > MaxNameLength then NameTooLong
      else "",
      if Utf16Length(form.bio) > MaxBioLength then BioTooLong else "")
  }

  /** `!newErrors.name && !newErrors.bio`. */
  predicate Passes(e: Errors) {
    e.name == "" && e.bio == ""
  }

  /** A form passes exactly when the name is not blank, the name has at most
      50 and the bio at most 200 UTF-16 code units. */
  lemma ValidateIff(form: EditForm)
    ensures Passes(Validate(form)) <==>
      !IsBlank(form.name) && Utf16Length(form.name) <= MaxNameLength && Utf16Length(form.bio) <= MaxBioLength
  {
    TrimEmptyIffBlank(form.name);
  }

  /** A blank name is reported as missing even when it is also too long; the
      length limit applies to the name as typed, surrounding whitespace
      included; the bio is checked independently of the name. */
  lemma NameErrorPrecedence(form: EditForm)
    ensures IsBlank(form.name) ==> Validate(form).name == NameRequired
    ensures !IsBlank(form.name) && Utf16Length(form.name) > MaxNameLength ==> Validate(form).name == NameTooLong
    ensures Validate(form).bio == BioTooLong <==> Utf16Length(form.bio) > MaxBioLength
  {
    TrimEmptyIffBlank(form.name);
  }

  /** A name of one letter padded to 51 characters is rejected as too long
      although its trimmed form has length 1. */
  lemma PaddedNameTooLong(pad: string)
    requires |pad| == 50 && forall i :: 0 <= i < |pad| ==> pad[i] == ' '
    ensures Trim("A" + pad) == "A"
    ensures Validate(EditForm("A" + pad, "", "")).name == NameTooLong
  {
    TrimPadded("", "A", pad);
    assert "" + "A" + pad == "A" + pad;
    assert Utf16Length(pad) == 50;
  }

  /** The component's state. */
  class ProfileScreen {
    var userData: UserData
    var isEditing: bool
    var editForm: EditForm
    var errors: Errors

    constructor ()
      ensures userData == InitialUser() && !isEditing
      ensures editForm == FormOf(InitialUser()) && errors == NoErrors
    {
      userData := InitialUser();
      isEditing := false;
      editForm := FormOf(InitialUser());
      errors := NoErrors;
    }

    /** `validateForm`: records the errors and reports whether there are none. */
    method ValidateForm() returns (ok: bool)
      modifies this`errors
      ensures errors == Validate(editForm) && ok == Passes(errors)
      ensures ok <==> !IsBlank(editForm.name) && Utf16Length(editForm.name) <= MaxNameLength && Utf16Length(editForm.bio) <= MaxBioLength
    {
      errors := Validate(editForm);
      ok := Passes(errors);
      ValidateIff(editForm);
    }

    /** `handleEditClick`. */
    method EditClick()
      modifies this
      ensures userData == old(userData)
      ensures editForm == FormOf(userData) && errors == NoErrors && isEditing
    {
      editForm := FormOf(userData);
      errors := NoErrors;
      isEditing := true;
    }

    /** `handleCancelEdit`: the typed changes are thrown away. */
    method CancelEdit()
      modifies this
      ensures userData == old(userData)
      ensures editForm == FormOf(userData) && errors == NoErrors && !isEditing
    {
      isEditing := false;
      editForm := FormOf(userData);
      errors := NoErrors;
    }

    /** `handleSaveChanges`: validates; an invalid form stops here with its
        errors shown, a valid one schedules the delayed commit of the form as
        it is now, which is returned. */
    method SaveChanges() returns (scheduled: Option<EditForm>)
      modifies this`errors
      ensures errors == Validate(editForm)
      ensures scheduled.Some? <==> Passes(errors)
      ensures scheduled.Some? ==> scheduled.value == editForm
      ensures scheduled.Some? <==>
        !IsBlank(editForm.name) && Utf16Length(editForm.name) <= MaxNameLength && Utf16Length(editForm.bio) <= MaxBioLength
    {
      var ok := ValidateForm();
      if !ok {
        return None;
      }
      scheduled := Some(editForm);
    }

    /** The 500 ms timer of a valid save: copies name, bio and picture from
        the form captured at save time, keeps email and join date, and leaves
        edit mode. */
    method SaveTimerFires(captured: EditForm)
      modifies this`userData, this`isEditing
      ensures userData == UserData(captured.name, old(userData).email, captured.bio, old(userData).joinDate, captured.profileImage)
      ensures !isEditing
    {
      userData := userData.(name := captured.name, bio := captured.bio, profileImage := captured.profileImage);
      isEditing := false;
    }

    /** `handleInputChange`: sets one field of the form and clears that
        field's error, if it has one; the other error stays. */
    method InputChange(field: Field, value: string)
      modifies this`editForm, this`errors
      ensures editForm == match field
        case NameField => old(editForm).(name := value)
        case BioField => old(editForm).(bio := value)
        case ProfileImageField => old(editForm).(profileImage := value)
      ensures field == NameField ==> errors == old(errors).(name := "")
      ensures field == BioField ==> errors == old(errors).(bio := "")
      ensures field == ProfileImageField ==> errors == old(errors)
    {
      match field {
        case NameField =>
          editForm := editForm.(name := value);
          if errors.name != "" {
            errors := errors.(name := "");
          }
        case BioField =>
          editForm := editForm.(bio := value);
          if errors.bio != "" {
            errors := errors.(bio := "");
          }
        case ProfileImageField =>
          editForm := editForm.(profileImage := value);
      }
    }
  }
}

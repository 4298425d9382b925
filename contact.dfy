/**
 * Contact.tsx: the contact form. The form record starts empty with the
 * category "general", each input overwrites only its own field, and a
 * successful send resets the form to its initial value. `isLoading` is
 * raised for the duration of a submit and lowered whatever the outcome.
 *
 * The submit is split into a start step and a finish step around the
 * simulated wait.
 */
module Contact {

  const GeneralCategory: string := "general"

  datatype Category = Category(value: string, caption: string)

  const ContactCategories: seq<Category> := [
    Category("general", "General Inquiry"),
    Category("booking", "Booking Support"),
    Category("refund", "Refund Request"),
    Category("technical", "Technical Issue"),
    Category("feedback", "Feedback")
  ]

  /** Five options, "general" first, no value offered twice. */
  lemma CategoryOptions()
    ensures |ContactCategories| == 5 && ContactCategories[0].value == GeneralCategory
    ensures forall i, j :: 0 <= i < j < |ContactCategories| ==> ContactCategories[i].value != ContactCategories[j].value
  {
    assert ContactCategories[0].value[0] == 'g' && ContactCategories[1].value[0] == 'b';
    assert ContactCategories[2].value[0] == 'r' && ContactCategories[3].value[0] == 't';
    assert ContactCategories[4].value[0] == 'f';
  }

  datatype ContactForm = ContactForm(
    name: string, email: string, phone: string, subject: string, message: string, category: string)

  /** The inputs by their `name` attribute. */
  datatype Field = Name | Email | Phone | Subject | Message | CategoryField

  const InitialForm: ContactForm := ContactForm("", "", "", "", "", GeneralCategory)

  function FieldValue(form: ContactForm, field: Field): string
  {
    match field
    case Name => form.name
    case Email => form.email
    case Phone => form.phone
    case Subject => form.subject
    case Message => form.message
    case CategoryField => form.category
  }

  /** `{ ...prev, [name]: value }`. */
  function WithField(form: ContactForm, field: Field, value: string): (updated: ContactForm)
    ensures FieldValue(updated, field) == value
    ensures forall other :: other != field ==> FieldValue(updated, other) == FieldValue(form, other)
  {
    match field
    case Name => form.(name := value)
    case Email => form.(email := value)
    case Phone => form.(phone := value)
    case Subject => form.(subject := value)
    case Message => form.(message := value)
    case CategoryField => form.(category := value)
  }

  /** A form is determined by its field values. */
  lemma FormByFields(a: ContactForm, b: ContactForm)
    requires forall field :: FieldValue(a, field) == FieldValue(b, field)
    ensures a == b
  {
    assert FieldValue(a, Name) == FieldValue(b, Name);
    assert FieldValue(a, Email) == FieldValue(b, Email);
    assert FieldValue(a, Phone) == FieldValue(b, Phone);
    assert FieldValue(a, Subject) == FieldValue(b, Subject);
    assert FieldValue(a, Message) == FieldValue(b, Message);
    assert FieldValue(a, CategoryField) == FieldValue(b, CategoryField);
  }

  /** Writing a field back with the value it already has changes nothing. */
  lemma RewriteFieldIsNoop(form: ContactForm, field: Field)
    ensures WithField(form, field, FieldValue(form, field)) == form
  {
    FormByFields(WithField(form, field, FieldValue(form, field)), form);
  }

  /** Writing the same field twice keeps only the last value. */
  lemma LastWriteWins(form: ContactForm, field: Field, first: string, second: string)
    ensures WithField(WithField(form, field, first), field, second) == WithField(form, field, second)
  {
    FormByFields(WithField(WithField(form, field, first), field, second), WithField(form, field, second));
  }

  class ContactPage {
    var formData: ContactForm
    var isLoading: bool

    constructor ()
      ensures formData == InitialForm && !isLoading
    {
      formData := InitialForm;
      isLoading := false;
    }

    /** `handleInputChange`. */
    method HandleInputChange(field: Field, value: string)
      modifies this
      ensures formData == WithField(old(formData), field, value)
      ensures isLoading == old(isLoading)
    {
      formData := WithField(formData, field, value);
    }

    /** `handleSubmit` up to the simulated wait; the send button is disabled while loading. */
    method StartSubmit()
      requires !isLoading
      modifies this
      ensures isLoading && formData == old(formData)
    {
      isLoading := true;
    }

    /** The wait ends: a sent message clears the form, a failure keeps it; loading ends either way. */
    method FinishSubmit(failed: bool)
      requires isLoading
      modifies this
      ensures !isLoading
      ensures !failed ==> formData == InitialForm
      ensures failed ==> formData == old(formData)
    {
      if !failed {
        formData := InitialForm;
      }
      isLoading := false;
    }
  }
}

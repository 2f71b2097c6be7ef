/** The contact form: six text fields and three status cells. Typing updates one
    field; a submission marks the form busy, waits, and then either reports
    success and clears the fields or reports a fixed error, and in both cases
    frees the button again. */
module ContactForm {

  const FieldNames: set<string> := {"nombre", "apellido", "telefono", "email", "busqueda", "mensaje"}
  const SubmitErrorMessage: string := "Hubo un error al enviar el formulario. Por favor intente nuevamente."

  /** The six fields, all empty. */
  function EmptyForm(): (m: map<string, string>)
    ensures m.Keys == FieldNames
    ensures forall k :: k in m ==> m[k] == ""
  {
    map k | k in FieldNames :: ""
  }

  /** The fields the browser demands (`required`) before it lets the form submit. */
  predicate RequiredFilled(data: map<string, string>) {
    "nombre" in data && "apellido" in data && "email" in data
    && data["nombre"] != "" && data["apellido"] != "" && data["email"] != ""
  }

  /** The submit button's label. */
  function ButtonLabel(isSubmitting: bool): (s: string)
    ensures isSubmitting <==> s == "Enviando..."
    ensures !isSubmitting <==> s == "Enviar"
  {
    if isSubmitting then "Enviando..." else "Enviar"
  }

  class ContactFormState {
    var formData: map<string, string>
    var isSubmitting: bool
    var submitSuccess: bool
    var submitError: string

    /** Every field the form renders, and no other key. */
    ghost predicate Valid()
      reads this
    {
      formData.Keys == FieldNames
    }

    /** The submit button is disabled while a submission is in flight. */
    function ButtonDisabled(): (d: bool)
      reads this
      ensures d <==> isSubmitting
    {
      isSubmitting
    }

    /** The success notice and the error notice are shown when their cells are set. */
    function Notices(): (shown: (bool, bool))
      reads this
      ensures shown.0 <==> submitSuccess
      ensures shown.1 <==> submitError != ""
    {
      (submitSuccess, submitError != "")
    }

    constructor ()
      ensures formData == EmptyForm()
      ensures !isSubmitting && !submitSuccess && submitError == ""
      ensures Valid()
    {
      formData := EmptyForm();
      isSubmitting := false;
      submitSuccess := false;
      submitError := "";
    }

    /** `handleChange`: the input named `name` now holds `value`; the other fields and
        the status cells are unchanged. */
    method HandleChange(name: string, value: string)
      requires name in FieldNames
      requires Valid()
      modifies this
      ensures formData == old(formData)[name := value]
      ensures formData[name] == value
      ensures forall k :: k in old(formData) && k != name ==> formData[k] == old(formData)[k]
      ensures isSubmitting == old(isSubmitting) && submitSuccess == old(submitSuccess)
      ensures submitError == old(submitError)
      ensures Valid()
    {
      formData := formData[name := value];
    }

    /** The synchronous start of `handleSubmit`. */
    method BeginSubmit()
      modifies this
      ensures isSubmitting && submitError == ""
      ensures formData == old(formData) && submitSuccess == old(submitSuccess)
    {
      isSubmitting := true;
      submitError := "";
    }

    /** The end of `handleSubmit`, once the wait has settled (`succeeded` is false when it rejected). */
    method FinishSubmit(succeeded: bool)
      requires Valid()
      modifies this
      ensures !isSubmitting
      ensures succeeded ==> submitSuccess && formData == EmptyForm() && submitError == old(submitError)
      ensures !succeeded ==> (submitError == SubmitErrorMessage
        && formData == old(formData) && submitSuccess == old(submitSuccess))
      ensures Valid()
    {
      if succeeded {
        submitSuccess := true;
        formData := EmptyForm();
      } else {
        submitError := SubmitErrorMessage;
      }
      isSubmitting := false;
    }

    /** A whole submission, as the browser allows it: the required fields are filled and
        the button is enabled. */
    method HandleSubmit(succeeded: bool)
      requires Valid() && RequiredFilled(formData) && !ButtonDisabled()
      modifies this
      ensures !isSubmitting && Valid()
      ensures succeeded ==> submitSuccess && submitError == "" && formData == EmptyForm()
      ensures !succeeded ==> (submitError == SubmitErrorMessage
        && formData == old(formData) && submitSuccess == old(submitSuccess))
    {
      BeginSubmit();
      FinishSubmit(succeeded);
    }
  }

  /** After a successful submission the form can no longer be submitted as it stands:
      the required fields are empty again. */
  lemma ClearedFormBlocksResubmit()
    ensures !RequiredFilled(EmptyForm())
  {
    assert "nombre" in FieldNames;
  }
}

/** The contact form on the client: five text fields and two flags, one for
    a request in flight (which disables the submit button) and one for the
    success notice that a timer later hides. The network request and the
    timer are events here. */
module ContactFormComponent {

  import opened Options
  import opened ContactRoute

  /** The value of one field; the changed control's `name` attribute is a
      `FieldName`. It is the field the endpoint reads from the sent body. */
  function Get(d: ContactFormData, f: FieldName): string {
    FieldOf(FieldsOf(d), f).value
  }

  /** `{ ...prev, [name]: value }`: the named field takes the new value and
      every other field keeps its old one. */
  function With(d: ContactFormData, f: FieldName, value: string): (r: ContactFormData)
    ensures Get(r, f) == value
    ensures forall g: FieldName :: g != f ==> Get(r, g) == Get(d, g)
  {
    match f
    case Name => d.(name := value)
    case Email => d.(email := value)
    case Phone => d.(phone := value)
    case Service => d.(service := value)
    case Description => d.(description := value)
  }

  /** The form as first shown and as reset after a successful send. */
  const EmptyForm := ContactFormData("", "", "", "", "")

  /** The values the service drop-down offers; "" is its placeholder. */
  const ServiceOptions: set<string> :=
    {"", "concrete-pressure-washing", "bin-cleaning", "carpet-cleaning", "junk-removal", "other"}

  /** How the request ended: a response with an ok status, a response with
      any other status, or a network failure. */
  datatype FetchOutcome = ResponseOk | ResponseNotOk | NetworkError

  /** The handler accepts what the form sends exactly when every field is
      filled in; a form with any empty field, such as the placeholder
      service, is answered with 400. */
  lemma FormAcceptedIffComplete(d: ContactFormData)
    ensures Validate(FieldsOf(d)) <==> forall f: FieldName :: Get(d, f) != ""
  {
    if !Validate(FieldsOf(d)) {
      var f: FieldName :| f in [Name, Email, Phone, Service, Description] && Get(d, f) == "";
    }
  }

  /** The form's state. */
  class Contact {
    var formData: ContactFormData
    var isSubmitting: bool
    var isSubmitted: bool

    /** The service field always holds one of the drop-down's values. */
    ghost predicate Valid()
      reads this
    {
      formData.service in ServiceOptions
    }

    constructor ()
      ensures Valid()
      ensures formData == EmptyForm && !isSubmitting && !isSubmitted
    {
      formData := EmptyForm;
      isSubmitting := false;
      isSubmitted := false;
    }

    /** The submit button is enabled exactly while no request is in flight. */
    predicate SubmitEnabled()
      reads this
    {
      !isSubmitting
    }

    /** A control changed; the drop-down only produces its own values. */
    method HandleInputChange(f: FieldName, value: string)
      requires Valid()
      requires f == Service ==> value in ServiceOptions
      modifies this
      ensures Valid()
      ensures formData == With(old(formData), f, value)
      ensures isSubmitting == old(isSubmitting) && isSubmitted == old(isSubmitted)
    {
      match f
      case Name => formData := formData.(name := value);
      case Email => formData := formData.(email := value);
      case Phone => formData := formData.(phone := value);
      case Service => formData := formData.(service := value);
      case Description => formData := formData.(description := value);
    }

    /** The form was submitted. While a request is in flight the button is
        disabled and nothing happens; otherwise the in-flight flag is set and
        the form data is sent (`request`). Either way the button is disabled
        afterwards, so at most one request is in flight. */
    method Submit() returns (request: Option<ContactFormData>)
      requires Valid()
      modifies this
      ensures Valid()
      ensures !old(SubmitEnabled()) ==> request == None && isSubmitting
      ensures old(SubmitEnabled()) ==> request == Some(old(formData)) && isSubmitting
      ensures !SubmitEnabled()
      ensures formData == old(formData) && isSubmitted == old(isSubmitted)
    {
      if isSubmitting {
        return None;
      }
      isSubmitting := true;
      request := Some(formData);
    }

    /** The request in flight ended. On an ok response the form is cleared and
        the success notice shown; otherwise the form keeps what the user
        typed. Either way the button is enabled again. */
    method HandleResponse(outcome: FetchOutcome)
      requires Valid() && isSubmitting
      modifies this
      ensures Valid() && !isSubmitting
      ensures outcome == ResponseOk ==> isSubmitted && formData == EmptyForm
      ensures outcome != ResponseOk ==> isSubmitted == old(isSubmitted) && formData == old(formData)
    {
      if outcome == ResponseOk {
        isSubmitting := false;
        isSubmitted := true;
        formData := EmptyForm;
      } else {
        isSubmitting := false;
      }
    }

    /** The five-second timer started by a successful send fired. */
    method SuccessTimerFires()
      requires Valid()
      modifies this
      ensures Valid() && !isSubmitted
      ensures formData == old(formData) && isSubmitting == old(isSubmitting)
    {
      isSubmitted := false;
    }
  }
}

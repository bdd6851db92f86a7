/** The "Book a free demo" form. */
module BookDemoPage {
  import opened Session

  datatype DemoRequest = DemoRequest(name: string, email: string, phone: string,
                                     experience: string, message: string) {

    function Get(f: DemoField): string
    {
      match f
      case Name => name
      case Email => email
      case Phone => phone
      case Message => message
    }

    /** `{...prev, [name]: value}`: the named input's field becomes `v`, nothing else changes. */
    function With(f: DemoField, v: string): (r: DemoRequest)
      ensures r.Get(f) == v
      ensures forall g :: g != f ==> r.Get(g) == Get(g)
      ensures r.experience == experience
    {
      match f
      case Name => this.(name := v)
      case Email => this.(email := v)
      case Phone => this.(phone := v)
      case Message => this.(message := v)
    }
  }

  /** The `name` attributes of the text inputs; `experience` comes from a select. */
  datatype DemoField = Name | Email | Phone | Message

  const FillRequired := "Please fill in all required fields"
  const RequestSubmitted := "Your demo request has been submitted!"

  /**
   * The check of `handleSubmit`: name, email and experience are required;
   * phone and message never decide it.
   */
  function IsComplete(d: DemoRequest): (ok: bool)
    ensures !ok <==> d.name == "" || d.email == "" || d.experience == ""
  {
    d.name != "" && d.email != "" && d.experience != ""
  }

  /** Phone and message are optional: whatever they hold, completeness is the same. */
  lemma OptionalFieldsIgnored(d: DemoRequest, phone: string, message: string)
    ensures IsComplete(d.(phone := phone, message := message)) == IsComplete(d)
  {
  }

  /** The `BookDemo` page's state. */
  class BookDemo {
    var formData: DemoRequest
    var isSubmitting: bool
    var isSubmitted: bool

    constructor ()
      ensures formData == DemoRequest("", "", "", "", "") && !isSubmitting && !isSubmitted
    {
      formData := DemoRequest("", "", "", "", "");
      isSubmitting, isSubmitted := false, false;
    }

    /** Once submitted, the form is replaced by the thank-you view. */
    predicate ShowsThankYou()
      reads this
    {
      isSubmitted
    }

    /** `handleChange`: only the input's own field changes. */
    method HandleChange(f: DemoField, v: string)
      modifies this`formData
      ensures formData == old(formData).With(f, v)
      ensures old(isSubmitted) ==> isSubmitted
    {
      formData := formData.With(f, v);
    }

    /** `handleSelectChange`: only `experience` changes. */
    method HandleSelectChange(v: string)
      modifies this`formData
      ensures formData == old(formData).(experience := v)
      ensures old(isSubmitted) ==> isSubmitted
    {
      formData := formData.(experience := v);
    }

    /**
     * `handleSubmit`, as one step: an incomplete request only complains and
     * leaves both flags; a complete one ends submitted and not submitting.
     * No path resets `isSubmitted`.
     */
    method HandleSubmit() returns (toast: Toast)
      modifies this`isSubmitting, this`isSubmitted
      ensures !IsComplete(old(formData)) ==>
        toast == Error(FillRequired) && isSubmitting == old(isSubmitting) && isSubmitted == old(isSubmitted)
      ensures IsComplete(old(formData)) ==>
        toast == Success(RequestSubmitted) && isSubmitted && !isSubmitting
      ensures old(isSubmitted) ==> isSubmitted
    {
      if !IsComplete(formData) {
        toast := Error(FillRequired);
        return;
      }
      isSubmitting := true;
      isSubmitted := true;
      toast := Success(RequestSubmitted);
      isSubmitting := false;
    }
  }
}

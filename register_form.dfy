/**
 * The registration form: three checks in a fixed order, the first failure
 * wins; on success it stores name and email, never the password or a role.
 */
module Register {
  import opened Wrappers
  import opened Session

  datatype RegisterData = RegisterData(name: string, email: string, password: string,
                                       confirmPassword: string, agreeToTerms: bool) {

    function Get(f: RegisterField): string
    {
      match f
      case Name => name
      case Email => email
      case Password => password
      case ConfirmPassword => confirmPassword
    }

    /** `{...prev, [name]: value}`: the named text field becomes `v`, nothing else changes. */
    function With(f: RegisterField, v: string): (r: RegisterData)
      ensures r.Get(f) == v
      ensures forall g :: g != f ==> r.Get(g) == Get(g)
      ensures r.agreeToTerms == agreeToTerms
    {
      match f
      case Name => this.(name := v)
      case Email => this.(email := v)
      case Password => this.(password := v)
      case ConfirmPassword => this.(confirmPassword := v)
    }

    predicate AllFilled()
    {
      name != "" && email != "" && password != "" && confirmPassword != ""
    }
  }

  /** The `name` attributes of the form's text inputs. */
  datatype RegisterField = Name | Email | Password | ConfirmPassword

  const FillAllFields := "Please fill in all fields"
  const PasswordsDiffer := "Passwords do not match"
  const MustAgree := "You must agree to the terms and conditions"
  const RegisterSucceeded := "Registration successful!"
  const RegisterFailed := "Registration failed. Please try again."

  /**
   * The validation chain of `handleSubmit`: missing fields are reported
   * first, then a password mismatch, then unticked terms; `None` means
   * every check passed.
   */
  function Validate(d: RegisterData): (r: Option<string>)
    ensures r == None <==> d.AllFilled() && d.password == d.confirmPassword && d.agreeToTerms
    ensures r == Some(FillAllFields) <==> !d.AllFilled()
    ensures r == Some(PasswordsDiffer) <==> d.AllFilled() && d.password != d.confirmPassword
    ensures r == Some(MustAgree) <==> d.AllFilled() && d.password == d.confirmPassword && !d.agreeToTerms
  {
    if !d.AllFilled() then Some(FillAllFields)
    else if d.password != d.confirmPassword then Some(PasswordsDiffer)
    else if !d.agreeToTerms then Some(MustAgree)
    else None
  }

  /** The record `handleSubmit` stores: `{name, email, isLoggedIn: true}`. */
  function SessionAfterRegister(d: RegisterData): User
  {
    User(Some(d.name), d.email, None, true)
  }

  /** The `RegisterForm` component's state. */
  class RegisterForm {
    var formData: RegisterData
    var isLoading: bool

    constructor ()
      ensures formData == RegisterData("", "", "", "", false) && !isLoading
    {
      formData := RegisterData("", "", "", "", false);
      isLoading := false;
    }

    /** `handleChange`: only the input's own field changes. */
    method HandleChange(f: RegisterField, v: string)
      modifies this`formData
      ensures formData == old(formData).With(f, v)
    {
      formData := formData.With(f, v);
    }

    /** `handleCheckboxChange`: only `agreeToTerms` changes. */
    method HandleCheckboxChange(checked: bool)
      modifies this`formData
      ensures formData == old(formData).(agreeToTerms := checked)
    {
      formData := formData.(agreeToTerms := checked);
    }

    /**
     * `handleSubmit`, as one step. A failed check shows its message and
     * writes nothing. Otherwise name and email are written to the slot. If
     * the write succeeds the form goes to `/dashboard`; if it throws, the
     * failure is reported, the slot keeps its old value and nothing
     * navigates. Either way loading ends off.
     */
    method HandleSubmit(store: SessionStore) returns (toast: Toast, route: Option<string>)
      modifies this`isLoading, store
      ensures formData == old(formData)
      ensures Validate(old(formData)).Some? ==>
        toast == Error(Validate(old(formData)).value) && route == None &&
        store.slot == old(store.slot) && isLoading == old(isLoading)
      ensures Validate(old(formData)).None? && store.writable ==>
        store.slot == Stored(SessionAfterRegister(old(formData))) &&
        toast == Success(RegisterSucceeded) && route == Some(DashboardRoute) && !isLoading
      ensures Validate(old(formData)).None? && !store.writable ==>
        store.slot == old(store.slot) &&
        toast == Error(RegisterFailed) && route == None && !isLoading
    {
      var failure := Validate(formData);
      if failure.Some? {
        toast, route := Error(failure.value), None;
        return;
      }
      isLoading := true;
      var ok := store.Write(SessionAfterRegister(formData));
      if ok {
        toast, route := Success(RegisterSucceeded), Some(DashboardRoute);
      } else {
        toast, route := Error(RegisterFailed), None;
      }
      isLoading := false;
    }
  }
}

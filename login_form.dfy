/**
 * The login form. It checks only that both fields are filled: there is no
 * credential lookup, and the record it stores carries neither a name nor a role.
 */
module Login {
  import opened Wrappers
  import opened Session

  datatype LoginData = LoginData(email: string, password: string) {

    function Get(f: LoginField): string
    {
      match f
      case Email => email
      case Password => password
    }

    /** `{...prev, [name]: value}`: the named field becomes `v`, the other keeps its value. */
    function With(f: LoginField, v: string): (r: LoginData)
      ensures r.Get(f) == v
      ensures forall g :: g != f ==> r.Get(g) == Get(g)
    {
      match f
      case Email => this.(email := v)
      case Password => this.(password := v)
    }
  }

  /** The `name` attributes of the form's two inputs. */
  datatype LoginField = Email | Password

  const FillAllFields := "Please fill in all fields"
  const LoginSucceeded := "Login successful!"
  const LoginFailed := "Login failed. Please try again."

  /** The record `handleSubmit` stores: `{email, isLoggedIn: true}`. */
  function SessionAfterLogin(email: string): User
  {
    User(None, email, None, true)
  }

  /** The `LoginForm` component's state. */
  class LoginForm {
    var formData: LoginData
    var isLoading: bool

    constructor ()
      ensures formData == LoginData("", "") && !isLoading
    {
      formData := LoginData("", "");
      isLoading := false;
    }

    /** `handleChange`: only the input's own field changes. */
    method HandleChange(f: LoginField, v: string)
      modifies this`formData
      ensures formData == old(formData).With(f, v)
    {
      formData := formData.With(f, v);
    }

    /**
     * `handleSubmit`, as one step. With a field empty it only complains and
     * does not touch loading or storage. Otherwise no credential is checked:
     * loading goes on and the email alone is written to the slot. If the
     * write succeeds the form goes to `/dashboard`; if it throws, the failure
     * is reported, the slot keeps its old value and nothing navigates. Either
     * way loading, which was on during the write, ends off.
     */
    method HandleSubmit(store: SessionStore) returns (toast: Toast, route: Option<string>, ghost loadingAtWrite: bool)
      modifies this`isLoading, store
      ensures formData == old(formData)
      ensures old(formData).email == "" || old(formData).password == "" ==>
        toast == Error(FillAllFields) && route == None &&
        store.slot == old(store.slot) && isLoading == old(isLoading)
      ensures old(formData).email != "" && old(formData).password != "" && store.writable ==>
        store.slot == Stored(SessionAfterLogin(old(formData).email)) &&
        toast == Success(LoginSucceeded) && route == Some(DashboardRoute) &&
        loadingAtWrite && !isLoading
      ensures old(formData).email != "" && old(formData).password != "" && !store.writable ==>
        store.slot == old(store.slot) &&
        toast == Error(LoginFailed) && route == None &&
        loadingAtWrite && !isLoading
    {
      loadingAtWrite := isLoading;
      if formData.email == "" || formData.password == "" {
        toast, route := Error(FillAllFields), None;
        return;
      }
      isLoading := true;
      loadingAtWrite := isLoading;
      var ok := store.Write(SessionAfterLogin(formData.email));
      if ok {
        toast, route := Success(LoginSucceeded), Some(DashboardRoute);
      } else {
        toast, route := Error(LoginFailed), None;
      }
      isLoading := false;
    }
  }
}

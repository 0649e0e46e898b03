/** The registration page: a six-field form, its client-side password checks, and the submit
    handler that posts five of the fields to the registration API. */
module RegisterPage {
  import opened Wrappers
  import RegisterApi

  datatype FieldName = Email | Password | ConfirmPassword | Name | TenantName | TenantCategory

  datatype FormData = FormData(
    email: string, password: string, confirmPassword: string,
    name: string, tenantName: string, tenantCategory: string)

  const EmptyForm := FormData("", "", "", "", "", "")

  function Get(f: FormData, n: FieldName): string {
    match n
    case Email => f.email
    case Password => f.password
    case ConfirmPassword => f.confirmPassword
    case Name => f.name
    case TenantName => f.tenantName
    case TenantCategory => f.tenantCategory
  }

  /** `{...formData, [name]: value}`: the named field takes the value, the others keep theirs. */
  function With(f: FormData, n: FieldName, v: string): (g: FormData)
    ensures Get(g, n) == v
    ensures forall m :: m != n ==> Get(g, m) == Get(f, m)
  {
    match n
    case Email => f.(email := v)
    case Password => f.(password := v)
    case ConfirmPassword => f.(confirmPassword := v)
    case Name => f.(name := v)
    case TenantName => f.(tenantName := v)
    case TenantCategory => f.(tenantCategory := v)
  }

  const MismatchMessage := "Las contraseñas no coinciden"
  const TooShortMessage := "La contraseña debe tener al menos 6 caracteres"
  const MinPasswordLength := 6

  /** The checks made before anything is sent; a mismatch is reported before a short password. */
  function ClientError(f: FormData): (r: Option<string>)
    ensures r.None? <==> f.password == f.confirmPassword && |f.password| >= MinPasswordLength
    ensures f.password != f.confirmPassword ==> r == Some(MismatchMessage)
    ensures f.password == f.confirmPassword && |f.password| < MinPasswordLength ==> r == Some(TooShortMessage)
  {
    if f.password != f.confirmPassword then Some(MismatchMessage)
    else if |f.password| < MinPasswordLength then Some(TooShortMessage)
    else None
  }

  /** The JSON body posted to the registration API: everything but the confirmation. */
  function Body(f: FormData): RegisterApi.Request {
    RegisterApi.Request(f.email, f.password, f.name, f.tenantName, f.tenantCategory)
  }

  /** The confirmation field never reaches the server. */
  lemma BodyIgnoresConfirmation(f: FormData, v: string)
    ensures Body(With(f, ConfirmPassword, v)) == Body(f)
  {
    var g := With(f, ConfirmPassword, v);
    assert Get(g, Email) == Get(f, Email) && Get(g, Password) == Get(f, Password) && Get(g, Name) == Get(f, Name);
    assert Get(g, TenantName) == Get(f, TenantName) && Get(g, TenantCategory) == Get(f, TenantCategory);
  }

  /** Every body that is sent carries a password of at least six characters (a rule the server
      does not check), so of the fields the server requires only the other four can be empty. */
  lemma SentPasswordIsLongEnough(f: FormData)
    requires ClientError(f).None?
    ensures |Body(f).password| >= MinPasswordLength && Body(f).password != ""
    ensures RegisterApi.FieldsPresent(Body(f)) <==>
      f.email != "" && f.name != "" && f.tenantName != "" && f.tenantCategory != ""
  {
    assert |f.password| >= MinPasswordLength;
  }

  /** What the registration request came back with: a 2xx reply, a reply with another status
      whose JSON `error` is given ("" when it is absent), or a thrown error with its message. */
  datatype ServerReply = Accepted | Rejected(error: string) | Thrown(message: string)

  const DefaultFailure := "Error en el registro"
  const LoginRedirect := "/login?message=Cuenta creada exitosamente"

  /** The message shown for a failed request: `data.error || "Error en el registro"`. */
  function FailureMessage(reply: ServerReply): (m: string)
    requires !reply.Accepted?
    ensures reply.Rejected? && reply.error != "" ==> m == reply.error
    ensures reply.Rejected? && reply.error == "" ==> m == DefaultFailure
    ensures reply.Thrown? ==> m == reply.message
  {
    match reply
    case Rejected(e) => if e == "" then DefaultFailure else e
    case Thrown(msg) => msg
  }

  class RegisterForm {
    var formData: FormData
    var error: string
    var loading: bool

    constructor()
      ensures formData == EmptyForm && error == "" && !loading
    {
      formData := EmptyForm;
      error := "";
      loading := false;
    }

    /** An input or select changed: only that field of the form is replaced. */
    method HandleChange(n: FieldName, value: string)
      modifies this
      ensures formData == With(old(formData), n, value)
      ensures error == old(error) && loading == old(loading)
    {
      formData := With(formData, n, value);
    }

    /** The submit handler. `reply` is how the request would end; `sent` is the body posted, if
        any, and `redirect` the page navigated to. Loading is off again on every exit. */
    method HandleSubmit(reply: ServerReply) returns (sent: Option<RegisterApi.Request>, redirect: Option<string>)
      modifies this
      ensures formData == old(formData) && !loading
      ensures ClientError(formData).Some? ==>
        sent.None? && redirect.None? && error == ClientError(formData).value
      ensures ClientError(formData).None? ==> sent == Some(Body(formData))
      ensures ClientError(formData).None? && reply.Accepted? ==> redirect == Some(LoginRedirect) && error == ""
      ensures ClientError(formData).None? && !reply.Accepted? ==> redirect.None? && error == FailureMessage(reply)
    {
      error := "";
      loading := true;
      sent, redirect := None, None;
      if formData.password != formData.confirmPassword {
        error := MismatchMessage;
        loading := false;
        return;
      }
      if |formData.password| < MinPasswordLength {
        error := TooShortMessage;
        loading := false;
        return;
      }
      sent := Some(Body(formData));
      match reply {
        case Accepted =>
          redirect := Some(LoginRedirect);
        case Rejected(e) =>
          error := if e == "" then DefaultFailure else e;
        case Thrown(msg) =>
          error := msg;
      }
      loading := false;
    }
  }
}

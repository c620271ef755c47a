/**
 * The login page: a two-field form whose submission signs the customer in
 * and persists the session identity (token and customer id).
 */
module Login {
  import opened Session

  datatype FormData = FormData(email: string, pass: string)

  /** The inputs of the form, by their `name` attribute. */
  datatype Field = Email | Pass

  /** The sign-in answer: `access_token` and the customer `id`. */
  datatype SignInResponse = SignInResponse(accessToken: string, id: string)

  const LoginErrorMessage := "Erro no login. Verifique suas credenciais."

  function FieldValue(f: FormData, field: Field): string {
    match field
    case Email => f.email
    case Pass => f.pass
  }

  /** The form after the input named `field` reported `value`. */
  function WithField(f: FormData, field: Field, value: string): (r: FormData)
    ensures FieldValue(r, field) == value
    ensures forall other: Field :: other != field ==> FieldValue(r, other) == FieldValue(f, other)
  {
    match field
    case Email => f.(email := value)
    case Pass => f.(pass := value)
  }

  class LoginPage {
    const storage: LocalStorage
    var formData: FormData
    var errorMessage: string
    var navigatedTo: Option<string>
    var lastAlert: Option<Alert>
    var requests: seq<Request>

    /** The page as first rendered: an empty form and no error. */
    constructor (storage: LocalStorage)
      ensures this.storage == storage
      ensures formData == FormData("", "") && errorMessage == ""
      ensures navigatedTo == None && lastAlert == None && requests == []
    {
      this.storage := storage;
      formData := FormData("", "");
      errorMessage := "";
      navigatedTo := None;
      lastAlert := None;
      requests := [];
    }

    /** `handleChange`: only the field named by the event takes the new value. */
    method HandleChange(field: Field, value: string)
      modifies this`formData
      ensures formData == WithField(old(formData), field, value)
    {
      formData := WithField(formData, field, value);
    }

    /**
     * `handleSubmit`: posts the form; on success persists the token and the
     * customer id and goes to the catalogue, on failure only shows the error.
     * The persisted order id is never touched.
     */
    method HandleSubmit(response: Outcome<SignInResponse>)
      modifies this`errorMessage, this`navigatedTo, this`lastAlert, this`requests, storage
      ensures requests == old(requests) + [PostSignIn(formData.email, formData.pass)]
      ensures response.Success? ==>
        && storage.items == SessionEstablished(old(storage.items), response.value.accessToken, response.value.id)
        && navigatedTo == Some(HomeRoute)
        && lastAlert == Some(LoginSucceeded)
        && errorMessage == old(errorMessage)
      ensures response.Failure? ==>
        && storage.items == old(storage.items)
        && navigatedTo == old(navigatedTo)
        && lastAlert == old(lastAlert)
        && errorMessage == LoginErrorMessage
      ensures storage.GetItem(OrderId) == old(storage.GetItem(OrderId))
    {
      requests := requests + [PostSignIn(formData.email, formData.pass)];
      match response
      case Success(answer) =>
        lastAlert := Some(LoginSucceeded);
        storage.SetItem(AuthToken, answer.accessToken);
        storage.SetItem(IdUser, answer.id);
        navigatedTo := Some(HomeRoute);
      case Failure =>
        errorMessage := LoginErrorMessage;
    }
  }
}

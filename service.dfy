/** The browser-side account calls: registration, whose backend answer or
    error is normalised into a success/failure value with a flat list of
    field messages, and the profile lookup, which yields the user or nothing. */
module AuthService {
  import opened Js
  import opened AuthTypes

  const RegisterErrorMessage: string := "Kayıt sırasında bir hata oluştu"

  /** The body of a 2xx `/auth/register` answer. */
  datatype RegisterResponse =
    | RegisterSucceeded(data: AuthData)
    | RegisterRejected(message: string)

  /** The body of an error answer: a message and the messages per field,
      the fields listed in the order the object holds them. */
  datatype ApiErrorResponse = ApiErrorResponse(
    message: Option<string>,
    errors: Option<seq<(string, seq<string>)>>)

  /** How an HTTP call through the client ends: a 2xx answer with its body,
      an error whose response carries a body, or any other error (no
      response, an empty body, or an exception that is not the client's). */
  datatype CallOutcome<B> =
    | Answered(body: B)
    | ErrorWithBody(errorBody: ApiErrorResponse)
    | ErrorWithoutBody

  /** What `register` resolves to. */
  datatype RegisterResult =
    | Registered(user: ApiUser, token: string)
    | RegisterFailed(message: string, errors: Option<seq<string>>)

  /** The summed lengths of a list of lists. */
  function TotalLength(lists: seq<seq<string>>): nat {
    if lists == [] then 0 else |lists[0]| + TotalLength(lists[1..])
  }

  /** `lists.flat()`: the lists one after another. */
  function Flatten(lists: seq<seq<string>>): (r: seq<string>)
    ensures |r| == TotalLength(lists)
  {
    if lists == [] then [] else lists[0] + Flatten(lists[1..])
  }

  /** `Object.values(dict)`. */
  function Values(dict: seq<(string, seq<string>)>): seq<seq<string>> {
    seq(|dict|, i requires 0 <= i < |dict| => dict[i].1)
  }

  /** Flattening keeps the order: the lists are laid out one after another,
      the `j`-th message of list `i` sitting after all messages of the lists
      before it. */
  lemma {:induction false} FlattenAt(lists: seq<seq<string>>, i: nat, j: nat)
    requires i < |lists| && j < |lists[i]|
    ensures TotalLength(lists[..i]) + j < |Flatten(lists)|
    ensures Flatten(lists)[TotalLength(lists[..i]) + j] == lists[i][j]
  {
    var before := TotalLength(lists[..i]);
    if i == 0 {
      assert lists[..i] == [];
      assert Flatten(lists) == lists[0] + Flatten(lists[1..]);
    } else {
      var tail := lists[1..];
      FlattenAt(tail, i - 1, j);
      assert tail[i - 1] == lists[i];
      assert lists[..i][0] == lists[0] && lists[..i][1..] == tail[..i - 1];
      assert before == |lists[0]| + TotalLength(tail[..i - 1]);
      var k := TotalLength(tail[..i - 1]) + j;
      assert Flatten(lists) == lists[0] + Flatten(tail);
      assert Flatten(lists)[|lists[0]| + k] == Flatten(tail)[k];
    }
  }

  /** Every flattened message comes from one of the lists. */
  lemma {:induction false} FlattenFrom(lists: seq<seq<string>>, k: nat)
    requires k < |Flatten(lists)|
    ensures exists i, j :: 0 <= i < |lists| && 0 <= j < |lists[i]| && Flatten(lists)[k] == lists[i][j]
  {
    if k < |lists[0]| {
      assert Flatten(lists)[k] == lists[0][k];
    } else {
      FlattenFrom(lists[1..], k - |lists[0]|);
      var i, j :| 0 <= i < |lists[1..]| && 0 <= j < |lists[1..][i]| && Flatten(lists[1..])[k - |lists[0]|] == lists[1..][i][j];
      assert Flatten(lists)[k] == lists[i + 1][j];
    }
  }

  /** Flattening two parts is flattening each and joining the results. */
  lemma {:induction false} FlattenAppend(a: seq<seq<string>>, b: seq<seq<string>>)
    ensures Flatten(a + b) == Flatten(a) + Flatten(b)
  {
    if a == [] {
      assert a + b == b;
    } else {
      var ab := a + b;
      assert ab[0] == a[0] && ab[1..] == a[1..] + b;
      FlattenAppend(a[1..], b);
      calc {
        Flatten(ab);
        ab[0] + Flatten(ab[1..]);
        a[0] + (Flatten(a[1..]) + Flatten(b));
        (a[0] + Flatten(a[1..])) + Flatten(b);
      }
    }
  }

  /** The field messages of an error body, flattened, when it has any. */
  function FlatErrors(body: ApiErrorResponse): (r: Option<seq<string>>)
    ensures body.errors.None? <==> r.None?
    ensures body.errors.Some? ==> |r.value| == TotalLength(Values(body.errors.value))
  {
    if body.errors.Some? then Some(Flatten(Values(body.errors.value))) else None
  }

  /** `register(data)`, with the client's outcome given. */
  function Register(outcome: CallOutcome<RegisterResponse>): (r: RegisterResult)
    // a 2xx success gives the user and token the backend sent
    ensures r.Registered? <==> outcome.Answered? && outcome.body.RegisterSucceeded?
    ensures r.Registered? ==> r.user == outcome.body.data.user && r.token == outcome.body.data.token
    // a 2xx rejection passes the backend's message on, without field messages
    ensures outcome.Answered? && outcome.body.RegisterRejected? ==>
      r == RegisterFailed(outcome.body.message, None)
    // an error body yields its message, or the fallback when that is empty or
    // missing, and its flattened field messages when it has any
    ensures outcome.ErrorWithBody? ==>
      && r.RegisterFailed?
      && r.message == (if Truthy(outcome.errorBody.message) then outcome.errorBody.message.value
                       else RegisterErrorMessage)
      && r.errors == FlatErrors(outcome.errorBody)
    // any other error gives the fallback alone
    ensures outcome.ErrorWithoutBody? ==> r == RegisterFailed(RegisterErrorMessage, None)
    // the message of a failed call is never empty
    ensures !outcome.Answered? ==> r.RegisterFailed? && r.message != ""
  {
    match outcome
    case Answered(RegisterSucceeded(data)) => Registered(data.user, data.token)
    case Answered(RegisterRejected(message)) => RegisterFailed(message, None)
    case ErrorWithBody(body) => RegisterFailed(Or(body.message, RegisterErrorMessage), FlatErrors(body))
    case ErrorWithoutBody => RegisterFailed(RegisterErrorMessage, None)
  }

  /** The field messages reported by a registration error appear in field
      order: the `j`-th message of the `i`-th field sits after every message
      of the fields before it. */
  lemma {:induction false} RegisterErrorsInFieldOrder(body: ApiErrorResponse, i: nat, j: nat)
    requires body.errors.Some? && i < |body.errors.value| && j < |body.errors.value[i].1|
    ensures var r := Register(ErrorWithBody(body));
      var lists := Values(body.errors.value);
      && r.errors.Some?
      && TotalLength(lists[..i]) + j < |r.errors.value|
      && r.errors.value[TotalLength(lists[..i]) + j] == body.errors.value[i].1[j]
  {
    FlattenAt(Values(body.errors.value), i, j);
  }

  /** The body of a 2xx `/auth/me` answer. */
  datatype MeResponse = MeSucceeded(user: ApiUser) | MeRejected

  /** `getMe()`: the user exactly when the call succeeded and the backend
      says so, and nothing in every other case, errors included. */
  function GetMe(outcome: CallOutcome<MeResponse>): (r: Option<ApiUser>)
    ensures r.Some? <==> outcome.Answered? && outcome.body.MeSucceeded?
    ensures r.Some? ==> r.value == outcome.body.user
  {
    match outcome
    case Answered(MeSucceeded(user)) => Some(user)
    case _ => None
  }
}

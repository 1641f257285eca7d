/** `handleChangePassword` of the change-password screen: an ordered chain
    of early returns over the access token and the two new-password fields,
    then one call to the user service whose answer decides between an error
    modal and going back. */
module ChangePassword {
  import opened Wrappers

  const Mismatch := "Nye passord matcher ikke"
  const TooShort := "Passordet må være minst 8 tegn"
  const MinLength := 8

  /** The arguments of `userService().changePassword(token, old, new)`. */
  datatype ChangeRequest = ChangeRequest(token: string, oldPassword: string, newPassword: string)

  /** What the guards decide before anything is awaited. */
  datatype Check = NoToken | Rejected(message: string) | Submit(request: ChangeRequest)

  /** The user-visible effects of one press. */
  datatype Effects = Effects(errorModal: Option<string>, call: Option<ChangeRequest>, goBacks: nat)

  /** The guards, in source order: token, match, then length. */
  function Validate(token: Option<string>, oldPassword: string, newPassword: string,
                    confirmPassword: string): Check
  {
    if !Truthy(token) then NoToken
    else if newPassword != confirmPassword then Rejected(Mismatch)
    else if |newPassword| < MinLength then Rejected(TooShort)
    else Submit(ChangeRequest(token.value, oldPassword, newPassword))
  }

  /** The whole handler; `reply` is what the service answers if it is called. */
  function HandleChangePassword(token: Option<string>, oldPassword: string, newPassword: string,
                                confirmPassword: string, reply: Result<()>): Effects
  {
    match Validate(token, oldPassword, newPassword, confirmPassword)
    case NoToken => Effects(None, None, 0)
    case Rejected(message) => Effects(Some(message), None, 0)
    case Submit(request) =>
      if reply.Err? then Effects(Some(reply.error), Some(request), 0)
      else Effects(None, Some(request), 1)
  }

  /** Without a token nothing at all happens. */
  lemma NoTokenDoesNothing(token: Option<string>, o: string, n: string, c: string, reply: Result<()>)
    requires !Truthy(token)
    ensures HandleChangePassword(token, o, n, c, reply) == Effects(None, None, 0)
  {
  }

  /** A mismatch is reported before the length, whatever the length. */
  lemma MismatchFirst(token: Option<string>, o: string, n: string, c: string, reply: Result<()>)
    requires Truthy(token) && n != c
    ensures HandleChangePassword(token, o, n, c, reply) == Effects(Some(Mismatch), None, 0)
  {
  }

  /** Matching passwords shorter than eight characters are refused. */
  lemma ShortRefused(token: Option<string>, o: string, n: string, reply: Result<()>)
    requires Truthy(token) && |n| < MinLength
    ensures HandleChangePassword(token, o, n, n, reply) == Effects(Some(TooShort), None, 0)
  {
  }

  /** The service is called exactly when the token is present, the
      passwords match and are long enough; it gets the token, the old
      password unchecked, and the new one. */
  lemma CallIffValid(token: Option<string>, o: string, n: string, c: string, reply: Result<()>)
    ensures var e := HandleChangePassword(token, o, n, c, reply);
      && (e.call.Some? <==> Truthy(token) && n == c && |n| >= MinLength)
      && (e.call.Some? ==> e.call.value == ChangeRequest(token.value, o, n))
  {
  }

  /** After the call, a service error shows the service's message and stays;
      success shows nothing and goes back exactly once. Nothing but a
      completed call ever goes back. */
  lemma ReplyHandling(token: Option<string>, o: string, n: string, c: string, reply: Result<()>)
    ensures var e := HandleChangePassword(token, o, n, c, reply);
      && e.goBacks <= 1
      && (e.goBacks == 1 <==> e.call.Some? && reply.Ok?)
      && (e.call.Some? && reply.Err? ==> e.errorModal == Some(reply.error))
      && (e.call.Some? && reply.Ok? ==> e.errorModal.None?)
  {
  }
}

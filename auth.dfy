/** The OAuth callback check: the token exchange must succeed and the returned state must match. */
module Auth {
  import opened Wrappers

  datatype CallbackOutcome<Token> =
    | Authenticated(token: Token)
    | TokenRejected(err: string)
    | StateMismatch(got: string, want: string)

  /**
   * The callback handler: a failed token exchange is reported first, then a state that differs from
   * the one the authorization URL carried; only then is the client handed over.
   */
  function CompleteAuth<Token>(exchange: Result<Token, string>, formState: string, state: string): (r: CallbackOutcome<Token>)
    ensures r.Authenticated? <==> exchange.Ok? && formState == state
    ensures r.Authenticated? ==> r.token == exchange.value
    ensures exchange.Err? ==> r == TokenRejected(exchange.error)
  {
    match exchange
    case Err(e) => TokenRejected(e)
    case Ok(token) => if formState != state then StateMismatch(formState, state) else Authenticated(token)
  }

  /** A returned state differing from the issued one in a single character is never accepted. */
  lemma OneCharacterOffIsRejected<Token>(exchange: Result<Token, string>, state: string, i: nat, c: char)
    requires i < |state| && c != state[i]
    ensures !CompleteAuth(exchange, state[i := c], state).Authenticated?
  {
    assert state[i := c][i] != state[i];
  }
}

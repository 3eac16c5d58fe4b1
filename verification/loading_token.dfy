/** LoadingToken: one per generator, it issues a new token for every initial
    page load and recognises only the latest one, so that responses to an
    earlier load can be told apart from responses to the current one.
    Tokens are strings in the app; here they are the counter that issues
    them, which is all the comparison needs. */
module LoadingTokens {

  /** The token most recently issued; 0 before the first reset. */
  datatype LoadingToken = LoadingToken(current: nat)

  /** The token of a generator that has not loaded yet. */
  function Initial(): LoadingToken {
    LoadingToken(0)
  }

  /** resetInitialPageLoadingToken: issue a new token and make it the only
      valid one. The result holds the updated LoadingToken and the token. */
  function ResetInitialPageLoadingToken(lt: LoadingToken): (r: (LoadingToken, nat))
    ensures r.1 == r.0.current
    ensures r.1 > lt.current
  {
    var next := lt.current + 1;
    (LoadingToken(next), next)
  }

  /** isValidInitialPageLoadingToken: the token is the latest issued. */
  predicate IsValidInitialPageLoadingToken(lt: LoadingToken, token: nat) {
    token == lt.current
  }

  /** The token just issued is valid, and no token issued before it is. */
  lemma ResetInvalidatesEarlier(lt: LoadingToken, token: nat)
    requires token <= lt.current
    ensures IsValidInitialPageLoadingToken(ResetInitialPageLoadingToken(lt).0, ResetInitialPageLoadingToken(lt).1)
    ensures !IsValidInitialPageLoadingToken(ResetInitialPageLoadingToken(lt).0, token)
  {
  }
}

/**
 * Bearer-token authentication (the token of section 2.1 of RFC 6750): a mutable
 * set of valid tokens, and per-token usage counters updated on each successful
 * validation.
 */
module Auth {

  /** What `get_token_stats` reports. */
  datatype TokenStats = TokenStats(totalTokens: nat, activeTokens: nat, usage: map<string, nat>)

  class AuthService {
    var validTokens: set<string>
    /** Successful validations per token; only validated tokens have an entry. */
    var tokenUsage: map<string, nat>
    /**
     * Every token that has ever passed validation: the history the contracts
     * speak of. `Valid()` ties it to the keys of `tokenUsage`, so that the
     * stats and the counters are stated against what happened rather than
     * against how the counter map is laid out.
     */
    ghost var everValidated: set<string>

    ghost predicate Valid()
      reads this
    {
      && tokenUsage.Keys == everValidated
      && forall t :: t in tokenUsage ==> tokenUsage[t] >= 1
    }

    /** The duplicates of the configured token list collapse into one set. */
    constructor (tokens: seq<string>)
      ensures Valid()
      ensures validTokens == set t | t in tokens
      ensures forall t :: t in validTokens <==> t in tokens
      ensures tokenUsage == map[] && everValidated == {}
    {
      validTokens := set t | t in tokens;
      tokenUsage := map[];
      everValidated := {};
    }

    /** How many times the token has been validated successfully so far. */
    function UsageCount(token: string): (n: nat)
      reads this
      requires Valid()
      ensures n == 0 <==> token !in everValidated
    {
      if token in tokenUsage then tokenUsage[token] else 0
    }

    /**
     * A token is accepted exactly when it is non-empty and currently valid; an
     * accepted token's counter rises by one, a rejected one changes nothing.
     */
    method ValidateToken(token: string) returns (ok: bool)
      requires Valid()
      modifies this`tokenUsage, this`everValidated
      ensures Valid()
      ensures ok <==> token != "" && token in validTokens
      ensures ok ==> UsageCount(token) == old(UsageCount(token)) + 1
      ensures ok ==> tokenUsage == old(tokenUsage)[token := old(UsageCount(token)) + 1]
      ensures ok ==> everValidated == old(everValidated) + {token}
      ensures !ok ==> tokenUsage == old(tokenUsage) && everValidated == old(everValidated)
    {
      if token == "" || token !in validTokens {
        return false;
      }
      var count := if token in tokenUsage then tokenUsage[token] else 0;
      tokenUsage := tokenUsage[token := count + 1];
      everValidated := everValidated + {token};
      return true;
    }

    /** The number of valid tokens and the number of distinct tokens ever validated. */
    function TokenStatsNow(): (s: TokenStats)
      reads this
      requires Valid()
      ensures s.totalTokens == |validTokens|
      ensures s.activeTokens == |everValidated|
      ensures forall t :: t in s.usage <==> t in everValidated
      ensures forall t :: t in s.usage ==> s.usage[t] == UsageCount(t)
    {
      TokenStats(|validTokens|, |tokenUsage.Keys|, tokenUsage)
    }

    /** Makes the token valid; adding a token that is already valid changes nothing. */
    method AddToken(token: string)
      requires Valid()
      modifies this`validTokens
      ensures Valid()
      ensures validTokens == old(validTokens) + {token}
      ensures token in old(validTokens) ==> validTokens == old(validTokens)
    {
      validTokens := validTokens + {token};
    }

    /** Removes the token, reporting whether it was valid; the other tokens are untouched. */
    method RemoveToken(token: string) returns (removed: bool)
      requires Valid()
      modifies this`validTokens
      ensures Valid()
      ensures removed <==> token in old(validTokens)
      ensures validTokens == old(validTokens) - {token}
      ensures token !in validTokens
    {
      if token in validTokens {
        validTokens := validTokens - {token};
        return true;
      }
      return false;
    }
  }
}

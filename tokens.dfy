/** The token quota (src/services/tokenService.ts). The `token_usage` table is a map
    from user id to the tokens that user has used; each database round trip that can
    fail is a boolean parameter saying whether it failed. */
module Tokens {

  const MaxTokens := 20000

  datatype TokenUsage = TokenUsage(usedTokens: int, maxTokens: int)

  /** Why `updateTokenUsage` rejects. */
  datatype UpdateError = FetchFailed | LimitExceeded | WriteFailed

  datatype UpdateOutcome = Updated | Rejected(reason: UpdateError)

  const LimitExceededMessage := "Token limit exceeded"

  /** Line 70: `existingData?.used_tokens || 0`: a missing record counts as 0. */
  function CurrentTokens(used: map<string, int>, user: string): int {
    if user in used then used[user] else 0
  }

  /** Lines 71-73: the limit check of an update. */
  predicate WithinLimit(used: map<string, int>, user: string, newTokens: int) {
    CurrentTokens(used, user) + newTokens <= MaxTokens
  }

  /** Lines 102-105: `Math.ceil(text.length / 4)`. */
  function CalculateTokens(text: string): (n: nat)
    ensures 4 * n >= |text| && 4 * n < |text| + 4
  {
    (|text| + 3) / 4
  }

  /** Longer texts never cost fewer tokens, and every four characters cost one more. */
  lemma CalculateTokensGrowth(s: string, t: string)
    ensures |s| <= |t| ==> CalculateTokens(s) <= CalculateTokens(t)
    ensures |t| == |s| + 4 ==> CalculateTokens(t) == CalculateTokens(s) + 1
  {
  }

  class TokenLedger {
    var used: map<string, int>

    constructor (initial: map<string, int>)
      ensures used == initial
    {
      used := initial;
    }

    /** Lines 10-53. Every failure is caught and reported as 0 used; a user without
        a record gets one with 0 used, unless that insert fails. */
    method GetTokenUsage(user: string, fetchFails: bool, insertFails: bool) returns (usage: TokenUsage)
      modifies this
      ensures usage.maxTokens == MaxTokens
      ensures usage.usedTokens == (if fetchFails then 0 else CurrentTokens(old(used), user))
      ensures used == (if !fetchFails && user !in old(used) && !insertFails then old(used)[user := 0] else old(used))
    {
      if fetchFails {
        return TokenUsage(0, MaxTokens);
      }
      if user !in used {
        if !insertFails {
          used := used[user := 0];
        }
        return TokenUsage(0, MaxTokens);
      }
      usage := TokenUsage(used[user], MaxTokens);
    }

    /** Lines 55-100. A rejection writes nothing; a success stores the old count plus
        `newTokens` for this user, which is within the cap, and touches no other user. */
    method UpdateTokenUsage(user: string, newTokens: int, fetchFails: bool, writeFails: bool)
      returns (outcome: UpdateOutcome)
      modifies this
      ensures fetchFails ==> outcome == Rejected(FetchFailed)
      ensures !fetchFails && !WithinLimit(old(used), user, newTokens) ==> outcome == Rejected(LimitExceeded)
      ensures !fetchFails && WithinLimit(old(used), user, newTokens) ==>
                outcome == (if writeFails then Rejected(WriteFailed) else Updated)
      ensures outcome.Rejected? ==> used == old(used)
      ensures outcome.Updated? ==> used == old(used)[user := CurrentTokens(old(used), user) + newTokens]
      ensures outcome.Updated? ==> used[user] <= MaxTokens
      ensures outcome.Updated? && user !in old(used) ==> used[user] == newTokens
      ensures forall u :: u != user && u in old(used) ==> u in used && used[u] == old(used)[u]
    {
      if fetchFails {
        return Rejected(FetchFailed);
      }
      var currentTokens := if user in used then used[user] else 0;
      var updatedTokens := currentTokens + newTokens;
      if updatedTokens > MaxTokens {
        return Rejected(LimitExceeded);
      }
      if writeFails {
        return Rejected(WriteFailed);
      }
      if user !in used {
        used := used[user := newTokens];
      } else {
        used := used[user := updatedTokens];
      }
      outcome := Updated;
    }

    /** Lines 107-115: `used_tokens + requiredTokens <= MAX_TOKENS` on what
        `getTokenUsage` reports. That call catches its own failures, so a failed
        read counts as 0 used. */
    method HasEnoughTokens(user: string, required: int, fetchFails: bool, insertFails: bool) returns (enough: bool)
      modifies this
      ensures enough == (if fetchFails then required <= MaxTokens else WithinLimit(old(used), user, required))
      ensures used == (if !fetchFails && user !in old(used) && !insertFails then old(used)[user := 0] else old(used))
    {
      var usage := GetTokenUsage(user, fetchFails, insertFails);
      enough := usage.usedTokens + required <= usage.maxTokens;
    }
  }

  /** The zero record that `getTokenUsage` creates for a new user changes neither that
      user's count nor the limit check of any later update. */
  lemma ZeroRecordIsInvisible(used: map<string, int>, user: string, other: string, n: int)
    requires user !in used
    ensures CurrentTokens(used[user := 0], other) == CurrentTokens(used, other)
    ensures WithinLimit(used[user := 0], other, n) <==> WithinLimit(used, other, n)
  {
  }

  /** A run of successful updates never lets any user's count pass the cap, provided
      it started within the cap. */
  predicate WithinCap(used: map<string, int>) {
    forall u :: u in used ==> used[u] <= MaxTokens
  }

  lemma UpdatePreservesCap(used: map<string, int>, user: string, newTokens: int)
    requires WithinCap(used) && WithinLimit(used, user, newTokens)
    ensures WithinCap(used[user := CurrentTokens(used, user) + newTokens])
  {
  }
}

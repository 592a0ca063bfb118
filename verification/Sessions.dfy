/**
 * Refresh-token rotation (apps/api/src/modules/auth/auth.service.ts), as a
 * sequence of calls. Raw tokens are random and hashes injective, so a token is
 * named by its row; a name beyond the table is a token nobody issued.
 */
module Sessions {
  import opened Options

  const SHORT_TTL_MS: int := 24 * 60 * 60 * 1000
  const REMEMBERED_TTL_MS: int := 30 * 24 * 60 * 60 * 1000

  /** `chain` is the row of the login the token descends from; nothing branches on it. */
  datatype Token = Token(userId: nat, rememberMe: bool, expiresAt: int, revokedAt: Option<int>, chain: nat)

  datatype Outcome = Issued(token: nat) | Unauthorized

  function Ttl(rememberMe: bool): int {
    if rememberMe then REMEMBERED_TTL_MS else SHORT_TTL_MS
  }

  predicate Accepted(tokens: seq<Token>, raw: Option<nat>, now: int) {
    raw.Some? && raw.value < |tokens| && tokens[raw.value].revokedAt == None && tokens[raw.value].expiresAt >= now
  }

  /** The tokens neither revoked nor past their expiry. */
  function Live(tokens: seq<Token>, now: int): set<nat> {
    set i | 0 <= i < |tokens| && tokens[i].revokedAt == None && tokens[i].expiresAt >= now
  }

  /** Every token of a chain but the last is revoked, and user and rememberMe are those of its login. */
  ghost predicate ChainsInv(tokens: seq<Token>) {
    && (forall i | 0 <= i < |tokens| :: tokens[i].chain <= i && tokens[tokens[i].chain].chain == tokens[i].chain)
    && (forall i | 0 <= i < |tokens| ::
          && tokens[i].userId == tokens[tokens[i].chain].userId
          && tokens[i].rememberMe == tokens[tokens[i].chain].rememberMe)
    && (forall i, j | 0 <= i < j < |tokens| && tokens[i].chain == tokens[j].chain :: tokens[i].revokedAt.Some?)
  }

  function Revoke(tokens: seq<Token>, i: nat, now: int): seq<Token>
    requires i < |tokens|
  {
    tokens[i := tokens[i].(revokedAt := Some(now))]
  }

  /** The token issued for the one used: same user, same rememberMe, same chain, a new expiry. */
  function Successor(stored: Token, now: int): Token {
    Token(stored.userId, stored.rememberMe, now + Ttl(stored.rememberMe), None, stored.chain)
  }

  class TokenStore {
    var tokens: seq<Token>

    ghost predicate Valid()
      reads this
    {
      ChainsInv(tokens)
    }

    constructor ()
      ensures Valid() && tokens == []
    {
      tokens := [];
    }

    /** `issueSession` for a new login: a chain of its own. */
    method Login(user: nat, rememberMe: bool, now: int) returns (raw: nat)
      requires Valid()
      modifies this
      ensures Valid() && raw == |old(tokens)|
      ensures var ttl := if rememberMe then 2_592_000_000 else 86_400_000;
              tokens == old(tokens) + [Token(user, rememberMe, now + ttl, None, raw)]
    {
      raw := |tokens|;
      tokens := tokens + [Token(user, rememberMe, now + Ttl(rememberMe), None, raw)];
    }

    /** Revokes the token used and issues its successor; as many tokens are live after as before. */
    method Refresh(raw: Option<nat>, now: int) returns (outcome: Outcome)
      requires Valid()
      modifies this
      ensures Valid()
      ensures outcome.Issued?
              <==> && raw.Some? && raw.value < |old(tokens)| && old(tokens)[raw.value].revokedAt == None
                   && now <= old(tokens)[raw.value].expiresAt
      ensures outcome == Unauthorized ==> tokens == old(tokens)
      ensures outcome.Issued? ==>
                && outcome.token == |old(tokens)|
                && var used := old(tokens)[raw.value];
                   var ttl := if used.rememberMe then 2_592_000_000 else 86_400_000;
                   tokens == old(tokens)[raw.value := used.(revokedAt := Some(now))]
                             + [Token(used.userId, used.rememberMe, now + ttl, None, used.chain)]
      ensures |Live(tokens, now)| == |Live(old(tokens), now)|
    {
      if raw == None { return Unauthorized; }
      if raw.value >= |tokens| || tokens[raw.value].revokedAt.Some? || tokens[raw.value].expiresAt < now {
        return Unauthorized;
      }
      var stored := tokens[raw.value];
      RotationKeepsLive(tokens, raw.value, now, Successor(stored, now));
      RotationKeepsChains(tokens, raw.value, now);
      tokens := Revoke(tokens, raw.value, now);
      tokens := tokens + [Successor(stored, now)];
      return Issued(|tokens| - 1);
    }

    method Logout(raw: Option<nat>, now: int)
      requires Valid()
      modifies this
      ensures Valid()
      ensures tokens == if raw.Some? && raw.value < |old(tokens)|
                        then old(tokens)[raw.value := old(tokens)[raw.value].(revokedAt := Some(now))]
                        else old(tokens)
    {
      if raw == None { return; }
      if raw.value < |tokens| {
        tokens := Revoke(tokens, raw.value, now);
      }
    }
  }

  lemma RotationKeepsChains(tokens: seq<Token>, i: nat, now: int)
    requires ChainsInv(tokens) && i < |tokens| && tokens[i].revokedAt == None
    ensures ChainsInv(Revoke(tokens, i, now) + [Successor(tokens[i], now)])
  {
  }

  lemma RotationKeepsLive(tokens: seq<Token>, i: nat, now: int, successor: Token)
    requires Accepted(tokens, Some(i), now)
    requires successor.revokedAt == None && successor.expiresAt >= now
    ensures |Live(Revoke(tokens, i, now) + [successor], now)| == |Live(tokens, now)|
  {
    var after := Live(Revoke(tokens, i, now) + [successor], now);
    assert after == Live(tokens, now) - {i} + {|tokens|};
  }

  /** At most one token of a login chain is live, and all carry the login's user and rememberMe. */
  lemma OneLiveTokenPerChain(tokens: seq<Token>, now: int, i: nat, j: nat)
    requires ChainsInv(tokens) && i < |tokens| && j < |tokens| && tokens[i].chain == tokens[j].chain
    ensures i in Live(tokens, now) && j in Live(tokens, now) ==> i == j
    ensures tokens[i].userId == tokens[j].userId && tokens[i].rememberMe == tokens[j].rememberMe
  {
  }

  /** Logins seen in the table. */
  function Logins(tokens: seq<Token>): set<nat> {
    set i | 0 <= i < |tokens| :: tokens[i].chain
  }

  /** So there are never more live tokens than logins. */
  lemma NoMoreLiveThanLogins(tokens: seq<Token>, now: int)
    requires ChainsInv(tokens)
    ensures |Live(tokens, now)| <= |Logins(tokens)|
  {
    InjectionBound(tokens, Live(tokens, now), Logins(tokens));
  }

  lemma InjectionBound(tokens: seq<Token>, live: set<nat>, logins: set<nat>)
    requires forall i | i in live :: i < |tokens| && tokens[i].chain in logins
    requires forall i, j | i in live && j in live && tokens[i].chain == tokens[j].chain :: i == j
    ensures |live| <= |logins|
  {
    if live != {} {
      var i :| i in live;
      InjectionBound(tokens, live - {i}, logins - {tokens[i].chain});
    }
  }

  /** A token that has been rotated is refused for ever: any later token of its chain shuts it out. */
  lemma RotatedTokenIsRefused(tokens: seq<Token>, i: nat, j: nat, now: int)
    requires ChainsInv(tokens) && i < j < |tokens| && tokens[i].chain == tokens[j].chain
    ensures !Accepted(tokens, Some(i), now)
  {
  }
}

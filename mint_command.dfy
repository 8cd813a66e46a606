/**
 * The `/mint` command (backend/src/commands/mint.js): upsert the sender,
 * ask `canMint`, stop with a message on the cap or the cooldown, otherwise
 * open a one-hour session and send the webapp link. The session id, which
 * the source draws from `uuidv4`, is supplied by the caller, as is the
 * configured WEBAPP_URL.
 */
module MintCommand {
  import opened Wrappers
  import opened JsString
  import opened Tables
  import opened Db
  import opened Messages

  /** The TTL the command passes to `sessionDB.create`, in seconds. */
  const CommandSessionTtl := 3600

  /** The part of the link in front of the telegram id. */
  function LinkPrefix(webappUrl: string, sessionId: string): string
  {
    webappUrl + "?session=" + sessionId + "&telegramId="
  }

  /**
   * `${CONFIG.WEBAPP_URL}?session=${sessionId}&telegramId=${telegramId}`: the
   * URL with both query parameters, the last of which is decimal text that
   * reads back as the sender's id.
   */
  function WebAppLink(webappUrl: string, sessionId: string, telegramId: int): (link: string)
    ensures var prefix := LinkPrefix(webappUrl, sessionId);
            && |prefix| < |link| && link[..|prefix|] == prefix
            && var tail := link[|prefix|..];
               && (tail[0] == '-' ==> AllDigits(tail[1..])) && (tail[0] != '-' ==> AllDigits(tail))
               && ParseInt(tail) == telegramId
  {
    var link := LinkPrefix(webappUrl, sessionId) + IntToString(telegramId);
    assert link[|LinkPrefix(webappUrl, sessionId)|..] == IntToString(telegramId);
    IntToStringRoundTrip(telegramId);
    link
  }

  /**
   * The command over the store. A `canMint` result whose flag is falsy but
   * whose reason is neither 'max_limit' nor 'cooldown' falls through to the
   * session, as the source's nested ifs do. The sender always has a user
   * row afterwards, NFTs are never touched, and the only session that can
   * appear or change is the sender's new one.
   */
  function MintCommandSpec(s: Store, telegramId: int, username: Option<string>, sessionId: string,
                           webappUrl: string, now: int): (r: (Store, Reply))
    ensures r.0.nfts == s.nfts && r.0.nextNftId == s.nextNftId
    ensures r.0.users.Keys == s.users.Keys + {telegramId}
    ensures r.1.MaxLimitReply? || r.1.CooldownReply? || r.1 == MintIntroReply(WebAppLink(webappUrl, sessionId, telegramId))
    ensures r.1.MintIntroReply? ==>
              && r.0.sessions.Keys == s.sessions.Keys + {sessionId}
              && r.0.sessions[sessionId].telegramId == telegramId
    ensures !r.1.MintIntroReply? ==> r.0.sessions == s.sessions
  {
    var s1 := s.(users := UpsertUser(s.users, telegramId, username, now));
    var check := CanMint(GetUser(s1.users, telegramId), now);
    if !check.CanMintFlag() && check.Reason() == Some("max_limit") then (s1, MaxLimitReply)
    else if !check.CanMintFlag() && check.Reason() == Some("cooldown") then (s1, CooldownReply(check.remainingSeconds))
    else
      (s1.(sessions := Tables.CreateSession(s1.sessions, sessionId, telegramId, now, CommandSessionTtl)),
       MintIntroReply(WebAppLink(webappUrl, sessionId, telegramId)))
  }

  /**
   * The gate always evaluates an existing row (the upsert runs first); the
   * cap and the cooldown each send their message and create no session;
   * otherwise exactly one session, owned by the sender and expiring in 3600
   * seconds, is created and the link names it. The NFT table never changes.
   */
  lemma MintCommandGate(s: Store, telegramId: int, username: Option<string>, sessionId: string,
                        webappUrl: string, now: int)
    ensures var (s', reply) := MintCommandSpec(s, telegramId, username, sessionId, webappUrl, now);
            var check := CanMint(GetUser(UpsertUser(s.users, telegramId, username, now), telegramId), now);
            && !check.NoUserRow?
            && s'.users == UpsertUser(s.users, telegramId, username, now)
            && s'.nfts == s.nfts && s'.nextNftId == s.nextNftId
            && (check.MaxLimit? ==> reply == MaxLimitReply && s'.sessions == s.sessions)
            && (check.Cooldown? ==> reply == CooldownReply(check.remainingSeconds) && s'.sessions == s.sessions)
            && (check.Allowed? ==>
                  && reply == MintIntroReply(WebAppLink(webappUrl, sessionId, telegramId))
                  && s'.sessions.Keys == s.sessions.Keys + {sessionId}
                  && s'.sessions[sessionId].telegramId == telegramId
                  && s'.sessions[sessionId].expiresAt == now + 3600
                  && forall k :: k in s.sessions && k != sessionId ==> s'.sessions[k] == s.sessions[k])
  {
  }

  /** A sender seen for the first time always gets the webapp link. */
  lemma NewUserGetsLink(s: Store, telegramId: int, username: Option<string>, sessionId: string,
                        webappUrl: string, now: int)
    requires telegramId !in s.users
    ensures MintCommandSpec(s, telegramId, username, sessionId, webappUrl, now).1 ==
            MintIntroReply(WebAppLink(webappUrl, sessionId, telegramId))
  {
  }

  /** The link determines the sender: two senders get the same link only when they are the same id. */
  lemma LinkCarriesTelegramId(webappUrl: string, sessionId: string, a: int, b: int)
    ensures WebAppLink(webappUrl, sessionId, a) == WebAppLink(webappUrl, sessionId, b) <==> a == b
  {
    var prefix := LinkPrefix(webappUrl, sessionId);
    var la, lb := WebAppLink(webappUrl, sessionId, a), WebAppLink(webappUrl, sessionId, b);
    if la == lb {
      assert la[|prefix|..] == lb[|prefix|..];
    }
  }

  method HandleMintCommand(db: Database, telegramId: int, username: Option<string>, sessionId: string,
                           webappUrl: string, now: int) returns (reply: Reply)
    requires db.Valid()
    modifies db
    ensures db.Valid()
    ensures (db.Snapshot(), reply) == MintCommandSpec(old(db.Snapshot()), telegramId, username, sessionId, webappUrl, now)
  {
    db.CreateUser(telegramId, username, now);
    var check := CanMint(GetUser(db.users, telegramId), now);
    if !check.CanMintFlag() {
      if check.Reason() == Some("max_limit") {
        return MaxLimitReply;
      }
      if check.Reason() == Some("cooldown") {
        return CooldownReply(check.remainingSeconds);
      }
    }
    db.CreateSession(sessionId, telegramId, now, CommandSessionTtl);
    reply := MintIntroReply(WebAppLink(webappUrl, sessionId, telegramId));
  }
}

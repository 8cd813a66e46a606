/**
 * `handleWebAppData` and the three handlers it dispatches to
 * (backend/src/handlers/webappHandler.js). The JSON text sent by the webapp
 * arrives already decoded; a field the JSON lacks or sets to null is `None`.
 * A handler either sends one reply or throws; the dispatcher turns a throw
 * into MESSAGES.ERROR. Writes made before a throw stay in the store.
 */
module WebAppHandler {
  import opened Wrappers
  import opened JsString
  import opened Tables
  import opened Db
  import opened Messages
  import Shared

  /** The fields of the decoded webapp message that the handlers read. */
  datatype Payload = Payload(
    kind: Option<string>,
    tokenId: Option<int>,
    transactionHash: Option<string>,
    walletAddress: Option<string>,
    metadataUri: Option<string>,
    blockNumber: Option<int>,
    sessionId: Option<string>,
    error: Option<string>)

  /** `JSON.parse(msg.web_app_data.data)`: text that does not parse, or parses to null, reads as Unparseable. */
  datatype WebAppData = Unparseable | Parsed(payload: Payload)

  /** How a handler ends: with one message sent, or with an exception caught by the dispatcher. */
  datatype Outcome = Sent(reply: Reply) | Threw

  const MintFailedPrefix := "Failed to mint NFT. "
  const RejectedText := "Transaction was rejected by user."
  const FundsText := "Insufficient funds for gas fees."
  const RetryText := "Please try again later."

  // ------------------------------------------------------- handleMintError

  /**
   * The text `handleMintError` sends: a fixed prefix, then the rejection text
   * whenever 'rejected' occurs anywhere in the error, else the funds text
   * when 'insufficient funds' occurs, else the generic text.
   */
  function MintErrorMessage(error: string): (m: string)
    ensures |m| > |MintFailedPrefix| && m[..|MintFailedPrefix|] == MintFailedPrefix
    ensures (exists i :: OccursAt(error, "rejected", i)) ==> m == MintFailedPrefix + RejectedText
    ensures (!exists i :: OccursAt(error, "rejected", i)) && (exists i :: OccursAt(error, "insufficient funds", i)) ==>
              m == MintFailedPrefix + FundsText
    ensures (!exists i :: OccursAt(error, "rejected", i)) && (!exists i :: OccursAt(error, "insufficient funds", i)) ==>
              m == MintFailedPrefix + RetryText
  {
    IncludesIff(error, "rejected");
    IncludesIff(error, "insufficient funds");
    MintFailedPrefix +
      (if Includes(error, "rejected") then RejectedText
       else if Includes(error, "insufficient funds") then FundsText
       else RetryText)
  }

  /** `handleMintError`: a missing `error` field makes `error.includes` throw. */
  function MintError(error: Option<string>): (o: Outcome)
    ensures error.None? <==> o.Threw?
    ensures error.Some? ==> o == Sent(MintFailedReply(MintErrorMessage(error.value)))
  {
    if error.None? then Threw else Sent(MintFailedReply(MintErrorMessage(error.value)))
  }

  /** 'rejected' anywhere in the error wins, even when the error also mentions insufficient funds. */
  lemma RejectedTakesPriority(before: string, after: string)
    ensures MintErrorMessage(before + "rejected" + after) == MintFailedPrefix + RejectedText
  {
    IncludesInfix(before, "rejected", after);
    IncludesIff(before + "rejected" + after, "rejected");
  }

  // ----------------------------------------------------- handleMintSuccess

  /** `!user.wallet_address || user.wallet_address !== walletAddress` */
  predicate WalletNeedsWrite(current: Option<string>, reported: Option<string>)
  {
    !Truthy(current) || current != reported
  }

  /**
   * `handleMintSuccess`: reads the sender's row (throwing when there is none),
   * rewrites the wallet when needed, increments the counter, then inserts the
   * NFT row; the two writes are not in a transaction. Sessions and the set
   * of users never change, and the one row a success adds belongs to the
   * sender, who has a user row.
   */
  function MintSuccess(s: Store, telegramId: int, p: Payload, now: int): (r: (Store, Outcome))
    ensures r.0.sessions == s.sessions && r.0.users.Keys == s.users.Keys
    ensures r.1.Sent? ==>
              && telegramId in r.0.users
              && |r.0.nfts| == |s.nfts| + 1 && r.0.nfts[..|s.nfts|] == s.nfts
              && r.0.nfts[|s.nfts|].ownerTelegramId == telegramId
    ensures r.1.Threw? ==> r.0.nfts == s.nfts
  {
    if telegramId !in s.users then (s, Threw)
    else
      var users1 := if WalletNeedsWrite(s.users[telegramId].walletAddress, p.walletAddress)
                    then UpdateUserWallet(s.users, telegramId, p.walletAddress, now)
                    else s.users;
      var s2 := s.(users := Tables.IncrementMintCount(users1, telegramId, now));
      match NftRow(s.nextNftId, p.tokenId, telegramId, p.walletAddress, p.metadataUri,
                   p.transactionHash, p.blockNumber, now)
      case Failure(_) => (s2, Threw)
      case Success(row) =>
        (s2.(nfts := s.nfts + [row], nextNftId := s.nextNftId + 1),
         Sent(MintSuccessReply(row.tokenId, row.transactionHash)))
  }

  /** A sender without a user row: the handler throws before any write. */
  lemma MintSuccessWithoutUser(s: Store, telegramId: int, p: Payload, now: int)
    requires telegramId !in s.users
    ensures MintSuccess(s, telegramId, p, now) == (s, Threw)
  {
  }

  /**
   * A sender with a row: afterwards its wallet is the reported one, its
   * counter is one higher with `last_mint_at = now`, nothing else in `users`
   * or `sessions` changed, and exactly one row carrying the reported fields
   * was appended when every NOT NULL field was present; otherwise no row was
   * appended but the counter was still raised, and the handler throws.
   */
  lemma MintSuccessEffect(s: Store, telegramId: int, p: Payload, now: int)
    requires telegramId in s.users
    ensures var (s', o) := MintSuccess(s, telegramId, p, now);
            var complete := p.tokenId.Some? && p.walletAddress.Some? && p.metadataUri.Some? && p.transactionHash.Some?;
            && s'.users.Keys == s.users.Keys
            && s'.users[telegramId] == s.users[telegramId].(walletAddress := p.walletAddress,
                                                             nftsMinted := s.users[telegramId].nftsMinted + 1,
                                                             lastMintAt := Some(now), updatedAt := now)
            && (forall id :: id in s.users && id != telegramId ==> s'.users[id] == s.users[id])
            && s'.sessions == s.sessions
            && (complete ==>
                  && s'.nfts == s.nfts + [Nft(s.nextNftId, p.tokenId.value, telegramId, p.walletAddress.value,
                                              p.metadataUri.value, p.transactionHash.value, p.blockNumber, now)]
                  && s'.nextNftId == s.nextNftId + 1
                  && o == Sent(MintSuccessReply(p.tokenId.value, p.transactionHash.value)))
            && (!complete ==> s'.nfts == s.nfts && s'.nextNftId == s.nextNftId && o.Threw?)
  {
  }

  /**
   * Starting from agreeing counts, a mint success keeps every user's counter
   * equal to its number of NFT rows exactly when the NFT insert succeeds; a
   * payload missing a NOT NULL field leaves the counter one ahead.
   */
  lemma MintSuccessAgreement(s: Store, telegramId: int, p: Payload, now: int)
    requires CountsAgree(s.users, s.nfts) && telegramId in s.users
    ensures var (s', o) := MintSuccess(s, telegramId, p, now);
            CountsAgree(s'.users, s'.nfts) <==>
              p.tokenId.Some? && p.walletAddress.Some? && p.metadataUri.Some? && p.transactionHash.Some?
  {
    var users1 := if WalletNeedsWrite(s.users[telegramId].walletAddress, p.walletAddress)
                  then UpdateUserWallet(s.users, telegramId, p.walletAddress, now)
                  else s.users;
    UpdateWalletKeepsAgreement(s.users, s.nfts, telegramId, p.walletAddress, now);
    assert CountsAgree(users1, s.nfts);
    var row := NftRow(s.nextNftId, p.tokenId, telegramId, p.walletAddress, p.metadataUri,
                      p.transactionHash, p.blockNumber, now);
    if row.Success? {
      RecordMintKeepsAgreement(users1, s.nfts, row.value, now);
    } else {
      IncrementAloneBreaksAgreement(users1, s.nfts, telegramId, now);
    }
  }

  // ------------------------------------------------- handleWalletConnected

  /**
   * The address as the wallet-connected message shows it: `slice(0, 6)...slice(-4)`.
   * This agrees with `shortenAddress` except on '', which `shortenAddress`
   * maps to '' (falsy) while this gives the bare ellipsis.
   */
  function ConnectedAddressText(wallet: string): (r: string)
    ensures wallet != "" ==> r == Shared.ShortenAddress(Some(wallet))
    ensures wallet == "" ==> r == "..."
  {
    Slice(wallet, 0, 6) + "..." + SliceFrom(wallet, -4)
  }

  /**
   * `handleWalletConnected`: sets the user's wallet (a no-op without a row),
   * sets the session's wallet only for a truthy `sessionId`, then formats the
   * reply, which throws when the wallet is missing. No row is added or
   * removed anywhere.
   */
  function WalletConnected(s: Store, telegramId: int, p: Payload, now: int): (r: (Store, Outcome))
    ensures r.0.nfts == s.nfts && r.0.nextNftId == s.nextNftId
    ensures r.0.users.Keys == s.users.Keys && r.0.sessions.Keys == s.sessions.Keys
    ensures r.1.Threw? <==> p.walletAddress.None?
  {
    var users := UpdateUserWallet(s.users, telegramId, p.walletAddress, now);
    var sessions := if Truthy(p.sessionId)
                    then Tables.UpdateSessionWallet(s.sessions, p.sessionId.value, p.walletAddress)
                    else s.sessions;
    (s.(users := users, sessions := sessions),
     if p.walletAddress.None? then Threw else Sent(WalletConnectedReply(ConnectedAddressText(p.walletAddress.value))))
  }

  lemma WalletConnectedEffect(s: Store, telegramId: int, p: Payload, now: int)
    ensures var (s', o) := WalletConnected(s, telegramId, p, now);
            && s'.nfts == s.nfts && s'.nextNftId == s.nextNftId
            && s'.users.Keys == s.users.Keys
            && (telegramId in s.users ==>
                  s'.users[telegramId] == s.users[telegramId].(walletAddress := p.walletAddress, updatedAt := now))
            && (forall id :: id in s.users && id != telegramId ==> s'.users[id] == s.users[id])
            && (!Truthy(p.sessionId) ==> s'.sessions == s.sessions)
            && (Truthy(p.sessionId) && p.sessionId.value in s.sessions ==>
                  s'.sessions[p.sessionId.value] == s.sessions[p.sessionId.value].(walletAddress := p.walletAddress))
            && (forall k :: k in s.sessions && Some(k) != p.sessionId ==> s'.sessions[k] == s.sessions[k])
            && (Truthy(p.walletAddress) ==> o == Sent(WalletConnectedReply(Shared.ShortenAddress(p.walletAddress))))
            && (p.walletAddress == Some("") ==> o == Sent(WalletConnectedReply("...")))
            && (p.walletAddress.None? ==> o.Threw?)
  {
  }

  // ------------------------------------------------------ handleWebAppData

  /** The dispatcher's catch: a thrown handler makes it send MESSAGES.ERROR instead. */
  function Caught(r: (Store, Outcome)): (Store, Option<Reply>)
  {
    (r.0, Some(if r.1.Threw? then ErrorReply else r.1.reply))
  }

  /**
   * The switch on `data.type`. An unknown type is only logged: nothing is
   * sent and nothing written. Any message keeps the sets of users and
   * sessions, and adds at most one NFT row, owned by the sender, who has a
   * user row.
   */
  function WebAppDataSpec(s: Store, telegramId: int, data: WebAppData, now: int): (r: (Store, Option<Reply>))
    ensures r.1.None? <==> data.Parsed? && !IsHandledKind(data.payload.kind)
    ensures r.1.None? ==> r.0 == s
    ensures r.0.users.Keys == s.users.Keys && r.0.sessions.Keys == s.sessions.Keys
    ensures s.nfts <= r.0.nfts && |r.0.nfts| <= |s.nfts| + 1
    ensures |r.0.nfts| > |s.nfts| ==> r.0.nfts[|s.nfts|].ownerTelegramId == telegramId && telegramId in r.0.users
  {
    match data
    case Unparseable => (s, Some(ErrorReply))
    case Parsed(p) =>
      if p.kind == Some("mint_success") then Caught(MintSuccess(s, telegramId, p, now))
      else if p.kind == Some("wallet_connected") then Caught(WalletConnected(s, telegramId, p, now))
      else if p.kind == Some("mint_error") then Caught((s, MintError(p.error)))
      else (s, None)
  }

  predicate IsHandledKind(kind: Option<string>)
  {
    kind == Some("mint_success") || kind == Some("wallet_connected") || kind == Some("mint_error")
  }

  /** Only the three known types reach a handler; anything else, or text that does not parse, changes no table. */
  lemma OnlyKnownKindsWrite(s: Store, telegramId: int, data: WebAppData, now: int)
    requires data.Unparseable? || !IsHandledKind(data.payload.kind) || data.payload.kind == Some("mint_error")
    ensures WebAppDataSpec(s, telegramId, data, now).0 == s
    ensures data.Parsed? && !IsHandledKind(data.payload.kind) ==> WebAppDataSpec(s, telegramId, data, now).1.None?
    ensures data.Unparseable? ==> WebAppDataSpec(s, telegramId, data, now).1 == Some(ErrorReply)
  {
  }

  // --------------------------------------------------------------- methods

  method HandleMintSuccess(db: Database, telegramId: int, p: Payload, now: int) returns (o: Outcome)
    requires db.Valid()
    modifies db
    ensures db.Valid()
    ensures (db.Snapshot(), o) == MintSuccess(old(db.Snapshot()), telegramId, p, now)
  {
    if telegramId !in db.users {
      return Threw;
    }
    var user := db.users[telegramId];
    if WalletNeedsWrite(user.walletAddress, p.walletAddress) {
      db.UpdateWallet(telegramId, p.walletAddress, now);
    }
    db.IncrementMintCount(telegramId, now);
    var err := db.CreateNft(p.tokenId, telegramId, p.walletAddress, p.metadataUri,
                            p.transactionHash, p.blockNumber, now);
    if err.Some? {
      return Threw;
    }
    o := Sent(MintSuccessReply(p.tokenId.value, p.transactionHash.value));
  }

  method HandleWalletConnected(db: Database, telegramId: int, p: Payload, now: int) returns (o: Outcome)
    requires db.Valid()
    modifies db
    ensures db.Valid()
    ensures (db.Snapshot(), o) == WalletConnected(old(db.Snapshot()), telegramId, p, now)
  {
    db.UpdateWallet(telegramId, p.walletAddress, now);
    if Truthy(p.sessionId) {
      db.UpdateSessionWallet(p.sessionId.value, p.walletAddress);
    }
    if p.walletAddress.None? {
      return Threw;
    }
    o := Sent(WalletConnectedReply(ConnectedAddressText(p.walletAddress.value)));
  }

  method HandleWebAppData(db: Database, telegramId: int, data: WebAppData, now: int) returns (reply: Option<Reply>)
    requires db.Valid()
    modifies db
    ensures db.Valid()
    ensures (db.Snapshot(), reply) == WebAppDataSpec(old(db.Snapshot()), telegramId, data, now)
  {
    if data.Unparseable? {
      return Some(ErrorReply);
    }
    var p := data.payload;
    var o: Outcome;
    if p.kind == Some("mint_success") {
      o := HandleMintSuccess(db, telegramId, p, now);
    } else if p.kind == Some("wallet_connected") {
      o := HandleWalletConnected(db, telegramId, p, now);
    } else if p.kind == Some("mint_error") {
      o := MintError(p.error);
    } else {
      return None;
    }
    reply := Some(if o.Threw? then ErrorReply else o.reply);
  }
}

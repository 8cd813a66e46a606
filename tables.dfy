/**
 * Row-level model of the bot's SQLite store (backend/src/services/database.js):
 * the `users`, `nfts` and `sessions` tables as values, the statements that
 * change them as functions from old table to new table, the read-only
 * queries, and the mint-eligibility rule `canMint`.
 *
 * Every use of SQLite's `strftime('%s', 'now')` or of `Date.now()` is the
 * explicit integer `now` (seconds) given by the caller.
 */
module Tables {
  import opened Wrappers
  import opened JsString

  /** CONFIG.MAX_MINT_PER_USER */
  const MaxMintPerUser := 10
  /** CONFIG.MINT_COOLDOWN, in milliseconds */
  const MintCooldownMs := 60000
  /** The TTL `sessionDB.create` uses when the caller gives none, in seconds. */
  const DefaultSessionTtl := 3600

  /** A row of `users`, keyed by `telegram_id` (the PRIMARY KEY of the table createTables builds). */
  datatype User = User(
    username: Option<string>,
    walletAddress: Option<string>,
    nftsMinted: int,
    lastMintAt: Option<int>,
    createdAt: int,
    updatedAt: int)

  type UserTable = map<int, User>

  /** A row of `nfts`; `id` is the AUTOINCREMENT key. */
  datatype Nft = Nft(
    id: nat,
    tokenId: int,
    ownerTelegramId: int,
    ownerWalletAddress: string,
    metadataUri: string,
    transactionHash: string,
    blockNumber: Option<int>,
    mintedAt: int)

  /** A row of `sessions`, keyed by its text `id`. */
  datatype Session = Session(
    telegramId: int,
    walletAddress: Option<string>,
    data: Option<string>,
    expiresAt: int,
    createdAt: int)

  type SessionTable = map<string, Session>

  /** The engine error an INSERT into `nfts` can raise. */
  datatype SqlError = NotNullViolation(column: string)

  /** The three tables together, with the AUTOINCREMENT counter of `nfts`. */
  datatype Store = Store(users: UserTable, nfts: seq<Nft>, nextNftId: nat, sessions: SessionTable)

  /** The store on a freshly created database file. */
  const EmptyStore := Store(map[], [], 1, map[])

  /** `nfts` ids are strictly increasing in row order and all below the next id to hand out. */
  ghost predicate WellFormedNfts(nfts: seq<Nft>, nextId: nat)
  {
    && 1 <= nextId
    && (forall i :: 0 <= i < |nfts| ==> nfts[i].id < nextId)
    && (forall i, j :: 0 <= i < j < |nfts| ==> nfts[i].id < nfts[j].id)
  }

  // ---------------------------------------------------------------- users

  /** The row `INSERT INTO users (telegram_id, username)` creates: column defaults elsewhere. */
  function NewUser(username: Option<string>, now: int): User
  {
    User(username, None, 0, None, now, now)
  }

  /** `userDB.create`: insert, or on a conflicting `telegram_id` update `username` and `updated_at`. */
  function UpsertUser(users: UserTable, telegramId: int, username: Option<string>, now: int): (r: UserTable)
    ensures r.Keys == users.Keys + {telegramId}
    ensures forall id :: id in users && id != telegramId ==> r[id] == users[id]
    ensures r[telegramId].username == username && r[telegramId].updatedAt == now
    ensures telegramId in users ==>
              r[telegramId] == users[telegramId].(username := username, updatedAt := now)
    ensures telegramId !in users ==>
              && r[telegramId].walletAddress.None?
              && r[telegramId].nftsMinted == 0
              && r[telegramId].lastMintAt.None?
              && r[telegramId].createdAt == now
  {
    users[telegramId := if telegramId in users
                        then users[telegramId].(username := username, updatedAt := now)
                        else NewUser(username, now)]
  }

  /** `userDB.get`: the row with that `telegram_id`, if any. */
  function GetUser(users: UserTable, telegramId: int): (r: Option<User>)
    ensures r.Some? <==> telegramId in users
    ensures r.Some? ==> r.value == users[telegramId]
  {
    if telegramId in users then Some(users[telegramId]) else None
  }

  /** `userDB.updateWallet`: an UPDATE of that row only; no row, no change. */
  function UpdateUserWallet(users: UserTable, telegramId: int, wallet: Option<string>, now: int): (r: UserTable)
    ensures r.Keys == users.Keys
    ensures forall id :: id in users && id != telegramId ==> r[id] == users[id]
    ensures telegramId in users ==>
              r[telegramId] == users[telegramId].(walletAddress := wallet, updatedAt := now)
  {
    if telegramId in users
    then users[telegramId := users[telegramId].(walletAddress := wallet, updatedAt := now)]
    else users
  }

  /** `userDB.incrementMintCount`: `nfts_minted + 1`, `last_mint_at = now`; no row, no change. */
  function IncrementMintCount(users: UserTable, telegramId: int, now: int): (r: UserTable)
    ensures r.Keys == users.Keys
    ensures forall id :: id in users && id != telegramId ==> r[id] == users[id]
    ensures telegramId in users ==>
              && r[telegramId].nftsMinted == users[telegramId].nftsMinted + 1
              && r[telegramId].lastMintAt == Some(now)
              && r[telegramId] == users[telegramId].(nftsMinted := r[telegramId].nftsMinted,
                                                     lastMintAt := Some(now), updatedAt := now)
  {
    if telegramId in users
    then users[telegramId := users[telegramId].(nftsMinted := users[telegramId].nftsMinted + 1,
                                                lastMintAt := Some(now), updatedAt := now)]
    else users
  }

  /** A repeated `userDB.create` leaves one row, with the later username, and keeps everything else of the first. */
  lemma UpsertTwice(users: UserTable, telegramId: int, first: Option<string>, second: Option<string>, t1: int, t2: int)
    ensures var r := UpsertUser(UpsertUser(users, telegramId, first, t1), telegramId, second, t2);
            && r.Keys == users.Keys + {telegramId}
            && r[telegramId].username == second
            && (telegramId in users ==> r == UpsertUser(users, telegramId, second, t2))
            && (telegramId !in users ==> r[telegramId] == NewUser(second, t1).(updatedAt := t2))
  {
  }

  // -------------------------------------------------------------- canMint

  /** JavaScript truthiness of a nullable integer column: NULL and 0 are falsy. */
  predicate TruthyInt(v: Option<int>)
  {
    v.Some? && v.value != 0
  }

  /**
   * What `userDB.canMint` returns: the bare `true` when there is no row
   * (NoUserRow), `{ canMint: true }` (Allowed), `{ canMint: false, reason:
   * 'max_limit' }` or `{ canMint: false, reason: 'cooldown', remainingSeconds }`.
   */
  datatype MintCheck = NoUserRow | Allowed | MaxLimit | Cooldown(remainingSeconds: int)
  {
    /** The `canMint` property a caller reads; the bare `true` has none, so it reads as undefined, falsy. */
    predicate CanMintFlag()
    {
      Allowed?
    }

    /** The `reason` property a caller reads. */
    function Reason(): Option<string>
    {
      match this
      case MaxLimit => Some("max_limit")
      case Cooldown(_) => Some("cooldown")
      case _ => None
    }
  }

  /**
   * `userDB.canMint` over the row it reads: the lifetime cap is checked
   * before the cooldown, and the cooldown ends exactly 60 seconds after
   * `last_mint_at`. A `last_mint_at` of 0 is falsy and counts as no mint.
   */
  function CanMint(row: Option<User>, now: int): (r: MintCheck)
    ensures r.NoUserRow? <==> row.None?
    ensures r.MaxLimit? <==> row.Some? && row.value.nftsMinted >= MaxMintPerUser
    ensures r.Cooldown? <==>
              && row.Some? && row.value.nftsMinted < MaxMintPerUser
              && TruthyInt(row.value.lastMintAt) && now - row.value.lastMintAt.value < 60
    ensures r.Allowed? <==>
              && row.Some? && row.value.nftsMinted < MaxMintPerUser
              && (!TruthyInt(row.value.lastMintAt) || now - row.value.lastMintAt.value >= 60)
    ensures r.Cooldown? ==>
              && r.remainingSeconds >= 1
              && now + r.remainingSeconds == row.value.lastMintAt.value + 60
              && (now >= row.value.lastMintAt.value ==> r.remainingSeconds <= 60)
  {
    if row.None? then NoUserRow
    else
      var user := row.value;
      if user.nftsMinted >= MaxMintPerUser then MaxLimit
      else if TruthyInt(user.lastMintAt) && (now - user.lastMintAt.value) * 1000 < MintCooldownMs
      then Cooldown(MintCooldownMs / 1000 - (now - user.lastMintAt.value))
      else Allowed
  }

  /**
   * After a recorded mint at a non-zero time `t`, a user below the cap is in
   * cooldown with exactly `60 - d` seconds left `d` seconds later, and allowed
   * again from `d = 60` on.
   */
  lemma CooldownAfterMint(users: UserTable, telegramId: int, t: int, d: int)
    requires telegramId in users && users[telegramId].nftsMinted + 1 < MaxMintPerUser
    requires t != 0 && d >= 0
    ensures var check := CanMint(GetUser(IncrementMintCount(users, telegramId, t), telegramId), t + d);
            check == if d < 60 then Cooldown(60 - d) else Allowed
  {
  }

  // ----------------------------------------------------------------- nfts

  /**
   * The row `nftDB.create` inserts with id `nextId`, or the NOT NULL
   * constraint it violates, checked in column order.
   */
  function NftRow(nextId: nat, tokenId: Option<int>, owner: int, wallet: Option<string>,
                  metadataUri: Option<string>, transactionHash: Option<string>,
                  blockNumber: Option<int>, now: int): (r: Result<Nft, SqlError>)
    ensures r.Success? <==> tokenId.Some? && wallet.Some? && metadataUri.Some? && transactionHash.Some?
    ensures r.Success? ==>
              r.value == Nft(nextId, tokenId.value, owner, wallet.value, metadataUri.value,
                             transactionHash.value, blockNumber, now)
  {
    if tokenId.None? then Failure(NotNullViolation("token_id"))
    else if wallet.None? then Failure(NotNullViolation("owner_wallet_address"))
    else if metadataUri.None? then Failure(NotNullViolation("metadata_uri"))
    else if transactionHash.None? then Failure(NotNullViolation("transaction_hash"))
    else Success(Nft(nextId, tokenId.value, owner, wallet.value, metadataUri.value,
                     transactionHash.value, blockNumber, now))
  }

  /** `WHERE owner_telegram_id = ?`, in row order. */
  function OwnedBy(nfts: seq<Nft>, owner: int): (r: seq<Nft>)
    ensures |r| <= |nfts|
    ensures forall n :: n in r ==> n in nfts && n.ownerTelegramId == owner
    ensures forall i :: 0 <= i < |nfts| && nfts[i].ownerTelegramId == owner ==> nfts[i] in r
  {
    if nfts == [] then []
    else
      var last := nfts[|nfts| - 1];
      OwnedBy(nfts[..|nfts| - 1], owner) + (if last.ownerTelegramId == owner then [last] else [])
  }

  /** `nftDB.getCount`: `SELECT COUNT(*) ... WHERE owner_telegram_id = ?`; zero exactly when the owner has no row. */
  function GetCount(nfts: seq<Nft>, owner: int): (n: nat)
    ensures n <= |nfts|
    ensures n == 0 <==> forall i :: 0 <= i < |nfts| ==> nfts[i].ownerTelegramId != owner
  {
    var r := OwnedBy(nfts, owner);
    assert r != [] ==> r[0] in r;
    |r|
  }

  /** Appending a row raises its owner's count by one and leaves every other owner's count alone. */
  lemma CountAfterAppend(nfts: seq<Nft>, row: Nft, owner: int)
    ensures GetCount(nfts + [row], owner) ==
            GetCount(nfts, owner) + (if row.ownerTelegramId == owner then 1 else 0)
  {
    assert (nfts + [row])[..|nfts|] == nfts;
  }

  /** An owner with no rows has count zero. */
  lemma {:induction false} CountWithoutRows(nfts: seq<Nft>, owner: int)
    requires forall i :: 0 <= i < |nfts| ==> nfts[i].ownerTelegramId != owner
    ensures GetCount(nfts, owner) == 0
  {
    if nfts != [] {
      CountWithoutRows(nfts[..|nfts| - 1], owner);
    }
  }

  ghost predicate SortedByMintedDesc(s: seq<Nft>)
  {
    forall i, j :: 0 <= i < j < |s| ==> s[i].mintedAt >= s[j].mintedAt
  }

  /** Puts `x` in front of the first row minted no later than it. */
  function InsertByMintedDesc(x: Nft, s: seq<Nft>): seq<Nft>
  {
    if s == [] || x.mintedAt >= s[0].mintedAt then [x] + s
    else [s[0]] + InsertByMintedDesc(x, s[1..])
  }

  /** Inserting adds exactly `x` to the rows. */
  lemma {:induction false} InsertAddsRow(x: Nft, s: seq<Nft>)
    ensures multiset(InsertByMintedDesc(x, s)) == multiset(s) + multiset{x}
  {
    if s != [] && x.mintedAt < s[0].mintedAt {
      InsertAddsRow(x, s[1..]);
      assert s == [s[0]] + s[1..];
    }
  }

  /** Inserting into a sorted list keeps it sorted. */
  lemma {:induction false} InsertKeepsSorted(x: Nft, s: seq<Nft>)
    requires SortedByMintedDesc(s)
    ensures SortedByMintedDesc(InsertByMintedDesc(x, s))
  {
    if s != [] && x.mintedAt < s[0].mintedAt {
      var rest := InsertByMintedDesc(x, s[1..]);
      InsertKeepsSorted(x, s[1..]);
      InsertAddsRow(x, s[1..]);
      forall j | 0 <= j < |rest| ensures rest[j].mintedAt <= s[0].mintedAt {
        assert rest[j] in multiset(rest);
        if rest[j] != x {
          assert rest[j] in multiset(s[1..]);
          var k :| 0 <= k < |s[1..]| && s[1..][k] == rest[j];
          assert s[k + 1] == rest[j];
        }
      }
      SortedCons(s[0], rest);
    }
  }

  /** A row minted no earlier than every row of a sorted list can go in front of it. */
  lemma SortedCons(x: Nft, s: seq<Nft>)
    requires SortedByMintedDesc(s)
    requires forall j :: 0 <= j < |s| ==> s[j].mintedAt <= x.mintedAt
    ensures SortedByMintedDesc([x] + s)
  {
    var r := [x] + s;
    forall i, j | 0 <= i < j < |r| ensures r[i].mintedAt >= r[j].mintedAt {
      assert r[j] == s[j - 1];
      if i > 0 {
        assert r[i] == s[i - 1];
      }
    }
  }

  /** `ORDER BY minted_at DESC`; rows minted in the same second keep row order. */
  function SortByMintedDesc(s: seq<Nft>): (r: seq<Nft>)
    ensures SortedByMintedDesc(r)
    ensures multiset(r) == multiset(s)
  {
    if s == [] then []
    else
      var rest := SortByMintedDesc(s[1..]);
      InsertKeepsSorted(s[0], rest);
      InsertAddsRow(s[0], rest);
      assert s == [s[0]] + s[1..];
      InsertByMintedDesc(s[0], rest)
  }

  /** `nftDB.getByOwner`: exactly the owner's rows, most recently minted first. */
  function GetByOwner(nfts: seq<Nft>, owner: int): (r: seq<Nft>)
    ensures SortedByMintedDesc(r)
    ensures multiset(r) == multiset(OwnedBy(nfts, owner))
    ensures forall n :: n in r <==> n in nfts && n.ownerTelegramId == owner
    ensures |r| == GetCount(nfts, owner)
  {
    var r := SortByMintedDesc(OwnedBy(nfts, owner));
    assert forall n :: n in r <==> n in OwnedBy(nfts, owner) by {
      forall n ensures n in r <==> n in OwnedBy(nfts, owner) {
        assert n in r <==> n in multiset(r);
      }
    }
    assert |r| == |multiset(r)|;
    r
  }

  /** `nftDB.getByTokenId`: a row with that token id when one exists (the model picks the first). */
  function GetByTokenId(nfts: seq<Nft>, tokenId: int): (r: Option<Nft>)
    ensures r.Some? <==> exists i :: 0 <= i < |nfts| && nfts[i].tokenId == tokenId
    ensures r.Some? ==> r.value in nfts && r.value.tokenId == tokenId
  {
    if nfts == [] then None
    else if nfts[0].tokenId == tokenId then Some(nfts[0])
    else
      var r := GetByTokenId(nfts[1..], tokenId);
      assert (exists i :: 0 <= i < |nfts| && nfts[i].tokenId == tokenId) ==>
             (exists i :: 0 <= i < |nfts[1..]| && nfts[1..][i].tokenId == tokenId) by {
        if exists i :: 0 <= i < |nfts| && nfts[i].tokenId == tokenId {
          var i :| 0 <= i < |nfts| && nfts[i].tokenId == tokenId;
          assert nfts[1..][i - 1].tokenId == tokenId;
        }
      }
      r
  }

  // ------------------------------------------------------------- sessions

  /**
   * `sessionDB.create`: `expires_at = now + ttl`; on an existing id only the
   * owner, the expiry and `created_at` are replaced.
   */
  function CreateSession(sessions: SessionTable, id: string, telegramId: int, now: int,
                         ttl: int := DefaultSessionTtl): (r: SessionTable)
    ensures r.Keys == sessions.Keys + {id}
    ensures forall k :: k in sessions && k != id ==> r[k] == sessions[k]
    ensures r[id].telegramId == telegramId && r[id].expiresAt == now + ttl && r[id].createdAt == now
    ensures id in sessions ==>
              r[id].walletAddress == sessions[id].walletAddress && r[id].data == sessions[id].data
    ensures id !in sessions ==> r[id].walletAddress.None? && r[id].data.None?
  {
    sessions[id := if id in sessions
                   then sessions[id].(telegramId := telegramId, expiresAt := now + ttl, createdAt := now)
                   else Session(telegramId, None, None, now + ttl, now)]
  }

  /** `sessionDB.get`: the row only while `expires_at > now`. */
  function GetSession(sessions: SessionTable, id: string, now: int): (r: Option<Session>)
    ensures r.Some? <==> id in sessions && sessions[id].expiresAt > now
    ensures r.Some? ==> r.value == sessions[id]
  {
    if id in sessions && sessions[id].expiresAt > now then Some(sessions[id]) else None
  }

  /** `sessionDB.updateWallet`: that row only, expired or not. */
  function UpdateSessionWallet(sessions: SessionTable, id: string, wallet: Option<string>): (r: SessionTable)
    ensures r.Keys == sessions.Keys
    ensures forall k :: k in sessions && k != id ==> r[k] == sessions[k]
    ensures id in sessions ==> r[id] == sessions[id].(walletAddress := wallet)
  {
    if id in sessions then sessions[id := sessions[id].(walletAddress := wallet)] else sessions
  }

  /** `sessionDB.updateData`, given the already serialised text: that row only, expired or not. */
  function UpdateSessionData(sessions: SessionTable, id: string, data: string): (r: SessionTable)
    ensures r.Keys == sessions.Keys
    ensures forall k :: k in sessions && k != id ==> r[k] == sessions[k]
    ensures id in sessions ==> r[id] == sessions[id].(data := Some(data))
  {
    if id in sessions then sessions[id := sessions[id].(data := Some(data))] else sessions
  }

  /** `sessionDB.delete`: that row only, expired or not. */
  function DeleteSession(sessions: SessionTable, id: string): (r: SessionTable)
    ensures r.Keys == sessions.Keys - {id}
    ensures forall k :: k in r ==> r[k] == sessions[k]
  {
    sessions - {id}
  }

  /** `sessionDB.cleanup`: deletes exactly the rows with `expires_at < now`. */
  function CleanupSessions(sessions: SessionTable, now: int): (r: SessionTable)
    ensures forall k :: k in r <==> k in sessions && sessions[k].expiresAt >= now
    ensures forall k :: k in r ==> r[k] == sessions[k]
  {
    map k | k in sessions && sessions[k].expiresAt >= now :: sessions[k]
  }

  /** A cleanup at `now` never removes a row that `get` returns at `now` or later, and is idempotent. */
  lemma CleanupKeepsLiveSessions(sessions: SessionTable, now: int, later: int, id: string)
    requires later >= now
    ensures GetSession(CleanupSessions(sessions, now), id, later) == GetSession(sessions, id, later)
    ensures CleanupSessions(CleanupSessions(sessions, now), now) == CleanupSessions(sessions, now)
  {
  }

  /** A row expiring exactly at `now` is neither returned by `get` nor deleted by `cleanup`. */
  lemma ExpiryBoundary(sessions: SessionTable, id: string, now: int)
    requires id in sessions && sessions[id].expiresAt == now
    ensures GetSession(sessions, id, now).None?
    ensures id in CleanupSessions(sessions, now)
  {
  }

  /** A session created at `now` with `ttl` is returned by `get` exactly before `now + ttl`. */
  lemma SessionLifetime(sessions: SessionTable, id: string, telegramId: int, now: int, ttl: int, t: int)
    ensures GetSession(CreateSession(sessions, id, telegramId, now, ttl), id, t).Some? <==> t < now + ttl
  {
  }

  // --------------------------------------------------- counter agreement

  /** Every user's `nfts_minted` equals the number of `nfts` rows it owns, and every row has an owner. */
  ghost predicate CountsAgree(users: UserTable, nfts: seq<Nft>)
  {
    && (forall id :: id in users ==> GetCount(nfts, id) == users[id].nftsMinted)
    && (forall i :: 0 <= i < |nfts| ==> nfts[i].ownerTelegramId in users)
  }

  lemma UpsertKeepsAgreement(users: UserTable, nfts: seq<Nft>, telegramId: int, username: Option<string>, now: int)
    requires CountsAgree(users, nfts)
    ensures CountsAgree(UpsertUser(users, telegramId, username, now), nfts)
  {
    if telegramId !in users {
      CountWithoutRows(nfts, telegramId);
    }
  }

  lemma UpdateWalletKeepsAgreement(users: UserTable, nfts: seq<Nft>, telegramId: int, wallet: Option<string>, now: int)
    requires CountsAgree(users, nfts)
    ensures CountsAgree(UpdateUserWallet(users, telegramId, wallet, now), nfts)
  {
  }

  /** Incrementing the counter and appending the matching row together keep the counts in agreement. */
  lemma RecordMintKeepsAgreement(users: UserTable, nfts: seq<Nft>, row: Nft, now: int)
    requires CountsAgree(users, nfts) && row.ownerTelegramId in users
    ensures CountsAgree(IncrementMintCount(users, row.ownerTelegramId, now), nfts + [row])
  {
    var r := IncrementMintCount(users, row.ownerTelegramId, now);
    forall id | id in r
      ensures GetCount(nfts + [row], id) == r[id].nftsMinted
    {
      CountAfterAppend(nfts, row, id);
    }
  }

  /** Incrementing the counter without appending a row breaks the agreement. */
  lemma IncrementAloneBreaksAgreement(users: UserTable, nfts: seq<Nft>, telegramId: int, now: int)
    requires CountsAgree(users, nfts) && telegramId in users
    ensures !CountsAgree(IncrementMintCount(users, telegramId, now), nfts)
  {
  }
}

/**
 * The store as the bot process holds it: one object whose fields are the
 * three tables, and one method per write statement of userDB, nftDB and
 * sessionDB (backend/src/services/database.js). Each method is proved to
 * leave the tables equal to the corresponding function of Tables applied to
 * the old tables; the read-only queries are those functions themselves.
 */
module Db {
  import opened Wrappers
  import opened Tables

  class Database {
    var users: UserTable
    var nfts: seq<Nft>
    var nextNftId: nat
    var sessions: SessionTable

    ghost predicate Valid()
      reads this
    {
      WellFormedNfts(nfts, nextNftId)
    }

    /** The tables as one value. */
    function Snapshot(): Store
      reads this
    {
      Store(users, nfts, nextNftId, sessions)
    }

    /** `initDatabase` on a new file: `createTables` leaves three empty tables. */
    constructor ()
      ensures Valid() && Snapshot() == EmptyStore
    {
      users, nfts, nextNftId, sessions := map[], [], 1, map[];
    }

    /** `userDB.create` */
    method CreateUser(telegramId: int, username: Option<string>, now: int)
      requires Valid()
      modifies this
      ensures Valid()
      ensures Snapshot() == old(Snapshot()).(users := UpsertUser(old(users), telegramId, username, now))
    {
      if telegramId in users {
        users := users[telegramId := users[telegramId].(username := username, updatedAt := now)];
      } else {
        users := users[telegramId := NewUser(username, now)];
      }
    }

    /** `userDB.updateWallet` */
    method UpdateWallet(telegramId: int, wallet: Option<string>, now: int)
      requires Valid()
      modifies this
      ensures Valid()
      ensures Snapshot() == old(Snapshot()).(users := UpdateUserWallet(old(users), telegramId, wallet, now))
    {
      if telegramId in users {
        users := users[telegramId := users[telegramId].(walletAddress := wallet, updatedAt := now)];
      }
    }

    /** `userDB.incrementMintCount` */
    method IncrementMintCount(telegramId: int, now: int)
      requires Valid()
      modifies this
      ensures Valid()
      ensures Snapshot() == old(Snapshot()).(users := Tables.IncrementMintCount(old(users), telegramId, now))
    {
      if telegramId in users {
        var user := users[telegramId];
        users := users[telegramId := user.(nftsMinted := user.nftsMinted + 1,
                                           lastMintAt := Some(now), updatedAt := now)];
      }
    }

    /**
     * `nftDB.create`: appends one row with a fresh id, or raises the NOT NULL
     * violation and changes nothing.
     */
    method CreateNft(tokenId: Option<int>, owner: int, wallet: Option<string>, metadataUri: Option<string>,
                     transactionHash: Option<string>, blockNumber: Option<int>, now: int)
      returns (err: Option<SqlError>)
      requires Valid()
      modifies this
      ensures Valid()
      ensures var row := NftRow(old(nextNftId), tokenId, owner, wallet, metadataUri, transactionHash, blockNumber, now);
              if row.Success?
              then && err.None?
                   && Snapshot() == old(Snapshot()).(nfts := old(nfts) + [row.value], nextNftId := old(nextNftId) + 1)
                   && forall i :: 0 <= i < |old(nfts)| ==> old(nfts)[i].id != row.value.id
              else err == Some(row.error) && Snapshot() == old(Snapshot())
    {
      var row := NftRow(nextNftId, tokenId, owner, wallet, metadataUri, transactionHash, blockNumber, now);
      if row.Failure? {
        return Some(row.error);
      }
      nfts := nfts + [row.value];
      nextNftId := nextNftId + 1;
      err := None;
    }

    /** `sessionDB.create` */
    method CreateSession(id: string, telegramId: int, now: int, ttl: int := DefaultSessionTtl)
      requires Valid()
      modifies this
      ensures Valid()
      ensures Snapshot() == old(Snapshot()).(sessions := Tables.CreateSession(old(sessions), id, telegramId, now, ttl))
    {
      if id in sessions {
        sessions := sessions[id := sessions[id].(telegramId := telegramId, expiresAt := now + ttl, createdAt := now)];
      } else {
        sessions := sessions[id := Session(telegramId, None, None, now + ttl, now)];
      }
    }

    /** `sessionDB.updateWallet` */
    method UpdateSessionWallet(id: string, wallet: Option<string>)
      requires Valid()
      modifies this
      ensures Valid()
      ensures Snapshot() == old(Snapshot()).(sessions := Tables.UpdateSessionWallet(old(sessions), id, wallet))
    {
      if id in sessions {
        sessions := sessions[id := sessions[id].(walletAddress := wallet)];
      }
    }

    /** `sessionDB.updateData` */
    method UpdateSessionData(id: string, data: string)
      requires Valid()
      modifies this
      ensures Valid()
      ensures Snapshot() == old(Snapshot()).(sessions := Tables.UpdateSessionData(old(sessions), id, data))
    {
      if id in sessions {
        sessions := sessions[id := sessions[id].(data := Some(data))];
      }
    }

    /** `sessionDB.delete` */
    method DeleteSession(id: string)
      requires Valid()
      modifies this
      ensures Valid()
      ensures Snapshot() == old(Snapshot()).(sessions := Tables.DeleteSession(old(sessions), id))
    {
      sessions := sessions - {id};
    }

    /** `sessionDB.cleanup`, invoked explicitly instead of by the hourly timer. */
    method CleanupSessions(now: int)
      requires Valid()
      modifies this
      ensures Valid()
      ensures Snapshot() == old(Snapshot()).(sessions := Tables.CleanupSessions(old(sessions), now))
    {
      sessions := map k | k in sessions && sessions[k].expiresAt >= now :: sessions[k];
    }
  }
}

/**
 * The `discord_tokens` table: one credential row per Discord user id,
 * written with `INSERT OR REPLACE` and read back with `fetch_one`.
 */
module Storage {
  import opened Wrappers

  /** One row: the Discord tokens of a user and when the access token stops being valid (seconds since the epoch). */
  datatype Credential = Credential(accessToken: string, expiresAt: int, refreshToken: string)

  /** `fetch_one` found no row. */
  datatype StoreError = RowNotFound

  /** `get_token` against the table's contents. */
  function Lookup(rows: map<string, Credential>, userId: string): Result<Credential, StoreError>
  {
    if userId in rows then Ok(rows[userId]) else Err(RowNotFound)
  }

  /** `store_token` against the table's contents: the row of `userId` is replaced as a whole, or created. */
  function Upsert(rows: map<string, Credential>, userId: string, c: Credential): map<string, Credential>
  {
    rows[userId := c]
  }

  /** After storing `c` for a user, reading that user gives `c`. */
  lemma GetAfterStore(rows: map<string, Credential>, userId: string, c: Credential)
    ensures Lookup(Upsert(rows, userId, c), userId) == Ok(c)
  {
  }

  /** A second store for the same user replaces the first entirely: no field of `c1` survives. */
  lemma StoreReplacesWholesale(rows: map<string, Credential>, userId: string, c1: Credential, c2: Credential)
    ensures Upsert(Upsert(rows, userId, c1), userId, c2) == Upsert(rows, userId, c2)
    ensures Lookup(Upsert(Upsert(rows, userId, c1), userId, c2), userId) == Ok(c2)
  {
  }

  /** Storing for one user leaves every other user's row as it was, present or absent. */
  lemma StoreLeavesOthers(rows: map<string, Credential>, userId: string, c: Credential, other: string)
    requires other != userId
    ensures Lookup(Upsert(rows, userId, c), other) == Lookup(rows, other)
  {
  }

  /** Storing twice is storing once. */
  lemma StoreIdempotent(rows: map<string, Credential>, userId: string, c: Credential)
    ensures Upsert(Upsert(rows, userId, c), userId, c) == Upsert(rows, userId, c)
  {
  }

  /** A store adds at most the one key: there is never more than one row per user. */
  lemma StoreKeys(rows: map<string, Credential>, userId: string, c: Credential)
    ensures Upsert(rows, userId, c).Keys == rows.Keys + {userId}
  {
  }

  /** Reading a user without a row fails, and reading a user with one gives that row. */
  lemma LookupMeaning(rows: map<string, Credential>, userId: string)
    ensures Lookup(rows, userId) == Err(RowNotFound) <==> userId !in rows
    ensures userId in rows ==> Lookup(rows, userId) == Ok(rows[userId])
  {
  }

  /** The database pool, reduced to the contents of `discord_tokens`. */
  class TokenStore {
    var rows: map<string, Credential>

    constructor ()
      ensures rows == map[]
    {
      rows := map[];
    }

    /** `get_token`: reads, changes nothing. */
    method GetToken(userId: string) returns (r: Result<Credential, StoreError>)
      ensures r == Lookup(rows, userId)
      ensures r.Ok? <==> userId in rows
    {
      if userId in rows {
        r := Ok(rows[userId]);
      } else {
        r := Err(RowNotFound);
      }
    }

    /** `store_token`: `INSERT OR REPLACE`. */
    method StoreToken(userId: string, c: Credential)
      modifies this
      ensures rows == Upsert(old(rows), userId, c)
    {
      rows := rows[userId := c];
    }
  }
}

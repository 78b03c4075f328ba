/** The token store: `save_token_in_db`, one insert into `tokens` inside a
    transaction. */
module TokenHandlers {
  import opened Results
  import opened Codec
  import opened Models
  import opened Http

  /** The insert body; a None field is left out of the insert. */
  datatype TokenCreate = TokenCreate(userId: Option<Uuid>, token: Option<Jwt>, expiresAt: Option<int>)

  /** The columns the insert returns. */
  datatype TokenAfterCreate = TokenAfterCreate(id: Uuid, userId: Uuid, token: Jwt, expiresAt: int, isActive: bool)

  /** The database accepts the insert: the NOT NULL columns are supplied, the
      owner exists and the new primary key is free. */
  predicate Insertable(users: map<Uuid, UserRow>, tokens: map<Uuid, TokenRow>, body: TokenCreate, id: Uuid)
  {
    body.userId.Some? && body.token.Some? && body.expiresAt.Some? &&
    body.userId.value in users && id !in tokens
  }

  /** The row the insert stores, with `is_active` at its default. */
  function RowOf(body: TokenCreate): TokenRow
    requires body.userId.Some? && body.token.Some? && body.expiresAt.Some?
  {
    TokenRow(body.userId.value, body.token.value, body.expiresAt.value, IsActiveDefault)
  }

  /**
    `save_token_in_db`. `newId` is the uuid4 the id column draws; `fault`
    stands for a storage error the model does not otherwise describe. On
    success exactly one row is added and returned as stored; on any storage
    error the transaction rolls back, and building the 500 response raises
    (see `StorageErrorRaised`).
  */
  method SaveTokenInDb(store: Store, body: TokenCreate, newId: Uuid, fault: bool)
    returns (r: Result<TokenAfterCreate, Failure>)
    requires store.Valid()
    modifies store
    ensures store.Valid()
    ensures store.users == old(store.users) && store.employees == old(store.employees)
    ensures r.Ok? <==> !fault && Insertable(old(store.users), old(store.tokens), body, newId)
    ensures r.Ok? ==>
      && newId !in old(store.tokens)
      && store.tokens == old(store.tokens)[newId := RowOf(body)]
      && r.value == TokenAfterCreate(newId, body.userId.value, body.token.value, body.expiresAt.value, true)
    ensures r.Err? ==> store.tokens == old(store.tokens) && r.error == StorageErrorRaised
  {
    if fault || !Insertable(store.users, store.tokens, body, newId) {
      return Err(StorageErrorRaised);
    }
    var row := RowOf(body);
    InsertTokenKeepsConsistent(store.users, store.employees, store.tokens, newId, row);
    store.tokens := store.tokens[newId := row];
    r := Ok(TokenAfterCreate(newId, row.userId, row.token, row.expiresAt, row.isActive));
  }
}

/** The tables of src/store.rs that decide who has access, and the SQL statements
    over them. Each statement is one atomic table update. */
module Store {
  import opened Prelude

  datatype Pending = Pending(
    client: string, server: string, redirectUri: string, challenge: string,
    nonceHash: string, state: string, code: string, attempts: nat, expiresAt: int)

  datatype TokenKind = Access | Refresh | Static

  datatype Token = Token(kind: TokenKind, grant: string, server: string, expiresAt: int, revoked: bool)

  datatype Grant = Grant(client: string, server: string, createdAt: int, lastUsed: Option<int>)

  /** `signatures` is the decoded "link-signatures" row of the meta table. */
  datatype Tables = Tables(
    pending: map<string, Pending>,
    tokens: map<string, Token>,
    grants: map<string, Grant>,
    signatures: map<string, string>)

  datatype PendingChange =
    | PendingCreate(id: string, request: Pending)
    | PendingRecordAttempt(id: string)
    | PendingRemove(id: string)
    | PendingRemoveServer(server: string)
    | PendingPrune(now: int)

  datatype TokenChange =
    | TokenInsert(hash: string, token: Token)
    | TokenClaim(hash: string)
    | TokensRevokeGrant(id: string)
    | TokensRevokeServer(server: string)
    | TokensRevokeAll
    | TokensPrune(now: int)

  datatype GrantChange =
    | GrantInsert(id: string, grant: Grant)
    | GrantTouch(id: string, now: int)
    | GrantRemove(id: string)
    | GrantsRemoveServer(server: string)
    | GrantsRemoveAll
    | GrantsPrune(createdBefore: int)

  function PendingOff(pending: map<string, Pending>, server: string): map<string, Pending> {
    map id | id in pending && pending[id].server != server :: pending[id]
  }

  function GrantsOff(grants: map<string, Grant>, server: string): map<string, Grant> {
    map id | id in grants && grants[id].server != server :: grants[id]
  }

  function RevokedOfGrant(tokens: map<string, Token>, id: string): map<string, Token> {
    map h | h in tokens :: if tokens[h].grant == id then tokens[h].(revoked := true) else tokens[h]
  }

  function RevokedOfServer(tokens: map<string, Token>, server: string): map<string, Token> {
    map h | h in tokens :: if tokens[h].server == server then tokens[h].(revoked := true) else tokens[h]
  }

  function AllRevoked(tokens: map<string, Token>): map<string, Token> {
    map h | h in tokens :: tokens[h].(revoked := true)
  }

  /** A row stays unless it has expired, or is a revoked token other than a refresh token. */
  predicate KeptByPrune(token: Token, now: int) {
    token.expiresAt >= now && (token.revoked ==> token.kind == Refresh)
  }

  function TokensPruned(tokens: map<string, Token>, now: int): map<string, Token> {
    map h | h in tokens && KeptByPrune(tokens[h], now) :: tokens[h]
  }

  function PendingPruned(pending: map<string, Pending>, now: int): map<string, Pending> {
    map id | id in pending && pending[id].expiresAt >= now :: pending[id]
  }

  function Families(tokens: map<string, Token>): set<string> {
    set h | h in tokens :: tokens[h].grant
  }

  function GrantsPruned(grants: map<string, Grant>, families: set<string>, createdBefore: int): map<string, Grant> {
    map id | id in grants && (grants[id].createdAt >= createdBefore || id in families) :: grants[id]
  }

  /** The statements over the pending table; None when one violates the primary key. */
  function ChangePending(pending: map<string, Pending>, sql: PendingChange): Option<map<string, Pending>> {
    match sql
    case PendingCreate(id, request) => if id in pending then None else Some(pending[id := request])
    case PendingRecordAttempt(id) =>
      Some(if id in pending then pending[id := pending[id].(attempts := pending[id].attempts + 1)] else pending)
    case PendingRemove(id) => Some(pending - {id})
    case PendingRemoveServer(server) => Some(PendingOff(pending, server))
    case PendingPrune(now) => Some(PendingPruned(pending, now))
  }

  function ChangeTokens(tokens: map<string, Token>, sql: TokenChange): Option<map<string, Token>> {
    match sql
    case TokenInsert(hash, token) => if hash in tokens then None else Some(tokens[hash := token])
    case TokenClaim(hash) =>
      Some(if hash in tokens then tokens[hash := tokens[hash].(revoked := true)] else tokens)
    case TokensRevokeGrant(id) => Some(RevokedOfGrant(tokens, id))
    case TokensRevokeServer(server) => Some(RevokedOfServer(tokens, server))
    case TokensRevokeAll => Some(AllRevoked(tokens))
    case TokensPrune(now) => Some(TokensPruned(tokens, now))
  }

  /** `families` is the subquery over the tokens table. */
  function ChangeGrants(grants: map<string, Grant>, families: set<string>, sql: GrantChange)
    : Option<map<string, Grant>>
  {
    match sql
    case GrantInsert(id, grant) => if id in grants then None else Some(grants[id := grant])
    case GrantTouch(id, now) =>
      Some(if id in grants then grants[id := grants[id].(lastUsed := Some(now))] else grants)
    case GrantRemove(id) => Some(grants - {id})
    case GrantsRemoveServer(server) => Some(GrantsOff(grants, server))
    case GrantsRemoveAll => Some(map[])
    case GrantsPrune(createdBefore) => Some(GrantsPruned(grants, families, createdBefore))
  }

  /** Whether statement `i` of an operation completes; an entry past the end does. */
  predicate Up(weather: seq<bool>, i: nat) {
    i < |weather| ==> weather[i]
  }

  /** The database connection. `up` stands for every way a statement can fail. */
  class Database {
    var tables: Tables

    constructor (tables: Tables)
      ensures this.tables == tables
    {
      this.tables := tables;
    }

    /** A SELECT: the tables as they are now. */
    method Read(up: bool) returns (r: Reply<Tables>)
      ensures r == if up then Done(tables) else StoreFailed
    {
      return if up then Done(tables) else StoreFailed;
    }

    /** An INSERT, UPDATE or DELETE: all of it happens, or none of it. */
    method WritePending(sql: PendingChange, up: bool) returns (r: Reply<()>)
      modifies this
      ensures r == if up && ChangePending(old(tables.pending), sql).Some? then Done(()) else StoreFailed
      ensures tables == old(tables).(
                pending := if r.Done? then ChangePending(old(tables.pending), sql).value else old(tables.pending))
    {
      var next := ChangePending(tables.pending, sql);

      if !up || next.None? {
        return StoreFailed;
      }

      tables := tables.(pending := next.value);
      return Done(());
    }

    method WriteTokens(sql: TokenChange, up: bool) returns (r: Reply<()>)
      modifies this
      ensures r == if up && ChangeTokens(old(tables.tokens), sql).Some? then Done(()) else StoreFailed
      ensures tables == old(tables).(
                tokens := if r.Done? then ChangeTokens(old(tables.tokens), sql).value else old(tables.tokens))
    {
      var next := ChangeTokens(tables.tokens, sql);

      if !up || next.None? {
        return StoreFailed;
      }

      tables := tables.(tokens := next.value);
      return Done(());
    }

    method WriteGrants(sql: GrantChange, up: bool) returns (r: Reply<()>)
      modifies this
      ensures var next := ChangeGrants(old(tables.grants), Families(old(tables.tokens)), sql);
              && r == (if up && next.Some? then Done(()) else StoreFailed)
              && tables == old(tables).(grants := if r.Done? then next.value else old(tables.grants))
    {
      var next := ChangeGrants(tables.grants, Families(tables.tokens), sql);

      if !up || next.None? {
        return StoreFailed;
      }

      tables := tables.(grants := next.value);
      return Done(());
    }

    method WriteSignatures(signatures: map<string, string>, up: bool) returns (r: Reply<()>)
      modifies this
      ensures r == if up then Done(()) else StoreFailed
      ensures tables == if up then old(tables).(signatures := signatures) else old(tables)
    {
      if !up {
        return StoreFailed;
      }

      tables := tables.(signatures := signatures);
      return Done(());
    }

    /** A statement over a table this model leaves out: the audit log, clients, stdio sessions. */
    method WriteElsewhere(up: bool) returns (r: Reply<()>)
      ensures r == if up then Done(()) else StoreFailed
    {
      return if up then Done(()) else StoreFailed;
    }
  }
}

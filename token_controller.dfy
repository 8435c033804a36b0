/**
 * The token broker's controller (tokenbroker/.../Controllers/TokenController.cs).  `GET
 * api/token/{userID}` makes sure the document database knows the user, with one permission on
 * the shared container, and answers with that permission's resource token.
 *
 * The Cosmos account is modelled as a document store: for each user id, the user's
 * permissions by permission id.  Every request the controller sends can fail; which ones fail
 * is a parameter (`Faults`), as are the partition key `Guid.NewGuid()` draws and the tokens the
 * service issues (`Fresh`): one for a new permission, and a new one each time a permission is
 * read.
 */
module TokenBroker {
  import opened Common

  const DatabaseId := "fakeDB"
  const ContainerId := "tempCollection"
  const PermissionId := ContainerId + "PK"

  /** The message of the exception thrown when the configuration lacks ENDPOINT or KEY. */
  const MissingConfigurationMessage := "Endpoint or key is null"

  /** `HttpStatusCode.BadRequest.ToString()`. */
  const BadRequestBody := "BadRequest"

  datatype PermissionMode = Read | All

  /** A permission as the service stores it, with the resource token it issued. */
  datatype PermissionRecord = PermissionRecord(
    id: string, mode: PermissionMode, databaseId: string, containerId: string,
    partitionKey: string, token: string)

  /** Users by id, each with its permissions by permission id. */
  type Users = map<string, map<string, PermissionRecord>>

  /** The requests the controller sends to the service. */
  datatype Request =
    | CreateUserRequest(userId: string)
    | CreatePermissionRequest(userId: string, permissionId: string)
    | ReadPermissionRequest(userId: string, permissionId: string)

  /** What leaves `GetPermission`: the exception types the controller can meet. */
  datatype BrokerError =
    | GeneralException(message: string)
    | KeyNotFoundException
    | CosmosException(notFound: bool)

  /** Which of the controller's requests the service fails (for reasons other than the data). */
  datatype Faults = Faults(createUser: bool, createPermission: bool, read: bool)

  /**
   * What is drawn during one call: the random partition key, the token the service issues for a
   * new permission, and the token it issues when the permission is read.
   */
  datatype Fresh = Fresh(partitionKey: string, token: string, readToken: string)

  /** The permission the controller creates for a new user. */
  function NewPermission(issued: Fresh): (p: PermissionRecord)
    ensures p.id == "tempCollectionPK" && p.mode == All
    ensures p.databaseId == "fakeDB" && p.containerId == "tempCollection"
    ensures p.partitionKey == issued.partitionKey && p.token == issued.token
  {
    PermissionRecord(PermissionId, All, DatabaseId, ContainerId, issued.partitionKey, issued.token)
  }

  /** A permission as `ReadAsync` returns it: the stored permission with a reissued token. */
  function AsRead(p: PermissionRecord, token: string): (q: PermissionRecord)
    ensures SameGrant(p, q) && q.token == token
  {
    p.(token := token)
  }

  /** Two permissions grant the same access: they differ at most in their token. */
  predicate SameGrant(p: PermissionRecord, q: PermissionRecord) {
    p.id == q.id && p.mode == q.mode && p.databaseId == q.databaseId
    && p.containerId == q.containerId && p.partitionKey == q.partitionKey
  }

  predicate Configured(configuration: map<string, string>) {
    "ENDPOINT" in configuration && "KEY" in configuration
  }

  /** The outcome of one `GetPermission` call: its result, the store after it, and the requests sent. */
  datatype Step = Step(result: Result<PermissionRecord, BrokerError>, users: Users, requests: seq<Request>)

  /**
   * `GetPermission(userID)` as a function of the store before the call.  Creating the user
   * fails with a conflict when the user exists; any failure in the create block falls back to
   * looking the user up; with a user in hand the permission "tempCollectionPK" is read.
   */
  function Broker(users: Users, configuration: map<string, string>, userId: string, issued: Fresh, faults: Faults): Step {
    if !Configured(configuration) then
      Step(Failure(GeneralException(MissingConfigurationMessage)), users, [])
    else
      var created := !faults.createUser && userId !in users;
      var afterCreate := if created then users[userId := map[]] else users;
      var permitted := created && !faults.createPermission;
      var afterPermit := if permitted then afterCreate[userId := map[PermissionId := NewPermission(issued)]] else afterCreate;
      var createRequests := [CreateUserRequest(userId)] + (if created then [CreatePermissionRequest(userId, PermissionId)] else []);
      if userId !in afterPermit then
        Step(Failure(KeyNotFoundException), afterPermit, createRequests)
      else
        var requests := createRequests + [ReadPermissionRequest(userId, PermissionId)];
        if faults.read then
          Step(Failure(CosmosException(false)), afterPermit, requests)
        else if PermissionId !in afterPermit[userId] then
          Step(Failure(CosmosException(true)), afterPermit, requests)
        else
          Step(Success(AsRead(afterPermit[userId][PermissionId], issued.readToken)), afterPermit, requests)
  }

  /** What `Get` answers for the outcome of `GetPermission`: the token, or "BadRequest" for a missing user. */
  function Response(r: Result<PermissionRecord, BrokerError>): Result<string, BrokerError> {
    match r
    case Success(p) => Success(p.token)
    case Failure(KeyNotFoundException) => Success(BadRequestBody)
    case Failure(e) => Failure(e)
  }

  /** The permission id is always "tempCollectionPK". */
  lemma PermissionIdIsFixed()
    ensures PermissionId == "tempCollectionPK"
  {
  }

  /** Without both ENDPOINT and KEY the call throws before sending anything and the store is untouched. */
  lemma MissingConfigurationSendsNothing(users: Users, configuration: map<string, string>, userId: string, issued: Fresh, faults: Faults)
    requires "ENDPOINT" !in configuration || "KEY" !in configuration
    ensures var s := Broker(users, configuration, userId, issued, faults);
      s.result == Failure(GeneralException("Endpoint or key is null")) && s.users == users && s.requests == []
  {
  }

  /** With the configuration present, the first request is always the creation of the user. */
  lemma ConfiguredCallStartsWithCreateUser(users: Users, configuration: map<string, string>, userId: string, issued: Fresh, faults: Faults)
    requires Configured(configuration)
    ensures var s := Broker(users, configuration, userId, issued, faults);
      |s.requests| > 0 && s.requests[0] == CreateUserRequest(userId)
  {
  }

  /**
   * A new user, when nothing fails, is stored with the permission on a fresh partition key, and
   * the token the read issues for it comes back.
   */
  lemma NewUserGetsFreshPermission(users: Users, configuration: map<string, string>, userId: string, issued: Fresh)
    requires Configured(configuration) && userId !in users
    ensures var s := Broker(users, configuration, userId, issued, Faults(false, false, false));
      && s.users == users[userId := map[PermissionId := NewPermission(issued)]]
      && s.result.Success? && SameGrant(s.result.value, NewPermission(issued))
      && Response(s.result) == Success(issued.readToken)
  {
  }

  /**
   * An existing user with the permission gets that permission back, with the token the read
   * issues, and the store gains nothing.
   */
  lemma ExistingUserGetsStoredPermission(users: Users, configuration: map<string, string>, userId: string, issued: Fresh, faults: Faults)
    requires Configured(configuration) && userId in users && PermissionId in users[userId] && !faults.read
    ensures var s := Broker(users, configuration, userId, issued, faults);
      && s.result.Success? && SameGrant(s.result.value, users[userId][PermissionId])
      && s.result.value.token == issued.readToken && s.users == users
  {
  }

  /** An existing user that lacks the permission is never given one: the read fails with "not found". */
  lemma UserWithoutPermissionFails(users: Users, configuration: map<string, string>, userId: string, issued: Fresh, faults: Faults)
    requires Configured(configuration) && userId in users && PermissionId !in users[userId]
    ensures var s := Broker(users, configuration, userId, issued, faults);
      s.result.Failure? && s.result.error.CosmosException? && s.users == users
  {
  }

  /** `KeyNotFoundException` arises exactly when the user neither existed nor could be created. */
  lemma KeyNotFoundIffNoUser(users: Users, configuration: map<string, string>, userId: string, issued: Fresh, faults: Faults)
    requires Configured(configuration)
    ensures Broker(users, configuration, userId, issued, faults).result == Failure(KeyNotFoundException)
      <==> userId !in users && faults.createUser
  {
  }

  /** The store only grows: users are never removed, and existing users keep their permissions. */
  lemma StoreOnlyGrows(users: Users, configuration: map<string, string>, userId: string, issued: Fresh, faults: Faults)
    ensures var s := Broker(users, configuration, userId, issued, faults);
      forall u :: u in users ==> u in s.users && s.users[u] == users[u]
    ensures var s := Broker(users, configuration, userId, issued, faults);
      forall u :: u in s.users && u != userId ==> u in users
  {
  }

  /**
   * A repeated request for the same user, after one that returned a token, adds no user and
   * no permission and returns the same permission, whatever the create block meets; its token is
   * the one the second read issues, the old one exactly when the service reissues it unchanged.
   */
  lemma SecondCallReturnsSamePermission(users: Users, configuration: map<string, string>, userId: string,
                                        issued: Fresh, faults: Faults, issued': Fresh, faults': Faults)
    requires Broker(users, configuration, userId, issued, faults).result.Success?
    requires !faults'.read
    ensures var first := Broker(users, configuration, userId, issued, faults);
      var second := Broker(first.users, configuration, userId, issued', faults');
      && second.users == first.users && second.result.Success?
      && SameGrant(second.result.value, first.result.value)
      && second.result.value.token == issued'.readToken
      && (second.result == first.result <==> issued'.readToken == issued.readToken)
  {
    var first := Broker(users, configuration, userId, issued, faults);
    assert userId in first.users && PermissionId in first.users[userId];
    ExistingUserGetsStoredPermission(first.users, configuration, userId, issued', faults');
  }

  /**
   * When `CreateUserAsync` succeeds but `CreatePermissionAsync` fails, the user is left
   * without the permission: the next call meets a conflict, finds the user, and the read
   * fails, and so does every call after it.
   */
  lemma HalfCreatedUserStaysBroken(userId: string, issued: Fresh, issued': Fresh)
    ensures var configuration := map["ENDPOINT" := "endpoint", "KEY" := "key"];
      var first := Broker(map[], configuration, userId, issued, Faults(false, true, false));
      var second := Broker(first.users, configuration, userId, issued', Faults(false, false, false));
      && first.result.Failure? && userId in first.users
      && second.result == Failure(CosmosException(true)) && second.users == first.users
  {
  }

  /**
   * The broker as its purpose requires: a user found without the permission is given it
   * before the read, so a half-created user is repaired on the next call.
   */
  function RepairedBroker(users: Users, configuration: map<string, string>, userId: string, issued: Fresh, faults: Faults): Step {
    if !Configured(configuration) then
      Step(Failure(GeneralException(MissingConfigurationMessage)), users, [])
    else
      var created := !faults.createUser && userId !in users;
      var afterCreate := if created then users[userId := map[]] else users;
      var lacks := userId in afterCreate && PermissionId !in afterCreate[userId];
      var permitted := lacks && !faults.createPermission;
      var afterPermit := if permitted then afterCreate[userId := afterCreate[userId][PermissionId := NewPermission(issued)]] else afterCreate;
      var createRequests := [CreateUserRequest(userId)] + (if lacks then [CreatePermissionRequest(userId, PermissionId)] else []);
      if userId !in afterPermit then
        Step(Failure(KeyNotFoundException), afterPermit, createRequests)
      else
        var requests := createRequests + [ReadPermissionRequest(userId, PermissionId)];
        if faults.read then
          Step(Failure(CosmosException(false)), afterPermit, requests)
        else if PermissionId !in afterPermit[userId] then
          Step(Failure(CosmosException(true)), afterPermit, requests)
        else
          Step(Success(AsRead(afterPermit[userId][PermissionId], issued.readToken)), afterPermit, requests)
  }

  /** The repaired broker answers every known user with a token unless a request fails. */
  lemma RepairedBrokerServesKnownUsers(users: Users, configuration: map<string, string>, userId: string, issued: Fresh, faults: Faults)
    requires Configured(configuration) && userId in users && !faults.createPermission && !faults.read
    ensures var s := RepairedBroker(users, configuration, userId, issued, faults);
      && s.result.Success? && userId in s.users && PermissionId in s.users[userId]
      && s.result.value == AsRead(if PermissionId in users[userId] then users[userId][PermissionId] else NewPermission(issued), issued.readToken)
  {
  }

  /** The repair changes nothing for a new user or for a user who already holds the permission. */
  lemma RepairedBrokerAgreesOtherwise(users: Users, configuration: map<string, string>, userId: string, issued: Fresh, faults: Faults)
    requires userId !in users || PermissionId in users[userId]
    ensures RepairedBroker(users, configuration, userId, issued, faults) == Broker(users, configuration, userId, issued, faults)
  {
  }

  /** `Get` answers the token on success and "BadRequest" on `KeyNotFoundException`; every other exception propagates. */
  lemma ResponseCases(r: Result<PermissionRecord, BrokerError>)
    ensures r.Success? ==> Response(r) == Success(r.value.token)
    ensures r == Failure(KeyNotFoundException) ==> Response(r) == Success("BadRequest")
    ensures r.Failure? && r.error != KeyNotFoundException ==> Response(r) == Failure(r.error)
  {
  }

  /** The service's user and permission store, with the log of requests it received. */
  class DocumentStore {
    var users: Users
    var requests: seq<Request>

    constructor (initial: Users)
      ensures users == initial && requests == []
    {
      users := initial;
      requests := [];
    }

    /** `database.CreateUserAsync(userID)`: fails when the user exists or the request fails. */
    method CreateUser(userId: string, fails: bool) returns (ok: bool)
      modifies this
      ensures ok == (!fails && userId !in old(users))
      ensures users == if ok then old(users)[userId := map[]] else old(users)
      ensures requests == old(requests) + [CreateUserRequest(userId)]
    {
      requests := requests + [CreateUserRequest(userId)];
      ok := !fails && userId !in users;
      if ok {
        users := users[userId := map[]];
      }
    }

    /** `user.CreatePermissionAsync(permission)`: fails for a missing user, an existing permission id, or a failed request. */
    method CreatePermission(userId: string, permission: PermissionRecord, fails: bool) returns (ok: bool)
      modifies this
      ensures ok == (!fails && userId in old(users) && permission.id !in old(users)[userId])
      ensures users == if ok then old(users)[userId := old(users)[userId][permission.id := permission]] else old(users)
      ensures requests == old(requests) + [CreatePermissionRequest(userId, permission.id)]
    {
      requests := requests + [CreatePermissionRequest(userId, permission.id)];
      ok := !fails && userId in users && permission.id !in users[userId];
      if ok {
        users := users[userId := users[userId][permission.id := permission]];
      }
    }

    /** `database.GetUser(userID)`, as a lookup of the user in the store. */
    method GetUser(userId: string) returns (found: bool)
      ensures found == (userId in users)
    {
      found := userId in users;
    }

    /**
     * `user.GetPermission(id).ReadAsync()`: fails when the permission is absent or the request
     * fails; otherwise returns the stored permission with the token the service issues now.
     */
    method ReadPermission(userId: string, permissionId: string, token: string, fails: bool) returns (r: Result<PermissionRecord, BrokerError>)
      requires userId in users
      modifies this
      ensures users == old(users)
      ensures requests == old(requests) + [ReadPermissionRequest(userId, permissionId)]
      ensures r == if fails then Failure(CosmosException(false))
        else if permissionId !in users[userId] then Failure(CosmosException(true))
        else Success(AsRead(users[userId][permissionId], token))
    {
      requests := requests + [ReadPermissionRequest(userId, permissionId)];
      if fails {
        r := Failure(CosmosException(false));
      } else if permissionId !in users[userId] {
        r := Failure(CosmosException(true));
      } else {
        r := Success(AsRead(users[userId][permissionId], token));
      }
    }
  }

  class TokenController {
    const configuration: map<string, string>
    const store: DocumentStore

    constructor (configuration: map<string, string>, store: DocumentStore)
      ensures this.configuration == configuration && this.store == store
    {
      this.configuration := configuration;
      this.store := store;
    }

    /** `GetPermission(userID)`: the store is changed and the requests sent as `Broker` says. */
    method GetPermission(userId: string, issued: Fresh, faults: Faults) returns (r: Result<PermissionRecord, BrokerError>)
      modifies store
      ensures var s := Broker(old(store.users), configuration, userId, issued, faults);
        r == s.result && store.users == s.users && store.requests == old(store.requests) + s.requests
    {
      if !("ENDPOINT" in configuration && "KEY" in configuration) {
        return Failure(GeneralException(MissingConfigurationMessage));
      }
      var user := false;
      // the create block: any failure in it falls through to the lookup
      var created := store.CreateUser(userId, faults.createUser);
      if created {
        user := true;
        var permitted := store.CreatePermission(userId, NewPermission(issued), faults.createPermission);
        if !permitted {
          user := store.GetUser(userId);
        }
      } else {
        user := store.GetUser(userId);
      }
      if user {
        r := store.ReadPermission(userId, PermissionId, issued.readToken, faults.read);
        return r;
      }
      return Failure(KeyNotFoundException);
    }

    /** `Get(userID)`: the token, "BadRequest" for a missing user, any other exception propagated. */
    method Get(userId: string, issued: Fresh, faults: Faults) returns (r: Result<string, BrokerError>)
      modifies store
      ensures r == Response(Broker(old(store.users), configuration, userId, issued, faults).result)
      ensures store.users == Broker(old(store.users), configuration, userId, issued, faults).users
      ensures store.requests == old(store.requests) + Broker(old(store.users), configuration, userId, issued, faults).requests
    {
      var permission := GetPermission(userId, issued, faults);
      match permission
      case Success(p) => r := Success(p.token);
      case Failure(KeyNotFoundException) => r := Success(BadRequestBody);
      case Failure(e) => r := Failure(e);
    }
  }
}

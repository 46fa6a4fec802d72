/** The HTTP client `apiClient` and its two interceptors: the request
    interceptor attaches the stored bearer token; the response-error
    interceptor evicts the stored credentials on a first 401 and re-sends a
    request that got no response, at most three times.

    The credential store is a map from key to value; the network is an
    oracle: a fixed script of replies, one per send, and a log of the
    configurations sent. The 500 ms wait before a re-send is a no-op. */
module Client {
  import opened Wrappers
  import Json

  const AuthTokenKey: string := "auth_token"
  const UserDataKey: string := "user_data"
  const AuthorizationHeader: string := "Authorization"
  /** The bound on `_retryCount`: re-sends after failures with no response. */
  const MaxResends: nat := 3

  /** The headers every request of the client starts with. */
  function DefaultHeaders(): map<string, string> {
    map["Content-Type" := "application/json", "Accept" := "application/json"]
  }

  /** An axios request configuration with the two markers the response
      interceptor adds: `_retry` and `_retryCount` (absent reads as
      `false` and `0`). */
  datatype RequestConfig = RequestConfig(url: string, params: map<string, Json.Json>,
                                         headers: map<string, string>, retry: bool, retryCount: nat)

  /** `apiClient.get(url, {params})`: a configuration with the default headers
      and neither marker set. */
  function NewRequest(url: string, params: map<string, Json.Json>): RequestConfig {
    RequestConfig(url, params, DefaultHeaders(), false, 0)
  }

  /** An HTTP response: its status and its parsed body. */
  datatype Response = Response(status: int, body: Json.Json)

  /** What one send gets back: a response, or nothing (network failure,
      timeout). */
  datatype Reply = Answered(response: Response) | NoAnswer

  /** axios resolves a response exactly when its status is 2xx. */
  predicate IsSuccess(status: int) {
    200 <= status < 300
  }

  /** A rejected request: the response if there was one, and the
      configuration as the interceptor left it. */
  datatype ClientError = ClientError(response: Option<Response>, config: RequestConfig)

  /** `storage.getItem("auth_token")` is truthy. */
  predicate HasToken(store: map<string, string>) {
    AuthTokenKey in store && store[AuthTokenKey] != ""
  }

  /** The request interceptor: a truthy stored token becomes the
      `Authorization` header; nothing else changes. */
  function WithAuth(config: RequestConfig, store: map<string, string>): (r: RequestConfig)
    ensures r.url == config.url && r.params == config.params
    ensures r.retry == config.retry && r.retryCount == config.retryCount
    ensures !HasToken(store) ==> r == config
  {
    if HasToken(store)
    then config.(headers := config.headers[AuthorizationHeader := "Bearer " + store[AuthTokenKey]])
    else config
  }

  /** The interceptor sets `Authorization` to `Bearer <token>` exactly when a
      truthy token is stored, and keeps every other header as it was. */
  lemma BearerHeader(config: RequestConfig, store: map<string, string>)
    ensures var r := WithAuth(config, store);
      && (forall h :: h != AuthorizationHeader ==>
            (h in r.headers <==> h in config.headers) && (h in r.headers ==> r.headers[h] == config.headers[h]))
      && (HasToken(store) ==> AuthorizationHeader in r.headers
                              && r.headers[AuthorizationHeader] == "Bearer " + store[AuthTokenKey])
      && (!HasToken(store) ==> (AuthorizationHeader in r.headers <==> AuthorizationHeader in config.headers))
  {
  }

  /** The store after `removeItem("auth_token")` and `removeItem("user_data")`. */
  function Evict(store: map<string, string>): (r: map<string, string>)
    ensures !HasToken(r) && UserDataKey !in r
    ensures forall k :: k in r ==> k in store && r[k] == store[k]
  {
    store - {AuthTokenKey, UserDataKey}
  }

  /** Eviction removes exactly the two credential keys and keeps every other
      entry with its value. */
  lemma EvictRemovesExactlyCredentials(store: map<string, string>)
    ensures forall k :: k in Evict(store) <==> k in store && k != AuthTokenKey && k != UserDataKey
    ensures forall k :: k in Evict(store) ==> Evict(store)[k] == store[k]
  {
  }

  /** The reply to send number `i`; past the end of the script nothing
      answers. */
  function ReplyAt(replies: seq<Reply>, i: nat): Reply {
    if i < |replies| then replies[i] else NoAnswer
  }

  /** The re-sends a configuration still has. */
  function ResendsLeft(config: RequestConfig): nat {
    if config.retryCount < MaxResends then MaxResends - config.retryCount else 0
  }

  /** The response interceptors on a reply they do not re-send: a 2xx
      response resolves; a 401 on a configuration not yet marked marks it
      and rejects; any other status, and a missing response once the
      re-sends are used up, rejects as it is. */
  function Settle(sending: RequestConfig, reply: Reply): (r: Result<Response, ClientError>)
    ensures r.Ok? <==> reply.Answered? && IsSuccess(reply.response.status)
    ensures r.Ok? ==> r.value == reply.response
    ensures r.Err? ==> r.error.response == (if reply.Answered? then Some(reply.response) else None)
    ensures r.Err? ==> r.error.config == sending.(retry := sending.retry || Evicts(sending, reply))
  {
    match reply
    case NoAnswer => Err(ClientError(None, sending))
    case Answered(response) =>
      if IsSuccess(response.status) then Ok(response)
      else if response.status == 401 && !sending.retry then Err(ClientError(Some(response), sending.(retry := true)))
      else Err(ClientError(Some(response), sending))
  }

  /** A first 401 of a configuration evicts the credentials. */
  predicate Evicts(sending: RequestConfig, reply: Reply) {
    reply.Answered? && reply.response.status == 401 && !sending.retry
  }

  /** The interceptors send a configuration again exactly when its reply
      carried no response and it has re-sends left. */
  predicate Resends(sending: RequestConfig, reply: Reply) {
    reply.NoAnswer? && sending.retryCount < MaxResends
  }

  /** The outcome of a request, the store after it, and the configurations
      sent, in order. */
  datatype Exchange = Exchange(result: Result<Response, ClientError>, store: map<string, string>,
                               sent: seq<RequestConfig>)

  /** `apiClient(config)` when send number `from + k` gets reply `k`: the
      request interceptor, one send, then the response interceptors, which
      either settle the request or send it again through the whole chain. */
  function Dispatch(store: map<string, string>, config: RequestConfig, replies: seq<Reply>, from: nat): (e: Exchange)
    decreases ResendsLeft(config)
    ensures 1 <= |e.sent| <= ResendsLeft(config) + 1
  {
    var sending := WithAuth(config, store);
    var reply := ReplyAt(replies, from);
    if Resends(sending, reply) then
      Prepend(sending, Dispatch(store, Bump(sending), replies, from + 1))
    else Finish(store, sending, reply)
  }

  /** The configuration the interceptor re-sends: `_retryCount` raised by one. */
  function Bump(config: RequestConfig): RequestConfig {
    config.(retryCount := config.retryCount + 1)
  }

  /** A re-send: the outcome is that of the rest of the chain, after one
      more send. */
  function Prepend(sending: RequestConfig, rest: Exchange): Exchange {
    Exchange(rest.result, rest.store, [sending] + rest.sent)
  }

  /** A reply that is not re-sent: it settles the request, and a first 401
      evicts the credentials. */
  function Finish(store: map<string, string>, sending: RequestConfig, reply: Reply): Exchange {
    Exchange(Settle(sending, reply), if Evicts(sending, reply) then Evict(store) else store, [sending])
  }

  // ---------------------------------------------------------------------
  // Properties of the specification

  /** The request is sent again exactly after replies that carried no
      response. */
  lemma {:induction false} DispatchReplies(store: map<string, string>, config: RequestConfig,
                                           replies: seq<Reply>, from: nat)
    decreases ResendsLeft(config)
    ensures var e := Dispatch(store, config, replies, from);
      forall i :: from <= i < from + |e.sent| - 1 ==> ReplyAt(replies, i).NoAnswer?
  {
    var sending := WithAuth(config, store);
    if Resends(sending, ReplyAt(replies, from)) {
      DispatchReplies(store, Bump(sending), replies, from + 1);
    }
  }

  /** Passing an intercepted configuration through the interceptor again,
      whatever its re-send count, changes nothing. */
  lemma ReauthUnchanged(config: RequestConfig, store: map<string, string>, n: nat)
    ensures var once := WithAuth(config, store).(retryCount := n);
      WithAuth(once, store) == once
  {
    var once := WithAuth(config, store).(retryCount := n);
    if HasToken(store) {
      assert once.headers[AuthorizationHeader := "Bearer " + store[AuthTokenKey]] == once.headers;
    }
  }

  /** Each send is the first one with the re-send count raised by one per
      earlier send. */
  lemma {:induction false} DispatchSends(store: map<string, string>, config: RequestConfig,
                                         replies: seq<Reply>, from: nat)
    decreases ResendsLeft(config)
    ensures forall i :: 0 <= i < |Dispatch(store, config, replies, from).sent| ==>
      Dispatch(store, config, replies, from).sent[i] == WithAuth(config, store).(retryCount := config.retryCount + i)
  {
    var sending := WithAuth(config, store);
    if Resends(sending, ReplyAt(replies, from)) {
      var next := Bump(sending);
      DispatchSends(store, next, replies, from + 1);
      ReauthUnchanged(config, store, config.retryCount + 1);
      assert WithAuth(next, store) == next;
      var rest := Dispatch(store, next, replies, from + 1);
      var sent := [sending] + rest.sent;
      assert Dispatch(store, config, replies, from).sent == sent;
      forall i | 1 <= i < |sent|
        ensures sent[i] == sending.(retryCount := config.retryCount + i)
      {
        assert sent[i] == rest.sent[i - 1];
      }
    }
  }

  /** The configuration of the last send of a request. */
  function LastSent(e: Exchange): RequestConfig
    requires |e.sent| > 0
  {
    e.sent[|e.sent| - 1]
  }

  /** The reply to the last send of a request whose first send is number
      `from`. */
  function LastReply(e: Exchange, replies: seq<Reply>, from: nat): Reply
    requires |e.sent| > 0
  {
    ReplyAt(replies, from + |e.sent| - 1)
  }

  /** The last reply decides the outcome and the store; the error carries
      the configuration of the last send. */
  lemma {:induction false} DispatchSettles(store: map<string, string>, config: RequestConfig,
                                           replies: seq<Reply>, from: nat)
    decreases ResendsLeft(config)
    ensures Dispatch(store, config, replies, from).result ==
      Settle(LastSent(Dispatch(store, config, replies, from)),
             LastReply(Dispatch(store, config, replies, from), replies, from))
    ensures Dispatch(store, config, replies, from).store ==
      if Evicts(LastSent(Dispatch(store, config, replies, from)),
                LastReply(Dispatch(store, config, replies, from), replies, from))
      then Evict(store) else store
  {
    var sending := WithAuth(config, store);
    if Resends(sending, ReplyAt(replies, from)) {
      var next := Bump(sending);
      DispatchSettles(store, next, replies, from + 1);
      var rest := Dispatch(store, next, replies, from + 1);
      var sent := [sending] + rest.sent;
      assert Dispatch(store, config, replies, from) == Exchange(rest.result, rest.store, sent);
      assert sent[|sent| - 1] == rest.sent[|rest.sent| - 1];
      assert from + |sent| - 1 == (from + 1) + |rest.sent| - 1;
    }
  }

  /** The last send keeps the `_retry` mark of the first and is not followed
      by another: its reply carried a response, or the re-sends are used up. */
  lemma {:induction false} DispatchStops(store: map<string, string>, config: RequestConfig,
                                         replies: seq<Reply>, from: nat)
    decreases ResendsLeft(config)
    ensures LastSent(Dispatch(store, config, replies, from)).retry == config.retry
    ensures !Resends(LastSent(Dispatch(store, config, replies, from)),
                     LastReply(Dispatch(store, config, replies, from), replies, from))
  {
    var sending := WithAuth(config, store);
    if Resends(sending, ReplyAt(replies, from)) {
      var next := Bump(sending);
      DispatchStops(store, next, replies, from + 1);
      var rest := Dispatch(store, next, replies, from + 1);
      var sent := [sending] + rest.sent;
      assert Dispatch(store, config, replies, from).sent == sent;
      assert sent[|sent| - 1] == rest.sent[|rest.sent| - 1];
      assert from + |sent| - 1 == (from + 1) + |rest.sent| - 1;
    }
  }

  /** At most four sends per request: the first and three re-sends. */
  lemma AtMostFourSends(store: map<string, string>, config: RequestConfig, replies: seq<Reply>, from: nat)
    ensures |Dispatch(store, config, replies, from).sent| <= MaxResends + 1
  {
  }

  /** A fresh request that never gets a response is sent exactly four
      times and is then rejected without a response. */
  lemma NoResponseGivesUpAfterThreeResends(store: map<string, string>, url: string,
                                          params: map<string, Json.Json>, replies: seq<Reply>, from: nat)
    requires forall i :: from <= i < from + MaxResends + 1 ==> ReplyAt(replies, i).NoAnswer?
    ensures var e := Dispatch(store, NewRequest(url, params), replies, from);
      && |e.sent| == MaxResends + 1
      && e.result.Err? && e.result.error.response.None?
      && e.store == store
  {
    DispatchReplies(store, NewRequest(url, params), replies, from);
    DispatchSends(store, NewRequest(url, params), replies, from);
    DispatchStops(store, NewRequest(url, params), replies, from);
    DispatchSettles(store, NewRequest(url, params), replies, from);
  }

  /** A 2xx reply is handed to the caller unchanged, and only a 2xx reply
      resolves the request. */
  lemma SuccessPassesThrough(store: map<string, string>, config: RequestConfig, replies: seq<Reply>, from: nat)
    ensures var e := Dispatch(store, config, replies, from);
      var last := ReplyAt(replies, from + |e.sent| - 1);
      && (e.result.Ok? <==> last.Answered? && IsSuccess(last.response.status))
      && (e.result.Ok? ==> e.result.value == last.response && e.store == store)
  {
    DispatchSettles(store, config, replies, from);
  }

  /** The store changes only by evicting the two credential keys, and only
      when the request ends with a 401 that is the first of its
      configuration; a 401, 403, 500 or any other status never causes a
      re-send. */
  lemma CredentialsEvictedOnFirst401(store: map<string, string>, config: RequestConfig,
                                     replies: seq<Reply>, from: nat)
    ensures var e := Dispatch(store, config, replies, from);
      var last := ReplyAt(replies, from + |e.sent| - 1);
      var evicts := last.Answered? && last.response.status == 401 && !config.retry;
      && e.store == (if evicts then Evict(store) else store)
      && (evicts ==> e.result.Err? && e.result.error.config.retry)
  {
    DispatchStops(store, config, replies, from);
    DispatchSettles(store, config, replies, from);
  }

  /** A configuration already marked `_retry` never evicts. */
  lemma MarkedRequestKeepsStore(store: map<string, string>, config: RequestConfig,
                                replies: seq<Reply>, from: nat)
    requires config.retry
    ensures Dispatch(store, config, replies, from).store == store
  {
    CredentialsEvictedOnFirst401(store, config, replies, from);
  }

  /** A first reply with a response settles the request with that one send. */
  lemma AnsweredSendsOnce(store: map<string, string>, config: RequestConfig, replies: seq<Reply>, from: nat)
    requires ReplyAt(replies, from).Answered?
    ensures |Dispatch(store, config, replies, from).sent| == 1
  {
  }

  /** Every send of a fresh request carries the default headers, and an
      `Authorization: Bearer <token>` header exactly when a non-empty token
      is stored. */
  lemma HeadersOnEverySend(store: map<string, string>, url: string, params: map<string, Json.Json>,
                           replies: seq<Reply>, from: nat)
    ensures var e := Dispatch(store, NewRequest(url, params), replies, from);
      forall i :: 0 <= i < |e.sent| ==>
        && "Content-Type" in e.sent[i].headers && e.sent[i].headers["Content-Type"] == "application/json"
        && "Accept" in e.sent[i].headers && e.sent[i].headers["Accept"] == "application/json"
        && (AuthorizationHeader in e.sent[i].headers <==> HasToken(store))
        && (HasToken(store) ==> e.sent[i].headers[AuthorizationHeader] == "Bearer " + store[AuthTokenKey])
  {
    DispatchSends(store, NewRequest(url, params), replies, from);
    BearerHeader(NewRequest(url, params), store);
  }

  // ---------------------------------------------------------------------
  // The client

  class ApiClient {
    /** The stored key/value pairs (`AsyncStorage`). */
    var store: map<string, string>
    /** The replies of the network, one per send. */
    const replies: seq<Reply>
    /** Every configuration sent so far. */
    var sent: seq<RequestConfig>

    constructor (store: map<string, string>, replies: seq<Reply>)
      ensures this.store == store && this.replies == replies && sent == []
    {
      this.store := store;
      this.replies := replies;
      sent := [];
    }

    /** `apiClient(config)`: the result, the store and the log of sends
        are those of `Dispatch` from the store before. */
    method Request(config: RequestConfig) returns (r: Result<Response, ClientError>)
      modifies this
      ensures var e := Dispatch(old(store), config, replies, |old(sent)|);
        r == e.result && store == e.store && sent == old(sent) + e.sent
    {
      ghost var e0 := Dispatch(store, config, replies, |sent|);
      ghost var store0, sent0, done := store, sent, [];
      var current := config;
      while true
        invariant Pending(store0, e0, sent0, done, current)
        decreases ResendsLeft(current)
      {
        var settled;
        settled, current, done := Round(current, store0, e0, sent0, done);
        if settled.Some? {
          return settled.value;
        }
      }
    }

    /** The request is on its way to exchange `e0`: the sends so far are
        `done`, and what remains is `Dispatch` of the current configuration. */
    ghost predicate Pending(store0: map<string, string>, e0: Exchange, sent0: seq<RequestConfig>,
                            done: seq<RequestConfig>, current: RequestConfig)
      reads this
    {
      && store == store0
      && sent == sent0 + done
      && var e := Dispatch(store, current, replies, |sent|);
         e0 == Exchange(e.result, e.store, done + e.sent)
    }

    /** One pass through the interceptors: attach the token, send, and either
        settle the request or mark it for a re-send (`None`). */
    method Round(current: RequestConfig, ghost store0: map<string, string>, ghost e0: Exchange,
                 ghost sent0: seq<RequestConfig>, ghost done: seq<RequestConfig>)
      returns (settled: Option<Result<Response, ClientError>>, next: RequestConfig,
               ghost done': seq<RequestConfig>)
      requires Pending(store0, e0, sent0, done, current)
      modifies this
      ensures settled.Some? ==> settled.value == e0.result && store == e0.store && sent == sent0 + e0.sent
      ensures settled.None? ==> Pending(store0, e0, sent0, done', next) && ResendsLeft(next) < ResendsLeft(current)
    {
      var sending := Intercept(current);
      var reply := Send(sending);
      done' := done + [sending];
      next := current;
      match reply {
        case Answered(response) =>
          if IsSuccess(response.status) {
            settled := Some(Ok(response));
          } else if response.status == 401 && !sending.retry {
            EvictCredentials();
            settled := Some(Err(ClientError(Some(response), sending.(retry := true))));
          } else {
            settled := Some(Err(ClientError(Some(response), sending)));
          }
        case NoAnswer =>
          if sending.retryCount < MaxResends {
            next := sending.(retryCount := sending.retryCount + 1);
            settled := None;
          } else {
            settled := Some(Err(ClientError(None, sending)));
          }
      }
    }

    /** The request interceptor. */
    method Intercept(config: RequestConfig) returns (r: RequestConfig)
      ensures r == WithAuth(config, store)
    {
      var token := if AuthTokenKey in store then Some(store[AuthTokenKey]) else None;
      r := config;
      if token.Some? && token.value != "" {
        r := config.(headers := config.headers[AuthorizationHeader := "Bearer " + token.value]);
      }
    }

    /** One send on the network. */
    method Send(config: RequestConfig) returns (reply: Reply)
      modifies this`sent
      ensures sent == old(sent) + [config]
      ensures reply == ReplyAt(replies, |old(sent)|)
    {
      reply := ReplyAt(replies, |sent|);
      sent := sent + [config];
    }

    /** `storage.removeItem("auth_token")`, then `storage.removeItem("user_data")`. */
    method EvictCredentials()
      modifies this`store
      ensures store == Evict(old(store))
    {
      RemoveItem(AuthTokenKey);
      RemoveItem(UserDataKey);
      assert store == old(store) - {AuthTokenKey, UserDataKey};
    }

    /** `storage.removeItem(key)`. */
    method RemoveItem(key: string)
      modifies this`store
      ensures store == old(store) - {key}
    {
      store := store - {key};
    }
  }
}

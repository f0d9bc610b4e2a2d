/** The stateful part of the Cursor API client (cursor/client.py): the
    read-through cache of the repository list, and `create_task`, which falls
    back on that list when the caller names no repository. */
module Client {
  import opened Schemas
  import opened Text
  import Gateway

  /** Seconds a fetched repository list stays fresh. */
  const CacheTtl: int := 60
  const TooManyRequests: int := 429

  /** The cached list (None before the first successful fetch) and the clock
      reading, in seconds, at which it was fetched. */
  datatype CacheState = CacheState(repositories: Option<seq<Repository>>, time: int)

  /** What one `get_available_repositories` call yields: its result, the cache
      afterwards, and whether GET /repositories was issued. */
  datatype Listing = Listing(result: Result<seq<Repository>, ClientError>, cache: CacheState, called: bool)

  /** A cached list may be served without asking the remote. */
  predicate Fresh(c: CacheState, useCache: bool, now: int) {
    useCache && c.repositories.Some? && now - c.time < CacheTtl
  }

  /** An error reply that the client reads as the rate limit. */
  predicate RateLimitReply(code: int, text: string, key: ErrorKey) {
    code == TooManyRequests || Contains(Lower(text), "rate limit") || key == KeyText("Rate limit exceeded")
  }

  /** After a rate limit or a network error: the cached list, however old, when
      the caller allows the cache and there is one; otherwise the error. */
  function Fallback(c: CacheState, useCache: bool, e: ClientError): (r: Result<seq<Repository>, ClientError>)
    ensures r.Success? <==> useCache && c.repositories.Some?
    ensures r.Success? ==> r.value == c.repositories.value
    ensures r.Failure? ==> r.error == e
  {
    if useCache && c.repositories.Some? then Success(c.repositories.value) else Failure(e)
  }

  /** `get_available_repositories` as a function of the cache, the caller's
      `use_cache`, the clock and what GET /repositories would answer. A
      successful reply carries the body's "repositories" entry, None when the
      key is absent, which reads as an empty list. A JSON null under the key
      makes the source's `len` in its log line raise before the cache is
      written, so it is a `Malformed` reply here. */
  function ListRepositories(c: CacheState, useCache: bool, now: int, reply: HttpReply<Option<seq<Repository>>>): (l: Listing)
    ensures l.called <==> !Fresh(c, useCache, now)
    ensures !l.called ==> l.result == Success(c.repositories.value) && l.cache == c
    ensures l.cache == c || (reply.Ok? && l.result.Success? && l.cache == CacheState(Some(l.result.value), now))
    ensures l.called && reply.Ok? ==> l.result.Success? && l.cache == CacheState(Some(l.result.value), now)
  {
    if Fresh(c, useCache, now) then Listing(Success(c.repositories.value), c, false)
    else
      match reply
      case Ok(body) =>
        var repos := if body.Some? then body.value else [];
        Listing(Success(repos), CacheState(Some(repos), now), true)
      case HttpError(code, text, key) =>
        if RateLimitReply(code, text, key) then Listing(Fallback(c, useCache, ApiError(RateLimited, Some(TooManyRequests))), c, true)
        else if key.NotObject? then Listing(Failure(UnexpectedError), c, true)
        else Listing(Failure(ApiError(RepositoriesFailed, Some(code))), c, true)
      case NetworkFailure => Listing(Fallback(c, useCache, ApiError(Network, None)), c, true)
      case Malformed => Listing(Failure(UnexpectedError), c, true)
  }

  /** A successful fetch replaces both the list and its time stamp; a body
      without the "repositories" key counts as an empty list. */
  lemma FetchRefreshesCache(c: CacheState, useCache: bool, now: int, body: Option<seq<Repository>>)
    requires !Fresh(c, useCache, now)
    ensures var repos := if body.Some? then body.value else [];
      var l := ListRepositories(c, useCache, now, Ok(body));
      l.called && l.result == Success(repos) && l.cache == CacheState(Some(repos), now)
  {
  }

  /** A successful reply whose body cannot be read as expected, and an error
      reply whose JSON body is not an object, raise an unexpected error whatever
      the cache holds; the cache is kept. */
  lemma UnreadableReplyRaises(c: CacheState, useCache: bool, now: int, reply: HttpReply<Option<seq<Repository>>>)
    requires !Fresh(c, useCache, now)
    requires reply.Malformed? || (reply.HttpError? && !RateLimitReply(reply.code, reply.text, reply.errorKey) && reply.errorKey.NotObject?)
    ensures var l := ListRepositories(c, useCache, now, reply);
      l.called && l.result == Failure(UnexpectedError) && l.cache == c
  {
  }

  /** Two calls less than a minute apart, the first of which fetched the list,
      issue one request between them: the second is served from the cache. */
  lemma SecondCallWithinWindowIsCached(c: CacheState, t1: int, t2: int, reply1: HttpReply<Option<seq<Repository>>>, reply2: HttpReply<Option<seq<Repository>>>)
    requires ListRepositories(c, true, t1, reply1).called && reply1.Ok?
    requires t1 <= t2 < t1 + CacheTtl
    ensures var l1 := ListRepositories(c, true, t1, reply1);
      var l2 := ListRepositories(l1.cache, true, t2, reply2);
      !l2.called && l2.result == l1.result && l2.cache == l1.cache
  {
  }

  /** On a rate limit or a network error, a cached list is served whatever its
      age, as long as the caller allows the cache; the cache is kept. */
  lemma StaleListOnFailure(c: CacheState, now: int, reply: HttpReply<Option<seq<Repository>>>)
    requires c.repositories.Some?
    requires reply.NetworkFailure? || (reply.HttpError? && RateLimitReply(reply.code, reply.text, reply.errorKey))
    ensures var l := ListRepositories(c, true, now, reply);
      l.result == Success(c.repositories.value) && l.cache == c
  {
  }

  /** Without a usable cache, a rate limit is reported as such with status 429,
      and a network error as a network error without a status. */
  lemma FailureWithoutCache(c: CacheState, useCache: bool, now: int, reply: HttpReply<Option<seq<Repository>>>)
    requires !(useCache && c.repositories.Some?)
    ensures reply.HttpError? && RateLimitReply(reply.code, reply.text, reply.errorKey) ==>
      ListRepositories(c, useCache, now, reply).result == Failure(ApiError(RateLimited, Some(TooManyRequests)))
    ensures reply.NetworkFailure? ==>
      ListRepositories(c, useCache, now, reply).result == Failure(ApiError(Network, None))
  {
  }

  /** Any other HTTP error raises with the reply's status code, even when a
      cached list exists and the caller allows the cache: only a rate limit and
      a network error fall back to it. The cache is kept. */
  lemma OtherErrorIgnoresCache(c: CacheState, useCache: bool, now: int, reply: HttpReply<Option<seq<Repository>>>)
    requires !Fresh(c, useCache, now)
    requires reply.HttpError? && !RateLimitReply(reply.code, reply.text, reply.errorKey) && !reply.errorKey.NotObject?
    ensures var l := ListRepositories(c, useCache, now, reply);
      l.called && l.result == Failure(ApiError(RepositoriesFailed, Some(reply.code))) && l.cache == c
  {
  }

  /** The client object: its only mutable state is the repository cache. */
  class CursorClient {
    var repositoriesCache: Option<seq<Repository>>
    var repositoriesCacheTime: int

    constructor ()
      ensures repositoriesCache == None && repositoriesCacheTime == 0
    {
      repositoriesCache := None;
      repositoriesCacheTime := 0;
    }

    function Cache(): CacheState
      reads this
    {
      CacheState(repositoriesCache, repositoriesCacheTime)
    }

    /** `get_available_repositories`; `now` is the clock reading at the call,
        `reply` what GET /repositories answers if it is asked, and `called`
        tells whether it was. */
    method GetAvailableRepositories(useCache: bool, now: int, reply: HttpReply<Option<seq<Repository>>>)
      returns (r: Result<seq<Repository>, ClientError>, called: bool)
      modifies this
      ensures var l := ListRepositories(old(Cache()), useCache, now, reply);
        r == l.result && called == l.called && Cache() == l.cache
    {
      if useCache && repositoriesCache.Some? {
        var age := now - repositoriesCacheTime;
        if age < CacheTtl {
          return Success(repositoriesCache.value), false;
        }
      }
      called := true;
      match reply {
        case Ok(body) =>
          var repositories := if body.Some? then body.value else [];
          repositoriesCache := Some(repositories);
          repositoriesCacheTime := now;
          r := Success(repositories);
        case HttpError(code, text, key) =>
          if code == TooManyRequests || Contains(Lower(text), "rate limit") || key == KeyText("Rate limit exceeded") {
            if useCache && repositoriesCache.Some? {
              r := Success(repositoriesCache.value);
            } else {
              r := Failure(ApiError(RateLimited, Some(TooManyRequests)));
            }
          } else if key.NotObject? {
            r := Failure(UnexpectedError);
          } else {
            r := Failure(ApiError(RepositoriesFailed, Some(code)));
          }
        case NetworkFailure =>
          if useCache && repositoriesCache.Some? {
            r := Success(repositoriesCache.value);
          } else {
            r := Failure(ApiError(Network, None));
          }
        case Malformed =>
          r := Failure(UnexpectedError);
      }
    }

    /** `create_task`. Without a repository from the caller it reads the
        repository list through the cache (at clock `now`, the remote answering
        `listingReply`) and falls back on `defaultRepository`; `reply` is what
        POST /agents answers. Returns the request it sent and the outcome. */
    method CreateTask(text: string, repositoryUrl: Option<string>, action: Option<string>, now: int,
                      listingReply: HttpReply<Option<seq<Repository>>>, defaultRepository: string,
                      reply: HttpReply<Gateway.CreatedRecord>)
      returns (request: CreateTaskRequest, r: Result<TaskResponse, ClientError>)
      modifies this
      ensures Truthy(repositoryUrl) ==>
        Cache() == old(Cache()) && request.repository == repositoryUrl.value
      ensures !Truthy(repositoryUrl) ==>
        var l := ListRepositories(old(Cache()), true, now, listingReply);
        Cache() == l.cache && request.repository == Gateway.ChooseRepository(repositoryUrl, l.result, defaultRepository)
      ensures request.promptText == Gateway.PromptText(text, action)
      ensures r == Gateway.CreateOutcome(text, reply)
    {
      var repository: string;
      if Truthy(repositoryUrl) {
        repository := repositoryUrl.value;
      } else {
        var listed, _ := GetAvailableRepositories(true, now, listingReply);
        repository := Gateway.ChooseRepository(repositoryUrl, listed, defaultRepository);
      }
      request := CreateTaskRequest(Gateway.PromptText(text, action), repository);
      r := Gateway.CreateOutcome(text, reply);
    }
  }
}

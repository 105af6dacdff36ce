/**
 * The world the scraper talks to, and the one retry loop every call site
 * uses. A run's effects are recorded as a trace of actions; the HTTP
 * server answers the n-th request of the run with `server(n, url)`.
 */
module Io {
  import opened Wrappers
  import opened Records

  /** How many requests a call site makes before it gives up. */
  const MaxAttempts: nat := 3

  /**
   * Everything a run consumes from outside: the web server, the local
   * date formatting of `datetime.fromtimestamp(...).strftime(...)` for days
   * and for date-times, the working directory, `os.cpu_count()` and the
   * files on disk before the run.
   */
  datatype World = World(
    server: (nat, string) -> Response,
    formatDay: int -> string,
    formatDateTime: int -> string,
    cwd: string,
    cpuCount: int,
    disk: map<string, File>)

  /** `k` copies of `x`. */
  function Repeat<T>(x: T, k: nat): seq<T>
  {
    seq(k, _ => x)
  }

  /** The URLs requested in a trace, in order. */
  function RequestUrls(t: seq<Action>): seq<string>
    decreases |t|
  {
    if |t| == 0 then [] else (if t[0].Request? then [t[0].url] else []) + RequestUrls(t[1..])
  }

  lemma {:induction false} RequestUrlsConcat(a: seq<Action>, b: seq<Action>)
    ensures RequestUrls(a + b) == RequestUrls(a) + RequestUrls(b)
    decreases |a|
  {
    if |a| == 0 {
      assert a + b == b;
    } else {
      assert (a + b)[0] == a[0];
      assert (a + b)[1..] == a[1..] + b;
      RequestUrlsConcat(a[1..], b);
    }
  }

  /** A pause requests nothing. */
  lemma PauseRequestsNothing(t: seq<Action>, seconds: real)
    ensures RequestUrls(t + [Sleep(seconds)]) == RequestUrls(t)
  {
    RequestUrlsConcat(t, [Sleep(seconds)]);
    assert RequestUrls([Sleep(seconds)]) == [];
  }

  /** How many requests a trace makes. */
  function Requests(t: seq<Action>): nat
  {
    |RequestUrls(t)|
  }

  /** The files on disk after a trace: the last write to a path wins. */
  function Disk(initial: map<string, File>, t: seq<Action>): map<string, File>
    decreases |t|
  {
    if |t| == 0 then initial
    else
      var before := Disk(initial, t[..|t| - 1]);
      match t[|t| - 1]
      case Write(p, f) => before[p := f]
      case _ => before
  }

  /** A write is the last word on its path. */
  lemma DiskWrite(initial: map<string, File>, t: seq<Action>, path: string, file: File)
    ensures Disk(initial, t + [Write(path, file)]) == Disk(initial, t)[path := file]
  {
    var all := t + [Write(path, file)];
    assert all[..|all| - 1] == t;
  }

  /** Each of `targets` in order, the i-th repeated `counts[i]` times. */
  function Expand(targets: seq<string>, counts: seq<nat>): seq<string>
    requires |counts| == |targets|
    decreases |targets|
  {
    if |targets| == 0 then [] else Repeat(targets[0], counts[0]) + Expand(targets[1..], counts[1..])
  }

  /** Expanding the first `k + 1` targets: the first one's repeats, then the next `k`. */
  lemma ExpandCons(targets: seq<string>, k: nat, c: nat, more: seq<nat>)
    requires k + 1 <= |targets| && |more| == k
    ensures Expand(targets[..k + 1], [c] + more) == Repeat(targets[0], c) + Expand(targets[1..][..k], more)
  {
    var u, cs := targets[..k + 1], [c] + more;
    assert u[0] == targets[0] && u[1..] == targets[1..][..k];
    assert cs[0] == c && cs[1..] == more;
  }

  /** Expanding a first target and then the rest. */
  lemma ExpandFront(u: string, c: nat, targets: seq<string>, counts: seq<nat>)
    requires |targets| == |counts|
    ensures Expand([u] + targets, [c] + counts) == Repeat(u, c) + Expand(targets, counts)
  {
    assert ([u] + targets)[1..] == targets && ([c] + counts)[1..] == counts;
  }

  /** Expanding two lists of targets one after the other. */
  lemma {:induction false} ExpandConcat(a: seq<string>, ca: seq<nat>, b: seq<string>, cb: seq<nat>)
    requires |ca| == |a| && |cb| == |b|
    ensures Expand(a + b, ca + cb) == Expand(a, ca) + Expand(b, cb)
    decreases |a|
  {
    if |a| == 0 {
      assert a + b == b && ca + cb == cb;
    } else {
      assert (a + b)[0] == a[0] && (a + b)[1..] == a[1..] + b;
      assert (ca + cb)[0] == ca[0] && (ca + cb)[1..] == ca[1..] + cb;
      ExpandConcat(a[1..], ca[1..], b, cb);
    }
  }

  /** Two lists of attempt counts make one. */
  lemma AttemptCountsConcat(ca: seq<nat>, cb: seq<nat>)
    requires AttemptCounts(ca) && AttemptCounts(cb)
    ensures AttemptCounts(ca + cb)
  {
    assert forall i :: |ca| <= i < |ca| + |cb| ==> (ca + cb)[i] == cb[i - |ca|];
  }

  /** A first count and the rest are attempt counts exactly when each is. */
  lemma AttemptCountsFront(c: nat, counts: seq<nat>)
    ensures AttemptCounts([c] + counts) <==> 1 <= c <= MaxAttempts && AttemptCounts(counts)
  {
    var all := [c] + counts;
    assert all[0] == c;
    assert forall i :: 0 <= i < |counts| ==> counts[i] == all[i + 1];
  }

  /** Every count is a number of attempts a retry loop can make. */
  predicate AttemptCounts(counts: seq<nat>)
  {
    forall i :: 0 <= i < |counts| ==> 1 <= counts[i] <= MaxAttempts
  }

  /**
   * `us` requests each of `targets` in order, each of them one to
   * `MaxAttempts` times in a row, and nothing else.
   */
  ghost predicate Visits(us: seq<string>, targets: seq<string>)
  {
    exists counts: seq<nat> :: |counts| == |targets| && AttemptCounts(counts) && us == Expand(targets, counts)
  }

  /** `j` failed attempts: each one a request followed by the back-off sleep. */
  function Failed(url: string, backoff: real, j: nat): seq<Action>
    decreases j
  {
    if j == 0 then [] else [Request(url), Sleep(backoff)] + Failed(url, backoff, j - 1)
  }

  /** Failed attempts request their URL once each. */
  lemma {:induction false} FailedRequests(url: string, backoff: real, j: nat)
    ensures RequestUrls(Failed(url, backoff, j)) == Repeat(url, j)
    decreases j
  {
    if j > 0 {
      var rest := Failed(url, backoff, j - 1);
      FailedRequests(url, backoff, j - 1);
      RequestUrlsConcat([Request(url), Sleep(backoff)], rest);
      assert RequestUrls([Request(url), Sleep(backoff)]) == [url] by {
        assert [Request(url), Sleep(backoff)][1..] == [Sleep(backoff)];
        assert [Sleep(backoff)][1..] == [];
      }
      assert [url] + Repeat(url, j - 1) == Repeat(url, j);
    }
  }

  lemma {:induction false} FailedSnoc(url: string, backoff: real, j: nat)
    ensures Failed(url, backoff, j) + [Request(url), Sleep(backoff)] == Failed(url, backoff, j + 1)
    decreases j
  {
    if j > 0 {
      FailedSnoc(url, backoff, j - 1);
    }
  }

  /** The requests, sleeps and final response of one retry loop. */
  datatype Fetch = Fetch(trace: seq<Action>, response: Response, attempts: nat)

  /**
   * A retry loop with `left` attempts still allowed, starting at request
   * number `n`: it stops at the first status 200, sleeps `backoff` after
   * every failed attempt, and after the last failure carries on with that
   * last response (see `RetryFacts`).
   */
  function RetryFrom(server: (nat, string) -> Response, n: nat, url: string, backoff: real, left: nat): (f: Fetch)
    requires left >= 1
    ensures 1 <= f.attempts <= left
    decreases left
  {
    var r := server(n, url);
    if r.status == 200 then
      Fetch([Request(url)], r, 1)
    else if left == 1 then
      Fetch(Failed(url, backoff, 1), r, 1)
    else
      var rest := RetryFrom(server, n + 1, url, backoff, left - 1);
      Fetch([Request(url), Sleep(backoff)] + rest.trace, rest.response, rest.attempts + 1)
  }

  /**
   * The retry loop keeps the response of its last attempt; every earlier
   * attempt was refused; it stops early only on status 200; and it sleeps
   * after each refused attempt and after nothing else.
   */
  lemma RetryFacts(server: (nat, string) -> Response, n: nat, url: string, backoff: real, left: nat)
    requires left >= 1
    ensures var f := RetryFrom(server, n, url, backoff, left);
      && f.response == server(n + f.attempts - 1, url)
      && (forall j :: n <= j < n + f.attempts - 1 ==> server(j, url).status != 200)
      && (f.response.status == 200 || f.attempts == left)
      && f.trace == if f.response.status == 200 then Failed(url, backoff, f.attempts - 1) + [Request(url)]
                    else Failed(url, backoff, f.attempts)
  {
    RetryOutcome(server, n, url, backoff, left);
    RetryTrace(server, n, url, backoff, left);
  }

  /** The response, the refused attempts and the reason the loop stopped. */
  lemma {:induction false} RetryOutcome(server: (nat, string) -> Response, n: nat, url: string, backoff: real, left: nat)
    requires left >= 1
    ensures var f := RetryFrom(server, n, url, backoff, left);
      && f.response == server(n + f.attempts - 1, url)
      && (forall j :: n <= j < n + f.attempts - 1 ==> server(j, url).status != 200)
      && (f.response.status == 200 || f.attempts == left)
    decreases left
  {
    var r := server(n, url);
    if r.status != 200 && left > 1 {
      RetryOutcome(server, n + 1, url, backoff, left - 1);
    }
  }

  /** The trace: a sleep after each refused attempt, and nothing after an accepted one. */
  lemma {:induction false} RetryTrace(server: (nat, string) -> Response, n: nat, url: string, backoff: real, left: nat)
    requires left >= 1
    ensures var f := RetryFrom(server, n, url, backoff, left);
      f.trace == if f.response.status == 200 then Failed(url, backoff, f.attempts - 1) + [Request(url)]
                 else Failed(url, backoff, f.attempts)
    decreases left
  {
    var r := server(n, url);
    if r.status != 200 && left > 1 {
      var rest := RetryFrom(server, n + 1, url, backoff, left - 1);
      RetryTrace(server, n + 1, url, backoff, left - 1);
      if rest.response.status == 200 {
        assert [Request(url), Sleep(backoff)] + (Failed(url, backoff, rest.attempts - 1) + [Request(url)])
            == Failed(url, backoff, rest.attempts) + [Request(url)];
      } else {
        assert [Request(url), Sleep(backoff)] + Failed(url, backoff, rest.attempts) == Failed(url, backoff, rest.attempts + 1);
      }
    }
  }

  /**
   * The converse of `RetryFacts`: a number of attempts whose earlier
   * responses were refused, ending at a status 200 or at the last attempt
   * allowed, is the retry loop's.
   */
  lemma {:induction false} RetryDetermined(server: (nat, string) -> Response, n: nat, url: string, backoff: real, left: nat, k: nat)
    requires 1 <= k <= left
    requires forall j :: n <= j < n + k - 1 ==> server(j, url).status != 200
    requires server(n + k - 1, url).status == 200 || k == left
    ensures RetryFrom(server, n, url, backoff, left)
         == Fetch(if server(n + k - 1, url).status == 200 then Failed(url, backoff, k - 1) + [Request(url)]
                  else Failed(url, backoff, k),
                  server(n + k - 1, url), k)
    decreases k
  {
    if k > 1 {
      assert server(n, url).status != 200;
      RetryDetermined(server, n + 1, url, backoff, left - 1, k - 1);
      if server(n + k - 1, url).status == 200 {
        assert [Request(url), Sleep(backoff)] + (Failed(url, backoff, k - 2) + [Request(url)])
            == Failed(url, backoff, k - 1) + [Request(url)];
      }
    }
  }

  /** A retry loop requests its URL once per attempt and nothing else. */
  lemma RetryRequests(server: (nat, string) -> Response, n: nat, url: string, backoff: real, left: nat)
    requires left >= 1
    ensures var f := RetryFrom(server, n, url, backoff, left);
            RequestUrls(f.trace) == Repeat(url, f.attempts) && Requests(f.trace) == f.attempts
  {
    var f := RetryFrom(server, n, url, backoff, left);
    RetryFacts(server, n, url, backoff, left);
    if f.response.status == 200 {
      FailedRequests(url, backoff, f.attempts - 1);
      RequestUrlsConcat(Failed(url, backoff, f.attempts - 1), [Request(url)]);
      assert RequestUrls([Request(url)]) == [url];
      assert Repeat(url, f.attempts - 1) + [url] == Repeat(url, f.attempts);
    } else {
      FailedRequests(url, backoff, f.attempts);
    }
  }

  /** The retry loop of a call site: at most `MaxAttempts` requests. */
  function Retry(server: (nat, string) -> Response, n: nat, url: string, backoff: real): Fetch
  {
    RetryFrom(server, n, url, backoff, MaxAttempts)
  }

  /** The retry loop of a call site as a function of the request number and the URL. */
  function Retrier(server: (nat, string) -> Response, backoff: real): (nat, string) -> Fetch
  {
    (n: nat, url: string) => Retry(server, n, url, backoff)
  }

  /** `fetch` is the retry loop with back-off `backoff` against `server`. */
  ghost predicate Retries(fetch: (nat, string) -> Fetch, server: (nat, string) -> Response, backoff: real)
  {
    forall n: nat, url: string {:trigger Retry(server, n, url, backoff)} :: fetch(n, url) == Retry(server, n, url, backoff)
  }

  lemma RetrierRetries(server: (nat, string) -> Response, backoff: real)
    ensures Retries(Retrier(server, backoff), server, backoff)
  {
  }

  /** A fetcher that requests its URL once per attempt, one to `MaxAttempts` times, and nothing else. */
  ghost predicate RequestsOnlyItsUrl(fetch: (nat, string) -> Fetch)
  {
    forall n: nat, url: string :: 1 <= fetch(n, url).attempts <= MaxAttempts && RequestUrls(fetch(n, url).trace) == Repeat(url, fetch(n, url).attempts)
  }

  /** What `RetryFacts` says, for the retry loop as a function of the request number and the URL. */
  lemma RetrierFacts(server: (nat, string) -> Response, n: nat, url: string, backoff: real)
    ensures var f := Retrier(server, backoff)(n, url);
      && f.response == server(n + f.attempts - 1, url)
      && (forall j :: n <= j < n + f.attempts - 1 ==> server(j, url).status != 200)
      && (f.response.status == 200 || f.attempts == MaxAttempts)
      && f.trace == if f.response.status == 200 then Failed(url, backoff, f.attempts - 1) + [Request(url)]
                    else Failed(url, backoff, f.attempts)
  {
    assert Retrier(server, backoff)(n, url) == RetryFrom(server, n, url, backoff, MaxAttempts);
    RetryFacts(server, n, url, backoff, MaxAttempts);
  }

  lemma RetrierRequestsOnlyItsUrl(server: (nat, string) -> Response, backoff: real)
    ensures RequestsOnlyItsUrl(Retrier(server, backoff))
  {
    forall n: nat, url: string
      ensures 1 <= Retrier(server, backoff)(n, url).attempts <= MaxAttempts
      ensures RequestUrls(Retrier(server, backoff)(n, url).trace) == Repeat(url, Retrier(server, backoff)(n, url).attempts)
    {
      RetryRequests(server, n, url, backoff, MaxAttempts);
    }
  }

  /** The world plus what a run has done to it so far. */
  class Env {
    const world: World
    var trace: seq<Action>
    /** How many requests the run has made: the server's index for the next one. */
    var requests: nat

    constructor (world: World)
      ensures this.world == world && trace == [] && requests == 0
    {
      this.world := world;
      trace := [];
      requests := 0;
    }

    /** `requests.get(url)`: the server's answer to this run's next request. */
    method Get(url: string) returns (r: Response)
      modifies this
      ensures trace == old(trace) + [Request(url)] && requests == old(requests) + 1
      ensures r == world.server(old(requests), url)
    {
      r := world.server(requests, url);
      trace := trace + [Request(url)];
      requests := requests + 1;
    }

    /** `time.sleep(seconds)`. */
    method Pause(seconds: real)
      modifies this
      ensures trace == old(trace) + [Sleep(seconds)] && requests == old(requests)
    {
      trace := trace + [Sleep(seconds)];
    }

    /** `Path(path).mkdir(parents=True, exist_ok=True)`. */
    method MakeDirectory(path: string)
      modifies this
      ensures trace == old(trace) + [MakeDirs(path)] && requests == old(requests)
    {
      trace := trace + [MakeDirs(path)];
    }

    /** Writing `file` to `path`, replacing whatever was there. */
    method WriteFile(path: string, file: File)
      modifies this
      ensures trace == old(trace) + [Write(path, file)] && requests == old(requests)
    {
      trace := trace + [Write(path, file)];
    }

    /** Handing `tasks` to a pool of `workers` processes. */
    method StartPool(workers: int, tasks: seq<Task>)
      modifies this
      ensures trace == old(trace) + [RunPool(workers, tasks)] && requests == old(requests)
    {
      trace := trace + [RunPool(workers, tasks)];
    }

    /** Opening `path` for reading: its current contents, or None if there is no such file. */
    method Read(path: string) returns (f: Option<File>)
      ensures path in Disk(world.disk, trace) <==> f.Some?
      ensures f.Some? ==> f.value == Disk(world.disk, trace)[path]
    {
      var files := Disk(world.disk, trace);
      f := if path in files then Some(files[path]) else None;
    }
  }

  /**
   * The loop `attempts = 0; while attempts < 3: r = get(url); if status is
   * 200: break; attempts += 1; sleep(backoff)`, which every call site runs.
   */
  method RetryGet(env: Env, url: string, backoff: real) returns (r: Response)
    modifies env
    ensures var f := Retry(env.world.server, old(env.requests), url, backoff);
            env.trace == old(env.trace) + f.trace && env.requests == old(env.requests) + f.attempts && r == f.response
  {
    ghost var t0, n0 := env.trace, env.requests;
    var attempts := 0;
    r := Response(0, Document([], [], None, None, []));  // replaced by the first request
    while attempts < MaxAttempts
      invariant 0 <= attempts <= MaxAttempts
      invariant env.trace == t0 + Failed(url, backoff, attempts) && env.requests == n0 + attempts
      invariant forall j :: n0 <= j < n0 + attempts ==> env.world.server(j, url).status != 200
      invariant attempts > 0 ==> r == env.world.server(n0 + attempts - 1, url)
      decreases MaxAttempts - attempts
    {
      r := env.Get(url);
      if r.status == 200 {
        RetryDetermined(env.world.server, n0, url, backoff, MaxAttempts, attempts + 1);
        return;
      }
      attempts := attempts + 1;
      env.Pause(backoff);
      FailedSnoc(url, backoff, attempts - 1);
    }
    RetryDetermined(env.world.server, n0, url, backoff, MaxAttempts, MaxAttempts);
  }
}

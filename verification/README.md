# fast_scraping_rs: the fetch core in Dafny

This project models `FastScraper`, the Rust type (exposed to Python) that fetches web
pages with retries and fetches batches of URLs. Three modules:

- `Prelude`: Rust's `u32`/`u64`/`usize` as newtypes, so that overflow and underflow are
  verification errors; `Result` for a Rust result whose error is a `ScrapingError` (a
  message); `Reply` for how a call from Python ends: it returns a value, raises an
  exception with a message, panics, or never returns.
- `Http`: status codes (100 to 999), the 2xx and 5xx classes, what one GET request
  yields (`Outcome`), and the `"HTTP error: <status>"` message.
- `Scraper`: the scraper's configuration and `new`; `fetch` as a method with the same
  `while retries < max_retries` loop as the source; `fetch_many` as a pure fold.

The network is replaced by an oracle. `Fetch` takes a function `attempt` that gives
the outcome of the k-th request. `FetchMany` takes one outcome per URL. An outcome
is a transport failure with its message, or a response with its status code, its
reason phrase and what reading its body gives. Sleeping is not performed. `Fetch`
returns the delays it would sleep as the list `sleeps`, and the number of requests
it made as `sent`.

What the model shows about the code as written:

- Every failed attempt of `fetch` is retried the same way. This covers a 5xx, a 4xx,
  a transport error and an unreadable 2xx body. The server-error condition on
  src/lib.rs:91 builds the same error on both of its branches (`FetchAttempt`). That condition suggests a policy in which only server errors
  are retried and a 4xx is final. The code retries a 4xx all the same, and the
  model follows the code (`AlwaysFailingTarget`).
- Inside the loop `retries < max_retries` holds. So `self.max_retries - 1` on line 91
  and `retries += 1` on line 110 stay within `u32`. `1000 * retries` fits in `u64`.
- `unreachable!()` on line 120 is reached exactly when `max_retries == 0`. The model
  returns `Panicked` there, without making any request.
- The rate-limit permit is dropped as soon as it is acquired. So acquiring only
  matters when the semaphore has zero permits. Then the acquire never completes and
  the call never returns (`Blocked`).
- `fetch_many` accepts only status 200. `fetch` accepts any 2xx status.

## Model

| member | source | states |
|---|---|---|
| `Http.StatusDigits` | src/lib.rs:93 | a status code is printed as three decimal digits that read back as the same code |
| `Http.HttpErrorMessageNamesStatus` | src/lib.rs:92-98 | a rejected status gives a message starting with "HTTP error: ", then the code in decimal, a space and the reason phrase |
| `Http.HttpErrorMessageInjective` | src/lib.rs:143-145 | two rejected responses give the same message only if they have the same status code and reason phrase |
| `Scraper.New` | src/lib.rs:56-73 | construction fails exactly when the client cannot be built, and raises that error. Otherwise it keeps the timeout and `max_retries`, and has a limiter exactly when `max_concurrent_requests` is given, with that many permits. Requests get through unless that limit is zero |
| `Scraper.NewDefault` | src/lib.rs:51-55 | `FastScraper()` with the default arguments has a 5000 ms timeout, at most 3 requests with sleeps of 1000 ms then 2000 ms, and no rate limit, so requests always get through |
| `Scraper.Classify` | src/lib.rs:86-104 | one attempt of `fetch` succeeds exactly when the status is 2xx and the body is readable, and then yields the body. Any non-2xx status yields "HTTP error: <status>" |
| `Scraper.FetchAttempt` | src/lib.rs:91-99 | the loop body as written, including its server-error test and the `max_retries - 1` computed in `u32` without underflow, equals `Classify`: the retry count never changes the result |
| `Scraper.LinearBackoff` | src/lib.rs:116 | the delay after the k-th failure is 1000 * k ms |
| `Scraper.TotalBackoff` | src/lib.rs:110-116 | the delays after n failures add up to 500 * n * (n + 1) ms |
| `Scraper.Fetch` | src/lib.rs:76-121 | at most `max_retries` requests. The first attempt that succeeds ends the call and returns its body. If every allowed attempt fails, exactly `max_retries` requests are made and the last one's error is raised. Linear sleeps follow every failure except the last. A panic happens exactly when `max_retries == 0`. A block forever happens exactly when `max_retries >= 1` and the limiter has zero permits |
| `Scraper.AlwaysFailingTarget` | src/lib.rs:107-117 | a target that always fails, whether with 5xx, 404, a transport error or an unreadable body, gets exactly `max_retries` requests. The caller gets its error after 500 * (r - 1) * r ms of sleep |
| `Scraper.FirstAttemptSucceeds` | src/lib.rs:107-108 | a 2xx with a readable body on the first request means one request, no sleep, and that body returned |
| `Scraper.ManyAttempt` | src/lib.rs:140-150 | a URL in `fetch_many` succeeds exactly when its single response has status 200 and a readable body. It agrees with one attempt of `fetch` (`Classify`) except that it rejects 2xx statuses other than 200 |
| `Scraper.Collect` | src/lib.rs:158-161 | collecting results gives `Ok` exactly when every result is `Ok`, and then gives all values in input order |
| `Scraper.CollectFirstError` | src/lib.rs:158-161 | the error collected is that of the earliest `Err` in input order |
| `Scraper.CollectAppend` | src/lib.rs:158-161 | collecting `a + b` gives the first error of `a`, else the first error of `b`, else the values of `a` followed by those of `b` |
| `Scraper.FetchMany` | src/lib.rs:124-162 | it never panics, and an empty input returns an empty list. It returns the bodies, one per URL in input order, exactly when every URL succeeds. It blocks forever only when the URL list is non-empty and the limiter has zero permits |
| `Scraper.FetchManyFirstError` | src/lib.rs:155-161 | if any URL fails, the whole batch raises the error of the earliest failing URL, and no partial list is returned |

## Left out

- The HTTP transport (reqwest's client, `send`, `text`) and the request timeout. Both
  are network I/O inside a library. An oracle of outcomes stands in for them, and the
  timeout is only kept as configuration.
- The reason phrase that the http crate prints after a status code comes with the
  outcome. The crate's table of phrases is not part of this model. In the crate the
  phrase depends on the code alone: it is the canonical reason, or
  "<unknown status code>". The model lets two responses with one code carry different
  phrases. No proved property relies on this. `Http.HttpErrorMessageInjective` only
  concludes that equal messages have equal codes and equal phrases.
- The tokio runtime, `block_on`, the scheduling of `join_all` and `std::thread::sleep`.
  Sleeps are recorded as durations, and concurrency is not modelled.
- The semaphore's concurrency bound. Each permit is released at the end of its
  `if let` block, before the request is sent, so it does not bound requests in
  flight. Only the zero-permit case, where an acquire never completes, is modelled.
  tokio's upper limit on the permit count of a new semaphore (it panics above it) is
  not part of this model.
- The Python-to-Rust conversion of `new`'s arguments. pyo3 rejects a negative or
  too large `max_retries` before `new` runs. The model's parameters already have
  their Rust types.
- `select` and `select_attr`: these wrap the scraper crate's HTML parser and CSS
  selector engine, which are not part of this model.
- `fetch_json`: a single request and a serde_json decode, then a round trip through
  Python's `json` module. This is external decoding with no logic of its own.
- The pyo3 glue (`#[pyclass]`, `#[pymodule]`, building `PyErr`, the `From` conversions
  into `ScrapingError`). The error message is kept and the exception class is not.

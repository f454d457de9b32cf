/** The error log of the error-handling service: its entries and the two queries over it,
    the most recent entries under a limit and the entries of one service. */
module ErrorLog {
  import opened Common

  /** The `request_details` the proxy records for a failed forward. */
  datatype RequestDetails = RequestDetails(
    httpMethod: string,
    url: string,
    data: Option<map<string, string>>,
    headers: Option<map<string, string>>)

  /** One `ErrorLog` record. No operation ever sets `isResolved`. */
  datatype Entry = Entry(
    timestamp: string,
    serviceName: string,
    endpoint: string,
    statusCode: int,
    errorMessage: string,
    userMessage: string,
    requestDetails: Option<RequestDetails>,
    isResolved: bool)

  /** The record `log_error` builds: unresolved, with the given fields. */
  function NewEntry(timestamp: string, serviceName: string, endpoint: string, statusCode: int,
                    errorMessage: string, userMessage: string,
                    requestDetails: Option<RequestDetails>): Entry
  {
    Entry(timestamp, serviceName, endpoint, statusCode, errorMessage, userMessage, requestDetails, false)
  }

  /** Where Python starts the slice `s[a:]` of a sequence of length `n`: a negative `a`
      counts from the end and is clamped at 0, a positive one is clamped at `n`. */
  function SliceStart(a: int, n: nat): (k: nat)
    ensures k <= n
    ensures 0 <= a <= n ==> k == a
    ensures a < 0 && 0 <= n + a ==> k == n + a
    ensures a < 0 && n + a < 0 ==> k == 0
    ensures a > n ==> k == n
  {
    if a < 0 then (if n + a < 0 then 0 else n + a) else (if a > n then n else a)
  }

  /** `get_error_history`: `error_history[-limit:] if len(error_history) > limit else error_history`. */
  function RecentErrors(log: seq<Entry>, limit: int): (r: seq<Entry>)
    // the result is always a suffix of the log, so it keeps the log's order
    ensures |r| <= |log| && r == log[|log| - |r|..]
    ensures |log| <= limit ==> r == log
    ensures 0 < limit < |log| ==> r == log[|log| - limit..] && |r| == limit
    // `log[-0:]` is the whole log
    ensures limit == 0 ==> r == log
    // a negative limit drops the first `-limit` entries
    ensures limit < 0 ==> r == log[if -limit <= |log| then -limit else |log|..]
  {
    if |log| > limit then log[SliceStart(-limit, |log|)..] else log
  }

  /** `[error for error in error_history if error.service_name == name]`. */
  function ErrorsFor(log: seq<Entry>, name: string): (r: seq<Entry>)
    ensures |r| <= |log|
    ensures forall e :: e in r ==> e in log && e.serviceName == name
  {
    if log == [] then []
    else (if log[0].serviceName == name then [log[0]] else []) + ErrorsFor(log[1..], name)
  }

  /** `sub` is obtained from `s` by deleting elements, keeping the order of the rest. */
  predicate IsSubsequence<T(==)>(sub: seq<T>, s: seq<T>)
    decreases |s|
  {
    if sub == [] then true
    else if s == [] then false
    else if sub[0] == s[0] then IsSubsequence(sub[1..], s[1..])
    else IsSubsequence(sub, s[1..])
  }

  /** The entries of one service form an order-preserving subsequence of the log. */
  lemma {:induction false} ErrorsForIsSubsequence(log: seq<Entry>, name: string)
    ensures IsSubsequence(ErrorsFor(log, name), log)
  {
    if log != [] {
      ErrorsForIsSubsequence(log[1..], name);
      var rest := ErrorsFor(log[1..], name);
      if log[0].serviceName == name {
        assert ErrorsFor(log, name) == [log[0]] + rest;
        assert ([log[0]] + rest)[1..] == rest;
      } else {
        assert ErrorsFor(log, name) == rest;
        if rest != [] {
          assert rest[0].serviceName == name;
        }
      }
    }
  }

  /** Each entry occurs in the result exactly as often as in the log when it belongs to
      the service, and not at all otherwise: no matching entry is lost or duplicated. */
  lemma {:induction false} ErrorsForCounts(log: seq<Entry>, name: string)
    ensures forall e :: multiset(ErrorsFor(log, name))[e] ==
                        if e.serviceName == name then multiset(log)[e] else 0
  {
    if log != [] {
      ErrorsForCounts(log[1..], name);
      assert log == [log[0]] + log[1..];
      assert multiset(log) == multiset([log[0]]) + multiset(log[1..]);
    }
  }

  /** Appending one entry to the log extends the service's entries by that entry when it
      belongs to the service and leaves them as they were otherwise. */
  lemma {:induction false} ErrorsForAppend(log: seq<Entry>, e: Entry, name: string)
    ensures ErrorsFor(log + [e], name) ==
            ErrorsFor(log, name) + (if e.serviceName == name then [e] else [])
  {
    if log == [] {
      assert [] + [e] == [e];
    } else {
      assert (log + [e])[0] == log[0];
      assert (log + [e])[1..] == log[1..] + [e];
      ErrorsForAppend(log[1..], e, name);
    }
  }
}

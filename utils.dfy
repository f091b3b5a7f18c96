/** src/lib/utils.ts: the retry policy and the small string helpers. */
module Utils {
  import opened Js

  // ---------------------------------------------------------------------------
  // withRetry

  /** How many calls `withRetry` makes at most when RETRY_MAX_ATTEMPTS is `max`: the loop
      gives up once the failed-call count reaches `max`, which is after the first failure
      when `max` is below 1. */
  function AttemptLimit(max: int): nat {
    if max < 1 then 1 else max
  }

  function Pow2(k: nat): (p: nat)
    ensures p >= 1
  {
    if k == 0 then 1 else 2 * Pow2(k - 1)
  }

  /** The back-off schedule: after the k-th failed call (counted from 1) the loop sleeps
      `baseMs * 2^(k-1)` milliseconds. */
  function Schedule(baseMs: int, n: nat): (r: seq<int>)
    ensures |r| == n && forall k :: 0 <= k < n ==> r[k] == baseMs * Pow2(k)
  {
    seq(n, k requires 0 <= k < n => baseMs * Pow2(k))
  }

  function Sum(xs: seq<int>): int
    decreases |xs|
  {
    if |xs| == 0 then 0 else Sum(xs[..|xs| - 1]) + xs[|xs| - 1]
  }

  /** The sleeps before the n-th call add up to `baseMs * (2^(n-1) - 1)`. */
  lemma {:induction false} ScheduleTotal(baseMs: int, n: nat)
    ensures Sum(Schedule(baseMs, n)) == baseMs * (Pow2(n) - 1)
  {
    if n > 0 {
      var s, p := Schedule(baseMs, n), Pow2(n - 1);
      ScheduleTotal(baseMs, n - 1);
      assert s[..n - 1] == Schedule(baseMs, n - 1);
      assert Sum(s) == baseMs * (p - 1) + baseMs * p;
      assert Pow2(n) == 2 * p;
    }
  }

  /** `withRetry(fn)`: `outcomes[k]` is what the (k+1)-th call of `fn` settles to, `sleeps`
      records the back-off delays in order, `calls` how many times `fn` ran. */
  method WithRetry<T>(outcomes: seq<Result<T>>, max: int, baseMs: int)
    returns (r: Result<T>, calls: nat, sleeps: seq<int>)
    requires |outcomes| >= AttemptLimit(max)
    ensures 1 <= calls <= AttemptLimit(max)
    ensures r == outcomes[calls - 1]
    ensures forall k :: 0 <= k < calls - 1 ==> outcomes[k].Throw?
    ensures r.Throw? ==> calls == AttemptLimit(max)
    ensures sleeps == Schedule(baseMs, calls - 1)
  {
    var attempt := 0;
    sleeps := [];
    while true
      invariant 0 <= attempt < AttemptLimit(max)
      invariant forall k :: 0 <= k < attempt ==> outcomes[k].Throw?
      invariant sleeps == Schedule(baseMs, attempt)
      decreases AttemptLimit(max) - attempt
    {
      var res := outcomes[attempt];
      if res.Ok? {
        return res, attempt + 1, sleeps;
      }
      attempt := attempt + 1;
      if attempt >= max {
        return res, attempt, sleeps;
      }
      sleeps := sleeps + [baseMs * Pow2(attempt - 1)];
    }
  }

  // ---------------------------------------------------------------------------
  // capitalize, buildOrFq, mapLanguage

  /** `str.charAt(0).toUpperCase() + str.slice(1)`. */
  function Capitalize(s: string): (r: string)
    ensures |r| == |s|
    ensures |s| > 0 ==> r[0] == UpperChar(s[0]) && r[1..] == s[1..]
  {
    if |s| == 0 then "" else [UpperChar(s[0])] + s[1..]
  }

  /** Capitalising twice changes nothing more. */
  lemma CapitalizeIdempotent(s: string)
    ensures Capitalize(Capitalize(s)) == Capitalize(s)
  {
  }

  /** `${key}:(${values.join(" OR ")})`, a Solr filter query matching any of the values. */
  function BuildOrFq(key: string, values: seq<string>): (r: string)
    ensures IsPrefix(key + ":(", r) && r[|r| - 1] == ')'
    ensures r[|key| + 2..|r| - 1] == Join(values, " OR ")
  {
    key + ":(" + Join(values, " OR ") + ")"
  }

  /** Adding a value adds one ` OR ` alternative at the end. */
  lemma {:induction false} JoinSnoc(values: seq<string>, v: string, sep: string)
    requires |values| > 0
    ensures Join(values + [v], sep) == Join(values, sep) + sep + v
    decreases |values|
  {
    if |values| > 1 {
      JoinSnoc(values[1..], v, sep);
      assert (values + [v])[1..] == values[1..] + [v];
    } else {
      assert values + [v] == [values[0], v];
    }
  }

  const Supported: seq<string> := ["EN", "FR", "ES", "DE", "IT"]

  /** `mapLanguage(lang)`: the trimmed, upper-cased code when it is supported, otherwise "EN". */
  function MapLanguage(lang: Option<string>): (r: string)
    ensures r in Supported
    ensures lang.Some? && ToUpper(Trim(lang.value)) in Supported ==> r == ToUpper(Trim(lang.value))
    ensures lang.None? || ToUpper(Trim(lang.value)) !in Supported ==> r == "EN"
  {
    var normalized := if lang.Some? then Some(ToUpper(Trim(lang.value))) else None;
    if normalized.Some? && normalized.value in Supported then normalized.value else "EN"
  }

  /** A supported code is already trimmed and upper-cased. */
  lemma SupportedNormal(code: string)
    requires code in Supported
    ensures ToUpper(Trim(code)) == code
  {
    assert |code| == 2 && 'A' <= code[0] <= 'Z' && 'A' <= code[1] <= 'Z';
    TrimUnchanged(code);
    assert ToUpper(code) == code;
  }

  /** Mapping an already mapped language changes nothing. */
  lemma MapLanguageIdempotent(lang: Option<string>)
    ensures MapLanguage(Some(MapLanguage(lang))) == MapLanguage(lang)
  {
    SupportedNormal(MapLanguage(lang));
  }
}

/** Failure metadata carried across the scheduler, and the bounded Retry-After it may hold. */
module Failures {
  import opened Common

  datatype Cause = RateLimited | ConnectTimeout | OtherCause

  datatype AnyMetadata = Metadata(cause: Cause, retryAfter: Option<real>)

  /** Hints are at most a minute by construction: longer ones are dropped, never shortened. */
  type Metadata = m: AnyMetadata | m.retryAfter.Some? ==> 0.0 <= m.retryAfter.value <= 60.0
    witness Metadata(OtherCause, None)

  const NO_METADATA: Metadata := Metadata(OtherCause, None)

  /** How one provider read ends. */
  datatype Failure = Unavailable(meta: Metadata) | Malformed

  datatype Outcome = Returned(value: nat) | Raised(failure: Failure) | OperationCancelled

  /** One link of an exception chain, as far as classification looks at it. */
  datatype Kind =
    | Carries(meta: Metadata)
    | HttpConnectTimeout
    | HttpStatus(code: int, retryAfter: Option<string>)
    | Anything

  datatype Chain = Link(kind: Kind, cause: Option<Chain>)

  const MAX_LINKS := 8

  /** What a link settles on its own, if anything. */
  function Decides(kind: Kind, dates: string -> Option<real>): Option<Metadata> {
    match kind
    case Carries(meta) => Some(meta)
    case HttpConnectTimeout => Some(Metadata(ConnectTimeout, None))
    case HttpStatus(code, header) =>
      if code == 429 then Some(Metadata(RateLimited, RetryAfterSeconds(header, dates))) else None
    case Anything => None
  }

  /** The chain after following `n` explicit causes, while there are that many. */
  function Follow(chain: Chain, n: nat): Option<Chain> {
    if n == 0 then Some(chain)
    else if chain.cause.None? then None
    else Follow(chain.cause.value, n - 1)
  }

  ghost predicate DecidedAt(chain: Chain, n: nat, dates: string -> Option<real>) {
    Follow(chain, n).Some? && Decides(Follow(chain, n).value.kind, dates).Some?
  }

  lemma {:induction false} FollowNext(chain: Chain, n: nat)
    ensures Follow(chain, n + 1) ==
            if Follow(chain, n).Some? then Follow(chain, n).value.cause else None
  {
    if n > 0 && chain.cause.Some? {
      FollowNext(chain.cause.value, n - 1);
    }
  }

  lemma {:induction false} FollowStops(chain: Chain, n: nat, m: nat)
    requires n <= m && Follow(chain, n).None?
    ensures Follow(chain, m).None?
  {
    if n > 0 && chain.cause.Some? {
      FollowStops(chain.cause.value, n - 1, m - 1);
    }
  }

  /** The nearest of the first eight links that settles the question wins; otherwise the
      failure has no metadata. */
  method Classify(chain: Chain, dates: string -> Option<real>) returns (meta: Metadata)
    ensures forall n: nat :: n < 8 && DecidedAt(chain, n, dates) && (forall k: nat :: k < n ==> !DecidedAt(chain, k, dates))
              ==> Decides(Follow(chain, n).value.kind, dates) == Some(meta)
    ensures (forall n: nat :: n < 8 ==> !DecidedAt(chain, n, dates)) ==> meta == NO_METADATA
  {
    var exc := chain;
    for i := 0 to MAX_LINKS
      invariant Follow(chain, i) == Some(exc)
      invariant forall k: nat :: k < i ==> !DecidedAt(chain, k, dates)
    {
      var decided := Decides(exc.kind, dates);
      if decided.Some? {
        assert DecidedAt(chain, i, dates);
        return decided.value;
      }
      FollowNext(chain, i);
      if exc.cause.None? {
        forall k: nat | i < k
          ensures !DecidedAt(chain, k, dates)
        {
          FollowStops(chain, i + 1, k);
        }
        return NO_METADATA;
      }
      exc := exc.cause.value;
    }
    return NO_METADATA;
  }

  /** A connect timeout and the status 429 decide, and metadata speaks for itself; every other
      status and every other link of the chain leaves the question to its cause. */
  lemma WhatDecides(kind: Kind, dates: string -> Option<real>)
    ensures match kind
            case Carries(meta) => Decides(kind, dates) == Some(meta)
            case HttpConnectTimeout =>
              Decides(kind, dates).Some? && Decides(kind, dates).value.cause.ConnectTimeout? && Decides(kind, dates).value.retryAfter.None?
            case HttpStatus(code, header) =>
              && (Decides(kind, dates).Some? <==> code == 429)
              && (code == 429 ==>
                    Decides(kind, dates).value.cause.RateLimited? && Decides(kind, dates).value.retryAfter == RetryAfterSeconds(header, dates))
            case Anything => Decides(kind, dates).None?
  {
  }

  // ---------------------------------------------------------------------------------------
  // Retry-After, section 10.2.3 of RFC 9110.
  // ---------------------------------------------------------------------------------------

  predicate IsDigit(c: char) {
    '0' <= c <= '9'
  }

  predicate AllDigits(s: string) {
    s != [] && forall i :: 0 <= i < |s| ==> IsDigit(s[i])
  }

  predicate IsSpace(c: char) {
    c in " \t\n\r"
  }

  function Strip(s: string): string {
    if s == [] then s
    else if IsSpace(s[0]) then Strip(s[1..])
    else if IsSpace(s[|s| - 1]) then Strip(s[..|s| - 1])
    else s
  }

  function ParseDecimal(s: string): nat
    requires s == [] || AllDigits(s)
  {
    if s == [] then 0
    else
      assert IsDigit(s[|s| - 1]);
      10 * ParseDecimal(s[..|s| - 1]) + (s[|s| - 1] as int - '0' as int)
  }

  function Decimal(n: nat): string {
    if n < 10 then [('0' as int + n) as char]
    else Decimal(n / 10) + [('0' as int + n % 10) as char]
  }

  /** Upstream hint in seconds; `dates` reads an HTTP date as seconds from now. Anything
      beyond sixty seconds is no hint at all. */
  function RetryAfterSeconds(header: Option<string>, dates: string -> Option<real>): (r: Option<real>)
    ensures r.Some? ==> 0.0 <= r.value <= 60.0
  {
    if header.None? || |header.value| > 128 then None else
    var text := Strip(header.value);
    var seconds := if AllDigits(text) then Some(ParseDecimal(text) as real) else dates(header.value);
    if seconds.Some? && 0.0 <= seconds.value <= 60.0 then seconds else None
  }

  lemma {:induction false} DigitsStandAlone(s: string)
    requires AllDigits(s)
    ensures Strip(s) == s
  {
    assert IsDigit(s[0]) && IsDigit(s[|s| - 1]);
  }

  /** A hint in whole seconds is kept exactly if it is at most a minute, whatever blanks stand
      around it; a longer one is dropped, never shortened. */
  lemma WholeHintIsKeptIff(before: string, n: nat, after: string, dates: string -> Option<real>)
    requires (forall c :: c in before ==> IsSpace(c)) && (forall c :: c in after ==> IsSpace(c))
    requires |before + Decimal(n) + after| <= 128
    ensures RetryAfterSeconds(Some(before + Decimal(n) + after), dates) == if n <= 60 then Some(n as real) else None
  {
    DecimalReadsBack(n);
    StripsBlanks(before, Decimal(n), after);
  }

  lemma {:induction false} StripsBlanks(before: string, text: string, after: string)
    requires AllDigits(text)
    requires (forall c :: c in before ==> IsSpace(c)) && (forall c :: c in after ==> IsSpace(c))
    ensures Strip(before + text + after) == text
    decreases |before| + |after|
  {
    hide ParseDecimal;
    var s := before + text + after;
    if before != [] {
      assert s[0] == before[0] && before[0] in before;
      assert s[1..] == before[1..] + text + after;
      assert forall c :: c in before[1..] ==> c in before;
      StripsBlanks(before[1..], text, after);
    } else if after != [] {
      assert s[0] == text[0] && IsDigit(text[0]);
      assert s[|s| - 1] == after[|after| - 1] && after[|after| - 1] in after;
      assert s[..|s| - 1] == before + text + after[..|after| - 1];
      assert forall c :: c in after[..|after| - 1] ==> c in after;
      StripsBlanks(before, text, after[..|after| - 1]);
    } else {
      assert s == text;
      DigitsStandAlone(text);
    }
  }

  /** A date is kept exactly if it lies at most a minute ahead. */
  lemma DateHintIsKeptIff(header: string, dates: string -> Option<real>)
    requires |header| <= 128 && !AllDigits(Strip(header))
    ensures RetryAfterSeconds(Some(header), dates) ==
            if dates(header).Some? && 0.0 <= dates(header).value <= 60.0 then dates(header) else None
  {
  }

  /** A missing header, or one of more than 128 characters, is no hint. */
  lemma OverlongHintIsDropped(header: Option<string>, dates: string -> Option<real>)
    requires header.None? || |header.value| > 128
    ensures RetryAfterSeconds(header, dates).None?
  {
  }

  function Ceiling(x: real): int {
    -((-x).Floor)
  }

  /** The client's reading of the header: at most two ASCII digits, at most sixty. */
  function SdkRetryAfter(raw: string): Option<nat> {
    if |raw| <= 2 && AllDigits(raw) && ParseDecimal(raw) <= 60 then Some(ParseDecimal(raw)) else None
  }

  lemma {:induction false} DecimalReadsBack(n: nat)
    ensures AllDigits(Decimal(n)) && ParseDecimal(Decimal(n)) == n
  {
    if n >= 10 {
      DecimalReadsBack(n / 10);
      var s := Decimal(n / 10);
      var d := ('0' as int + n % 10) as char;
      assert (s + [d])[..|s|] == s;
    }
  }

  /** Every delay of at most a minute is announced as a whole number of seconds in 1..60,
      never shorter than the delay and less than a second longer, and the client reads
      exactly the number announced. */
  lemma RetryAfterRoundTrip(delay: real)
    requires 0.0 < delay <= 60.0
    ensures 1 <= Ceiling(delay) <= 60
    ensures delay <= Ceiling(delay) as real < delay + 1.0
    ensures SdkRetryAfter(Decimal(Ceiling(delay))) == Some(Ceiling(delay))
  {
    var n := Ceiling(delay);
    DecimalReadsBack(n);
    assert |Decimal(n)| <= 2 by {
      assert n / 10 < 10;
    }
  }
}

/** Resolving the client IP from `x-forwarded-for`, counting trusted hops from the right. */
module ClientRequest {
  import opened Prelude
  import opened Text

  const DEFAULT_TRUSTED_PROXY_HOPS: nat := 1
  const MAX_SAFE_INTEGER := 0x1F_FFFF_FFFF_FFFF

  /** A JavaScript number, as far as `Number.isSafeInteger` distinguishes them. */
  datatype Number = NotFinite | Finite(value: real)

  /** A raw configured value. */
  datatype Raw = RawNumber(number: Number) | RawText(text: string) | RawOther

  predicate IsValidHops(n: Number) {
    n.Finite? && n.value == n.value.Floor as real && 0.0 <= n.value <= MAX_SAFE_INTEGER as real
  }

  function HopsOrDefault(n: Number): nat {
    if IsValidHops(n) then n.value.Floor else DEFAULT_TRUSTED_PROXY_HOPS
  }

  predicate IsDigit(c: char) { '0' <= c <= '9' }

  /** The pattern `^\d+$`. */
  predicate AllDigits(s: string) {
    s != "" && forall i :: 0 <= i < |s| ==> IsDigit(s[i])
  }

  function DigitValue(c: char): nat
    requires IsDigit(c)
  {
    c as int - '0' as int
  }

  function DecimalValue(s: string): nat
    requires forall i :: 0 <= i < |s| ==> IsDigit(s[i])
  {
    if s == "" then 0 else DecimalValue(s[..|s| - 1]) * 10 + DigitValue(s[|s| - 1])
  }

  function ParseTrustedProxyHops(raw: Raw): (hops: nat)
    ensures hops <= MAX_SAFE_INTEGER
  {
    match raw
    case RawNumber(n) => HopsOrDefault(n)
    case RawText(text) =>
      if AllDigits(Trim(text)) then HopsOrDefault(Finite(DecimalValue(Trim(text)) as real))
      else DEFAULT_TRUSTED_PROXY_HOPS
    case RawOther => DEFAULT_TRUSTED_PROXY_HOPS
  }

  function NonBlank(parts: seq<string>): seq<string> {
    if parts == [] then []
    else (if Trim(parts[0]) == "" then [] else [Trim(parts[0])]) + NonBlank(parts[1..])
  }

  /** The trimmed, non-empty hops of a header value, left to right. */
  function HopsOf(value: string): seq<string> {
    NonBlank(Split(value, ','))
  }

  /** A header as Node delivers it: absent, one value, or a list of values. */
  datatype Header = Absent | One(value: string) | Many(values: seq<string>)

  function HeaderValue(h: Header): string {
    match h
    case Absent => ""
    case One(v) => v
    case Many(vs) => if vs == [] then "" else vs[0]
  }

  /** `None` is the documented `undefined` of a zero hop count. */
  function ExtractIp(h: Header, fallback: Option<string>, trusted: Number): Option<string> {
    var hops := HopsOf(HeaderValue(h));
    if HeaderValue(h) == "" || hops == [] then Some(if fallback.Some? then fallback.value else "")
    else
      var index := Max(0, |hops| - HopsOrDefault(trusted));
      if index < |hops| then Some(hops[index]) else None
  }

  lemma {:induction false} NonBlankConcat(a: seq<string>, b: seq<string>)
    ensures NonBlank(a + b) == NonBlank(a) + NonBlank(b)
  {
    if a == [] {
      assert a + b == b;
    } else {
      NonBlankConcat(a[1..], b);
      assert (a + b)[0] == a[0] && (a + b)[1..] == a[1..] + b;
      var head := if Trim(a[0]) == "" then [] else [Trim(a[0])];
      assert head + (NonBlank(a[1..]) + NonBlank(b)) == (head + NonBlank(a[1..])) + NonBlank(b);
    }
  }

  lemma HopsOfPrefixed(text: string, value: string)
    ensures HopsOf(text + "," + value) == HopsOf(text) + HopsOf(value)
  {
    SplitConcat(text, value, ',');
    NonBlankConcat(Split(text, ','), Split(value, ','));
  }

  /**
   * Whatever a client puts to the left, with at least `h >= 1` hops present
   * the resolved IP is the `h`-th from the right of the trusted part.
   */
  lemma PrefixNeverChangesIp(text: string, value: string, fallback: Option<string>, trusted: Number)
    requires 1 <= HopsOrDefault(trusted) <= |HopsOf(value)|
    ensures var hops := HopsOf(value);
      && ExtractIp(One(value), fallback, trusted) == Some(hops[|hops| - HopsOrDefault(trusted)])
      && ExtractIp(One(text + "," + value), fallback, trusted) == ExtractIp(One(value), fallback, trusted)
  {
    HopsOfPrefixed(text, value);
    assert value != "";
  }

  /** An invalid count (NaN, negative, fractional, too large) trusts one hop, never the leftmost of several. */
  lemma InvalidCountTrustsLastHop(value: string, fallback: Option<string>, trusted: Number)
    requires !IsValidHops(trusted) && HopsOf(value) != []
    ensures ExtractIp(One(value), fallback, trusted) == Some(HopsOf(value)[|HopsOf(value)| - 1])
  {
  }

  /** Exactly the plain digit strings up to the largest safe integer are taken at their value. */
  lemma ParsedHops(text: string)
    ensures var t := Trim(text);
      ParseTrustedProxyHops(RawText(text)) ==
      if AllDigits(t) && DecimalValue(t) <= MAX_SAFE_INTEGER then DecimalValue(t) else DEFAULT_TRUSTED_PROXY_HOPS
  {
    var t := Trim(text);
    if AllDigits(t) {
      var n := DecimalValue(t);
      assert (n as real).Floor == n;
    }
  }

  /** The hops are what the parts trim to, blank parts left out. */
  lemma {:induction false} NonBlankHolds(parts: seq<string>, hop: string)
    ensures hop in NonBlank(parts) <==> hop != "" && exists part :: part in parts && hop == Trim(part)
  {
    if parts == [] {
    } else {
      NonBlankHolds(parts[1..], hop);
      assert parts == [parts[0]] + parts[1..];
    }
  }

  /** The header's first value, when it has one. */
  function FirstValue(h: Header): Option<string> {
    match h
    case Absent => None
    case One(v) => Some(v)
    case Many(vs) => if vs == [] then None else Some(vs[0])
  }

  /** Some part of the header's first value is not blank. */
  ghost predicate HasHop(h: Header) {
    FirstValue(h).Some? && exists part :: part in Split(FirstValue(h).value, ',') && Trim(part) != ""
  }

  lemma HasHopIff(h: Header)
    ensures HasHop(h) <==> FirstValue(h).Some? && HopsOf(FirstValue(h).value) != []
  {
    if FirstValue(h).Some? {
      var parts := Split(FirstValue(h).value, ',');
      if HasHop(h) {
        var part :| part in parts && Trim(part) != "";
        NonBlankHolds(parts, Trim(part));
      }
      if NonBlank(parts) != [] {
        NonBlankHolds(parts, NonBlank(parts)[0]);
      }
    }
  }

  /**
   * A header with no hop, whatever its form, gives the fallback, or the empty
   * text; one with hops gives one of them, the leftmost when there are no more
   * than trusted, and none exactly when none is trusted.
   */
  lemma FallbackIffNoHop(h: Header, fallback: Option<string>, trusted: Number)
    ensures var ip := ExtractIp(h, fallback, trusted);
      if !HasHop(h) then ip == Some(if fallback.Some? then fallback.value else "")
      else
        && (ip.None? <==> HopsOrDefault(trusted) == 0)
        && (ip.Some? ==> ip.value in HopsOf(FirstValue(h).value))
        && (ip.Some? && |HopsOf(FirstValue(h).value)| <= HopsOrDefault(trusted) ==>
              ip.value == HopsOf(FirstValue(h).value)[0])
  {
    HasHopIff(h);
    if FirstValue(h).None? { assert HeaderValue(h) == ""; }
    else { assert HeaderValue(h) == FirstValue(h).value; }
  }

  /** Every hop is a part of the header, trimmed, and every part that is not blank is a hop. */
  lemma HopsAreTrimmedParts(value: string, hop: string)
    ensures hop in HopsOf(value) <==> hop != "" && exists part :: part in Split(value, ',') && hop == Trim(part)
  {
    NonBlankHolds(Split(value, ','), hop);
  }
}

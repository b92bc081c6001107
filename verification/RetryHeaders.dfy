/** The attempt number a Kafka record carries in its headers. */
module RetryHeaders {
  import opened Wrappers

  datatype Header = Header(key: string, value: string)

  const ATTEMPT_KEY := "x-ofm-retry-attempt"
  const MAX_INT: int := 0x7FFF_FFFF_FFFF_FFFF

  function Digit(c: char): Option<nat> {
    if '0' <= c <= '9' then Some((c - '0') as int) else None
  }

  /** The value of a non-empty string of decimal digits. */
  function Decimal(s: string): Option<nat> {
    if s == "" then None
    else
      var n := |s| - 1;
      match Digit(s[n])
      case None => None
      case Some(d) =>
        if n == 0 then Some(d)
        else
          match Decimal(s[..n])
          case None => None
          case Some(high) => Some(10 * high + d)
  }

  /** `strconv.Atoi` on 64 bits: an optional sign, digits, and a value in range. */
  function Atoi(s: string): Option<int> {
    var digits := if s != "" && (s[0] == '+' || s[0] == '-') then s[1..] else s;
    match Decimal(digits)
    case None => None
    case Some(n) =>
      if s[0] == '-' then
        if n <= MAX_INT + 1 then var value: int := n; Some(-value) else None
      else
        if n <= MAX_INT then Some(n) else None
  }

  /** The attempt a single header states, if it is an attempt header with a positive number. */
  function StatedAttempt(h: Header): Option<nat> {
    if h.key != ATTEMPT_KEY then None
    else
      match Atoi(h.value)
      case None => None
      case Some(n) => if n > 0 then Some(n) else None
  }

  /** `n` is what the first header that states an attempt says, or 1 when none does. */
  ghost predicate IsAttemptOf(headers: seq<Header>, n: nat) {
    || (n == 1 && forall i :: 0 <= i < |headers| ==> StatedAttempt(headers[i]).None?)
    || (exists i :: 0 <= i < |headers| && StatedAttempt(headers[i]) == Some(n)
          && forall j :: 0 <= j < i ==> StatedAttempt(headers[j]).None?)
  }

  method RetryAttempt(headers: seq<Header>) returns (attempt: nat)
    ensures attempt >= 1 && IsAttemptOf(headers, attempt)
  {
    for i := 0 to |headers|
      invariant forall j :: 0 <= j < i ==> StatedAttempt(headers[j]).None?
    {
      var h := headers[i];
      if h.key == ATTEMPT_KEY {
        var parsed := Atoi(h.value);
        if parsed.Some? && parsed.value > 0 {
          return parsed.value;
        }
      }
    }
    return 1;
  }

  lemma AttemptIsUnique(headers: seq<Header>, m: nat, n: nat)
    requires IsAttemptOf(headers, m) && IsAttemptOf(headers, n)
    ensures m == n
  {
    if exists i :: 0 <= i < |headers| && StatedAttempt(headers[i]).Some? {
      var i :| 0 <= i < |headers| && StatedAttempt(headers[i]) == Some(m)
        && forall j :: 0 <= j < i ==> StatedAttempt(headers[j]).None?;
      var k :| 0 <= k < |headers| && StatedAttempt(headers[k]) == Some(n)
        && forall j :: 0 <= j < k ==> StatedAttempt(headers[j]).None?;
      assert i == k;
    }
  }

  /** The decimal form of `n`, as it is written into a header. */
  function Itoa(n: nat): string {
    var last := ['0' + (n % 10) as char];
    if n < 10 then last else Itoa(n / 10) + last
  }

  lemma {:induction false} DecimalOfItoa(n: nat)
    ensures Itoa(n) != "" && '0' <= Itoa(n)[0] <= '9'
    ensures Decimal(Itoa(n)) == Some(n)
  {
    var s := Itoa(n);
    var d := n % 10;
    assert Digit('0' + d as char) == Some(d);
    if n >= 10 {
      DecimalOfItoa(n / 10);
      assert s[..|s| - 1] == Itoa(n / 10);
      assert s[0] == Itoa(n / 10)[0];
    }
  }

  /** A decimal number with an optional sign is read if it fits into 64 bits. */
  lemma AtoiOfSigned(n: nat)
    ensures Atoi(Itoa(n)) == if n < 0x8000_0000_0000_0000 then Some(n) else None
    ensures Atoi("+" + Itoa(n)) == if n < 0x8000_0000_0000_0000 then Some(n) else None
    ensures Atoi("-" + Itoa(n)) == if n <= 0x8000_0000_0000_0000 then Some(0 - n) else None
  {
    DecimalOfItoa(n);
    var digits := Itoa(n);
    AtoiOfDigits("", digits);
    AtoiOfDigits("+", digits);
    AtoiOfDigits("-", digits);
    assert "" + digits == digits;
  }

  lemma AtoiOfDigits(sign: string, digits: string)
    requires sign == "" || sign == "+" || sign == "-"
    requires digits != "" && digits[0] != '+' && digits[0] != '-' && Decimal(digits).Some?
    ensures
      var n := Decimal(digits).value;
      Atoi(sign + digits) ==
        if sign == "-" then (if n <= MAX_INT + 1 then Some(0 - n) else None) else (if n <= MAX_INT then Some(n) else None)
  {
    var s := sign + digits;
    assert sign != "" ==> s[0] == sign[0] && s[1..] == digits;
    assert sign == "" ==> s == digits;
  }

  /** What a header states: only the attempt header counts, and its number must be positive. */
  lemma AttemptHeader(h: Header, n: nat)
    ensures StatedAttempt(h).Some? ==> h.key == "x-ofm-retry-attempt"
    ensures StatedAttempt(Header("x-ofm-retry-attempt", Itoa(n))) == if 0 < n < 0x8000_0000_0000_0000 then Some(n) else None
    ensures StatedAttempt(Header("x-ofm-retry-attempt", "+" + Itoa(n))) == if 0 < n < 0x8000_0000_0000_0000 then Some(n) else None
    ensures StatedAttempt(Header("x-ofm-retry-attempt", "-" + Itoa(n))) == None
  {
    AtoiOfSigned(n);
  }

  /** Anything else than digits behind the sign states nothing. */
  lemma {:induction false} NotANumber(digits: string, i: nat)
    requires i < |digits| && !('0' <= digits[i] <= '9')
    ensures Decimal(digits) == None
    decreases |digits|
  {
    if i < |digits| - 1 {
      NotANumber(digits[..|digits| - 1], i);
    }
  }

  lemma OtherTextStatesNothing(value: string)
    requires value == "" || value == "+" || value == "-" ||
      exists i :: 0 <= i < |value| && !('0' <= value[i] <= '9') && (i > 0 || (value[0] != '+' && value[0] != '-'))
    ensures StatedAttempt(Header("x-ofm-retry-attempt", value)) == None
  {
    if value != "" && value != "+" && value != "-" {
      var i :| 0 <= i < |value| && !('0' <= value[i] <= '9') && (i > 0 || (value[0] != '+' && value[0] != '-'));
      if value[0] == '+' || value[0] == '-' {
        NotANumber(value[1..], i - 1);
      } else {
        NotANumber(value, i);
      }
    }
  }

  /** An attempt number written into a new header is read back exactly when no earlier header
      already states another attempt. */
  lemma WrittenAttemptIsReadBack(earlier: seq<Header>, n: nat, later: seq<Header>)
    requires 0 < n <= MAX_INT
    ensures IsAttemptOf(earlier + [Header(ATTEMPT_KEY, Itoa(n))] + later, n)
      <==> (forall i :: 0 <= i < |earlier| ==> StatedAttempt(earlier[i]).None?) || IsAttemptOf(earlier, n)
  {
    DecimalOfItoa(n);
    var mark := Header(ATTEMPT_KEY, Itoa(n));
    var all := earlier + [mark] + later;
    assert StatedAttempt(mark) == Some(n);
    assert all[|earlier|] == mark;
    if forall i :: 0 <= i < |earlier| ==> StatedAttempt(earlier[i]).None? {
      assert forall j :: 0 <= j < |earlier| ==> all[j] == earlier[j];
    } else {
      var i := FirstStated(earlier);
      var m := StatedAttempt(earlier[i]).value;
      assert all[i] == earlier[i] && forall j :: 0 <= j < i ==> all[j] == earlier[j];
      assert IsAttemptOf(all, m) && IsAttemptOf(earlier, m);
      if IsAttemptOf(all, n) {
        AttemptIsUnique(all, m, n);
      }
      if IsAttemptOf(earlier, n) {
        AttemptIsUnique(earlier, m, n);
      }
    }
  }

  lemma {:induction false} FirstStated(headers: seq<Header>) returns (i: nat)
    requires exists k :: 0 <= k < |headers| && StatedAttempt(headers[k]).Some?
    ensures i < |headers| && StatedAttempt(headers[i]).Some?
    ensures forall j :: 0 <= j < i ==> StatedAttempt(headers[j]).None?
  {
    i := 0;
    while StatedAttempt(headers[i]).None?
      invariant i < |headers|
      invariant forall j :: 0 <= j < i ==> StatedAttempt(headers[j]).None?
      decreases |headers| - i
    {
      i := i + 1;
    }
  }
}

/**
 The string handling the operator relies on: `strings.Split`, `strconv.Atoi` on digit strings, and the
 `serviceName:port` references found in environment variables.
 */
module Text {
  import opened Collections

  /** The largest value of Go's 64-bit `int`. */
  const MAX_INT: nat := 0x7FFF_FFFF_FFFF_FFFF

  /** strings.Split: the pieces between the occurrences of `sep`; a string without `sep` is its only piece. */
  function Split(s: string, sep: char): (parts: seq<string>)
    ensures |parts| >= 1
  {
    if s == [] then [[]]
    else if s[0] == sep then [[]] + Split(s[1..], sep)
    else var rest := Split(s[1..], sep); [[s[0]] + rest[0]] + rest[1..]
  }

  lemma {:induction false} SplitWithout(s: string, sep: char)
    requires sep !in s
    ensures Split(s, sep) == [s]
  {
    if s != [] {
      assert s == [s[0]] + s[1..];
      SplitWithout(s[1..], sep);
    }
  }

  /** The piece before the first separator stands alone; the rest is split on its own. */
  lemma {:induction false} SplitAtFirst(a: string, sep: char, b: string)
    requires sep !in a
    ensures Split(a + [sep] + b, sep) == [a] + Split(b, sep)
  {
    var s := a + [sep] + b;
    if a == [] {
      assert s[1..] == b;
    } else {
      assert s[1..] == a[1..] + [sep] + b;
      SplitAtFirst(a[1..], sep, b);
      assert a == [a[0]] + a[1..];
    }
  }

  /** A string with a separator has a second piece, one without has not: `parts[1]` is in range exactly when `sep in
      s`. */
  lemma {:induction false} SplitHasSecondPiece(s: string, sep: char)
    ensures |Split(s, sep)| > 1 <==> sep in s
  {
    if s != [] {
      SplitHasSecondPiece(s[1..], sep);
    }
  }

  predicate IsDigit(c: char) { '0' <= c <= '9' }

  predicate AllDigits(s: string) { forall i :: 0 <= i < |s| ==> IsDigit(s[i]) }

  function DigitValue(c: char): nat
    requires IsDigit(c)
  {
    c as int - '0' as int
  }

  function DigitChar(d: nat): (c: char)
    requires d < 10
    ensures IsDigit(c) && DigitValue(c) == d
  {
    "0123456789"[d]
  }

  /** The number a digit string denotes. */
  function NatValue(s: string): nat
    requires AllDigits(s)
  {
    if s == [] then 0 else 10 * NatValue(s[..|s| - 1]) + DigitValue(s[|s| - 1])
  }

  /** The decimal form of `n`, without leading zeros. */
  function Decimal(n: nat): (s: string)
    ensures s != [] && AllDigits(s)
  {
    if n < 10 then [DigitChar(n)] else Decimal(n / 10) + [DigitChar(n % 10)]
  }

  lemma {:induction false} NatValueOfDecimal(n: nat)
    ensures NatValue(Decimal(n)) == n
  {
    if n < 10 {
      assert Decimal(n)[..0] == [];
    } else {
      var front := Decimal(n / 10);
      NatValueOfDecimal(n / 10);
      assert Decimal(n)[..|front|] == front;
    }
  }

  /** strconv.Atoi on a string of digits: a range error once the value does not fit Go's `int`. */
  function Atoi(s: string): Option<nat>
    requires s != [] && AllDigits(s)
  {
    if NatValue(s) <= MAX_INT then Some(NatValue(s)) else None
  }

  predicate IsNameChar(c: char) { 'a' <= c <= 'z' || IsDigit(c) || c == '/' || c == '-' }

  predicate AllNameChars(s: string) { forall i :: 0 <= i < |s| ==> IsNameChar(s[i]) }

  /** `s` matches `^[a-z0-9/-]+:[0-9]+$`, the colon being at position `i`. */
  predicate ReferenceAt(s: string, i: nat)
  {
    0 < i < |s| - 1 && s[i] == ':' && AllNameChars(s[..i]) && AllDigits(s[i + 1..])
  }

  predicate IsServiceNamePortReference(s: string)
  {
    exists i: nat | i < |s| :: ReferenceAt(s, i)
  }

  /** A service name and a port, as written `name:port`. */
  datatype ServicePort = ServicePort(name: string, port: nat)

  /** How a reference is taken apart: the two first pieces of the split on ':', the second through Atoi; None when Atoi
      reports an error. */
  function ParseReference(s: string): Option<ServicePort>
    requires IsServiceNamePortReference(s)
  {
    ReferenceSplitsInTwo(s);
    var parts := Split(s, ':');
    match Atoi(parts[1])
    case Some(port) => Some(ServicePort(parts[0], port))
    case None => None
  }

  /** Whatever the pattern accepts splits into exactly two pieces, a name and a digit string, and these give it back. */
  lemma ReferenceSplitsInTwo(s: string)
    requires IsServiceNamePortReference(s)
    ensures var parts := Split(s, ':');
            && |parts| == 2
            && parts[0] != [] && AllNameChars(parts[0])
            && parts[1] != [] && AllDigits(parts[1])
            && s == parts[0] + ":" + parts[1]
  {
    var i: nat :| i < |s| && ReferenceAt(s, i);
    var name, digits := s[..i], s[i + 1..];
    assert s == name + [':'] + digits;
    assert ':' !in name && ':' !in digits;
    SplitAtFirst(name, ':', digits);
    SplitWithout(digits, ':');
  }

  /** Parsing fails exactly when the digits do not fit Go's `int`. */
  lemma ReferenceFailsOnlyOnOverflow(s: string, name: string, digits: string)
    requires name != [] && AllNameChars(name) && digits != [] && AllDigits(digits)
    requires s == name + ":" + digits
    ensures IsServiceNamePortReference(s)
    ensures ParseReference(s) == if NatValue(digits) <= MAX_INT then Some(ServicePort(name, NatValue(digits))) else None
  {
    var i := |name|;
    assert s[..i] == name && s[i + 1..] == digits;
    assert ReferenceAt(s, i);
    assert ':' !in name && ':' !in digits;
    SplitAtFirst(name, ':', digits);
    SplitWithout(digits, ':');
  }

  /** Writing a service reference and parsing it back is the identity for every port that fits Go's `int`. */
  lemma ReferenceRoundTrip(p: ServicePort)
    requires p.name != [] && AllNameChars(p.name) && p.port <= MAX_INT
    ensures var s := p.name + ":" + Decimal(p.port);
            IsServiceNamePortReference(s) && ParseReference(s) == Some(p)
  {
    NatValueOfDecimal(p.port);
    ReferenceFailsOnlyOnOverflow(p.name + ":" + Decimal(p.port), p.name, Decimal(p.port));
  }
}

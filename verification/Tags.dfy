/** Tag names: `fmt.Sprintf` of a kind letter and the decimal form of a counter value
    (run.go:49, listen.go:81, cancel.go:12, client.go:69-71). */
module Tags {

  datatype Kind = RunKind | ListenKind | CancelKind

  function Letter(k: Kind): char {
    match k
    case RunKind => 'r'
    case ListenKind => 'l'
    case CancelKind => 'c'
  }

  function Digit(d: nat): (c: char)
    requires d < 10
    ensures '0' <= c <= '9'
  {
    '0' + d as char
  }

  /** The `%d` verb on a non-negative number. */
  function Decimal(n: nat): string {
    if n < 10 then [Digit(n)] else Decimal(n / 10) + [Digit(n % 10)]
  }

  function TagName(k: Kind, n: nat): string {
    [Letter(k)] + Decimal(n)
  }

  lemma {:induction false} DecimalInjective(m: nat, n: nat)
    requires Decimal(m) == Decimal(n)
    ensures m == n
  {
    var s, t := Decimal(m), Decimal(n);
    assert s[|s| - 1] == t[|t| - 1];
    if m < 10 || n < 10 {
      DecimalLength(m);
      DecimalLength(n);
    } else {
      assert s[..|s| - 1] == Decimal(m / 10) && t[..|t| - 1] == Decimal(n / 10);
      DecimalInjective(m / 10, n / 10);
    }
  }

  lemma {:induction false} DecimalLength(n: nat)
    ensures |Decimal(n)| >= 1
    ensures n >= 10 <==> |Decimal(n)| > 1
  {
    if n >= 10 {
      DecimalLength(n / 10);
    }
  }

  /** Two tags are equal only when both the kind and the number are: no two calls share a tag,
      whatever their kinds. */
  lemma {:induction false} TagNameInjective(j: Kind, m: nat, k: Kind, n: nat)
    requires TagName(j, m) == TagName(k, n)
    ensures j == k && m == n
  {
    assert TagName(j, m)[0] == TagName(k, n)[0];
    assert TagName(j, m)[1..] == Decimal(m) && TagName(k, n)[1..] == Decimal(n);
    DecimalInjective(m, n);
  }
}

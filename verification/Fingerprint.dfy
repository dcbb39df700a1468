/** The request fingerprint of internal/service/payment.go, before it is hashed: when does it tell requests apart? */
module Fingerprint {

  const NUL: char := '\0'

  function Digits(n: nat): (s: string)
    ensures s != [] && forall c :: c in s ==> '0' <= c <= '9'
    decreases n
  {
    var d := ['0' + (n % 10) as char];
    if n < 10 then d else Digits(n / 10) + d
  }

  /** The %d rendering of an integer. */
  function Decimal(n: int): string {
    if n < 0 then "-" + Digits(-n) else Digits(n)
  }

  /** The four fields that make a request the same request, joined by NUL characters. */
  function Payload(orderId: string, accountId: string, amount: int, currency: string): string {
    orderId + [NUL] + accountId + [NUL] + Decimal(amount) + [NUL] + currency
  }

  predicate Clean(s: string) {
    NUL !in s
  }

  lemma {:induction false} DigitsInjective(m: nat, n: nat)
    requires Digits(m) == Digits(n)
    ensures m == n
    decreases m
  {
    var s, t := Digits(m), Digits(n);
    assert s[|s| - 1] == '0' + (m % 10) as char && t[|t| - 1] == '0' + (n % 10) as char;
    if m < 10 || n < 10 {
      assert |s| == 1 <==> m < 10;
      assert |t| == 1 <==> n < 10;
    } else {
      assert Digits(m / 10) == s[..|s| - 1] && Digits(n / 10) == t[..|t| - 1];
      DigitsInjective(m / 10, n / 10);
    }
  }

  lemma SignShows(n: int)
    ensures Decimal(n) != [] && (Decimal(n)[0] == '-' <==> n < 0)
  {
    if n >= 0 {
      assert '-' !in Digits(n);
    }
  }

  lemma DecimalInjective(m: int, n: int)
    requires Decimal(m) == Decimal(n)
    ensures m == n
  {
    SignShows(m);
    SignShows(n);
    if m < 0 {
      assert Digits(-m) == Decimal(m)[1..] && Digits(-n) == Decimal(n)[1..];
      DigitsInjective(-m, -n);
    } else {
      DigitsInjective(m, n);
    }
  }

  lemma DecimalClean(n: int)
    ensures Clean(Decimal(n))
  {
  }

  /** Two strings cut at their first NUL are equal only piece by piece. */
  lemma CutFirst(a: string, x: string, b: string, y: string)
    requires Clean(a) && Clean(b) && a + [NUL] + x == b + [NUL] + y
    ensures a == b && x == y
  {
    var s := a + [NUL] + x;
    assert s[|a|] == NUL && s[|b|] == NUL;
    assert forall i :: 0 <= i < |a| ==> s[i] == a[i];
    assert forall i :: 0 <= i < |b| ==> s[i] == b[i];
    assert |a| == |b|;
    assert a == s[..|a|] && b == s[..|b|];
    assert x == s[|a| + 1..] && y == s[|b| + 1..];
  }

  /** Two strings cut at their last NUL are equal only piece by piece. */
  lemma CutLast(a: string, x: string, b: string, y: string)
    requires Clean(x) && Clean(y) && a + [NUL] + x == b + [NUL] + y
    ensures a == b && x == y
  {
    var s := a + [NUL] + x;
    assert s[|a|] == NUL && s[|b|] == NUL;
    assert forall i :: |a| < i < |s| ==> s[i] == x[i - |a| - 1];
    assert forall i :: |b| < i < |s| ==> s[i] == y[i - |b| - 1];
    assert |a| == |b|;
    assert a == s[..|a|] && b == s[..|b|];
    assert x == s[|a| + 1..] && y == s[|b| + 1..];
  }

  /**
   With a clean currency, as validation demands, the payload always gives back amount, currency and the joined ids.
   */
  lemma TailDecodes(o: string, a: string, n: int, c: string, o': string, a': string, n': int, c': string)
    requires Clean(c) && Clean(c') && Payload(o, a, n, c) == Payload(o', a', n', c')
    ensures n == n' && c == c' && o + [NUL] + a == o' + [NUL] + a'
  {
    DecimalClean(n);
    DecimalClean(n');
    CutLast(o + [NUL] + a + [NUL] + Decimal(n), c, o' + [NUL] + a' + [NUL] + Decimal(n'), c');
    CutLast(o + [NUL] + a, Decimal(n), o' + [NUL] + a', Decimal(n'));
    DecimalInjective(n, n');
  }

  /** Equal payloads of requests with clean ids come from equal requests. */
  lemma PayloadInjective(o: string, a: string, n: int, c: string, o': string, a': string, n': int, c': string)
    requires Clean(c) && Clean(c') && Clean(o) && Clean(o')
    requires Payload(o, a, n, c) == Payload(o', a', n', c')
    ensures o == o' && a == a' && n == n' && c == c'
  {
    TailDecodes(o, a, n, c, o', a', n', c');
    CutFirst(o, a, o', a');
  }

  /** A string with exactly one NUL parts at it, whoever joined it. */
  lemma CutsSame(o: string, a: string, o': string, a': string)
    requires Clean(o) && Clean(a) && o + [NUL] + a == o' + [NUL] + a'
    ensures o == o' && a == a'
  {
    var s := o + [NUL] + a;
    assert s[|o'|] == NUL;
    assert forall i :: 0 <= i < |o| ==> s[i] == o[i];
    assert forall i :: |o| < i < |s| ==> s[i] == a[i - |o| - 1];
    assert |o| == |o'|;
    assert o == s[..|o|] && o' == s[..|o'|];
    assert a == s[|o| + 1..] && a' == s[|o'| + 1..];
  }

  /** A request with clean ids shares its payload with no other, accepted or not. */
  lemma CleanDecodes(o: string, a: string, n: int, c: string, o': string, a': string, n': int, c': string)
    requires Clean(o) && Clean(a) && Clean(c) && Clean(c')
    requires Payload(o, a, n, c) == Payload(o', a', n', c')
    ensures o == o' && a == a' && n == n' && c == c'
  {
    TailDecodes(o, a, n, c, o', a', n', c');
    CutsSame(o, a, o', a');
  }

  // ---- Among accepted requests ----

  const LONGEST := 128

  /** The bytes of a character in UTF-8 (section 3 of RFC 3629), which is how the service measures length. */
  function Utf8Width(c: char): nat {
    if c < '\U{80}' then 1 else if c < '\U{800}' then 2 else if c < '\U{10000}' then 3 else 4
  }

  function Utf8Length(s: string): nat {
    if s == "" then 0 else Utf8Width(s[0]) + Utf8Length(s[1..])
  }

  /** A field that validation accepts: there, and not too long. */
  predicate Fits(s: string) {
    s != "" && Utf8Length(s) <= LONGEST
  }

  /** The characters that trimming takes away at either end. */
  predicate White(c: char) {
    || '\t' <= c <= '\r' || c in {' ', '\U{85}', '\U{A0}', '\U{1680}', '\U{2028}', '\U{2029}', '\U{202F}', '\U{205F}',
                                  '\U{3000}'}
    || '\U{2000}' <= c <= '\U{200A}'
  }

  /** An order or account id that normalisation leaves alone and validation accepts. */
  predicate Accepted(id: string) {
    Fits(id) && !White(id[0]) && !White(id[|id| - 1])
  }

  /** No other request with accepted ids shares this one's payload. */
  ghost predicate Unique(o: string, a: string, n: int, c: string) {
    forall o', a', n', c' | Accepted(o') && Accepted(a') && Clean(c')
        && Payload(o', a', n', c') == Payload(o, a, n, c) ::
      o' == o && a' == a && n' == n && c' == c
  }

  /** The joined ids part into two accepted ids at this position. */
  predicate Parts(joined: string, i: int) {
    0 <= i < |joined| && joined[i] == NUL && Accepted(joined[..i]) && Accepted(joined[i + 1..])
  }

  /** The two ids, joined as in the payload, part into accepted ids in no other place. */
  ghost predicate PartsOnce(o: string, a: string) {
    forall i :: Parts(o + [NUL] + a, i) ==> i == |o|
  }

  lemma PartsThere(o: string, a: string)
    requires Accepted(o) && Accepted(a)
    ensures Parts(o + [NUL] + a, |o|)
  {
    assert (o + [NUL] + a)[..|o|] == o && (o + [NUL] + a)[|o| + 1..] == a;
  }

  /** Equal joined ids, parted at the same place, are equal ids. */
  lemma SamePart(o: string, a: string, o': string, a': string)
    requires o + [NUL] + a == o' + [NUL] + a' && |o| == |o'|
    ensures o == o' && a == a'
  {
    var s := o + [NUL] + a;
    assert o == s[..|o|] && o' == s[..|o'|];
    assert a == s[|o| + 1..] && a' == s[|o'| + 1..];
  }

  lemma PartsOnceIsUnique(o: string, a: string, n: int, c: string)
    requires Clean(c) && PartsOnce(o, a)
    ensures Unique(o, a, n, c)
  {
    hide Accepted, Payload, Clean;
    forall o', a', n', c' | Accepted(o') && Accepted(a') && Clean(c') && Payload(o', a', n', c') == Payload(o, a, n, c)
      ensures o' == o && a' == a && n' == n && c' == c
    {
      TailDecodes(o', a', n', c', o, a, n, c);
      PartsThere(o', a');
      SamePart(o, a, o', a');
    }
  }

  /** Wherever the joined ids part, the parts share the payload. */
  lemma PartsShare(o: string, a: string, i: int, n: int, c: string)
    requires Parts(o + [NUL] + a, i)
    ensures var joined := o + [NUL] + a; Payload(joined[..i], joined[i + 1..], n, c) == Payload(o, a, n, c)
  {
    hide Accepted, Decimal;
    var joined := o + [NUL] + a;
    assert joined == joined[..i] + [NUL] + joined[i + 1..];
  }

  /**
   An accepted request is the only one with its fingerprint payload if and only if its joined ids part in one place
   only.
   */
  lemma UniqueIffPartsOnce(o: string, a: string, n: int, c: string)
    requires Accepted(o) && Accepted(a) && Clean(c)
    ensures Unique(o, a, n, c) <==> PartsOnce(o, a)
  {
    hide Accepted, Payload, Clean;
    if PartsOnce(o, a) {
      PartsOnceIsUnique(o, a, n, c);
    }
    if Unique(o, a, n, c) {
      forall i | Parts(o + [NUL] + a, i)
        ensures i == |o|
      {
        PartsShare(o, a, i, n, c);
      }
    }
  }

  lemma {:induction false} LengthOfRepeated(n: nat, c: char)
    ensures Utf8Length(seq(n, _ => c)) == n * Utf8Width(c)
  {
    if n > 0 {
      assert seq(n, _ => c)[1..] == seq(n - 1, _ => c);
      LengthOfRepeated(n - 1, c);
    }
  }

  lemma {:induction false} LengthOfJoined(s: string, t: string)
    ensures Utf8Length(s + t) == Utf8Length(s) + Utf8Length(t)
  {
    if s == "" {
      assert s + t == t;
    } else {
      assert (s + t)[1..] == s[1..] + t;
      LengthOfJoined(s[1..], t);
    }
  }

  lemma {:induction false} LengthIsPositive(s: string)
    ensures Utf8Length(s) >= |s|
  {
    if s != "" {
      LengthIsPositive(s[1..]);
    }
  }

  /** The longest ids of one-byte, two-byte, three-byte and four-byte characters. */
  lemma LongestIds(n: nat)
    ensures Fits(seq(n, _ => 'x')) <==> 1 <= n <= 128
    ensures Fits(seq(n, _ => '\U{E9}')) <==> 1 <= n <= 64
    ensures Fits(seq(n, _ => '\U{4E2D}')) <==> 1 <= n <= 42
    ensures Fits(seq(n, _ => '\U{1F600}')) <==> 1 <= n <= 32
  {
    LengthOfRepeated(n, 'x');
    LengthOfRepeated(n, '\U{E9}');
    LengthOfRepeated(n, '\U{4E2D}');
    LengthOfRepeated(n, '\U{1F600}');
  }

  /** Length is measured in bytes: a NUL where the first part would have 71 characters but 131 bytes does no harm. */
  lemma LongPartIsUnique(n: int, c: string)
    requires Clean(c)
    ensures var o, a := seq(60, _ => '\U{E9}'), seq(10, _ => 'x') + [NUL] + "b";
      Accepted(o) && Accepted(a) && !Clean(a) && Unique(o, a, n, c)
  {
    var o, x := seq(60, _ => '\U{E9}'), seq(10, _ => 'x');
    var a := x + [NUL] + "b";
    var joined := o + [NUL] + a;
    LengthOfRepeated(60, '\U{E9}');
    LengthOfRepeated(10, 'x');
    LengthOfJoined(x + [NUL], "b");
    LengthOfJoined(x, [NUL]);
    LengthOfJoined(o + [NUL], x);
    LengthOfJoined(o, [NUL]);
    assert joined[..71] == o + [NUL] + x;
    assert forall j :: 0 <= j < 60 ==> joined[j] == o[j];
    assert forall j :: 60 < j < 71 ==> joined[j] == x[j - 61];
    UniqueIffPartsOnce(o, a, n, c);
  }

  /** Ids without NUL characters part in one place only. */
  lemma CleanPartsOnce(o: string, a: string)
    requires Clean(o) && Clean(a)
    ensures PartsOnce(o, a)
  {
    var joined := o + [NUL] + a;
    assert forall j :: 0 <= j < |o| ==> joined[j] == o[j];
    assert forall j :: |o| < j < |joined| ==> joined[j] == a[j - |o| - 1];
  }

  /** A NUL at the very front of an id does no harm: the other part would be empty. */
  lemma FrontNulIsUnique(n: int, c: string)
    requires Clean(c)
    ensures !Clean("\0b") && Unique("\0b", "c", n, c)
  {
    var joined := "\0b" + [NUL] + "c";
    assert |joined| == 4 && joined[1] == 'b' && joined[3] == 'c' && joined[..0] == "";
    forall i | Parts(joined, i)
      ensures i == 2
    {
      assert i in {0, 1, 2, 3};
    }
    UniqueIffPartsOnce("\0b", "c", n, c);
  }

  lemma Resplit(s: string, t: string, x: string, n: int, c: string)
    ensures Payload(s + [NUL] + t, x, n, c) == Payload(s, t + [NUL] + x, n, c)
  {
    assert s + [NUL] + t + [NUL] + x == s + [NUL] + (t + [NUL] + x);
  }

  /** Two different accepted requests that the service takes for the same one. */
  lemma Collision()
    ensures Accepted("a\0b") && Accepted("c") && Accepted("a") && Accepted("b\0c")
    ensures Payload("a\0b", "c", 1, "CNY") == Payload("a", "b\0c", 1, "CNY")
    ensures !Unique("a\0b", "c", 1, "CNY")
  {
    Resplit("a", "b", "c", 1, "CNY");
    assert "a" + [NUL] + "b" == "a\0b" && "b" + [NUL] + "c" == "b\0c";
    assert Clean("CNY") && |"a"| != |"a\0b"|;
  }
}

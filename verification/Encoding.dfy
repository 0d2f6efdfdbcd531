/** How keys and numbers are written to the database. */
module Encoding {
  import opened Types

  const TWO_TO_THE_32: nat := 0x1_0000_0000
  const TWO_TO_THE_64: nat := 0x1_0000_0000_0000_0000

  // ----- numbers -----

  function Power256(k: nat): (p: nat)
    ensures p > 0
  {
    if k == 0 then 1 else 256 * Power256(k - 1)
  }

  /** The bytes of an unsigned integer of k bytes, least significant first. */
  function ToBytes(n: nat, k: nat): (bytes: seq<Byte>)
    ensures |bytes| == k
  {
    if k == 0 then [] else [n % 256] + ToBytes(n / 256, k - 1)
  }

  /** Byte i is the i-th digit to the base 256, least significant first. */
  lemma {:induction false} ByteAt(n: nat, k: nat, i: nat)
    requires i < k
    ensures ToBytes(n, k)[i] == n / Power256(i) % 256
  {
    if i > 0 {
      ByteAt(n / 256, k - 1, i - 1);
      DivideTwice(n, Power256(i - 1));
    }
  }

  lemma DivideTwice(n: nat, b: nat)
    requires b > 0
    ensures n / 256 / b == n / (256 * b)
  {
    var m := n / 256;
    var q, r := m / b, m % b;
    assert m == q * b + r;
    assert n == q * (256 * b) + (256 * r + n % 256);
    Quotient(n, 256 * b, q, 256 * r + n % 256);
  }

  lemma Quotient(n: nat, d: nat, q: nat, r: nat)
    requires d > 0 && r < d && n == q * d + r
    ensures n / d == q
  {
    var q', r' := n / d, n % d;
    assert n == q' * d + r';
    AtMost(q, q', d, r, r');
    AtMost(q', q, d, r', r);
  }

  lemma AtMost(q: nat, q': nat, d: nat, r: nat, r': nat)
    requires r' < d && q * d + r == q' * d + r'
    ensures q <= q'
  {
    if q' < q { Scaled(q' + 1, q, d); }
  }

  lemma Scaled(a: nat, b: nat, d: nat)
    requires a <= b
    ensures a * d <= b * d
  {
  }

  function FromBytes(bytes: seq<Byte>): nat {
    if bytes == [] then 0 else bytes[0] + 256 * FromBytes(bytes[1..])
  }

  /** Reading back what was written gives the number, as long as it fits. */
  lemma {:induction false} BytesRoundTrip(n: nat, k: nat)
    requires n < Power256(k)
    ensures FromBytes(ToBytes(n, k)) == n
  {
    if k > 0 { BytesRoundTrip(n / 256, k - 1); }
  }

  lemma {:induction false} BytesBounded(bytes: seq<Byte>)
    ensures FromBytes(bytes) < Power256(|bytes|)
  {
    if bytes != [] { BytesBounded(bytes[1..]); }
  }

  lemma WordSizes()
    ensures Power256(4) == TWO_TO_THE_32 && Power256(8) == TWO_TO_THE_64
  {
  }

  // ----- keys -----

  function Digit(d: nat): char
    requires d < 10
  {
    (d + '0' as nat) as char
  }

  /** Decimal notation, as std::to_string writes it. */
  function Decimal(n: nat): string {
    if n < 10 then [Digit(n)] else Decimal(n / 10) + [Digit(n % 10)]
  }

  function Value(s: string): nat {
    if s == [] then 0
    else
      var d := s[|s| - 1];
      10 * Value(s[..|s| - 1]) + if '0' <= d then d as nat - '0' as nat else 0
  }

  lemma {:induction false} DecimalRoundTrip(n: nat)
    ensures Value(Decimal(n)) == n
  {
    if n < 10 {
      assert Decimal(n)[..0] == [];
    } else {
      DecimalRoundTrip(n / 10);
      assert Decimal(n)[..|Decimal(n)| - 1] == Decimal(n / 10);
    }
  }

  /** Only digits, and no leading zero: with the value, this determines the notation. */
  lemma {:induction false} DecimalShape(n: nat)
    ensures Decimal(n) != [] && (forall i :: 0 <= i < |Decimal(n)| ==> '0' <= Decimal(n)[i] <= '9')
    ensures n > 0 ==> Decimal(n)[0] != '0'
  {
    if n >= 10 { DecimalShape(n / 10); }
  }

  const CURRENT_TERM_KEY := "current_term"
  const VOTED_FOR_KEY := "voted_for"
  const VOTED_KEY := "voted"
  const LOG_SIZE_KEY := "log_size"
  const LOG_KEY_PREFIX := "log/"
  const LOG_TERM_KEY_SUFFIX := "/term"
  const LOG_DATA_KEY_SUFFIX := "/data"

  function TermKey(id: nat): string {
    LOG_KEY_PREFIX + Decimal(id) + LOG_TERM_KEY_SUFFIX
  }

  function DataKey(id: nat): string {
    LOG_KEY_PREFIX + Decimal(id) + LOG_DATA_KEY_SUFFIX
  }

  lemma KeyParts(id: nat, suffix: string)
    requires |suffix| == 5
    ensures var key := LOG_KEY_PREFIX + Decimal(id) + suffix;
            && |key| >= 9 && key[..4] == LOG_KEY_PREFIX
            && key[4..|key| - 5] == Decimal(id) && key[|key| - 5..] == suffix
  {
  }

  /** Different entries, and the two parts of one entry, have different keys. */
  lemma EntryKeysDiffer(i: nat, j: nat)
    ensures TermKey(i) == TermKey(j) ==> i == j
    ensures DataKey(i) == DataKey(j) ==> i == j
    ensures TermKey(i) != DataKey(j)
  {
    KeyParts(i, LOG_TERM_KEY_SUFFIX);
    KeyParts(j, LOG_TERM_KEY_SUFFIX);
    KeyParts(i, LOG_DATA_KEY_SUFFIX);
    KeyParts(j, LOG_DATA_KEY_SUFFIX);
    DecimalRoundTrip(i);
    DecimalRoundTrip(j);
    assert LOG_TERM_KEY_SUFFIX[1] != LOG_DATA_KEY_SUFFIX[1];
  }

  /** The keys of entries are none of the four single keys, which differ from each other. */
  lemma SingleKeysDiffer(i: nat)
    ensures {TermKey(i), DataKey(i)} !! {CURRENT_TERM_KEY, VOTED_FOR_KEY, VOTED_KEY, LOG_SIZE_KEY}
    ensures |{CURRENT_TERM_KEY, VOTED_FOR_KEY, VOTED_KEY, LOG_SIZE_KEY}| == 4
  {
    KeyParts(i, LOG_TERM_KEY_SUFFIX);
    KeyParts(i, LOG_DATA_KEY_SUFFIX);
    assert TermKey(i)[0] == 'l' && DataKey(i)[0] == 'l';
    assert TermKey(i)[..4][3] == '/' && DataKey(i)[..4][3] == '/';
    assert CURRENT_TERM_KEY[0] == 'c' && VOTED_FOR_KEY[0] == 'v' && VOTED_KEY[0] == 'v';
    assert LOG_SIZE_KEY[0] == 'l' && LOG_SIZE_KEY[3] == '_';
    assert |VOTED_FOR_KEY| != |VOTED_KEY|;
  }
}

/** Identifiers of sessions and messages: `<prefix>-<unix seconds>-<first six hex digits of a uuid4>`.
    The clock reading and the uuid are inputs; this module only builds the text. */
module Ids {

  predicate IsDigit(c: char) {
    '0' <= c <= '9'
  }

  predicate AllDigits(s: string) {
    forall i :: 0 <= i < |s| ==> IsDigit(s[i])
  }

  function DigitChar(d: nat): (c: char)
    requires d < 10
    ensures IsDigit(c) && (c as int) - ('0' as int) == d
  {
    (('0' as int) + d) as char
  }

  /** Python's `str(n)` of a non-negative int: decimal, no leading zeros. */
  function Decimal(n: nat): (s: string)
    ensures |s| >= 1 && AllDigits(s)
    ensures |s| > 1 ==> s[0] != '0'
    decreases n
  {
    if n < 10 then [DigitChar(n)] else Decimal(n / 10) + [DigitChar(n % 10)]
  }

  /** Reads a string of decimal digits back as a number. */
  function ParseDecimal(s: string): nat
    requires AllDigits(s)
    decreases |s|
  {
    if s == [] then 0
    else ParseDecimal(s[..|s| - 1]) * 10 + ((s[|s| - 1] as int) - ('0' as int))
  }

  lemma {:induction false} ParseDecimalOfDecimal(n: nat)
    ensures ParseDecimal(Decimal(n)) == n
    decreases n
  {
    var s := Decimal(n);
    if n >= 10 {
      assert s[..|s| - 1] == Decimal(n / 10);
      ParseDecimalOfDecimal(n / 10);
    } else {
      assert s[..|s| - 1] == [];
    }
  }

  /** Different clock readings give different decimal renderings. */
  lemma DecimalInjective(a: nat, b: nat)
    requires Decimal(a) == Decimal(b)
    ensures a == b
  {
    ParseDecimalOfDecimal(a);
    ParseDecimalOfDecimal(b);
  }

  /** `uuid4().hex[:6]`: Python's slice keeps the whole string when it is shorter. */
  function Hex6(hex: string): (r: string)
    ensures |r| == if |hex| < 6 then |hex| else 6
    ensures r <= hex
  {
    if |hex| <= 6 then hex else hex[..6]
  }

  /** `f"{prefix}-{int(time.time())}-{uuid.uuid4().hex[:6]}"` */
  function NewId(prefix: string, seconds: nat, hex: string): (id: string)
    ensures prefix + "-" <= id
    ensures |id| == |prefix| + 2 + |Decimal(seconds)| + |Hex6(hex)|
    ensures id[|id| - |Hex6(hex)|..] == Hex6(hex)
  {
    prefix + "-" + Decimal(seconds) + "-" + Hex6(hex)
  }

  const SessionPrefix := "session"
  const ChatPrefix := "msg"
  const SystemPrefix := "sys"

  /** Under one prefix, two ids built from full uuid hex strings agree exactly when
      the second counts and the six-digit suffixes agree: an id collision needs the
      same second and the same 24 random bits. */
  lemma {:induction false} NewIdInjective(prefix: string, t1: nat, h1: string, t2: nat, h2: string)
    requires |h1| >= 6 && |h2| >= 6
    ensures NewId(prefix, t1, h1) == NewId(prefix, t2, h2) <==> t1 == t2 && h1[..6] == h2[..6]
  {
    var id1, id2 := NewId(prefix, t1, h1), NewId(prefix, t2, h2);
    if id1 == id2 {
      var d1, d2 := Decimal(t1), Decimal(t2);
      assert |d1| == |d2|;
      var p := |prefix| + 1;
      assert id1 == prefix + "-" + d1 + "-" + Hex6(h1);
      assert id1[p..p + |d1|] == d1;
      assert id2[p..p + |d2|] == d2;
      DecimalInjective(t1, t2);
      assert Hex6(h1) == id1[|id1| - 6..] == id2[|id2| - 6..] == Hex6(h2);
    }
  }

  /** Session ids, chat-message ids and system-message ids never coincide. */
  lemma NamespacesDisjoint(t1: nat, h1: string, t2: nat, h2: string)
    ensures NewId(SessionPrefix, t1, h1) != NewId(ChatPrefix, t2, h2)
    ensures NewId(SessionPrefix, t1, h1) != NewId(SystemPrefix, t2, h2)
    ensures NewId(ChatPrefix, t1, h1) != NewId(SystemPrefix, t2, h2)
  {
    assert NewId(SessionPrefix, t1, h1)[1] == 'e';
    assert NewId(SystemPrefix, t2, h2)[1] == 'y';
    assert NewId(ChatPrefix, t1, h1)[0] == 'm';
    assert NewId(ChatPrefix, t2, h2)[0] == 'm';
    assert NewId(SystemPrefix, t2, h2)[0] == 's';
  }
}

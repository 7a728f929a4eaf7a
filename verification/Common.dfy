/** Small vocabulary shared by every module of the project. */
module Common {

  datatype Option<+T> = None | Some(value: T)

  datatype Result<+T, +E> = Ok(value: T) | Err(error: E)

  // ---------- decimal numerals ----------

  function Digit(d: nat): char
    requires d < 10
  {
    ('0' as int + d) as char
  }

  predicate IsDigit(c: char) { '0' <= c <= '9' }

  function DigitValue(c: char): (d: nat)
    requires IsDigit(c)
    ensures d < 10
  {
    c as int - '0' as int
  }

  /** The decimal numeral of `n`, without leading zeros. */
  function Decimal(n: nat): (s: string)
    ensures |s| > 0
    ensures forall i :: 0 <= i < |s| ==> IsDigit(s[i])
  {
    if n < 10 then [Digit(n)] else Decimal(n / 10) + [Digit(n % 10)]
  }

  // ---------- white space ----------

  /** The characters that Python's `str.strip()` removes and `int()` ignores at the ends. */
  predicate IsSpace(c: char) {
    var n := c as int;
    9 <= n <= 13 || 28 <= n <= 32 || n == 0x85 || n == 0xA0 || n == 0x1680 ||
    0x2000 <= n <= 0x200A || n == 0x2028 || n == 0x2029 || n == 0x202F || n == 0x205F || n == 0x3000
  }

  function TrimLeft(s: string): string {
    if s == [] || !IsSpace(s[0]) then s else TrimLeft(s[1..])
  }

  function TrimRight(s: string): string {
    if s == [] || !IsSpace(s[|s| - 1]) then s else TrimRight(s[..|s| - 1])
  }

  lemma {:induction false} TrimLeftDrops(s: string)
    ensures |TrimLeft(s)| <= |s| && TrimLeft(s) == s[|s| - |TrimLeft(s)|..]
    ensures TrimLeft(s) != [] ==> !IsSpace(TrimLeft(s)[0])
  {
    if s != [] && IsSpace(s[0]) {
      TrimLeftDrops(s[1..]);
      assert s[|s| - |TrimLeft(s)|..] == s[1..][|s| - 1 - |TrimLeft(s)|..];
    }
  }

  lemma {:induction false} TrimLeftSpaces(s: string, i: nat)
    requires i < |s| - |TrimLeft(s)|
    ensures IsSpace(s[i])
  {
    if i > 0 {
      TrimLeftSpaces(s[1..], i - 1);
    }
  }

  lemma {:induction false} TrimRightDrops(s: string)
    ensures |TrimRight(s)| <= |s| && TrimRight(s) == s[..|TrimRight(s)|]
    ensures TrimRight(s) != [] ==> !IsSpace(TrimRight(s)[|TrimRight(s)| - 1])
  {
    if s != [] && IsSpace(s[|s| - 1]) {
      TrimRightDrops(s[..|s| - 1]);
      assert s[..|TrimRight(s)|] == s[..|s| - 1][..|TrimRight(s)|];
    }
  }

  lemma {:induction false} TrimRightSpaces(s: string, i: nat)
    requires |TrimRight(s)| <= i < |s|
    ensures IsSpace(s[i])
  {
    if i < |s| - 1 {
      TrimRightSpaces(s[..|s| - 1], i);
    }
  }

  /** `str.strip()`. */
  function Trim(s: string): (r: string) {
    TrimRight(TrimLeft(s))
  }

  predicate Trimmed(s: string) {
    s == [] || (!IsSpace(s[0]) && !IsSpace(s[|s| - 1]))
  }

  lemma TrimIsTrimmed(s: string)
    ensures Trimmed(Trim(s))
    ensures Trimmed(s) ==> Trim(s) == s
    ensures forall c | c in Trim(s) :: c in s
  {
    var left := TrimLeft(s);
    var r := TrimRight(left);
    TrimLeftDrops(s);
    TrimRightDrops(left);
    assert r != [] ==> r[0] == left[0];
    if Trimmed(s) && s != [] {
      assert left == s;
    }
  }

  lemma TrimKeeps(s: string, c: char)
    requires c in s && !IsSpace(c)
    ensures c in Trim(s)
  {
    var left := TrimLeft(s);
    TrimLeftDrops(s);
    TrimRightDrops(left);
    var i :| 0 <= i < |s| && s[i] == c;
    if i < |s| - |left| {
      TrimLeftSpaces(s, i);
    }
    var j := i - (|s| - |left|);
    assert left[j] == c;
    if j >= |TrimRight(left)| {
      TrimRightSpaces(left, j);
    }
    assert TrimRight(left)[j] == c;
  }
}

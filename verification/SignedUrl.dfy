/** Signed storage URLs: the payload that is signed, and the check that reads it back. */
module SignedUrl {
  import opened Common
  import opened Rotation

  datatype SignatureError = InvalidSignature | ExpiredSignature

  // An ideal timestamped MAC: a token can be opened with the secret it was made under and with no other.
  datatype Token = Token(secret: string, payload: string, stamp: int)

  // ---------- Python's int() on ASCII text ----------

  /** Digits, with single underscores allowed between them. */
  function Numeral(s: string): Option<nat> {
    if s == [] || !IsDigit(s[|s| - 1]) then None
    else
      var d := DigitValue(s[|s| - 1]);
      if |s| == 1 then Some(d)
      else
        match Numeral(if s[|s| - 2] == '_' then s[..|s| - 2] else s[..|s| - 1])
        case None => None
        case Some(v) => Some(10 * v + d)
  }

  /** A numeral with an optional sign. */
  function Integer(t: string): Option<int> {
    if t != [] && t[0] == '-' then
      match Numeral(t[1..])
      case None => None
      case Some(v) =>
        Some(0 - v as int)
    else if t != [] && t[0] == '+' then Numeral(t[1..])
    else Numeral(t)
  }

  function PyInt(s: string): Option<int> {
    Integer(Trim(s))
  }

  lemma {:induction false} NumeralOfDecimal(n: nat)
    ensures Numeral(Decimal(n)) == Some(n)
  {
    if n >= 10 {
      var front := Decimal(n / 10);
      NumeralOfDecimal(n / 10);
      assert Decimal(n)[..|front|] == front;
      assert IsDigit(front[|front| - 1]);
    }
  }

  lemma {:induction false} NumeralAlphabet(s: string)
    requires Numeral(s).Some?
    ensures forall i :: 0 <= i < |s| ==> IsDigit(s[i]) || s[i] == '_'
  {
    if |s| > 1 {
      NumeralAlphabet(if s[|s| - 2] == '_' then s[..|s| - 2] else s[..|s| - 1]);
    }
  }

  lemma PyIntOfDecimal(n: nat)
    ensures PyInt(Decimal(n)) == Some(n)
  {
    var s := Decimal(n);
    assert IsDigit(s[0]) && IsDigit(s[|s| - 1]);
    TrimIsTrimmed(s);
    NumeralOfDecimal(n);
  }

  lemma BarIsNoNumeral(s: string)
    requires '|' in s
    ensures Numeral(s).None?
  {
    if Numeral(s).Some? { NumeralAlphabet(s); assert false; }
  }

  lemma BarIsNoInt(s: string)
    requires '|' in s
    ensures PyInt(s).None?
  {
    TrimKeeps(s, '|');
    BarIsNoInteger(Trim(s));
  }

  lemma BarIsNoInteger(t: string)
    requires '|' in t
    ensures Integer(t).None?
  {
    if t[0] == '-' || t[0] == '+' {
      assert t == [t[0]] + t[1..];
      BarIsNoNumeral(t[1..]);
    } else {
      BarIsNoNumeral(t);
    }
  }

  // ---------- sign and verify ----------

  function Payload(bucket: string, path: string, ttl: nat): string {
    bucket + "/" + path + "|" + Decimal(ttl)
  }

  function Sign(secret: string, bucket: string, path: string, ttl: int, now: int): Result<Token, SignatureError> {
    if ttl <= 0 then Err(InvalidSignature)
    else Ok(Token(secret, Payload(bucket, path, ttl), Second(now)))
  }

  /** The verdict on a token whose secret is known: the time to live is read out of the payload itself. */
  function Judge(token: Token, bucket: string, path: string, now: int): Result<(), SignatureError> {
    var prefix := bucket + "/" + path + "|";
    if !(prefix <= token.payload) then Err(InvalidSignature)
    else
      match PyInt(token.payload[|prefix|..])
      case None => Err(InvalidSignature)
      case Some(ttl) =>
        if ttl <= 0 then Err(InvalidSignature)
        else
          var age := Second(now) - token.stamp;
          if age > ttl || age < 0 then Err(ExpiredSignature) else Ok(())
  }

  /** The loop over the listed secrets: a secret that does not open the token is skipped, any other outcome is final. */
  method Verify(token: Token, bucket: string, path: string, now: int, secrets: seq<string>)
    returns (r: Result<(), SignatureError>)
    ensures r == if token.secret in secrets then Judge(token, bucket, path, now) else Err(InvalidSignature)
  {
    for i := 0 to |secrets|
      invariant token.secret !in secrets[..i]
    {
      if secrets[i] == token.secret {
        var prefix := bucket + "/" + path + "|";
        if !(prefix <= token.payload) { return Err(InvalidSignature); }
        var ttl := PyInt(token.payload[|prefix|..]);
        if ttl.None? || ttl.value <= 0 { return Err(InvalidSignature); }
        var age := Second(now) - token.stamp;
        if age > ttl.value || age < 0 { return Err(ExpiredSignature); }
        return Ok(());
      }
    }
    return Err(InvalidSignature);
  }

  // ---------- the payload is unambiguous ----------

  lemma SplitAtLastBar(x: string, digits: string, y: string)
    requires forall i :: 0 <= i < |digits| ==> IsDigit(digits[i])
    requires y + "|" <= x + "|" + digits
    ensures y == x || '|' in (x + "|" + digits)[|y| + 1..]
  {
    var whole := x + "|" + digits;
    assert whole[|y|] == (y + "|")[|y|] == '|' && whole[|x|] == '|';
    assert forall i :: |x| < i < |whole| ==> whole[i] == digits[i - |x| - 1];
    assert |y| <= |x|;
    if |y| < |x| {
      assert whole[|y| + 1..][|x| - |y| - 1] == whole[|x|];
    } else {
      assert whole[..|x|] == x;
    }
  }

  /** Reading the payload of `x` with `digits` back against `y` finds a number exactly when `y` is `x`. */
  lemma ReadBack(x: string, ttl: nat, y: string)
    ensures y == x ==> y + "|" <= x + "|" + Decimal(ttl) && PyInt((x + "|" + Decimal(ttl))[|y| + 1..]) == Some(ttl)
    ensures y != x && y + "|" <= x + "|" + Decimal(ttl) ==> PyInt((x + "|" + Decimal(ttl))[|y| + 1..]) == None
  {
    var whole := x + "|" + Decimal(ttl);
    if y == x {
      assert whole[|y| + 1..] == Decimal(ttl);
      PyIntOfDecimal(ttl);
    } else if y + "|" <= whole {
      SplitAtLastBar(x, Decimal(ttl), y);
      BarIsNoInt(whole[|y| + 1..]);
    }
  }

  /** A token signed for `bucket0/path0` verifies for exactly the same joined string, within its own time to live. */
  lemma VerifiesExactlyItsObject(secret: string, bucket0: string, path0: string, ttl: int, signed: int,
                                 bucket: string, path: string, now: int)
    requires ttl > 0
    ensures Sign(secret, bucket0, path0, ttl, signed).Ok?
    ensures Judge(Sign(secret, bucket0, path0, ttl, signed).value, bucket, path, now).Ok? <==>
            bucket + "/" + path == bucket0 + "/" + path0 && 0 <= Second(now) - Second(signed) <= ttl
  {
    var token := Sign(secret, bucket0, path0, ttl, signed).value;
    ReadBack(bucket0 + "/" + path0, ttl, bucket + "/" + path);
  }

  /** With slash-free bucket names the pair itself is determined, whatever characters the path contains. */
  lemma SlashFreeBucketsAreDetermined(bucket0: string, path0: string, bucket: string, path: string)
    requires '/' !in bucket0 && '/' !in bucket
    requires bucket + "/" + path == bucket0 + "/" + path0
    ensures bucket == bucket0 && path == path0
  {
    var whole := bucket + "/" + path;
    assert whole[|bucket|] == '/' && whole[|bucket0|] == '/';
    assert forall i :: 0 <= i < |bucket| ==> whole[i] == bucket[i];
    assert forall i :: 0 <= i < |bucket0| ==> whole[i] == bucket0[i];
    assert |bucket| == |bucket0|;
    assert whole[..|bucket|] == bucket && whole[..|bucket|] == bucket0;
    assert whole[|bucket| + 1..] == path && whole[|bucket| + 1..] == path0;
  }
}

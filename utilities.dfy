/** Pure helpers of the dispatcher: the randomized inter-message delay, the
    chat identifier built from a phone number, and phone normalisation. */
module Utilities {

  /** A draw of the random source: a real number in [0, 1). */
  type Fraction = r: real | 0.0 <= r < 1.0

  /** randDelay(): MIN + floor(random * (MAX - MIN + 1)), with the random draw
      passed in. With MIN <= MAX the result lies in [MIN, MAX]; with
      MIN == MAX it is MIN; the code does not order the bounds, and with
      MAX < MIN the result lies in [MAX + 1, MIN] instead. */
  function RandDelay(minMs: int, maxMs: int, draw: Fraction): (d: int)
    ensures minMs <= maxMs ==> minMs <= d <= maxMs
    ensures minMs == maxMs ==> d == minMs
    ensures maxMs < minMs ==> maxMs < d <= minMs
  {
    var span := maxMs - minMs + 1;
    FloorOfScaledDraw(draw, span);
    minMs + (draw * span as real).Floor
  }

  /** floor(draw * span) lies between 0 and span - 1 for a positive span, and
      between span and 0 otherwise. */
  lemma FloorOfScaledDraw(draw: Fraction, span: int)
    ensures span > 0 ==> 0 <= (draw * span as real).Floor <= span - 1
    ensures span <= 0 ==> span <= (draw * span as real).Floor <= 0
  {
    var x := draw * span as real;
    if span > 0 {
      assert 0.0 <= x;
      assert x < span as real by {
        var rest := 1.0 - draw;
        assert rest > 0.0 && span as real > 0.0;
        assert rest * span as real > 0.0;
        assert span as real - x == rest * span as real;
      }
    } else {
      assert x <= 0.0 by {
        assert -x == draw * (-span) as real;
      }
      assert span as real <= x by {
        var rest := 1.0 - draw;
        var neg := (-span) as real;
        assert rest > 0.0 && neg >= 0.0;
        assert rest * neg >= 0.0;
        assert x - span as real == rest * neg;
      }
    }
  }

  /** toChatId(phone): the country code 91 is always prefixed and the
      "@c.us" suffix appended. */
  function ToChatId(phone: string): (chatId: string)
  {
    "91" + phone + "@c.us"
  }

  /** The inverse of ToChatId: the phone part of a chat identifier, or None
      when the identifier is not of that shape. */
  function PhoneOfChatId(chatId: string): (phone: Option<string>)
  {
    if |chatId| >= 7 && chatId[..2] == "91" && chatId[|chatId| - 5..] == "@c.us"
    then Some(chatId[2..|chatId| - 5])
    else None
  }

  lemma ChatIdRoundTrip(phone: string)
    ensures PhoneOfChatId(ToChatId(phone)) == Some(phone)
  {
    var c := ToChatId(phone);
    assert c[..2] == "91";
    assert c[|c| - 5..] == "@c.us";
    assert c[2..|c| - 5] == phone;
  }

  /** Distinct recipients get distinct chats. */
  lemma ChatIdInjective(p: string, q: string)
    requires ToChatId(p) == ToChatId(q)
    ensures p == q
  {
    ChatIdRoundTrip(p);
    ChatIdRoundTrip(q);
  }

  datatype Option<+T> = None | Some(value: T)

  predicate IsDigit(c: char)
  {
    '0' <= c <= '9'
  }

  /** String(phone).replace(/\D/g, ''): keep the ASCII digits, in order. */
  function Digits(s: string): string
  {
    if s == [] then []
    else if IsDigit(s[0]) then [s[0]] + Digits(s[1..])
    else Digits(s[1..])
  }

  /** Normalisation keeps only digits and never lengthens the phone. */
  lemma {:induction false} DigitsOnlyDigits(s: string)
    ensures |Digits(s)| <= |s|
    ensures forall k :: 0 <= k < |Digits(s)| ==> IsDigit(Digits(s)[k])
  {
    if s != [] {
      DigitsOnlyDigits(s[1..]);
      if IsDigit(s[0]) {
        var r := Digits(s[1..]);
        assert forall k :: 1 <= k < |r| + 1 ==> ([s[0]] + r)[k] == r[k - 1];
      }
    }
  }

  /** Normalisation leaves nothing exactly when the input holds no digit. */
  lemma {:induction false} DigitsEmptyIff(s: string)
    ensures Digits(s) == [] <==> forall k :: 0 <= k < |s| ==> !IsDigit(s[k])
  {
    if s != [] {
      DigitsEmptyIff(s[1..]);
      if !IsDigit(s[0]) {
        assert forall k :: 1 <= k < |s| ==> s[k] == s[1..][k - 1];
      }
    }
  }

  /** A string of digits is its own normalisation. */
  lemma {:induction false} DigitsOfDigits(s: string)
    requires forall k :: 0 <= k < |s| ==> IsDigit(s[k])
    ensures Digits(s) == s
  {
    if s != [] {
      DigitsOfDigits(s[1..]);
    }
  }

  /** Normalisation is idempotent. */
  lemma DigitsIdempotent(s: string)
    ensures Digits(Digits(s)) == Digits(s)
  {
    DigitsOnlyDigits(s);
    DigitsOfDigits(Digits(s));
  }

  /** Normalisation works piecewise: no digit is lost, reordered or invented. */
  lemma {:induction false} DigitsAppend(a: string, b: string)
    ensures Digits(a + b) == Digits(a) + Digits(b)
  {
    if a != [] {
      assert (a + b)[1..] == a[1..] + b;
      DigitsAppend(a[1..], b);
    } else {
      assert a + b == b;
    }
  }

  predicate StartsWith(s: string, prefix: string)
  {
    |prefix| <= |s| && s[..|prefix|] == prefix
  }

  predicate EndsWith(s: string, suffix: string)
  {
    |suffix| <= |s| && s[|s| - |suffix|..] == suffix
  }
}

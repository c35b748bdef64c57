/** The control token the question stream sends before the answer text:
    `"{id}:message_id{chat_id}:chat_id"`, with `id` written the way Python's
    `str` writes an integer. */
module ControlTokens {
  import opened ChatTypes

  predicate IsDigit(c: char)
  {
    '0' <= c <= '9'
  }

  function DigitChar(d: nat): char
    requires d < 10
  {
    ('0' as int + d) as char
  }

  function DigitValue(c: char): nat
    requires IsDigit(c)
  {
    c as int - '0' as int
  }

  predicate AllDigits(s: string)
  {
    forall i :: 0 <= i < |s| ==> IsDigit(s[i])
  }

  /** Decimal digits of a non-negative integer, most significant first. */
  function NatToDecimal(n: nat): (s: string)
    ensures |s| >= 1 && AllDigits(s)
  {
    if n < 10 then [DigitChar(n)] else NatToDecimal(n / 10) + [DigitChar(n % 10)]
  }

  function IntToDecimal(i: int): string
  {
    if i < 0 then "-" + NatToDecimal(-i) else NatToDecimal(i)
  }

  function DecimalValue(s: string): nat
    requires AllDigits(s)
  {
    if s == [] then 0 else DecimalValue(s[..|s| - 1]) * 10 + DigitValue(s[|s| - 1])
  }

  const MessageIdMarker: string := ":message_id"
  const ChatIdMarker: string := ":chat_id"

  /** The token for assistant id `id` in chat `chatId`. */
  function ControlToken(id: int, chatId: string): string
  {
    IntToDecimal(id) + MessageIdMarker + chatId + ChatIdMarker
  }

  /** Length of the run of digits that opens `s`. */
  function DigitRun(s: string): (n: nat)
    ensures n <= |s| && AllDigits(s[..n])
    ensures n < |s| ==> !IsDigit(s[n])
  {
    if s == [] || !IsDigit(s[0]) then 0
    else
      var n := 1 + DigitRun(s[1..]);
      assert s[..n] == [s[0]] + s[1..][..n - 1];
      n
  }

  /** The unsigned part of a token: digits, the id marker, the chat id and
      the chat-id marker. */
  function ParseUnsigned(body: string): Option<(nat, string)>
  {
    var n := DigitRun(body);
    var rest := body[n..];
    if n == 0 || |rest| < |MessageIdMarker| + |ChatIdMarker|
       || rest[..|MessageIdMarker|] != MessageIdMarker
       || rest[|rest| - |ChatIdMarker|..] != ChatIdMarker
    then None
    else Some((DecimalValue(body[..n]), rest[|MessageIdMarker|..|rest| - |ChatIdMarker|]))
  }

  /** What a client reads back from a token: the id and the chat id. */
  function ParseControlToken(s: string): Option<(int, string)>
  {
    if |s| > 0 && s[0] == '-' then
      match ParseUnsigned(s[1..])
      case None => None
      case Some((v, chatId)) => Some((0 - v, chatId))
    else
      match ParseUnsigned(s)
      case None => None
      case Some((v, chatId)) => Some((v, chatId))
  }

  // ---------------------------------------------------------------------
  // Properties

  lemma {:induction false} NatToDecimalValue(n: nat)
    ensures DecimalValue(NatToDecimal(n)) == n
    decreases n
  {
    if n >= 10 {
      var s := NatToDecimal(n);
      assert s[..|s| - 1] == NatToDecimal(n / 10);
      NatToDecimalValue(n / 10);
    } else {
      assert NatToDecimal(n)[..0] == [];
    }
  }

  lemma {:induction false} DigitRunOfDigits(d: string, rest: string)
    requires AllDigits(d)
    requires rest == [] || !IsDigit(rest[0])
    ensures DigitRun(d + rest) == |d|
    decreases |d|
  {
    if d == [] {
      assert d + rest == rest;
    } else {
      assert (d + rest)[1..] == d[1..] + rest;
      DigitRunOfDigits(d[1..], rest);
    }
  }

  lemma ParseUnsignedRoundTrip(n: nat, chatId: string)
    ensures ParseUnsigned(NatToDecimal(n) + MessageIdMarker + chatId + ChatIdMarker) == Some((n, chatId))
  {
    var d := NatToDecimal(n);
    var rest := MessageIdMarker + chatId + ChatIdMarker;
    var body := d + rest;
    assert body == NatToDecimal(n) + MessageIdMarker + chatId + ChatIdMarker;
    DigitRunOfDigits(d, rest);
    assert body[..|d|] == d;
    assert body[|d|..] == rest;
    NatToDecimalValue(n);
    assert rest[..|MessageIdMarker|] == MessageIdMarker;
    assert rest[|rest| - |ChatIdMarker|..] == ChatIdMarker;
    assert rest[|MessageIdMarker|..|rest| - |ChatIdMarker|] == chatId;
  }

  lemma NonNegativeTokenParses(n: nat, chatId: string)
    ensures ParseControlToken(NatToDecimal(n) + MessageIdMarker + chatId + ChatIdMarker) == Some((n, chatId))
  {
    var s := NatToDecimal(n) + MessageIdMarker + chatId + ChatIdMarker;
    assert s[0] == NatToDecimal(n)[0];
    assert s[0] != '-';
    ParseUnsignedRoundTrip(n, chatId);
  }

  lemma NegativeTokenParses(n: nat, chatId: string)
    ensures ParseControlToken("-" + NatToDecimal(n) + MessageIdMarker + chatId + ChatIdMarker) == Some((0 - n, chatId))
  {
    var body := NatToDecimal(n) + MessageIdMarker + chatId + ChatIdMarker;
    var s := "-" + NatToDecimal(n) + MessageIdMarker + chatId + ChatIdMarker;
    assert s == "-" + body;
    assert |s| > 0 && s[0] == '-' && s[1..] == body;
    ParseUnsignedRoundTrip(n, chatId);
  }

  /** Every token reads back as the id and chat id it was built from,
      whatever the chat id holds. */
  lemma ControlTokenRoundTrip(id: int, chatId: string)
    ensures ParseControlToken(ControlToken(id, chatId)) == Some((id, chatId))
  {
    if id < 0 {
      NegativeTokenParses(-id, chatId);
    } else {
      NonNegativeTokenParses(id, chatId);
    }
  }
}

/** The few pieces of Java string behaviour the core relies on. */
module Text {

  /** The decimal digit character for `d`. */
  function Digit(d: nat): (c: char)
    requires d < 10
    ensures '0' <= c <= '9'
    ensures DigitValue(c) == d
  {
    ('0' as int + d) as char
  }

  /** The value of a decimal digit character. */
  function DigitValue(c: char): (d: int)
  {
    c as int - '0' as int
  }

  /** Reading a string of digits as a decimal number, most significant digit first. */
  function DecimalValue(s: string): (v: int)
    decreases |s|
  {
    if |s| == 0 then 0 else 10 * DecimalValue(s[..|s| - 1]) + DigitValue(s[|s| - 1])
  }

  /** Reading a `Long.toString` result back: an optional minus sign, then digits. */
  function ParseLong(s: string): (v: int)
  {
    if |s| > 0 && s[0] == '-' then -DecimalValue(s[1..]) else DecimalValue(s)
  }

  /** `Long.toString` of a non-negative number: its decimal digits, without leading zeros. */
  function NatToDecimal(n: nat): (s: string)
    ensures 1 <= |s|
    ensures forall i :: 0 <= i < |s| ==> '0' <= s[i] <= '9'
    ensures DecimalValue(s) == n
    ensures (n < 10) == (|s| == 1)
    ensures |s| > 1 ==> s[0] != '0'
    decreases n
  {
    if n < 10 then
      assert [Digit(n)][..0] == [];
      [Digit(n)]
    else
      var prefix := NatToDecimal(n / 10);
      assert (prefix + [Digit(n % 10)])[..|prefix|] == prefix;
      prefix + [Digit(n % 10)]
  }

  /** `Long.toString`: the decimal digits without leading zeros, after a minus sign
      for a negative number. */
  function LongToString(x: int): (s: string)
    ensures 1 <= |s|
    ensures (s[0] == '-') == (x < 0)
    ensures x >= 0 ==> DecimalValue(s) == x
    ensures x < 0 ==> DecimalValue(s[1..]) == -x
    ensures ParseLong(s) == x
    ensures var d := if x < 0 then s[1..] else s;
      && 1 <= |d| && (forall i :: 0 <= i < |d| ==> '0' <= d[i] <= '9')
      && (|d| > 1 ==> d[0] != '0')
  {
    if x < 0 then
      var digits := NatToDecimal(-x);
      assert ("-" + digits)[1..] == digits;
      "-" + digits
    else NatToDecimal(x)
  }

  /** Different numbers print differently, so a printed id names one record. */
  lemma {:induction false} NatToDecimalInjective(a: nat, b: nat)
    requires NatToDecimal(a) == NatToDecimal(b)
    ensures a == b
    decreases a
  {
    var sa, sb := NatToDecimal(a), NatToDecimal(b);
    if a >= 10 {
      assert |sb| > 1;
      assert sa[..|sa| - 1] == NatToDecimal(a / 10);
      assert sb[..|sb| - 1] == NatToDecimal(b / 10);
      NatToDecimalInjective(a / 10, b / 10);
    }
  }

  lemma LongToStringInjective(a: int, b: int)
    requires LongToString(a) == LongToString(b)
    ensures a == b
  {
    if a < 0 {
      assert NatToDecimal(-a) == LongToString(a)[1..];
      assert NatToDecimal(-b) == LongToString(b)[1..];
      NatToDecimalInjective(-a, -b);
    } else {
      NatToDecimalInjective(a, b);
    }
  }

  /** The message of the not-found error thrown by every `getById`:
      "<entity> with id: <id> does not exist". The text between the entity name
      and the fixed ending reads back as the id. */
  function NotFoundMessage(entity: string, id: int): (r: string)
    ensures |r| == |entity| + 10 + |LongToString(id)| + 15
    ensures r[..|entity|] == entity
    ensures r[|entity|..|entity| + 10] == " with id: "
    ensures r[|r| - 15..] == " does not exist"
    ensures r[|entity| + 10..|r| - 15] == LongToString(id)
    ensures ParseLong(r[|entity| + 10..|r| - 15]) == id
  {
    var printed := LongToString(id);
    var r := entity + " with id: " + printed + " does not exist";
    assert r[|entity| + 10..|r| - 15] == printed;
    r
  }

  /** The message carries the id: two lookups of the same entity kind that fail
      with the same message failed for the same id. */
  lemma NotFoundMessageDeterminesId(entity: string, a: int, b: int)
    requires NotFoundMessage(entity, a) == NotFoundMessage(entity, b)
    ensures a == b
  {
    var prefix, suffix := entity + " with id: ", " does not exist";
    var ma, mb := NotFoundMessage(entity, a), NotFoundMessage(entity, b);
    assert ma == prefix + LongToString(a) + suffix;
    assert mb == prefix + LongToString(b) + suffix;
    assert |LongToString(a)| == |LongToString(b)|;
    assert LongToString(a) == ma[|prefix|..|ma| - |suffix|];
    assert LongToString(b) == mb[|prefix|..|mb| - |suffix|];
    LongToStringInjective(a, b);
  }

  lemma MessageCharInEntity(entity: string, id: int, i: nat)
    requires i < |entity|
    ensures NotFoundMessage(entity, id)[i] == entity[i]
  {
    var m := NotFoundMessage(entity, id);
    assert m[i] == m[..|entity|][i];
  }

  lemma MessageCharAfterEntity(entity: string, id: int, i: nat)
    requires i < 10
    ensures NotFoundMessage(entity, id)[|entity| + i] == " with id: "[i]
  {
    var m := NotFoundMessage(entity, id);
    assert m[|entity| + i] == m[|entity|..|entity| + 10][i];
  }

  /** A failed channel lookup and a failed notification lookup can never be
      confused: their messages differ whatever the two ids are. */
  lemma ChannelAndNotificationMessagesDiffer(a: int, b: int)
    ensures NotFoundMessage("NotificationChannel", a) != NotFoundMessage("Notification", b)
  {
    var channel, notification := "NotificationChannel", "Notification";
    assert |notification| == 12 && channel[12] == 'C';
    MessageCharInEntity(channel, a, 12);
    MessageCharAfterEntity(notification, b, 0);
    assert NotFoundMessage(channel, a)[12] != NotFoundMessage(notification, b)[12];
  }

  /** Drops the leading characters up to U+0020: what is left is a suffix of `s`
      that is empty or starts with a character above U+0020. */
  function TrimStart(s: string): (r: string)
    ensures |r| <= |s| && r == s[|s| - |r|..]
    ensures forall i :: 0 <= i < |s| - |r| ==> s[i] <= ' '
    ensures |r| > 0 ==> r[0] > ' '
    decreases |s|
  {
    if |s| > 0 && s[0] <= ' ' then TrimStart(s[1..]) else s
  }

  /** Drops the trailing characters up to U+0020: what is left is a prefix of `s`
      that is empty or ends with a character above U+0020. */
  function TrimEnd(s: string): (r: string)
    ensures |r| <= |s| && r == s[..|r|]
    ensures forall i :: |r| <= i < |s| ==> s[i] <= ' '
    ensures |r| > 0 ==> r[|r| - 1] > ' '
    decreases |s|
  {
    if |s| > 0 && s[|s| - 1] <= ' ' then TrimEnd(s[..|s| - 1]) else s
  }

  /** `String.trim`: the slice of `s` left once the characters up to U+0020 are
      dropped from both ends. It is empty exactly when every character is at most
      U+0020, and otherwise starts and ends with a character above U+0020. */
  function Trim(s: string): (r: string)
    ensures |r| <= |s|
    ensures |r| == 0 <==> forall i :: 0 <= i < |s| ==> s[i] <= ' '
    ensures |r| > 0 ==> r[0] > ' ' && r[|r| - 1] > ' '
    ensures exists i, j :: TrimmedAt(s, i, j) && r == s[i..j]
  {
    var t := TrimStart(s);
    var r := TrimEnd(t);
    TrimIsSlice(s, t, r);
    assert TrimmedAt(s, |s| - |t|, |s| - |t| + |r|);
    r
  }

  /** A prefix `r` of a suffix `t` of `s` is the slice of `s` between them, and what
      the two steps dropped is what lies outside that slice. */
  lemma TrimIsSlice(s: string, t: string, r: string)
    requires |t| <= |s| && t == s[|s| - |t|..]
    requires forall k :: 0 <= k < |s| - |t| ==> s[k] <= ' '
    requires |r| <= |t| && r == t[..|r|]
    requires forall k :: |r| <= k < |t| ==> t[k] <= ' '
    ensures TrimmedAt(s, |s| - |t|, |s| - |t| + |r|) && r == s[|s| - |t|..|s| - |t| + |r|]
  {
    var i, j := |s| - |t|, |s| - |t| + |r|;
    forall k | j <= k < |s| ensures s[k] <= ' ' {
      assert s[k] == t[k - i];
    }
  }

  /** `s[i..j]` is what is left of `s` once characters up to U+0020 are dropped from
      both ends: everything before `i` and from `j` on is at most U+0020. */
  ghost predicate TrimmedAt(s: string, i: int, j: int)
  {
    && 0 <= i <= j <= |s|
    && (forall k :: 0 <= k < i ==> s[k] <= ' ')
    && (forall k :: j <= k < |s| ==> s[k] <= ' ')
  }

  /** Bean Validation's `@NotBlank` on a present string: something is left after
      trimming, that is, some character is above U+0020. */
  predicate NotBlank(s: string)
    ensures NotBlank(s) <==> exists i :: 0 <= i < |s| && s[i] > ' '
  {
    |Trim(s)| > 0
  }
}

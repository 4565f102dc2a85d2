/**
 * String helpers (src/utils.cpp): left-justified padding of the
 * information-set key, std::to_string for the small counts the game writes,
 * and the collection of distinct card-combination prefixes of keys.
 */
module Utils {

  /** n blanks. */
  function Spaces(n: nat): (r: string)
    ensures |r| == n && forall i :: 0 <= i < n ==> r[i] == ' '
  {
    if n == 0 then "" else Spaces(n - 1) + " "
  }

  /**
   * pad_string: the stream writes s left-justified in a field of width n
   * filled with blanks; a string already as wide as the field is written
   * unchanged and never cut.
   */
  function PadString(s: string, n: int): (r: string)
    ensures |r| == (if n > |s| then n else |s|)
    ensures r[..|s|] == s
    ensures forall i :: |s| <= i < |r| ==> r[i] == ' '
  {
    if |s| >= n then s else s + Spaces(n - |s|)
  }

  /** Padding a padded string to the same width changes nothing. */
  lemma PadIdempotent(s: string, n: int)
    ensures PadString(PadString(s, n), n) == PadString(s, n)
  {
  }

  /** The character of a decimal digit. */
  function DigitChar(d: int): (c: char)
    requires 0 <= d < 10
    ensures '0' <= c <= '9'
  {
    ('0' as int + d) as char
  }

  /** std::to_string of a non-negative int: its decimal digits, most significant first, no leading zero. */
  function DecimalString(n: nat): (s: string)
    ensures |s| >= 1 && forall i :: 0 <= i < |s| ==> '0' <= s[i] <= '9'
    ensures |s| > 1 ==> s[0] != '0'
    ensures n < 10 <==> |s| == 1
  {
    if n < 10 then [DigitChar(n)] else DecimalString(n / 10) + [DigitChar(n % 10)]
  }

  /** The number a string of decimal digits denotes. */
  function ParseDecimal(s: string): nat
    requires forall i :: 0 <= i < |s| ==> '0' <= s[i] <= '9'
  {
    if s == [] then 0 else 10 * ParseDecimal(s[..|s| - 1]) + (s[|s| - 1] as int - '0' as int)
  }

  /** Reading back the digits std::to_string writes gives the number. */
  lemma {:induction false} DecimalRoundTrip(n: nat)
    ensures ParseDecimal(DecimalString(n)) == n
  {
    var s := DecimalString(n);
    if n >= 10 {
      DecimalRoundTrip(n / 10);
      assert s[..|s| - 1] == DecimalString(n / 10);
    }
  }

  /** Distinct numbers are written as distinct strings. */
  lemma DecimalInjective(m: nat, n: nat)
    requires DecimalString(m) == DecimalString(n)
    ensures m == n
  {
    DecimalRoundTrip(m);
    DecimalRoundTrip(n);
  }

  /** The position of the first occurrence of c in s (std::string::find), -1 when absent. */
  function FindFirst(s: string, c: char): (r: int)
    ensures -1 <= r < |s|
    ensures r == -1 <==> c !in s
    ensures r >= 0 ==> s[r] == c && c !in s[..r]
  {
    if s == [] then -1
    else if s[0] == c then 0
    else
      var k := FindFirst(s[1..], c);
      assert s[1..] == s[1..|s|];
      if k == -1 then (assert s == [s[0]] + s[1..]; -1)
      else (assert s[..k + 1] == [s[0]] + s[1..][..k]; k + 1)
  }

  /** No string occurs twice in the list. */
  predicate NoDuplicates(keys: seq<string>)
  {
    forall i, j :: 0 <= i < j < |keys| ==> keys[i] != keys[j]
  }

  /**
   * store_card_combination_key: when the key holds a '-', the part before
   * the first '-' is appended to the list unless the list already has it.
   * The vector the source takes by reference is passed in and returned.
   */
  method StoreCardCombinationKey(key: string, keys: seq<string>) returns (result: seq<string>)
    ensures '-' !in key ==> result == keys
    ensures '-' in key ==> var k := key[..FindFirst(key, '-')];
      '-' !in k && result == (if k in keys then keys else keys + [k])
    ensures NoDuplicates(keys) ==> NoDuplicates(result)
    ensures forall k :: k in result <==> k in keys || ('-' in key && k == key[..FindFirst(key, '-')])
  {
    var pos := FindFirst(key, '-');
    result := keys;
    if pos != -1 {
      var k := key[..pos];
      if k !in keys {
        result := keys + [k];
      }
    }
  }
}

/** Lock-key construction (internal/core/deps.go, internal/transfer/send.go). */
module LockKeys {
  import opened Common

  /** Chain identifiers are Go int64 values. */
  type ChainId = n: int | INT64_MIN <= n <= INT64_MAX

  predicate IsDigit(c: char) { '0' <= c <= '9' }

  predicate IsHexDigit(c: char) { IsDigit(c) || 'a' <= c <= 'f' || 'A' <= c <= 'F' }

  /** The shape of common.Address.Hex() and common.Hash.Hex(): "0x" and n hex digits of either case. */
  predicate IsHex(s: string, n: nat) {
    |s| == n + 2 && s[..2] == "0x" && forall i :: 2 <= i < |s| ==> IsHexDigit(s[i])
  }

  predicate IsAddress(s: string) { IsHex(s, 40) }

  function Digit(d: nat): (c: char)
    requires d < 10
    ensures IsDigit(c)
  {
    '0' + d as char
  }

  function DigitValue(c: char): (d: nat)
    requires IsDigit(c)
    ensures d < 10 && Digit(d) == c
  {
    (c - '0') as nat
  }

  /** strconv.FormatUint in base 10. */
  function FormatNat(n: nat): (s: string)
    ensures s != [] && forall i :: 0 <= i < |s| ==> IsDigit(s[i])
  {
    if n < 10 then [Digit(n)] else FormatNat(n / 10) + [Digit(n % 10)]
  }

  /** strconv.FormatInt in base 10. */
  function FormatInt(n: int): (s: string)
    ensures s != [] && forall i :: 0 <= i < |s| ==> IsDigit(s[i]) || s[i] == '-'
  {
    if n < 0 then "-" + FormatNat(-n) else FormatNat(n)
  }

  function ParseNat(s: string): nat
    requires forall i :: 0 <= i < |s| ==> IsDigit(s[i])
  {
    if s == [] then 0 else 10 * ParseNat(s[..|s| - 1]) + DigitValue(s[|s| - 1])
  }

  lemma {:induction false} ParseFormatNat(n: nat)
    ensures ParseNat(FormatNat(n)) == n
  {
    if n < 10 {
    } else {
      ParseFormatNat(n / 10);
      assert FormatNat(n)[..|FormatNat(n)| - 1] == FormatNat(n / 10);
    }
  }

  /** Decimal texts are read and written with the usual digits, the character '0' having code 48. */
  lemma DecimalDigits(s: string, c: char, n: nat)
    requires (forall i :: 0 <= i < |s| ==> IsDigit(s[i])) && IsDigit(c)
    ensures ParseNat(s + [c]) == 10 * ParseNat(s) + (c as int - 48) && ParseNat("") == 0
    ensures n < 10 ==> FormatNat(n) == [(48 + n) as char]
    ensures n >= 10 ==> FormatNat(n) == FormatNat(n / 10) + [(48 + n % 10) as char]
  {
    assert (s + [c])[..|s|] == s;
  }

  /** Decimal rendering loses nothing. */
  lemma FormatIntInjective(a: int, b: int)
    requires FormatInt(a) == FormatInt(b)
    ensures a == b
  {
    var s := FormatInt(a);
    assert a < 0 ==> s[0] == '-' && s[1..] == FormatNat(-a);
    assert b < 0 ==> s[0] == '-' && s[1..] == FormatNat(-b);
    ParseFormatNat(if a < 0 then -a else a);
    ParseFormatNat(if b < 0 then -b else b);
  }

  /** core.NonceLockKey. */
  function WalletKey(chain: ChainId, address: string): string {
    "nonce:" + FormatInt(chain) + ":" + address
  }

  /** The key of sendViaAccount. */
  function AccountKey(chain: ChainId, address: string): string {
    "nonce:" + FormatInt(chain) + ":account:" + address
  }

  /** A text is split in only one way by its first colon. */
  lemma FirstColon(a: string, b: string, x: string, y: string)
    requires ':' !in a && ':' !in b
    requires a + ":" + x == b + ":" + y
    ensures a == b && x == y
  {
    var s := a + ":" + x;
    assert s[|a|] == ':' && s[|b|] == ':';
    assert a == s[..|a|] && b == s[..|b|];
    assert x == s[|a| + 1..] && y == s[|b| + 1..];
  }

  /** How the keys look. */
  lemma KeyTexts(a: string)
    ensures WalletKey(43113, a) == "nonce:43113:" + a
    ensures AccountKey(43113, a) == "nonce:43113:account:" + a
  {
    assert FormatNat(43113) == "43113" by {
      assert FormatNat(4) == "4" && FormatNat(43) == "43" && FormatNat(431) == "431" && FormatNat(4311) == "4311";
    }
    assert "nonce:" + "43113" + ":" == "nonce:43113:";
    assert "nonce:" + "43113" + ":account:" == "nonce:43113:account:";
  }

  lemma AfterPrefix(chain: ChainId, rest: string)
    ensures ("nonce:" + FormatInt(chain) + ":" + rest)[6..] == FormatInt(chain) + ":" + rest
    ensures ':' !in FormatInt(chain)
  {
  }

  /** Distinct (chain, address) pairs never share a wallet lock, whatever the address texts are. */
  lemma WalletKeyInjective(c: ChainId, a: string, d: ChainId, b: string)
    ensures WalletKey(c, a) == WalletKey(d, b) <==> c == d && a == b
  {
    if WalletKey(c, a) == WalletKey(d, b) {
      AfterPrefix(c, a);
      AfterPrefix(d, b);
      FirstColon(FormatInt(c), FormatInt(d), a, b);
      FormatIntInjective(c, d);
    }
  }

  /** Distinct (chain, account) pairs never share an account lock. */
  lemma AccountKeyInjective(c: ChainId, a: string, d: ChainId, b: string)
    ensures AccountKey(c, a) == AccountKey(d, b) <==> c == d && a == b
  {
    AccountKeyIsWalletKey(c, a);
    AccountKeyIsWalletKey(d, b);
    WalletKeyInjective(c, "account:" + a, d, "account:" + b);
    if "account:" + a == "account:" + b {
      assert a == ("account:" + a)[8..] && b == ("account:" + b)[8..];
    }
  }

  lemma AccountKeyIsWalletKey(c: ChainId, a: string)
    ensures AccountKey(c, a) == WalletKey(c, "account:" + a)
  {
    assert ":account:" == ":" + "account:";
  }

  /**
   * An account lock aliases the wallet lock of (d, b) exactly when d is the same chain and b is
   * the text "account:" followed by the account; no address has that shape.
   */
  lemma NamespacesDisjoint(c: ChainId, a: string, d: ChainId, b: string)
    ensures AccountKey(c, a) == WalletKey(d, b) <==> c == d && b == "account:" + a
    ensures IsAddress(b) ==> AccountKey(c, a) != WalletKey(d, b)
  {
    AccountKeyIsWalletKey(c, a);
    WalletKeyInjective(c, "account:" + a, d, b);
    assert ("account:" + a)[0] == 'a';
    assert IsAddress(b) ==> b[..2][0] == '0';
  }
}

/** Classification of failures (internal/platform/txerror/txerror.go). */
module TxError {
  import opened LockKeys

  // ---------- Text ----------

  function LowerChar(c: char): char {
    if 'A' <= c <= 'Z' then c - 'A' + 'a' else c
  }

  /** strings.ToLower on ASCII text. */
  function Lower(s: string): (r: string)
    ensures |r| == |s| && forall i :: 0 <= i < |s| ==> r[i] == LowerChar(s[i])
  {
    seq(|s|, i requires 0 <= i < |s| => LowerChar(s[i]))
  }

  predicate At(s: string, part: string, i: nat) { i + |part| <= |s| && s[i..i + |part|] == part }

  /** strings.Contains. */
  predicate Contains(s: string, part: string) { exists i :: 0 <= i <= |s| && At(s, part, i) }

  function FirstNonEmpty(a: string, b: string): string { if a != "" then a else b }

  /** A word character of \b. */
  predicate IsWord(c: char) { IsDigit(c) || 'a' <= c <= 'z' || 'A' <= c <= 'Z' || c == '_' }

  /** A match of \b(AC0\d{2}|EP0\d{2}|PM0\d{2})\b at position i. */
  predicate CodeAt(s: string, i: nat) {
    && i + 5 <= |s|
    && ((s[i] == 'A' && s[i + 1] == 'C') || (s[i] == 'E' && s[i + 1] == 'P') || (s[i] == 'P' && s[i + 1] == 'M'))
    && s[i + 2] == '0' && IsDigit(s[i + 3]) && IsDigit(s[i + 4])
    && (i > 0 ==> !IsWord(s[i - 1]))
    && (i + 5 < |s| ==> !IsWord(s[i + 5]))
  }

  /** The leftmost match from position i on; "" if there is none. */
  function FindCode(s: string, i: nat): (code: string)
    ensures code == "" <==> forall k :: i <= k < |s| ==> !CodeAt(s, k)
    ensures code != "" ==> exists k :: i <= k && CodeAt(s, k) && code == s[k..k + 5] &&
                                       forall j :: i <= j < k ==> !CodeAt(s, j)
    decreases |s| - i
  {
    if i >= |s| then ""
    else if CodeAt(s, i) then s[i..i + 5]
    else FindCode(s, i + 1)
  }

  // ---------- Classification ----------

  datatype Category = Revert | InsufficientFunds | Nonce | Network | Timeout | Server | Unknown

  /** An error, with the revert reason and the JSON-RPC code that could be extracted from it. */
  datatype Failure = Failure(msg: string, reason: string, rpcCode: int)

  datatype Normalized = Normalized(
    status: nat, category: Category, code: string, nativeCode: string,
    reason: string, rpcCode: int, retryable: bool, message: string)

  const REVERT_MESSAGES: map<string, string> := map[
    "AC001" := "caller is not EntryPoint",
    "AC004" := "target call failed",
    "AC005" := "native transfer failed",
    "AC006" := "beneficiary not set",
    "AC007" := "insufficient ERC20 balance",
    "AC008" := "ERC20 transfer failed",
    "AC009" := "forwarding disabled",
    "AC010" := "signature verification failed",
    "EP001" := "insufficient deposit",
    "EP003" := "insufficient gas balance",
    "EP011" := "account not deployed",
    "PM006" := "insufficient token balance",
    "PM007" := "insufficient token allowance"
  ]

  function ExtractRevertCode(reason: string, msg: string): string {
    if reason in REVERT_MESSAGES then reason
    else if FindCode(reason, 0) != "" then FindCode(reason, 0)
    else FindCode(msg, 0)
  }

  function Normalize(e: Failure): Normalized {
    var revertCode := ExtractRevertCode(e.reason, e.msg);
    var base := FirstNonEmpty(e.reason, e.msg);
    var low := Lower(e.msg + " " + e.reason);
    if revertCode != "" || Contains(low, "execution reverted") then
      Normalized(422, Revert, if revertCode == "" then "CALL_EXCEPTION" else revertCode, "CALL_EXCEPTION",
                 FirstNonEmpty(e.reason, revertCode), e.rpcCode, false,
                 if revertCode in REVERT_MESSAGES then REVERT_MESSAGES[revertCode] else base)
    else if Contains(low, "insufficient funds") then
      Normalized(422, InsufficientFunds, "INSUFFICIENT_FUNDS", "", "", e.rpcCode, false, base)
    else if Contains(low, "nonce") || Contains(low, "replacement transaction underpriced") then
      Normalized(409, Nonce, "BUNDLER_NONCE_CONFLICT", "", "", e.rpcCode, true, base)
    else if Contains(low, "timeout") || Contains(low, "deadline exceeded") then
      Normalized(503, Timeout, "RPC_TIMEOUT", "", "", e.rpcCode, true, base)
    else if Contains(low, "connection refused") || Contains(low, "connection reset") ||
            Contains(low, "no such host") || Contains(low, "eof") then
      Normalized(503, Network, "RPC_NETWORK_ERROR", "", "", e.rpcCode, true, base)
    else if -32099 <= e.rpcCode <= -32000 then
      Normalized(503, Server, "RPC_SERVER_ERROR", "", "", e.rpcCode, true, base)
    else Normalized(500, Unknown, "BUNDLER_SEND_FAILED", "", "", e.rpcCode, true, base)
  }

  /** split.isNonceErr. */
  predicate IsNonceErr(msg: string) { Contains(Lower(msg), "efs024") || Contains(Lower(msg), "nonce") }

  // ---------- What embedded identifiers can and cannot trigger ----------

  lemma AbsentChar(s: string, part: string, k: nat)
    requires k < |part| && part[k] !in s
    ensures !Contains(s, part)
  {
    forall i | 0 <= i <= |s|
      ensures !At(s, part, i)
    {
      if i + |part| <= |s| {
        assert s[i..i + |part|][k] == s[i + k];
      }
    }
  }

  /** No revert code starts in this text: it has none of the letters A, E and P. */
  predicate NoCodeLetter(s: string) { forall i :: 0 <= i < |s| ==> s[i] != 'A' && s[i] != 'E' && s[i] != 'P' }

  /**
   * A hex identifier is one word that starts with 0x: whatever the text around it, no revert code starts
   * inside it, and the codes before and after it are found exactly as if it were just "0x".
   */
  lemma HexHidesCodes(before: string, hex: string, n: nat, after: string)
    requires IsHex(hex, n)
    ensures forall k :: |before| <= k < |before| + |hex| ==> !CodeAt(before + hex + after, k)
    ensures FindCode(before + hex + after, 0) == "" <==>
      FindCode(before + "0x", 0) == "" && FindCode("0x" + after, 0) == ""
  {
    var s, b, a := before + hex + after, before + "0x", "0x" + after;
    forall k | |before| <= k < |before| + |hex|
      ensures !CodeAt(s, k)
    {
      CodeInHex(before, hex, n, after, k);
    }
    forall k | 0 <= k < |b|
      ensures CodeAt(b, k) ==> k < |before| && CodeAt(s, k)
    {
      CodeBeforeHex(before, hex, n, after, k);
    }
    forall k | 0 <= k < |a|
      ensures CodeAt(a, k) ==> CodeAt(s, |before| + |hex| - 2 + k)
    {
      CodeAfterHex(before, hex, n, after, k);
    }
    forall k | 0 <= k < |s| && CodeAt(s, k)
      ensures FindCode(b, 0) != "" || FindCode(a, 0) != ""
    {
      if k < |before| {
        CodeBeforeHex(before, hex, n, after, k);
        assert CodeAt(b, k);
      } else {
        var h := k - (|before| + |hex|) + 2;
        assert h >= 0;
        CodeAfterHex(before, hex, n, after, h);
        assert CodeAt(a, h);
      }
    }
  }

  lemma CodeInHex(before: string, hex: string, n: nat, after: string, k: nat)
    requires IsHex(hex, n) && |before| <= k < |before| + |hex|
    ensures !CodeAt(before + hex + after, k)
  {
    var s := before + hex + after;
    var h := k - |before|;
    assert hex[..2][0] == '0' && hex[..2][1] == 'x';
    assert s[k] == hex[h];
    assert h >= 2 ==> s[k - 1] == hex[h - 1];
  }

  lemma CodeBeforeHex(before: string, hex: string, n: nat, after: string, k: nat)
    requires IsHex(hex, n) && k < |before| + 2
    ensures CodeAt(before + "0x", k) <==> k < |before| && CodeAt(before + hex + after, k)
  {
    var s, t := before + hex + after, before + "0x";
    assert hex[..2][0] == '0' && hex[..2][1] == 'x';
    assert s[|before|] == '0' && s[|before| + 1] == 'x' && t[|before|] == '0' && t[|before| + 1] == 'x';
    assert forall i :: 0 <= i < |before| + 2 ==> s[i] == t[i];
  }

  lemma CodeAfterHex(before: string, hex: string, n: nat, after: string, k: nat)
    requires IsHex(hex, n) && k < |after| + 2
    ensures CodeAt("0x" + after, k) <==> k >= 2 && CodeAt(before + hex + after, |before| + |hex| - 2 + k)
  {
    var s, t, d := before + hex + after, "0x" + after, |before| + |hex| - 2;
    assert hex[..2][1] == 'x' && IsWord(hex[|hex| - 1]) && s[d + 1] == hex[|hex| - 1];
    assert t[0] == '0' && t[1] == 'x';
    assert forall i :: 2 <= i < |t| ==> s[d + i] == t[i];
  }

  /** Around a hex identifier, text without these letters has no code. */
  lemma QuietAroundHex(before: string, hex: string, n: nat, after: string)
    requires NoCodeLetter(before) && IsHex(hex, n) && NoCodeLetter(after)
    ensures FindCode(before + hex + after, 0) == ""
  {
    HexHidesCodes(before, hex, n, after);
    assert NoCodeLetter(before + "0x") && NoCodeLetter("0x" + after);
  }

  /** No character of the text is c in either case. */
  predicate Avoids(s: string, c: char) { forall i :: 0 <= i < |s| ==> LowerChar(s[i]) != c }

  lemma AvoidsHex(before: string, hex: string, n: nat, after: string, c: char)
    requires Avoids(before, c) && IsHex(hex, n) && Avoids(after, c) && 'g' <= c <= 'z' && c != 'x'
    ensures c !in Lower(before + hex + after)
  {
    var s := before + hex + after;
    assert hex[..2][0] == '0' && hex[..2][1] == 'x';
    forall i | 0 <= i < |s|
      ensures LowerChar(s[i]) != c
    {
      var h := i - |before|;
      if 2 <= h < |hex| {
        assert IsHexDigit(hex[h]);
      }
    }
  }

  lemma QuietConcat(a: string, b: string)
    ensures NoCodeLetter(a) && NoCodeLetter(b) ==> NoCodeLetter(a + b)
    ensures forall c :: Avoids(a, c) && Avoids(b, c) ==> Avoids(a + b, c)
  {
  }

  lemma Regroup(a: string, b: string, c: string, d: string, e: string)
    ensures a + (b + c + d + e) == a + b + c + d + e
  {
  }

  /** An error whose text extraction found nothing but the message. */
  function Plain(msg: string): Failure { Failure(msg, "", 0) }

  lemma PlainText(msg: string)
    ensures Lower(msg + " " + "") == Lower(msg + " ")
    ensures ExtractRevertCode("", msg) == FindCode(msg, 0)
  {
    assert msg + " " + "" == msg + " ";
  }

  const LOCK_PREFIX := "failed to acquire " + "nonce lock: "

  /** The error of withRedisLock when every attempt found the key taken. */
  function LockFailure(key: string): Failure { Plain(LOCK_PREFIX + key) }

  predicate IsNonceConflict(r: Normalized) {
    r.status == 409 && r.category == Nonce && r.code == "BUNDLER_NONCE_CONFLICT" && r.retryable
  }

  predicate IsTimeout(r: Normalized) {
    r.status == 503 && r.category == Timeout && r.code == "RPC_TIMEOUT" && r.retryable
  }

  /** Text that mentions a nonce before a hex identifier, without s and v, is a nonce conflict. */
  lemma NonceShape(before: string, hex: string, n: nat, at: nat)
    requires NoCodeLetter(before) && Avoids(before, 'v') && Avoids(before, 's') && IsHex(hex, n)
    requires at + 5 <= |before| && before[at..at + 5] == "nonce"
    ensures IsNonceConflict(Normalize(Plain(before + hex)))
  {
    var msg := before + hex;
    var low := Lower(msg + " ");
    PlainText(msg);
    assert msg == before + hex + "" && msg + " " == before + hex + " ";
    QuietAroundHex(before, hex, n, "");
    AvoidsHex(before, hex, n, " ", 'v');
    AvoidsHex(before, hex, n, " ", 's');
    AbsentChar(low, "execution reverted", 12);
    AbsentChar(low, "insufficient funds", 2);
    assert (msg + " ")[at..at + 5] == before[at..at + 5];
    MarksAreLower();
    SliceFound(msg + " ", "nonce", at);
  }

  lemma LockPrefixQuiet()
    ensures NoCodeLetter(LOCK_PREFIX) && Avoids(LOCK_PREFIX, 'v') && Avoids(LOCK_PREFIX, 's')
    ensures |LOCK_PREFIX| == 30 && LOCK_PREFIX[18..23] == "nonce"
  {
    var a, b := "failed to acquire ", "nonce lock: ";
    assert NoCodeLetter(a) && Avoids(a, 'v') && Avoids(a, 's') && |a| == 18;
    assert NoCodeLetter(b) && Avoids(b, 'v') && Avoids(b, 's') && |b| == 12;
    QuietConcat(a, b);
    assert LOCK_PREFIX[18..23] == b[..5] == ['n', 'o', 'n', 'c', 'e'];
  }

  lemma KeyPartsQuiet(chain: ChainId)
    ensures NoCodeLetter("nonce:") && Avoids("nonce:", 'v') && Avoids("nonce:", 's')
    ensures NoCodeLetter(FormatInt(chain)) && Avoids(FormatInt(chain), 'v') && Avoids(FormatInt(chain), 's')
    ensures NoCodeLetter(":") && Avoids(":", 'v') && Avoids(":", 's')
    ensures NoCodeLetter(":account:") && Avoids(":account:", 'v') && Avoids(":account:", 's')
  {
  }

  lemma LockTextQuiet(chain: ChainId, sep: string)
    requires sep == ":" || sep == ":account:"
    ensures var b := LOCK_PREFIX + "nonce:" + FormatInt(chain) + sep;
      && NoCodeLetter(b) && Avoids(b, 'v') && Avoids(b, 's')
      && |b| >= 23 && b[18..23] == "nonce"
  {
    LockPrefixQuiet();
    KeyPartsQuiet(chain);
    QuietConcat(LOCK_PREFIX, "nonce:");
    QuietConcat(LOCK_PREFIX + "nonce:", FormatInt(chain));
    QuietConcat(LOCK_PREFIX + "nonce:" + FormatInt(chain), sep);
    SliceOfPrefix(LOCK_PREFIX, "nonce:", FormatInt(chain), sep, 18, 23);
  }

  lemma SliceOfPrefix(a: string, b: string, c: string, d: string, i: nat, j: nat)
    requires i <= j <= |a|
    ensures (a + b + c + d)[i..j] == a[i..j]
  {
  }

  /** For every chain and address, failing to get the wallet lock or the account lock is a retryable nonce conflict. */
  lemma LockFailureIsNonceConflict(chain: ChainId, address: string)
    requires IsAddress(address)
    ensures IsNonceConflict(Normalize(LockFailure(WalletKey(chain, address))))
    ensures IsNonceConflict(Normalize(LockFailure(AccountKey(chain, address))))
  {
    LockConflictText(chain, address, ":");
    LockConflictText(chain, address, ":account:");
  }

  lemma LockConflictText(chain: ChainId, address: string, sep: string)
    requires IsAddress(address) && (sep == ":" || sep == ":account:")
    ensures IsNonceConflict(Normalize(LockFailure("nonce:" + FormatInt(chain) + sep + address)))
  {
    LockTextQuiet(chain, sep);
    NonceShape(LOCK_PREFIX + "nonce:" + FormatInt(chain) + sep, address, 40, 18);
    Regroup(LOCK_PREFIX, "nonce:", FormatInt(chain), sep, address);
  }

  // The errors of a mining wait that ran out: bind.WaitMined in onchainSubmit, and evm.WaitReceipt.
  const WAIT_PREFIX := "tx.wait (txHash "
  const WAIT_SUFFIX := "): context " + "deadline exceeded"
  const RECEIPT_PREFIX := "tx.wait timeout: "

  function MiningDeadline(hash: string): Failure { Plain(WAIT_PREFIX + hash + WAIT_SUFFIX) }

  function ReceiptTimeout(hash: string): Failure { Plain(RECEIPT_PREFIX + hash) }

  lemma NoNonce(s: string)
    requires forall i :: 0 <= i < |s| - 1 && s[i] == 'n' ==> s[i + 1] != 'o'
    ensures !Contains(s, "nonce")
  {
    forall i | 0 <= i <= |s|
      ensures !At(s, "nonce", i)
    {
      if i + 5 <= |s| {
        assert s[i..i + 5][0] == s[i] && s[i..i + 5][1] == s[i + 1];
      }
    }
  }

  /** No "no" in either case. */
  predicate NoNo(s: string) {
    forall i :: 0 <= i < |s| - 1 && LowerChar(s[i]) == 'n' ==> LowerChar(s[i + 1]) != 'o'
  }

  lemma NonceFree(before: string, hash: string, after: string)
    requires IsHex(hash, 64) && Avoids(before, 'n') && NoNo(after)
    ensures !Contains(Lower(before + hash + after), "nonce")
  {
    var s := before + hash + after;
    var low := Lower(s);
    assert hash[..2][0] == '0' && hash[..2][1] == 'x';
    forall i | 0 <= i < |low| - 1
      ensures !(low[i] == 'n' && low[i + 1] == 'o')
    {
      var a := i - |before| - |hash|;
      if a >= 0 {
        assert s[i] == after[a] && s[i + 1] == after[a + 1];
      } else if i >= |before| {
        assert s[i] == hash[i - |before|];
      } else {
        assert s[i] == before[i];
      }
    }
    NoNonce(low);
  }

  /** What both wait messages have in common; c is a letter of "insufficient funds" that the text lacks. */
  ghost predicate WaitText(before: string, after: string, c: char) {
    && NoCodeLetter(before) && NoCodeLetter(after)
    && Avoids(before, 'v') && Avoids(after, 'v') && Avoids(before, 'r') && Avoids(after, 'r')
    && Avoids(before, c) && Avoids(after, c) && (c == 's' || c == 'u')
    && Avoids(before, 'n') && NoNo(after)
  }

  lemma WaitShape(before: string, hash: string, after: string, c: char, mark: string, at: nat)
    requires WaitText(before, after + " ", c) && NoCodeLetter(after) && IsHex(hash, 64)
    requires mark == "timeout" || mark == "deadline exceeded"
    requires At(Lower(before + hash + (after + " ")), mark, at)
    ensures IsTimeout(Normalize(Plain(before + hash + after)))
  {
    var msg := before + hash + after;
    var low := Lower(msg + " ");
    PlainText(msg);
    QuietAroundHex(before, hash, 64, after);
    assert msg + " " == before + hash + (after + " ");
    AvoidsHex(before, hash, 64, after + " ", 'v');
    AvoidsHex(before, hash, 64, after + " ", 'r');
    AvoidsHex(before, hash, 64, after + " ", c);
    AbsentChar(low, "execution reverted", 12);
    AbsentChar(low, "replacement transaction underpriced", 0);
    AbsentChar(low, "insufficient funds", if c == 's' then 2 else 3);
    NonceFree(before, hash, after + " ");
  }

  lemma WaitTextQuiet()
    ensures WaitText(WAIT_PREFIX, WAIT_SUFFIX + " ", 'u') && NoCodeLetter(WAIT_SUFFIX)
    ensures |WAIT_SUFFIX| == 28 && WAIT_SUFFIX[11..28] == "deadline exceeded"
  {
    var a, b := "): context ", "deadline exceeded";
    WaitPrefixQuiet();
    ContextQuiet();
    DeadlineQuiet();
    DeadlineNoNo();
    QuietConcat(a, b);
    QuietConcat(WAIT_SUFFIX, " ");
    NoNoConcat(a, b);
    NoNoConcat(WAIT_SUFFIX, " ");
  }

  lemma WaitPrefixQuiet()
    ensures var p := WAIT_PREFIX;
      NoCodeLetter(p) && Avoids(p, 'v') && Avoids(p, 'r') && Avoids(p, 'u') && Avoids(p, 'n')
  {
  }

  lemma ContextQuiet()
    ensures var a := "): context ";
      |a| == 11 && a[10] == ' ' && NoCodeLetter(a) && Avoids(a, 'v') && Avoids(a, 'r') && Avoids(a, 'u') && NoNo(a)
  {
  }

  lemma DeadlineQuiet()
    ensures var b := "deadline exceeded";
      |b| == 17 && b[16] == 'd' && NoCodeLetter(b) && Avoids(b, 'v') && Avoids(b, 'r') && Avoids(b, 'u')
  {
  }

  lemma DeadlineNoNo()
    ensures NoNo("deadline exceeded")
  {
  }

  lemma NoNoConcat(a: string, b: string)
    requires NoNo(a) && NoNo(b) && a != "" && LowerChar(a[|a| - 1]) != 'n'
    ensures NoNo(a + b)
  {
    var s := a + b;
    forall i | 0 <= i < |s| - 1 && LowerChar(s[i]) == 'n'
      ensures LowerChar(s[i + 1]) != 'o'
    {
      assert i >= |a| ==> s[i] == b[i - |a|] && s[i + 1] == b[i - |a| + 1];
    }
  }

  lemma ReceiptTextQuiet()
    ensures WaitText(RECEIPT_PREFIX, "" + " ", 's')
    ensures |RECEIPT_PREFIX| == 17 && RECEIPT_PREFIX[8..15] == "timeout"
  {
    assert RECEIPT_PREFIX[8..15] == ['t', 'i', 'm', 'e', 'o', 'u', 't'];
  }

  /** A lower-case slice of a text is found in its lower-case form. */
  lemma SliceFound(s: string, mark: string, at: nat)
    requires At(s, mark, at) && Lower(mark) == mark
    ensures At(Lower(s), mark, at)
  {
    assert Lower(s)[at..at + |mark|] == Lower(s[at..at + |mark|]);
  }

  lemma MarksAreLower()
    ensures Lower("nonce") == "nonce" && Lower("timeout") == "timeout"
    ensures Lower("deadline exceeded") == "deadline exceeded"
  {
  }

  lemma SuffixFound(before: string, hash: string, after: string, i: nat, j: nat)
    requires i <= j <= |after|
    ensures At(before + hash + (after + " "), after[i..j], |before| + |hash| + i)
  {
  }

  lemma PrefixFound(before: string, rest: string, i: nat, j: nat)
    requires i <= j <= |before|
    ensures At(before + rest, before[i..j], i)
  {
  }

  /** For every transaction hash, a mining wait that ran out is a retryable timeout. */
  lemma MiningDeadlineIsTimeout(hash: string)
    requires IsHex(hash, 64)
    ensures IsTimeout(Normalize(MiningDeadline(hash)))
  {
    WaitTextQuiet();
    MarksAreLower();
    SuffixFound(WAIT_PREFIX, hash, WAIT_SUFFIX, 11, 28);
    SliceFound(WAIT_PREFIX + hash + (WAIT_SUFFIX + " "), "deadline exceeded", |WAIT_PREFIX| + |hash| + 11);
    WaitShape(WAIT_PREFIX, hash, WAIT_SUFFIX, 'u', "deadline exceeded", |WAIT_PREFIX| + |hash| + 11);
  }

  lemma ReceiptTimeoutIsTimeout(hash: string)
    requires IsHex(hash, 64)
    ensures IsTimeout(Normalize(ReceiptTimeout(hash)))
  {
    ReceiptTextQuiet();
    MarksAreLower();
    PrefixFound(RECEIPT_PREFIX, hash + ("" + " "), 8, 15);
    assert RECEIPT_PREFIX + (hash + ("" + " ")) == RECEIPT_PREFIX + hash + ("" + " ");
    SliceFound(RECEIPT_PREFIX + hash + ("" + " "), "timeout", 8);
    WaitShape(RECEIPT_PREFIX, hash, "", 's', "timeout", 8);
    assert RECEIPT_PREFIX + hash + "" == RECEIPT_PREFIX + hash;
  }

  /**
   * The contract with callers: what may be retried is exactly what is neither a revert nor a lack of
   * funds, and status and code follow from the category as the error table of the README says.
   */
  lemma RetryContract(e: Failure)
    ensures var r := Normalize(e);
      && (r.retryable <==> r.status != 422)
      && (r.category == Revert <==>
            ExtractRevertCode(e.reason, e.msg) != "" || Contains(Lower(e.msg + " " + e.reason), "execution reverted"))
      && match r.category
         case Revert => r.status == 422 && r.code != "" && r.nativeCode == "CALL_EXCEPTION"
         case InsufficientFunds => r.status == 422 && r.code == "INSUFFICIENT_FUNDS"
         case Nonce => r.status == 409 && r.code == "BUNDLER_NONCE_CONFLICT"
         case Timeout => r.status == 503 && r.code == "RPC_TIMEOUT"
         case Network => r.status == 503 && r.code == "RPC_NETWORK_ERROR"
         case Server => r.status == 503 && r.code == "RPC_SERVER_ERROR" && -32099 <= e.rpcCode <= -32000
         case Unknown => r.status == 500 && r.code == "BUNDLER_SEND_FAILED"
  {
  }

  /**
   * Whatever else an error says, a known revert code in its reason decides: it is never retried and
   * gets that code's explanation.
   */
  lemma KnownReasonIsRevert(e: Failure)
    requires e.reason in REVERT_MESSAGES
    ensures var r := Normalize(e);
      r.category == Revert && r.code == e.reason && !r.retryable && r.message == REVERT_MESSAGES[e.reason]
  {
    KnownCodesNonEmpty(e.reason);
  }

  lemma KnownCodesNonEmpty(code: string)
    requires code in REVERT_MESSAGES
    ensures code != ""
  {
  }
}

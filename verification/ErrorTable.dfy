/**
 * The error table (internal/platform/txerror/txerror.go, README.md:79-87), read from the texts that occur in an
 * error: which phrase decides, and which errors the split executor retries.
 */
module ErrorTable {
  import opened TxError

  /** The same text up to case. */
  ghost predicate SameLetters(a: string, b: string) { Lower(a) == Lower(b) }

  /** The phrase occurs in the text, in upper or lower case. */
  ghost predicate Occurs(text: string, phrase: string) {
    exists i: nat, j: nat :: i <= j <= |text| && SameLetters(text[i..j], phrase)
  }

  /** The phrases in order of precedence. */
  const PHRASES: seq<(string, Category)> := [
    ("insufficient funds", InsufficientFunds),
    ("nonce", Nonce),
    ("replacement transaction underpriced", Nonce),
    ("timeout", Timeout),
    ("deadline exceeded", Timeout),
    ("connection refused", Network),
    ("connection reset", Network),
    ("no such host", Network),
    ("eof", Network)
  ]

  lemma PhrasesAreLower(k: nat)
    requires k < |PHRASES|
    ensures Lower(PHRASES[k].0) == PHRASES[k].0
  {
  }

  lemma LowerSlice(s: string, i: nat, j: nat)
    requires i <= j <= |s|
    ensures Lower(s[i..j]) == Lower(s)[i..j]
  {
  }

  /** Looking for a lower-case phrase in the lower-case text finds it in any case. */
  lemma OccursIff(text: string, phrase: string)
    requires Lower(phrase) == phrase
    ensures Contains(Lower(text), phrase) <==> Occurs(text, phrase)
  {
    if Contains(Lower(text), phrase) {
      var i :| 0 <= i <= |text| && At(Lower(text), phrase, i);
      LowerSlice(text, i, i + |phrase|);
      assert SameLetters(text[i..i + |phrase|], phrase);
    }
    if Occurs(text, phrase) {
      var i: nat, j: nat :| i <= j <= |text| && SameLetters(text[i..j], phrase);
      LowerSlice(text, i, j);
      assert |phrase| == |Lower(text[i..j])| == j - i;
      assert At(Lower(text), phrase, i);
    }
  }

  lemma Embedded(before: string, phrase: string, after: string)
    ensures Occurs(before + phrase + after, phrase)
  {
    var text := before + phrase + after;
    assert text[|before|..|before| + |phrase|] == phrase;
    assert SameLetters(text[|before|..|before| + |phrase|], phrase);
  }

  /** What an error says. */
  function Text(e: Failure): string { e.msg + " " + e.reason }

  /** The contract was reached and reverted, as far as the error tells. */
  ghost predicate SaysRevert(e: Failure) {
    ExtractRevertCode(e.reason, e.msg) != "" || Occurs(Text(e), "execution reverted")
  }

  /** The first phrase of the table that occurs, from the k-th on; |PHRASES| if none does. */
  ghost function FirstPhrase(text: string, k: nat): nat
    requires k <= |PHRASES|
    decreases |PHRASES| - k
  {
    if k == |PHRASES| || Occurs(text, PHRASES[k].0) then k else FirstPhrase(text, k + 1)
  }

  lemma PhraseSearch(text: string, k: nat)
    requires k < |PHRASES|
    ensures Contains(Lower(text), PHRASES[k].0) <==> Occurs(text, PHRASES[k].0)
  {
    PhrasesAreLower(k);
    OccursIff(text, PHRASES[k].0);
  }

  lemma RevertSearch(text: string)
    ensures Contains(Lower(text), "execution reverted") <==> Occurs(text, "execution reverted")
  {
    assert Lower("execution reverted") == "execution reverted";
    OccursIff(text, "execution reverted");
  }

  lemma FirstOfTable(text: string)
    ensures FirstPhrase(text, 0) ==
      if Occurs(text, "insufficient funds") then 0
      else if Occurs(text, "nonce") then 1
      else if Occurs(text, "replacement transaction underpriced") then 2
      else if Occurs(text, "timeout") then 3
      else if Occurs(text, "deadline exceeded") then 4
      else if Occurs(text, "connection refused") then 5
      else if Occurs(text, "connection reset") then 6
      else if Occurs(text, "no such host") then 7
      else if Occurs(text, "eof") then 8
      else 9
  {
    assert FirstPhrase(text, 9) == 9;
    assert FirstPhrase(text, 7) == if Occurs(text, "no such host") then 7 else FirstPhrase(text, 8);
    assert FirstPhrase(text, 5) == if Occurs(text, "connection refused") then 5 else FirstPhrase(text, 6);
    assert FirstPhrase(text, 3) == if Occurs(text, "timeout") then 3 else FirstPhrase(text, 4);
    assert FirstPhrase(text, 1) == if Occurs(text, "nonce") then 1 else FirstPhrase(text, 2);
  }

  /**
   * The first phrase of the table decides: unless the error speaks of a revert, its category is that of the first
   * phrase that occurs anywhere in it, in any case; without any, an RPC code from -32099 to -32000 makes it a
   * server error, and the rest is unknown.
   */
  lemma FirstPhraseDecides(e: Failure)
    ensures var k := FirstPhrase(Text(e), 0);
      Normalize(e).category ==
        if SaysRevert(e) then Revert
        else if k < |PHRASES| then PHRASES[k].1
        else if -32099 <= e.rpcCode <= -32000 then Server else Unknown
  {
    RevertSearch(Text(e));
    FirstOfTable(Text(e));
    SearchAll(Text(e));
  }

  lemma SearchAll(text: string)
    ensures Contains(Lower(text), "insufficient funds") <==> Occurs(text, "insufficient funds")
    ensures Contains(Lower(text), "nonce") <==> Occurs(text, "nonce")
    ensures Contains(Lower(text), "replacement transaction underpriced") <==>
            Occurs(text, "replacement transaction underpriced")
    ensures Contains(Lower(text), "timeout") <==> Occurs(text, "timeout")
    ensures Contains(Lower(text), "deadline exceeded") <==> Occurs(text, "deadline exceeded")
    ensures Contains(Lower(text), "connection refused") <==> Occurs(text, "connection refused")
    ensures Contains(Lower(text), "connection reset") <==> Occurs(text, "connection reset")
    ensures Contains(Lower(text), "no such host") <==> Occurs(text, "no such host")
    ensures Contains(Lower(text), "eof") <==> Occurs(text, "eof")
  {
    PhraseSearch(text, 0);
    PhraseSearch(text, 1);
    PhraseSearch(text, 2);
    PhraseSearch(text, 3);
    PhraseSearch(text, 4);
    PhraseSearch(text, 5);
    PhraseSearch(text, 6);
    PhraseSearch(text, 7);
    PhraseSearch(text, 8);
  }

  /** A lack of funds, wherever the text mentions it, is final unless it is the contract's own revert. */
  lemma LackOfFundsIsFinal(before: string, after: string, reason: string, rpcCode: int)
    requires !SaysRevert(Failure(before + "insufficient funds" + after, reason, rpcCode))
    ensures var r := Normalize(Failure(before + "insufficient funds" + after, reason, rpcCode));
      r.status == 422 && r.code == "INSUFFICIENT_FUNDS" && !r.retryable
  {
    var e := Failure(before + "insufficient funds" + after, reason, rpcCode);
    Embedded(before, "insufficient funds", after + " " + reason);
    assert Text(e) == before + "insufficient funds" + (after + " " + reason);
    FirstPhraseDecides(e);
    RetryContract(e);
  }

  /** The split executor retries exactly the errors that mention a nonce or the router's own nonce error EFS024. */
  lemma NonceErrIff(msg: string)
    ensures IsNonceErr(msg) <==> Occurs(msg, "EFS024") || Occurs(msg, "nonce")
  {
    assert Lower("EFS024") == "efs024" && Lower("efs024") == "efs024" && Lower("nonce") == "nonce";
    OccursIff(msg, "efs024");
    OccursIff(msg, "nonce");
    assert Occurs(msg, "EFS024") <==> Occurs(msg, "efs024");
  }

  /** So it retries whatever mentions either, in any case and in any text. */
  lemma MentionIsRetried(before: string, phrase: string, after: string)
    requires SameLetters(phrase, "nonce") || SameLetters(phrase, "EFS024")
    ensures IsNonceErr(before + phrase + after)
  {
    var text := before + phrase + after;
    NonceErrIff(text);
    assert text[|before|..|before| + |phrase|] == phrase;
  }

  /** In particular what nodes say about a used nonce. */
  lemma NonceTooLowIsRetried(before: string, after: string)
    ensures IsNonceErr(before + "nonce too low" + after)
  {
    MentionIsRetried(before, "nonce", " too low" + after);
    assert "nonce too low" == "nonce" + " too low";
    assert before + "nonce" + (" too low" + after) == before + ("nonce" + " too low") + after;
  }

  /** Where a revert code is looked for: the reason itself, then inside the reason, then inside the message. */
  lemma WhereTheCodeIs(e: Failure)
    ensures var code := Normalize(e).code;
      && (e.reason in REVERT_MESSAGES ==> code == e.reason)
      && (e.reason !in REVERT_MESSAGES && FindCode(e.reason, 0) != "" ==> code == FindCode(e.reason, 0))
      && (e.reason !in REVERT_MESSAGES && FindCode(e.reason, 0) == "" && FindCode(e.msg, 0) != "" ==>
            code == FindCode(e.msg, 0))
  {
    if e.reason in REVERT_MESSAGES {
      KnownReasonIsRevert(e);
    }
  }

  /** What is passed on of the error. */
  lemma WhatIsReported(e: Failure)
    ensures var r := Normalize(e);
      && r.rpcCode == e.rpcCode
      && (r.category != Revert ==> r.message == if e.reason != "" then e.reason else e.msg)
      && (r.category == Revert ==> r.reason == if e.reason != "" then e.reason else ExtractRevertCode(e.reason, e.msg))
  {
    RetryContract(e);
  }

  /** A code stands for itself, as a whole word: one of three families and two digits. */
  lemma CodeIsWord(before: string, code: string, after: string)
    requires |code| == 5
    ensures CodeAt(before + code + after, |before|) <==>
      && code[..3] in {"AC0", "EP0", "PM0"} && code[3] in "0123456789" && code[4] in "0123456789"
      && (before != "" ==> !IsWord(before[|before| - 1]))
      && (after != "" ==> !IsWord(after[0]))
  {
    var s := before + code + after;
    assert s[|before|..|before| + 5] == code;
    assert forall k :: 0 <= k < 5 ==> s[|before| + k] == code[k];
    assert before != "" ==> s[|before| - 1] == before[|before| - 1];
    assert after != "" ==> s[|before| + 5] == after[0];
    assert forall c: char :: c in "0123456789" <==> '0' <= c <= '9';
    assert code[..3] == [code[0], code[1], code[2]];
  }

  lemma LastCode(before: string, code: string)
    requires NoCodeLetter(before) && (before != "" ==> !IsWord(before[|before| - 1]))
    requires |code| == 5 && CodeAt(code, 0)
    ensures FindCode(before + code, 0) == code
  {
    var msg := before + code;
    assert CodeAt(msg, |before|) && msg[|before|..|before| + 5] == code;
    assert forall k :: 0 <= k < |before| ==> msg[k] == before[k];
    assert FindCode(msg, 0) != "";
  }

  /** Whatever carries a code is that revert, explained by the table, and final. */
  lemma CodeDecides(msg: string, code: string)
    requires FindCode(msg, 0) == code && code in REVERT_MESSAGES
    ensures var r := Normalize(Plain(msg));
      r.status == 422 && r.code == code && !r.retryable && r.message == REVERT_MESSAGES[code]
  {
    KnownCodesNonEmpty(code);
    assert FindCode("", 0) == "";
    assert ExtractRevertCode("", msg) == code by {
      assert "" !in REVERT_MESSAGES by {
        if "" in REVERT_MESSAGES {
          KnownCodesNonEmpty("");
        }
      }
    }
  }

  lemma Explained()
    ensures REVERT_MESSAGES.Keys == {"AC001", "AC004", "AC005", "AC006", "AC007", "AC008", "AC009", "AC010",
                                     "EP001", "EP003", "EP011", "PM006", "PM007"}
    ensures REVERT_MESSAGES["AC007"] == "insufficient ERC20 balance"
  {
  }

  /** A lack of tokens, as the account contract reports it at the end of a text. */
  lemma LackOfTokens(before: string)
    requires NoCodeLetter(before) && (before != "" ==> !IsWord(before[|before| - 1]))
    ensures var r := Normalize(Plain(before + "AC007"));
      r.status == 422 && r.code == "AC007" && !r.retryable && r.message == "insufficient ERC20 balance"
  {
    LastCode(before, "AC007");
    Explained();
    CodeDecides(before + "AC007", "AC007");
  }
}

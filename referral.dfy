/**
 * Referral codes: the check an invitation code must pass, and the choice of a
 * new member's code from a stream of random candidates.
 */
module Referral {
  import opened Wrappers
  import opened Strings

  /** `validate_referral_code`: the trimmed, upper-cased code has at least three
      characters and belongs to a registered member (`codes` is the set of the
      profile table's referral codes). */
  predicate ValidReferral(code: string, codes: set<string>) {
    var c := Upper(Strip(code));
    |c| >= 3 && c in codes
  }

  /** `string.ascii_uppercase + string.digits` */
  predicate IsCodeChar(c: char) {
    'A' <= c <= 'Z' || '0' <= c <= '9'
  }

  /** The shape of every code `random.choices(..., k=8)` draws. */
  predicate WellFormedCode(s: string) {
    |s| == 8 && forall i :: 0 <= i < |s| ==> IsCodeChar(s[i])
  }

  /** The code the retry loop of `generate_referral_code` settles on: the first
      candidate that no profile uses yet, or `None` when every candidate is taken. */
  function FirstFree(candidates: seq<string>, taken: set<string>): (r: Option<string>)
    ensures r.Some? ==> r.value in candidates && r.value !in taken
    ensures r.None? ==> forall i :: 0 <= i < |candidates| ==> candidates[i] in taken
  {
    if |candidates| == 0 then None
    else if candidates[0] !in taken then Some(candidates[0])
    else FirstFree(candidates[1..], taken)
  }

  /** The chosen candidate comes after only taken ones. */
  lemma {:induction false} FirstFreeIsFirst(candidates: seq<string>, taken: set<string>, i: nat)
    requires i < |candidates| && candidates[i] !in taken
    requires forall j :: 0 <= j < i ==> candidates[j] in taken
    ensures FirstFree(candidates, taken) == Some(candidates[i])
  {
    if i > 0 {
      assert candidates[0] in taken;
      FirstFreeIsFirst(candidates[1..], taken, i - 1);
    }
  }

  /** `generate_referral_code` with its `check_referral_code_unique` queries: draws
      candidates until one is unused. */
  method GenerateReferralCode(candidates: seq<string>, taken: set<string>) returns (r: Option<string>)
    ensures r == FirstFree(candidates, taken)
  {
    var i := 0;
    while i < |candidates|
      invariant 0 <= i <= |candidates|
      invariant forall j :: 0 <= j < i ==> candidates[j] in taken
    {
      if candidates[i] !in taken {
        FirstFreeIsFirst(candidates, taken, i);
        return Some(candidates[i]);
      }
      i := i + 1;
    }
    NoneFree(candidates, taken);
    return None;
  }

  lemma {:induction false} NoneFree(candidates: seq<string>, taken: set<string>)
    requires forall j :: 0 <= j < |candidates| ==> candidates[j] in taken
    ensures FirstFree(candidates, taken) == None
  {
    if |candidates| > 0 {
      NoneFree(candidates[1..], taken);
    }
  }

  /** A code drawn from well-formed candidates is well formed. */
  lemma GeneratedCodeWellFormed(candidates: seq<string>, taken: set<string>)
    requires forall i :: 0 <= i < |candidates| ==> WellFormedCode(candidates[i])
    requires FirstFree(candidates, taken).Some?
    ensures WellFormedCode(FirstFree(candidates, taken).value)
  {
  }

  /** A member's code, typed in any mix of upper and lower case and with
      surrounding blanks, is accepted as an invitation. */
  lemma IssuedCodeAccepted(code: string, typed: string, pre: string, post: string, codes: set<string>)
    requires WellFormedCode(code) && code in codes
    requires |typed| == |code|
    requires forall i :: 0 <= i < |typed| ==> UpperChar(typed[i]) == code[i]
    requires forall i :: 0 <= i < |pre| ==> IsSpace(pre[i])
    requires forall i :: 0 <= i < |post| ==> IsSpace(post[i])
    ensures ValidReferral(pre + typed + post, codes)
  {
    StripSurrounded(pre, typed, post);
    assert Upper(typed) == code;
  }

  /** Codes shorter than three characters are refused whatever the table holds. */
  lemma ShortCodeRefused(code: string, codes: set<string>)
    requires |code| < 3
    ensures !ValidReferral(code, codes)
  {
  }
}

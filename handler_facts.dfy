/**
 * What the conversation steps guarantee: every stored field passed the check
 * of the step that stored it, a link is added at the end of its own bucket
 * and a duplicate is refused, a registration resumes from its checkpoint, and
 * an edit of the payment method clears its details and returns to the edit
 * menu.
 */
module HandlerFacts {
  import opened Wrappers
  import opened Strings
  import opened SocialLinks
  import opened Validators
  import opened Referral
  import opened Stages
  import opened Drafts
  import opened Handlers

  // ---------------------------------------------------------------------------
  // The linear part.

  /** A step either refuses its input, staying where it is with nothing changed
      and nothing saved, or saves the next stage with the new draft and moves there. */
  predicate RefusesOrSaves(r: Outcome, d: Draft, here: Stage, next: Stage) {
    r == Goto(here, d) || (r.next == At(next) && r.saved == Some(Checkpoint(next, r.draft)))
  }

  /** The name step stores only a name of three or more words and at most fifty
      characters, and changes no other field. */
  lemma FullNameStep(d: Draft, text: string, here: Stage, next: Stage)
    requires here != next
    ensures var r := SetFullName(d, text, here, next);
      RefusesOrSaves(r, d, here, next) &&
      (r.next == At(next) <==> IsFullName(Strip(text))) &&
      (r.next == At(next) ==> r.draft == d.(fullName := Some(Strip(text))))
  {
  }

  /** The country step stores a keyboard country with its own calling code. */
  lemma CountryStep(d: Draft, text: string, here: Stage, next: Stage)
    requires here != next
    ensures var r := SetCountry(d, text, here, next);
      RefusesOrSaves(r, d, here, next) &&
      (r.next == At(next) <==> text in Countries) &&
      (r.next == At(next) ==> r.draft == d.(country := Some(text), countryCode := Some(Countries[text])))
  {
  }

  /** The gender step stores one of the two keyboard answers. */
  lemma GenderStep(d: Draft, text: string, here: Stage, next: Stage)
    requires here != next
    ensures var r := SetGender(d, text, here, next);
      RefusesOrSaves(r, d, here, next) &&
      (r.next == At(next) <==> text in Genders) &&
      (r.next == At(next) ==> r.draft == d.(gender := Some(text)))
  {
  }

  /** The birth-year step stores a year from 1920 to thirteen years before the
      current one. */
  lemma BirthYearStep(d: Draft, text: string, currentYear: int, here: Stage, next: Stage)
    requires here != next
    ensures var r := SetBirthYear(d, text, currentYear, here, next);
      RefusesOrSaves(r, d, here, next) &&
      (r.next == At(next) <==> ValidateBirthYear(text, currentYear).0) &&
      (r.next == At(next) ==> r.draft == d.(birthYear := ParseInt(text)) &&
                              1920 <= r.draft.birthYear.value <= currentYear - 13)
  {
  }

  /** The phone step stores the E.164 form the phone library gives for the
      number completed with the draft's calling code (`+966` when it has none). */
  lemma PhoneStep(d: Draft, text: string, e164: string -> Option<string>, here: Stage, next: Stage)
    requires here != next
    ensures var r := SetPhone(d, text, e164, here, next);
      var code := CountryCodeOf(d);
      RefusesOrSaves(r, d, here, next) &&
      (r.next == At(next) <==> e164(PhoneCandidate(text, code)).Some?) &&
      (r.next == At(next) ==> r.draft == d.(phone := e164(PhoneCandidate(text, code))))
  {
    var v := ValidatePhone(text, CountryCodeOf(d), e164);
    if v.Some? {
      assert SetPhone(d, text, e164, here, next) == SaveGoto(next, d.(phone := v));
    } else {
      assert SetPhone(d, text, e164, here, next) == Goto(here, d);
    }
  }

  /** The e-mail step stores only a trimmed address of the accepted shape. */
  lemma EmailStep(d: Draft, text: string, here: Stage, next: Stage)
    requires here != next
    ensures var r := SetEmail(d, text, here, next);
      RefusesOrSaves(r, d, here, next) &&
      (r.next == At(next) <==> IsEmail(Strip(text))) &&
      (r.next == At(next) ==> r.draft == d.(email := Some(Strip(text))))
  {
  }

  /** The referral step moves on with the invitation it already holds, with
      none, or with a code that validates; anything else is asked again. */
  lemma ReferralStep(d: Draft, text: string, codes: set<string>)
    ensures var r := GetReferral(d, text, codes);
      RefusesOrSaves(r, d, ReferralStage, FullName) &&
      (r.next == At(FullName) ==>
         r.draft == d.(invitedBy := r.draft.invitedBy) &&
         (r.draft.invitedBy == None || r.draft.invitedBy == d.invitedBy ||
          ValidReferral(r.draft.invitedBy.value, codes)))
  {
    var input := Lower(Strip(text));
    var r := GetReferral(d, text, codes);
    if input in YesWords {
      assert r == SaveGoto(FullName, d) || r == Goto(ReferralStage, d);
    } else if input in NoWords {
      assert r == SaveGoto(FullName, d.(invitedBy := None));
    } else if ValidReferral(Upper(input), codes) {
      assert r == SaveGoto(FullName, d.(invitedBy := Some(Upper(input))));
    } else {
      assert r == Goto(ReferralStage, d);
    }
  }

  /** A yes (in any of its spellings) keeps the invitation of the link only
      when there is one; without one the step asks again. */
  lemma ReferralYesNeedsInvitation(d: Draft, text: string, codes: set<string>)
    requires Lower(Strip(text)) in YesWords
    ensures GetReferral(d, text, codes).next == At(FullName) <==> Truthy(d.invitedBy)
    ensures !Truthy(d.invitedBy) ==> GetReferral(d, text, codes) == Goto(ReferralStage, d)
  {
  }

  /** Six accepted answers from the name step fill the personal fields and reach
      the hub, each step saving its successor's stage. */
  lemma PersonalDetailsReachHub(d: Draft, name: string, country: string, gender: string,
                                year: string, phone: string, e164: string -> Option<string>,
                                email: string, currentYear: int)
    requires IsFullName(Strip(name)) && country in Countries && gender in Genders
    requires ValidateBirthYear(year, currentYear).0
    requires e164(PhoneCandidate(phone, Countries[country])).Some?
    requires IsEmail(Strip(email))
    ensures var r1 := SetFullName(d, name, FullName, Country);
      var r2 := SetCountry(r1.draft, country, Country, Gender);
      var r3 := SetGender(r2.draft, gender, Gender, BirthYear);
      var r4 := SetBirthYear(r3.draft, year, currentYear, BirthYear, Phone);
      var r5 := SetPhone(r4.draft, phone, e164, Phone, Email);
      var r6 := SetEmail(r5.draft, email, Email, SocialMediaMenu);
      r6 == SaveGoto(SocialMediaMenu,
                     d.(fullName := Some(Strip(name)), country := Some(country),
                        countryCode := Some(Countries[country]), gender := Some(gender),
                        birthYear := ParseInt(year),
                        phone := e164(PhoneCandidate(phone, Countries[country])),
                        email := Some(Strip(email))))
  {
    FullNameStep(d, name, FullName, Country);
    var d1 := SetFullName(d, name, FullName, Country).draft;
    CountryStep(d1, country, Country, Gender);
    var d2 := SetCountry(d1, country, Country, Gender).draft;
    GenderStep(d2, gender, Gender, BirthYear);
    var d3 := SetGender(d2, gender, Gender, BirthYear).draft;
    BirthYearStep(d3, year, currentYear, BirthYear, Phone);
    var d4 := SetBirthYear(d3, year, currentYear, BirthYear, Phone).draft;
    PhoneStep(d4, phone, e164, Phone, Email);
    var d5 := SetPhone(d4, phone, e164, Phone, Email).draft;
    EmailStep(d5, email, Email, SocialMediaMenu);
  }

  // ---------------------------------------------------------------------------
  // Adding a link.

  /** The text is a link the platform's step accepts (before the duplicate check). */
  predicate LinkAccepted(text: string, p: Platform) {
    var input := Strip(text);
    !IsSkipWord(p, input) && (p == OtherLinks ==> IsSocialUrl(input)) && AcceptsLink(p, LinkUrl(input, p))
  }

  /** A skip word returns to the hub, an unaccepted link is asked for again with
      nothing changed, and an accepted one goes on to the duplicate check. */
  lemma AddLinkCases(d: Draft, text: string, p: Platform)
    ensures var r := AddLink(d, text, p);
      (IsSkipWord(p, Strip(text)) ==> r == ShowMenu(d)) &&
      (!IsSkipWord(p, Strip(text)) && !LinkAccepted(text, p) ==> r == Goto(UrlStage(p), d)) &&
      (LinkAccepted(text, p) ==> r == StoreLink(d, p, LinkUrl(Strip(text), p)))
  {
  }

  /** A new link is appended at the end of its own bucket, the other buckets and
      fields stay as they were, the hub stage is saved and the conversation
      returns to the hub. */
  lemma StoreLinkAppends(d: Draft, p: Platform, url: string)
    requires p in Buckets(d) && !IsDuplicate(Buckets(d), p, url)
    ensures var r := StoreLink(d, p, url);
      var m := Buckets(d);
      r.next == At(SocialMediaMenu) &&
      r.draft == d.(social := Some(m[p := m[p] + [url]])) &&
      r.saved == Some(Checkpoint(SocialMediaMenu, r.draft))
  {
  }

  /** A duplicate is refused: the buckets the step read are written back as
      they were, nothing is saved and the step asks again. */
  lemma StoreLinkRefusesDuplicate(d: Draft, p: Platform, url: string)
    requires IsDuplicate(Buckets(d), p, url)
    ensures StoreLink(d, p, url) == Goto(UrlStage(p), d.(social := Some(Buckets(d))))
  {
  }

  /** Sending the same accepted link a second time is refused as a duplicate. */
  lemma SameLinkTwiceRefused(d: Draft, p: Platform, url: string)
    requires p in Buckets(d) && !IsDuplicate(Buckets(d), p, url)
    ensures var r := StoreLink(d, p, url);
      StoreLink(r.draft, p, url) == Goto(UrlStage(p), r.draft)
  {
    StoreLinkAppends(d, p, url);
    var m := Buckets(d);
    var m2 := m[p := m[p] + [url]];
    var r := StoreLink(d, p, url);
    assert r.draft.social == Some(m2);
    BucketsOfSome(r.draft, m2);
    AppendedHasKey(m[p], Clean, url);
    StoreLinkRefusesDuplicate(r.draft, p, url);
    assert r.draft.(social := Some(Buckets(r.draft))) == r.draft;
  }

  /** The buckets of a draft that has a dictionary are that dictionary. */
  lemma BucketsOfSome(d: Draft, m: Social)
    requires d.social == Some(m)
    ensures Buckets(d) == m
  {
  }

  /** The element just appended has its own key. */
  lemma AppendedHasKey(b: seq<string>, key: string -> string, x: string)
    ensures HasKeyed(b + [x], key, key(x))
  {
    assert (b + [x])[|b|] == x;
  }

  // ---------------------------------------------------------------------------
  // Starting and resuming.

  /** A saved stage that is not in the resume table resumes at the referral stage. */
  lemma ResumeUnknownStage(cp: Checkpoint, code: string)
    requires !InResumeTable(cp.stage)
    ensures Resume(cp, code).next == At(ReferralStage) && Resume(cp, code).saved == None
  {
  }

  /** A registration saved at the hub or at one of the link steps resumes at the hub. */
  lemma ResumeLinkStagesAtHub(cp: Checkpoint, code: string)
    requires cp.stage == SocialMediaMenu || IsUrlStage(cp.stage)
    ensures Resume(cp, code).next == At(SocialMediaMenu)
  {
  }

  /** The restored draft is the saved one with the invitation code of the link,
      its buckets kept, and a YouTube bucket whatever was saved. */
  lemma ResumeRestoresDraft(cp: Checkpoint, code: string)
    ensures var r := Resume(cp, code);
      r.draft.social.Some? && YouTube in r.draft.social.value &&
      r.draft == cp.draft.(invitedBy := Some(code), social := r.draft.social) &&
      (cp.draft.social.Some? ==> forall p :: p in cp.draft.social.value ==>
         p in r.draft.social.value && r.draft.social.value[p] == cp.draft.social.value[p])
  {
  }

  /** A checkpoint written at a stage of the resume table (other than the hub
      and the link steps) resumes exactly there, with the saved draft. */
  lemma CheckpointRoundTrip(s: Stage, d: Draft, code: string)
    requires InResumeTable(s) && s != SocialMediaMenu && !IsUrlStage(s)
    requires d.social.Some? && YouTube in d.social.value
    ensures Resume(Checkpoint(s, d), code) == Goto(s, d.(invitedBy := Some(code)))
  {
  }

  /** An invitation code that does not validate ends the conversation before it
      begins and touches nothing. */
  lemma InvalidInvitationRefused(d: Draft, code: string, env: Env, registered: bool, cp: Option<Checkpoint>)
    requires !ValidReferral(code, env.codes)
    ensures InvitedStart(d, code, env, registered, cp) == Outcome(End, d, None)
  {
  }

  /** A registered user is turned away whichever way they start. */
  lemma RegisteredUserTurnedAway(d: Draft, args: seq<string>, env: Env, allowed: Option<bool>, cp: Option<Checkpoint>)
    ensures Start(d, args, env, allowed, true, cp) == Outcome(End, d, None)
  {
  }

  // ---------------------------------------------------------------------------
  // Payment.

  /** `get_payment_method` stores the text even when it is neither choice. */
  lemma PaymentMethodStoredUnchecked(d: Draft, text: string)
    ensures var r := GetPaymentMethod(d, text);
      r.draft == d.(paymentMethod := Some(text)) &&
      (text != ByWallet && text != ByTransfer ==> r.next == At(PaymentMethod) && r.saved == None)
  {
  }

  /** The wallet steps either refuse their input or store a checked detail: a
      listed wallet, or a wallet name of two to twenty characters. */
  lemma WalletSteps(d: Draft, text: string)
    ensures var r := GetWalletType(d, text);
      r == Goto(WalletType, d) || r == SaveGoto(NewWalletType, d) ||
      (r == SaveGoto(WalletAddress, r.draft) && r.draft == d.(walletType := Some(text)) && text in ElectronicWallets)
    ensures var r := GetNewWalletType(d, text);
      r == Goto(NewWalletType, d) ||
      (r == SaveGoto(WalletAddress, r.draft) && r.draft == d.(walletType := Some(Strip(text))) &&
       2 <= |Strip(text)| <= 20)
  {
    if text in WalletChoices && text != OtherWallet {
      assert text in ElectronicWallets;
    }
  }

  /** A wallet address of five or more characters completes the wallet branch:
      back to the edit menu with the flag cleared when editing, else on to the
      confirmation. */
  lemma WalletAddressRouting(d: Draft, t: string)
    ensures var r := GetWalletAddress(d, t);
      var d1 := d.(walletAddress := Some(Strip(t)));
      (|Strip(t)| < 5 ==> r == Goto(WalletAddress, d)) &&
      (|Strip(t)| >= 5 && d.editingPayment ==> r == SaveGoto(EditChoice, d1.(editingPayment := false))) &&
      (|Strip(t)| >= 5 && !d.editingPayment && HasAllBuckets(Buckets(d)) ==> r == SaveGoto(Confirmation, d1))
  {
  }

  /** The transfer handler fills the first missing detail: a name, the phone's
      E.164 form, a location of five or more characters. */
  lemma TransferDetailOrder(s: Stage, d: Draft, t: string, e164: string -> Option<string>)
    ensures var r := GetTransferDetails(s, d, t, e164);
      (d.transferName.None? ==>
         r == Goto(TransferDetails, d) ||
         (r == SaveGoto(TransferPhone, r.draft) && r.draft == d.(transferName := Some(Strip(t))) &&
          IsFullName(Strip(t)))) &&
      (d.transferName.Some? && d.transferPhone.None? ==>
         r == Goto(TransferPhone, d) ||
         (r == SaveGoto(TransferLocation, r.draft) && r.draft == d.(transferPhone := r.draft.transferPhone) &&
          r.draft.transferPhone == ValidatePhone(t, CountryCodeOf(d), e164) && r.draft.transferPhone.Some?)) &&
      (d.transferName.Some? && d.transferPhone.Some? && d.transferLocation.None? ==>
         r == Goto(TransferLocation, d) ||
         (r == SaveGoto(TransferCompany, r.draft) && r.draft == d.(transferLocation := Some(Strip(t))) &&
          |Strip(t)| >= 5))
  {
  }

  /** The company completes the transfer branch, routed by the editing flag. */
  lemma TransferCompanyRouting(s: Stage, d: Draft, t: string, e164: string -> Option<string>)
    requires d.transferName.Some? && d.transferPhone.Some? && d.transferLocation.Some?
    ensures var r := GetTransferDetails(s, d, t, e164);
      var d1 := d.(transferCompany := Some(t));
      (t !in TransferCompanies ==> r == Goto(TransferCompany, d)) &&
      (t in TransferCompanies && d.editingPayment ==> r == SaveGoto(EditChoice, d1.(editingPayment := false))) &&
      (t in TransferCompanies && !d.editingPayment && HasAllBuckets(Buckets(d)) ==> r == SaveGoto(Confirmation, d1))
  {
  }

  /** The four transfer stages share one handler: the same text has the same
      effect on the draft and the checkpoint whichever of them is current, and
      only the stage kept when the summary cannot be shown differs. */
  lemma TransferStagesAgree(s1: Stage, s2: Stage, d: Draft, t: string, e164: string -> Option<string>)
    ensures var r1 := GetTransferDetails(s1, d, t, e164);
      var r2 := GetTransferDetails(s2, d, t, e164);
      r1.draft == r2.draft && r1.saved == r2.saved &&
      (r1.next != r2.next ==> r1.next == At(s1) && r2.next == At(s2) && !HasAllBuckets(Buckets(d)))
  {
    var r1 := GetTransferDetails(s1, d, t, e164);
    var r2 := GetTransferDetails(s2, d, t, e164);
    if d.transferName.None? || d.transferPhone.None? || d.transferLocation.None? || t !in TransferCompanies {
      assert r1 == r2;
    } else if d.editingPayment {
      assert r1 == r2;
    } else {
      var d1 := d.(transferCompany := Some(t));
      var cp := Checkpoint(Confirmation, d1);
      assert Buckets(d1) == Buckets(d);
      if HasAllBuckets(Buckets(d)) {
        assert r1 == Outcome(At(Confirmation), d1, Some(cp)) == r2;
      } else {
        assert r1 == Outcome(At(s1), d1, Some(cp));
        assert r2 == Outcome(At(s2), d1, Some(cp));
      }
    }
  }

  // ---------------------------------------------------------------------------
  // Confirmation and editing.

  /** `edit_payment_method` deletes all six detail keys and sets the editing
      flag, whatever the choice; only a valid choice moves on. The draft is
      otherwise as it was. */
  lemma EditPaymentClearsDetails(d: Draft, t: string)
    ensures var r := EditPayment(d, t);
      NoPaymentDetails(r.draft) && r.draft.editingPayment && r.draft.paymentMethod == Some(t) &&
      r.draft.(paymentMethod := d.paymentMethod, walletType := d.walletType, walletAddress := d.walletAddress,
               transferName := d.transferName, transferPhone := d.transferPhone,
               transferLocation := d.transferLocation, transferCompany := d.transferCompany,
               editingPayment := d.editingPayment) == d &&
      (t == ByWallet ==> r == SaveGoto(WalletType, r.draft)) &&
      (t == ByTransfer ==> r == SaveGoto(TransferDetails, r.draft)) &&
      (t != ByWallet && t != ByTransfer ==> r == Goto(EditPaymentMethod, r.draft))
  {
  }

  /** Changing to a listed wallet from the edit menu: the three steps end at
      the edit menu with the new details, the flag cleared and every other
      field as before. */
  lemma EditToWalletReturnsToMenu(d: Draft, wallet: string, address: string)
    requires wallet in ElectronicWallets && |Strip(address)| >= 5
    ensures var r1 := EditPayment(d, ByWallet);
      var r2 := GetWalletType(r1.draft, wallet);
      var r3 := GetWalletAddress(r2.draft, address);
      r1.next == At(WalletType) && r2.next == At(WalletAddress) &&
      r3 == SaveGoto(EditChoice, ClearPayment(d).(paymentMethod := Some(ByWallet), walletType := Some(wallet),
                                                 walletAddress := Some(Strip(address)), editingPayment := false))
  {
    assert wallet in WalletChoices && wallet != OtherWallet;
  }

  /** An edit of the links opens the hub with the editing flag set. */
  lemma EditSocialOpensHub(d: Draft)
    ensures EditChoiceStep(d, "edit_social").draft == d.(editingSocial := true)
    ensures EditChoiceStep(d, "edit_social").next == At(SocialMediaMenu)
  {
  }

  /** Each field button of the edit menu opens that field's edit stage with
      the draft unchanged and no checkpoint; any other button, `edit_done`
      among them, returns to the summary once every bucket is filled. */
  lemma EditChoiceRoutes(d: Draft, other: string)
    requires other !in {"edit_name", "edit_country", "edit_gender", "edit_birthyear",
                        "edit_phone", "edit_email", "edit_social", "edit_payment"}
    ensures EditChoiceStep(d, "edit_name") == Outcome(At(EditFullName), d, None)
    ensures EditChoiceStep(d, "edit_country") == Outcome(At(EditCountry), d, None)
    ensures EditChoiceStep(d, "edit_gender") == Outcome(At(EditGender), d, None)
    ensures EditChoiceStep(d, "edit_birthyear") == Outcome(At(EditBirthYear), d, None)
    ensures EditChoiceStep(d, "edit_phone") == Outcome(At(EditPhone), d, None)
    ensures EditChoiceStep(d, "edit_email") == Outcome(At(EditEmail), d, None)
    ensures EditChoiceStep(d, "edit_payment") == Outcome(At(EditPaymentMethod), d, None)
    ensures var r := EditChoiceStep(d, other);
      r.draft == d && r.saved == None && (r.next == At(Confirmation) <==> HasAllBuckets(Buckets(d)))
  {
  }

  /** Leaving the hub while editing returns to the edit menu and clears the flag. */
  lemma LeavingHubWhileEditing(d: Draft)
    requires d.editingSocial
    ensures MenuChoice(d, "skip_social") == SaveGoto(EditChoice, d.(editingSocial := false))
  {
  }

  /** A confirmed registration commits; an edit request opens the edit menu. */
  lemma ConfirmRoutes(d: Draft)
    ensures Confirm(d, "confirm_yes") == Outcome(Commit, d, None)
    ensures Confirm(d, "confirm_edit") == SaveGoto(EditChoice, d)
  {
  }

  /** `/cancel` ends the conversation and leaves the draft and the checkpoint as they were. */
  lemma CancelKeepsCheckpoint(stage: Stage, d: Draft, args: seq<string>, env: Env)
    ensures Step(stage, d, Command("cancel", args), env) == Outcome(End, d, None)
  {
  }
}

/**
 * The conversation steps. Each handler of the registration dialogue is a
 * function from the current stage, the draft and one incoming event to an
 * `Outcome`: where the conversation goes, the draft afterwards, and the last
 * checkpoint the handler wrote (a later save in the same handler replaces an
 * earlier one, so only the last is kept).
 */
module Handlers {
  import opened Wrappers
  import opened Strings
  import opened SocialLinks
  import opened Validators
  import opened Referral
  import opened Stages
  import opened Drafts

  /** Where the conversation goes: a stage, its end, or the commit of the
      draft (`save_all_data`, which needs the profile tables). */
  datatype Next = At(stage: Stage) | End | Commit

  datatype Outcome = Outcome(next: Next, draft: Draft, saved: Option<Checkpoint>)

  /** The three kinds of update the conversation reacts to: a text message that
      is not a command, a pressed inline button, and a command with its arguments. */
  datatype Event = Text(text: string) | Button(data: string) | Command(name: string, args: seq<string>)

  /**
   * What a step may consult besides the draft: the sender, the year of the
   * clock, the phone-number library (as the E.164 form of a valid number) and
   * the referral codes of the profile table.
   */
  datatype Env = Env(
    userId: int,
    username: Option<string>,
    currentYear: int,
    e164: string -> Option<string>,
    codes: set<string>)

  /** Go to `s` without writing a checkpoint. */
  function Goto(s: Stage, d: Draft): Outcome {
    Outcome(At(s), d, None)
  }

  /** Write the checkpoint `(s, d)` and go to `s`. */
  function SaveGoto(s: Stage, d: Draft): Outcome {
    Outcome(At(s), d, Some(Checkpoint(s, d)))
  }

  /** A checkpoint written before `r` was computed stays the last one unless `r` writes another. */
  function SavedBefore(cp: Checkpoint, r: Outcome): Outcome {
    if r.saved.Some? then r else r.(saved := Some(cp))
  }

  /** The step leaves the link dictionary as it was, in the draft and in the checkpoint it wrote. */
  predicate SameSocial(d: Draft, r: Outcome) {
    r.draft.social == d.social && (r.saved.Some? ==> r.saved.value.draft.social == d.social)
  }

  /** The draft invariant holds after the step, in the draft and in the checkpoint it wrote. */
  predicate ValidOutcome(r: Outcome) {
    Valid(r.draft) && (r.saved.Some? ==> Valid(r.saved.value.draft))
  }

  // ---------------------------------------------------------------------------
  // The screens that several handlers end with.

  /** `show_social_media_menu`: saves the hub stage unless a bucket is missing
      (the summary then raises `KeyError`, which the handler catches). */
  function ShowMenu(d: Draft): (r: Outcome)
    ensures r.next == At(SocialMediaMenu) && r.draft == d
    ensures r.saved.Some? <==> HasAllBuckets(Buckets(d))
    ensures r.saved.Some? ==> r.saved.value == Checkpoint(SocialMediaMenu, d)
  {
    if HasAllBuckets(Buckets(d)) then SaveGoto(SocialMediaMenu, d) else Goto(SocialMediaMenu, d)
  }

  /** `show_edit_options`: saves and shows the edit menu. */
  function ShowEditOptions(d: Draft): (r: Outcome)
    ensures SameSocial(d, r)
  {
    SaveGoto(EditChoice, d)
  }

  /** `show_confirmation`: shows the summary and moves to the confirmation; a
      missing bucket raises `KeyError` out of the handler, which leaves the
      conversation at `here`. */
  function ShowConfirmation(d: Draft, here: Stage): (r: Outcome)
    ensures r.draft == d && r.saved == None
    ensures r.next == At(Confirmation) <==> HasAllBuckets(Buckets(d)) || here == Confirmation
  {
    if HasAllBuckets(Buckets(d)) then Goto(Confirmation, d) else Goto(here, d)
  }

  // ---------------------------------------------------------------------------
  // The linear part: each step checks its input and either stays or sets its
  // field, saves the next stage's name and moves on. The edit steps use the
  // same checks with the edit menu as the next stage.

  /** `get_referral` */
  function GetReferral(d: Draft, text: string, codes: set<string>): (r: Outcome)
    ensures SameSocial(d, r)
  {
    var input := Lower(Strip(text));
    if input in YesWords then
      if Truthy(d.invitedBy) then SaveGoto(FullName, d) else Goto(ReferralStage, d)
    else if input in NoWords then
      SaveGoto(FullName, d.(invitedBy := None))
    else if ValidReferral(Upper(input), codes) then
      SaveGoto(FullName, d.(invitedBy := Some(Upper(input))))
    else
      Goto(ReferralStage, d)
  }

  /** `get_full_name`, `edit_full_name` */
  function SetFullName(d: Draft, text: string, here: Stage, next: Stage): (r: Outcome)
    ensures SameSocial(d, r)
  {
    var name := Strip(text);
    if IsFullName(name) then SaveGoto(next, d.(fullName := Some(name))) else Goto(here, d)
  }

  /** `get_country`, `edit_country`: the name exactly as on the keyboard. */
  function SetCountry(d: Draft, text: string, here: Stage, next: Stage): (r: Outcome)
    ensures SameSocial(d, r)
  {
    if text in Countries then SaveGoto(next, d.(country := Some(text), countryCode := Some(Countries[text])))
    else Goto(here, d)
  }

  /** `get_gender`, `edit_gender` */
  function SetGender(d: Draft, text: string, here: Stage, next: Stage): (r: Outcome)
    ensures SameSocial(d, r)
  {
    if text in Genders then SaveGoto(next, d.(gender := Some(text))) else Goto(here, d)
  }

  /** `get_birth_year`, `edit_birth_year` */
  function SetBirthYear(d: Draft, text: string, currentYear: int, here: Stage, next: Stage): (r: Outcome)
    ensures SameSocial(d, r)
  {
    var v := ValidateBirthYear(text, currentYear);
    if v.0 then SaveGoto(next, d.(birthYear := v.1)) else Goto(here, d)
  }

  /** The calling code the phone steps use. */
  function CountryCodeOf(d: Draft): string {
    d.countryCode.GetOr(DefaultCountryCode)
  }

  /** `get_phone`, `edit_phone`: the number is stored in its E.164 form. */
  function SetPhone(d: Draft, text: string, e164: string -> Option<string>, here: Stage, next: Stage): (r: Outcome)
    ensures SameSocial(d, r)
  {
    match ValidatePhone(text, CountryCodeOf(d), e164)
    case Some(p) => SaveGoto(next, d.(phone := Some(p)))
    case None => Goto(here, d)
  }

  /** `get_email`, `edit_email` */
  function SetEmail(d: Draft, text: string, here: Stage, next: Stage): (r: Outcome)
    ensures SameSocial(d, r)
  {
    var e := Strip(text);
    if IsEmail(e) then SaveGoto(next, d.(email := Some(e))) else Goto(here, d)
  }

  // ---------------------------------------------------------------------------
  // The social hub.

  function UrlStage(p: Platform): (s: Stage)
    ensures IsUrlStage(s)
  {
    match p
    case Facebook => FacebookUrl
    case Instagram => InstagramUrl
    case YouTube => YoutubeUrl
    case OtherLinks => OtherSocialMedia
  }

  /** The platform whose bucket a link step fills. */
  function LinkPlatform(s: Stage): (p: Platform)
    requires IsUrlStage(s)
    ensures UrlStage(p) == s
  {
    match s
    case FacebookUrl => Facebook
    case InstagramUrl => Instagram
    case YoutubeUrl => YouTube
    case OtherSocialMedia => OtherLinks
  }

  /** The platform check of the Facebook, Instagram and YouTube link steps. */
  predicate AcceptsLink(p: Platform, url: string) {
    match p
    case Facebook => IsFacebookUrl(url)
    case Instagram => IsInstagramUrl(url)
    case YouTube => IsYoutubeUrl(url)
    case OtherLinks => true
  }

  predicate IsSkipWord(p: Platform, input: string) {
    Lower(input) in (if p == OtherLinks then OtherSkipWords else LinkSkipWords)
  }

  /** The link as it is stored: the query cut off at the first `?`, `https://` put
      in front unless it starts with `http`, and for Facebook the mobile host
      replaced by `www.facebook.com`. */
  function LinkUrl(input: string, p: Platform): string {
    var u0 := if Contains(input, "?") then SplitFirst(input, "?") else input;
    var u1 := if StartsWith(u0, "http") then u0 else "https://" + u0;
    if p == Facebook then ReplaceAll(u1, "m.facebook.com", "www.facebook.com") else u1
  }

  /** `is_duplicate_social_media`: the platform's bucket holds a link that cleans
      to the same string. */
  predicate IsDuplicate(m: Social, p: Platform, url: string) {
    p in m && HasKeyed(m[p], Clean, Clean(url))
  }

  /** The loop of `is_duplicate_social_media`: compares the cleaned new link with
      each cleaned link of the bucket in turn. */
  method FindDuplicate(m: Social, p: Platform, url: string) returns (dup: bool)
    ensures dup == IsDuplicate(m, p, url)
  {
    if p !in m {
      return false;
    }
    dup := FindKeyed(m[p], Clean, Clean(url));
  }

  method FindKeyed(b: seq<string>, key: string -> string, k: string) returns (found: bool)
    ensures found == HasKeyed(b, key, k)
  {
    var i := 0;
    while i < |b|
      invariant 0 <= i <= |b|
      invariant forall j :: 0 <= j < i ==> key(b[j]) != k
    {
      if key(b[i]) == k {
        return true;
      }
      i := i + 1;
    }
    return false;
  }

  /** `get_facebook_url`, `get_instagram_url`, `get_youtube_url`, `get_other_social_media`.
      The step for other links checks the typed text against the list of social
      domains before it builds the link; the other three check the built link. */
  function AddLink(d: Draft, text: string, p: Platform): (r: Outcome)
    ensures Valid(d) ==> ValidOutcome(r)
  {
    var input := Strip(text);
    if IsSkipWord(p, input) then ShowMenu(d)
    else if p == OtherLinks && !IsSocialUrl(input) then Goto(OtherSocialMedia, d)
    else
      var url := LinkUrl(input, p);
      if !AcceptsLink(p, url) then Goto(UrlStage(p), d)
      else StoreLink(d, p, url)
  }

  /** The end of the four link steps, once the link is accepted: the buckets are
      created when absent, a duplicate is refused, and otherwise the link is
      appended to its bucket and the hub stage is saved. */
  function StoreLink(d: Draft, p: Platform, url: string): (r: Outcome)
    ensures Valid(d) ==> ValidOutcome(r)
  {
    var m := Buckets(d);
    var d1 := d.(social := Some(m));
    BucketsKeepValid(d);
    if IsDuplicate(m, p, url) then Goto(UrlStage(p), d1)
    else if p !in m then ShowMenu(d1)
    else
      var d2 := d1.(social := Some(m[p := m[p] + [url]]));
      AppendKeepsValid(d, p, url);
      SavedBefore(Checkpoint(SocialMediaMenu, d2), ShowMenu(d2))
  }

  /** Writing the buckets a step reads back into the draft keeps the invariant. */
  lemma BucketsKeepValid(d: Draft)
    ensures Valid(d) ==> Valid(d.(social := Some(Buckets(d))))
  {
    if Valid(d) {
      BucketsDistinct(d);
    }
  }

  /** Appending a link that is not a duplicate keeps the invariant. */
  lemma AppendKeepsValid(d: Draft, p: Platform, url: string)
    requires p in Buckets(d) && !IsDuplicate(Buckets(d), p, url)
    ensures var m := Buckets(d);
      Valid(d) ==> Valid(d.(social := Some(m[p := m[p] + [url]])))
  {
    if Valid(d) {
      var m := Buckets(d);
      BucketsDistinct(d);
      AppendKeepsDistinctSocial(m, p, url);
      WithSocialValid(d, m[p := m[p] + [url]]);
    }
  }

  /** A draft whose dictionary keeps the invariant keeps it. */
  lemma WithSocialValid(d: Draft, m: Social)
    requires DistinctSocial(Some(m)) && CompleteSocial(Some(m))
    ensures Valid(d.(social := Some(m)))
  {
  }

  /** The same on the dictionary alone. */
  lemma AppendKeepsDistinctSocial(m: Social, p: Platform, url: string)
    requires p in m && !IsDuplicate(m, p, url)
    requires forall q :: q in m ==> DistinctLinks(m[q])
    requires HasAllBuckets(m)
    ensures DistinctSocial(Some(m[p := m[p] + [url]])) && CompleteSocial(Some(m[p := m[p] + [url]]))
  {
    UpdateKeepsDistinct(m, Clean, p, url, m[p := m[p] + [url]]);
  }

  /** Appending an element with a new key to one bucket keeps every bucket's keys distinct. */
  lemma UpdateKeepsDistinct(m: Social, key: string -> string, p: Platform, url: string, m2: Social)
    requires p in m && !HasKeyed(m[p], key, key(url)) && m2 == m[p := m[p] + [url]]
    requires forall q :: q in m ==> DistinctKeys(m[q], key)
    ensures forall q :: q in m2 ==> DistinctKeys(m2[q], key)
  {
    AppendKeepsDistinct(m[p], key, url);
  }

  /** `proceed_to_payment`: back to the edit menu when the hub was opened from
      it, else on to the payment method. */
  function ProceedToPayment(d: Draft): (r: Outcome)
    ensures SameSocial(d, r)
  {
    if d.editingSocial then ShowEditOptions(d.(editingSocial := false))
    else SaveGoto(PaymentMethod, d)
  }

  /** `handle_social_media_menu` */
  function MenuChoice(d: Draft, data: string): (r: Outcome)
    ensures SameSocial(d, r)
  {
    if data == "add_facebook" then Goto(FacebookUrl, d)
    else if data == "add_instagram" then Goto(InstagramUrl, d)
    else if data == "add_youtube" then Goto(YoutubeUrl, d)
    else if data == "add_other" then Goto(OtherSocialMedia, d)
    else ProceedToPayment(d)
  }

  // ---------------------------------------------------------------------------
  // Payment.

  /** `get_payment_method`: the text is stored before it is checked. */
  function GetPaymentMethod(d: Draft, text: string): (r: Outcome)
    ensures SameSocial(d, r)
  {
    var d1 := d.(paymentMethod := Some(text));
    if text == ByWallet then SaveGoto(WalletType, d1)
    else if text == ByTransfer then SaveGoto(TransferDetails, d1)
    else Goto(PaymentMethod, d1)
  }

  /** `get_wallet_type` */
  function GetWalletType(d: Draft, text: string): (r: Outcome)
    ensures SameSocial(d, r)
  {
    if text !in WalletChoices then Goto(WalletType, d)
    else if text == OtherWallet then SaveGoto(NewWalletType, d)
    else SaveGoto(WalletAddress, d.(walletType := Some(text)))
  }

  /** `get_new_wallet_type`: a wallet name of two to twenty characters. */
  function GetNewWalletType(d: Draft, text: string): (r: Outcome)
    ensures SameSocial(d, r)
  {
    var name := Strip(text);
    if |name| > 20 then Goto(NewWalletType, d)
    else if |name| < 2 then Goto(NewWalletType, d)
    else SaveGoto(WalletAddress, d.(walletType := Some(name)))
  }

  /** The end of the wallet and transfer branches: the confirmation stage is
      saved, then an edit of the payment method returns to the edit menu and
      clears its flag, and otherwise the summary is shown. */
  function PaymentComplete(d: Draft, here: Stage): (r: Outcome)
    ensures SameSocial(d, r)
  {
    if d.editingPayment then ShowEditOptions(d.(editingPayment := false))
    else SavedBefore(Checkpoint(Confirmation, d), ShowConfirmation(d, here))
  }

  /** `get_wallet_address` */
  function GetWalletAddress(d: Draft, text: string): (r: Outcome)
    ensures SameSocial(d, r)
  {
    var address := Strip(text);
    if |address| < 5 then Goto(WalletAddress, d)
    else PaymentComplete(d.(walletAddress := Some(address)), WalletAddress)
  }

  /** `get_transfer_details`, the handler of all four transfer stages: the first
      missing transfer key decides which detail the text is, whatever the
      current stage. */
  function GetTransferDetails(stage: Stage, d: Draft, text: string, e164: string -> Option<string>): (r: Outcome)
    ensures SameSocial(d, r)
  {
    if d.transferName.None? then
      var name := Strip(text);
      if IsFullName(name) then SaveGoto(TransferPhone, d.(transferName := Some(name)))
      else Goto(TransferDetails, d)
    else if d.transferPhone.None? then
      match ValidatePhone(text, CountryCodeOf(d), e164)
      case Some(p) => SaveGoto(TransferLocation, d.(transferPhone := Some(p)))
      case None => Goto(TransferPhone, d)
    else if d.transferLocation.None? then
      var location := Strip(text);
      if |location| < 5 then Goto(TransferLocation, d)
      else SaveGoto(TransferCompany, d.(transferLocation := Some(location)))
    else if text !in TransferCompanies then Goto(TransferCompany, d)
    else PaymentComplete(d.(transferCompany := Some(text)), stage)
  }

  // ---------------------------------------------------------------------------
  // Confirmation and editing.

  /** `handle_confirmation` */
  function Confirm(d: Draft, data: string): (r: Outcome)
    ensures SameSocial(d, r)
  {
    if data == "confirm_yes" then Outcome(Commit, d, None)
    else if data == "confirm_edit" then ShowEditOptions(d)
    else Outcome(End, d, None)
  }

  /** `handle_edit_choice` */
  function EditChoiceStep(d: Draft, data: string): (r: Outcome)
    ensures SameSocial(d, r)
  {
    if data == "edit_name" then Goto(EditFullName, d)
    else if data == "edit_country" then Goto(EditCountry, d)
    else if data == "edit_gender" then Goto(EditGender, d)
    else if data == "edit_birthyear" then Goto(EditBirthYear, d)
    else if data == "edit_phone" then Goto(EditPhone, d)
    else if data == "edit_email" then Goto(EditEmail, d)
    else if data == "edit_social" then ShowMenu(d.(editingSocial := true))
    else if data == "edit_payment" then Goto(EditPaymentMethod, d)
    else ShowConfirmation(d, EditChoice)
  }

  /** The draft with the six wallet and transfer keys deleted. */
  function ClearPayment(d: Draft): (r: Draft)
    ensures NoPaymentDetails(r)
    ensures r.(walletType := d.walletType, walletAddress := d.walletAddress,
               transferName := d.transferName, transferPhone := d.transferPhone,
               transferLocation := d.transferLocation, transferCompany := d.transferCompany) == d
  {
    d.(walletType := None, walletAddress := None, transferName := None,
       transferPhone := None, transferLocation := None, transferCompany := None)
  }

  /** The six keys `edit_payment_method` deletes. */
  datatype PaymentKey = WalletTypeKey | WalletAddressKey | TransferNameKey
                      | TransferPhoneKey | TransferLocationKey | TransferCompanyKey

  const PaymentKeys: seq<PaymentKey> :=
    [WalletTypeKey, WalletAddressKey, TransferNameKey, TransferPhoneKey, TransferLocationKey, TransferCompanyKey]

  predicate HasKey(d: Draft, k: PaymentKey) {
    match k
    case WalletTypeKey => d.walletType.Some?
    case WalletAddressKey => d.walletAddress.Some?
    case TransferNameKey => d.transferName.Some?
    case TransferPhoneKey => d.transferPhone.Some?
    case TransferLocationKey => d.transferLocation.Some?
    case TransferCompanyKey => d.transferCompany.Some?
  }

  /** `del user_data[key]` */
  function DeleteKey(d: Draft, k: PaymentKey): Draft {
    match k
    case WalletTypeKey => d.(walletType := None)
    case WalletAddressKey => d.(walletAddress := None)
    case TransferNameKey => d.(transferName := None)
    case TransferPhoneKey => d.(transferPhone := None)
    case TransferLocationKey => d.(transferLocation := None)
    case TransferCompanyKey => d.(transferCompany := None)
  }

  /** The draft after deleting the first `n` keys of the list. */
  function DeletedUpTo(d: Draft, n: nat): Draft
    requires n <= |PaymentKeys|
  {
    if n == 0 then d else DeleteKey(DeletedUpTo(d, n - 1), PaymentKeys[n - 1])
  }

  /** The loop of `edit_payment_method` that deletes whichever payment keys are present. */
  method DeletePaymentKeys(d: Draft) returns (r: Draft)
    ensures r == ClearPayment(d)
  {
    r := d;
    for i := 0 to |PaymentKeys|
      invariant r == DeletedUpTo(d, i)
    {
      var key := PaymentKeys[i];
      if HasKey(r, key) {
        r := DeleteKey(r, key);
      } else {
        assert DeleteKey(r, key) == r;
      }
    }
    DeletedAll(d);
  }

  /** Deleting the six keys one after the other clears the payment details. */
  lemma DeletedAll(d: Draft)
    ensures DeletedUpTo(d, |PaymentKeys|) == ClearPayment(d)
  {
    assert DeletedUpTo(d, 1) == d.(walletType := None);
    assert DeletedUpTo(d, 2) == d.(walletType := None, walletAddress := None);
    assert DeletedUpTo(d, 3) == d.(walletType := None, walletAddress := None, transferName := None);
    assert DeletedUpTo(d, 4) == d.(walletType := None, walletAddress := None, transferName := None,
                                   transferPhone := None);
    assert DeletedUpTo(d, 5) == d.(walletType := None, walletAddress := None, transferName := None,
                                   transferPhone := None, transferLocation := None);
  }

  /** `edit_payment_method`: stores the text, deletes the payment keys and sets
      the editing flag before it checks the choice. */
  function EditPayment(d: Draft, text: string): (r: Outcome)
    ensures SameSocial(d, r)
  {
    var d1 := ClearPayment(d.(paymentMethod := Some(text))).(editingPayment := true);
    if text == ByWallet then SaveGoto(WalletType, d1)
    else if text == ByTransfer then SaveGoto(TransferDetails, d1)
    else Goto(EditPaymentMethod, d1)
  }

  // ---------------------------------------------------------------------------
  // Fallbacks, starting and resuming.

  /** `new_start`: the checkpoint is replaced by a fresh draft at the first stage. */
  function NewStart(env: Env): (r: Outcome)
    ensures ValidOutcome(r)
  {
    SaveGoto(ReferralStage, Fresh(env.userId, env.username))
  }

  /** The buckets of a restored draft: all four when the dictionary was lost, and
      an empty YouTube bucket added when only that one is missing. */
  function RestoreSocial(o: Option<Social>): (m: Social)
    ensures YouTube in m
    ensures o.None? ==> m == EmptySocial
    ensures o.Some? ==> forall p :: p in o.value ==> p in m && m[p] == o.value[p]
    ensures o.Some? ==> forall p :: p in m ==> p in o.value || (p == YouTube && m[p] == [])
  {
    match o
    case None => EmptySocial
    case Some(m) => if YouTube in m then m else m[YouTube := []]
  }

  /** The resume branch of `handle_invited_user`. */
  function Resume(cp: Checkpoint, code: string): (r: Outcome)
    ensures Valid(cp.draft) ==> ValidOutcome(r)
  {
    var d0 := cp.draft.(invitedBy := Some(code));
    var d := d0.(social := Some(RestoreSocial(d0.social)));
    var s := ResumeStage(cp.stage);
    if s == SocialMediaMenu || IsUrlStage(s) then ShowMenu(d) else Goto(s, d)
  }

  /** `handle_invited_user`. `registered` says whether the profile table has the
      user; `cp` is the user's checkpoint. */
  function InvitedStart(d: Draft, code: string, env: Env, registered: bool, cp: Option<Checkpoint>): (r: Outcome)
    ensures Valid(d) && (cp.Some? ==> Valid(cp.value.draft)) ==> ValidOutcome(r)
  {
    if !ValidReferral(code, env.codes) then Outcome(End, d, None)
    else if registered then Outcome(End, d, None)
    else if cp.Some? then Resume(cp.value, code)
    else SaveGoto(ReferralStage, Fresh(env.userId, env.username).(invitedBy := Some(code)))
  }

  /** `start` and `handle_allowed_user_start`. `allowed` is `Some(isOwner)` for a
      user on the allowed list. */
  function Start(d: Draft, args: seq<string>, env: Env, allowed: Option<bool>, registered: bool, cp: Option<Checkpoint>): (r: Outcome)
    ensures Valid(d) && (cp.Some? ==> Valid(cp.value.draft)) ==> ValidOutcome(r)
  {
    if allowed.Some? then
      if registered then Outcome(End, d, None)
      else SaveGoto(ReferralStage, Fresh(env.userId, env.username).(allowed := allowed))
    else if |args| > 0 then InvitedStart(d, args[0], env, registered, cp)
    else Outcome(End, d, None)
  }

  // ---------------------------------------------------------------------------
  // The wiring of the conversation.

  /** The handler a text message reaches in each stage. */
  function TextStep(stage: Stage, d: Draft, text: string, env: Env): (r: Outcome)
    ensures Valid(d) ==> ValidOutcome(r)
  {
    match stage
    case ReferralStage => GetReferral(d, text, env.codes)
    case FullName => SetFullName(d, text, FullName, Country)
    case Country => SetCountry(d, text, Country, Gender)
    case Gender => SetGender(d, text, Gender, BirthYear)
    case BirthYear => SetBirthYear(d, text, env.currentYear, BirthYear, Phone)
    case Phone => SetPhone(d, text, env.e164, Phone, Email)
    case Email => SetEmail(d, text, Email, SocialMediaMenu)
    case FacebookUrl | InstagramUrl | YoutubeUrl | OtherSocialMedia => AddLink(d, text, LinkPlatform(stage))
    case PaymentMethod => GetPaymentMethod(d, text)
    case WalletType => GetWalletType(d, text)
    case NewWalletType => GetNewWalletType(d, text)
    case WalletAddress => GetWalletAddress(d, text)
    case TransferDetails | TransferPhone | TransferLocation | TransferCompany => GetTransferDetails(stage, d, text, env.e164)
    case EditFullName => SetFullName(d, text, EditFullName, EditChoice)
    case EditCountry => SetCountry(d, text, EditCountry, EditChoice)
    case EditGender => SetGender(d, text, EditGender, EditChoice)
    case EditBirthYear => SetBirthYear(d, text, env.currentYear, EditBirthYear, EditChoice)
    case EditPhone => SetPhone(d, text, env.e164, EditPhone, EditChoice)
    case EditEmail => SetEmail(d, text, EditEmail, EditChoice)
    case EditPaymentMethod => EditPayment(d, text)
    case _ => Goto(stage, d)
  }

  /** The handler a pressed button reaches in each stage. */
  function ButtonStep(stage: Stage, d: Draft, data: string): (r: Outcome)
    ensures SameSocial(d, r)
  {
    match stage
    case SocialMediaMenu => MenuChoice(d, data)
    case Confirmation => Confirm(d, data)
    case EditChoice => EditChoiceStep(d, data)
    case _ => Goto(stage, d)
  }

  /** One event during the conversation. Commands reach only the fallbacks
      `/cancel` (which ends the conversation and keeps the checkpoint) and
      `/newstart`; any update no handler of the stage takes is ignored. */
  function Step(stage: Stage, d: Draft, ev: Event, env: Env): (r: Outcome)
    ensures Valid(d) ==> ValidOutcome(r)
  {
    match ev
    case Text(t) => TextStep(stage, d, t, env)
    case Button(b) => ButtonStep(stage, d, b)
    case Command(name, _) =>
      if name == "cancel" then Outcome(End, d, None)
      else if name == "newstart" then NewStart(env)
      else Goto(stage, d)
  }
}

/**
 * The registration draft (the bot's per-user `user_data` dictionary), its four
 * link buckets, the saved checkpoint, and the fixed choice lists the steps
 * check their input against.
 */
module Drafts {
  import opened Wrappers
  import opened Strings
  import opened SocialLinks
  import opened Stages

  /** The keys of the `social_media` dictionary. */
  datatype Platform = Facebook | Instagram | YouTube | OtherLinks

  type Social = map<Platform, seq<string>>

  /** `{'facebook': [], 'instagram': [], 'youtube': [], 'other': []}` */
  const EmptySocial: Social := map[Facebook := [], Instagram := [], YouTube := [], OtherLinks := []]

  predicate HasAllBuckets(m: Social) {
    Facebook in m && Instagram in m && YouTube in m && OtherLinks in m
  }

  /**
   * The draft. An `Option` field is a key that may be absent (a key set to
   * `None` reads the same through `dict.get`); `social` is absent until the
   * first step that creates it; the two editing flags are absent when false;
   * `allowed` is `Some(isOwner)` when the user started as an allowed user.
   */
  datatype Draft = Draft(
    username: Option<string>,
    userId: int,
    invitedBy: Option<string>,
    fullName: Option<string>,
    country: Option<string>,
    countryCode: Option<string>,
    gender: Option<string>,
    birthYear: Option<int>,
    phone: Option<string>,
    email: Option<string>,
    social: Option<Social>,
    paymentMethod: Option<string>,
    walletType: Option<string>,
    walletAddress: Option<string>,
    transferName: Option<string>,
    transferPhone: Option<string>,
    transferLocation: Option<string>,
    transferCompany: Option<string>,
    editingSocial: bool,
    editingPayment: bool,
    allowed: Option<bool>,
    referralCode: Option<string>)

  /** A saved registration: the stage name written with the draft, and the draft. */
  datatype Checkpoint = Checkpoint(stage: Stage, draft: Draft)

  /** The draft every start and restart builds: the user, and four empty buckets. */
  function Fresh(userId: int, username: Option<string>): (d: Draft)
    ensures d.social == Some(EmptySocial) && d.userId == userId && d.username == username
    ensures d.invitedBy == None && d.paymentMethod == None && !d.editingSocial && !d.editingPayment
    ensures Valid(d)
  {
    Draft(username, userId, None, None, None, None, None, None, None, None, Some(EmptySocial),
          None, None, None, None, None, None, None, false, false, None, None)
  }

  /** `user_data.get('social_media', {...four empty lists...})` */
  function Buckets(d: Draft): Social {
    d.social.GetOr(EmptySocial)
  }

  /** Python truthiness of an optional string: present and not empty. */
  predicate Truthy(o: Option<string>) {
    o.Some? && |o.value| > 0
  }

  /** Some element of `b` has the key `k` under `key`. */
  predicate HasKeyed(b: seq<string>, key: string -> string, k: string) {
    exists i :: 0 <= i < |b| && key(b[i]) == k
  }

  /** No two elements of `b` have the same key under `key`. */
  predicate DistinctKeys(b: seq<string>, key: string -> string) {
    forall i, j :: 0 <= i < j < |b| ==> key(b[i]) != key(b[j])
  }

  /** Appending an element whose key is new keeps the keys distinct. */
  lemma AppendKeepsDistinct(b: seq<string>, key: string -> string, x: string)
    requires DistinctKeys(b, key) && !HasKeyed(b, key, key(x))
    ensures DistinctKeys(b + [x], key)
  {
    var b2 := b + [x];
    forall i, j | 0 <= i < j < |b2| ensures key(b2[i]) != key(b2[j]) {
      if j == |b| {
        assert b2[i] == b[i];
      } else {
        assert b2[i] == b[i] && b2[j] == b[j];
      }
    }
  }

  /** No two links of one bucket clean to the same string. */
  predicate DistinctLinks(b: seq<string>) {
    DistinctKeys(b, Clean)
  }

  /** Every bucket of the dictionary, when there is one, holds distinct links. */
  predicate DistinctSocial(o: Option<Social>) {
    o.Some? ==> forall p :: p in o.value ==> DistinctLinks(o.value[p])
  }

  /** The dictionary, when there is one, has all four buckets. */
  predicate CompleteSocial(o: Option<Social>) {
    o.Some? ==> HasAllBuckets(o.value)
  }

  /** The buckets a step reads hold distinct links when the draft's do. */
  lemma BucketsDistinct(d: Draft)
    requires DistinctSocial(d.social)
    ensures forall p :: p in Buckets(d) ==> DistinctLinks(Buckets(d)[p])
    ensures CompleteSocial(d.social) ==> HasAllBuckets(Buckets(d))
  {
    if d.social.None? {
      forall p | p in EmptySocial ensures DistinctLinks(EmptySocial[p]) {
        assert EmptySocial[p] == [];
      }
    }
  }

  /** The invariant every draft and checkpoint of the bot keeps. */
  predicate Valid(d: Draft) {
    DistinctSocial(d.social) && CompleteSocial(d.social)
  }

  /** The draft has no payment details: all six wallet and transfer keys are absent. */
  predicate NoPaymentDetails(d: Draft) {
    d.walletType == None && d.walletAddress == None && d.transferName == None &&
    d.transferPhone == None && d.transferLocation == None && d.transferCompany == None
  }

  // ---------------------------------------------------------------------------
  // The fixed choices.

  /** The country names of the keyboard and their calling codes. */
  const Countries: map<string, string> := map[
    "السعودية" := "+966", "مصر" := "+20", "سوريا" := "+963", "الأردن" := "+962",
    "الإمارات" := "+971", "الكويت" := "+965", "قطر" := "+974", "عمان" := "+968",
    "البحرين" := "+973", "لبنان" := "+961", "العراق" := "+964", "الجزائر" := "+213",
    "المغرب" := "+212", "تونس" := "+216", "السودان" := "+249", "اليمن" := "+967"]

  /** The calling code used when the draft has none. */
  const DefaultCountryCode: string := "+966"

  const Genders: seq<string> := ["ذكر", "أنثى"]

  const ElectronicWallets: seq<string> := [
    "PayPal", "Payeer", "Perfect Money", "Skrill", "Neteller", "WebMoney",
    "فودافون كاش", "أورانج موني", "اتصالات كاش", "زين كاش"]

  /** The choice that asks for a wallet name of the user's own. */
  const OtherWallet: string := "محفظة أخرى"

  const WalletChoices: seq<string> := ElectronicWallets + [OtherWallet]

  const TransferCompanies: seq<string> := [
    "Western Union", "MoneyGram", "البنك الأهلي", "البنك السعودي الفرنسي",
    "بنك الرياض", "البنك العربي", "الهرم", "الفؤاد", "شركة أخرى"]

  /** The two payment methods of the keyboard. */
  const ByWallet: string := "محفظة الكترونية"
  const ByTransfer: string := "حوالة مالية"

  const YesWords: seq<string> := ["نعم", "yes", "y", "ye", "yep", "ايوه"]
  const NoWords: seq<string> := ["لا", "no", "skip", "لأ", "لاء"]

  /** The words that leave a Facebook, Instagram or YouTube link step. */
  const LinkSkipWords: seq<string> := ["/skip", "skip", "تخطي"]

  /** The words that leave the step for other links. */
  const OtherSkipWords: seq<string> := ["انتهيت", "لا", "كفاية", "تم", "/skip"]
}

/**
 * The commit of a confirmed registration (`save_all_data`): the rows it
 * inserts into `user_profiles`, `user_links` and `user_payments` in one
 * transaction, the column widths PostgreSQL enforces on them, and the
 * referral counter it raises once the transaction is committed.
 */
module Commit {
  import opened Wrappers
  import opened Strings
  import opened SocialLinks
  import opened Drafts
  import opened Columns

  /** A row of `user_profiles`. */
  datatype Profile = Profile(
    userId: int,
    username: Option<string>,
    email: Option<string>,
    referralCode: string,
    invitedBy: Option<string>,
    fullName: Option<string>,
    country: Option<string>,
    gender: Option<string>,
    birthYear: Option<int>,
    phone: Option<string>,
    totalReferrals: int)

  /** A row of `user_links`. */
  datatype LinkRow = LinkRow(userId: int, platform: string, url: string)

  /** A row of `user_payments`; the columns of the other payment method are NULL. */
  datatype PaymentRow = PaymentRow(
    userId: int,
    paymentMethod: Option<string>,
    walletType: Option<string>,
    walletAddress: Option<string>,
    transferName: Option<string>,
    transferPhone: Option<string>,
    transferLocation: Option<string>,
    transferCompany: Option<string>)

  /** The three tables the commit writes; the profiles are keyed by their
      `user_id` primary key, the two other tables keep insertion order. */
  datatype Tables = Tables(profiles: map<int, Profile>, links: seq<LinkRow>, payments: seq<PaymentRow>)

  // ---------------------------------------------------------------------------
  // The rows.

  /** The profile row of the new member, with a fresh referral count. */
  function ProfileRow(userId: int, d: Draft, code: string): Profile {
    Profile(userId, Cut(d.username, 100), Cut(d.email, 255), code, Cut(d.invitedBy, 20),
            Cut(d.fullName, 200), Cut(d.country, 100), Cut(d.gender, 10), d.birthYear,
            Cut(d.phone, 20), 0)
  }

  predicate ProfileFits(d: Draft, code: string) {
    Fits(d.username, 100) && Fits(d.email, 255) && Fits(Some(code), 20) && Fits(d.invitedBy, 20) &&
    Fits(d.fullName, 200) && Fits(d.country, 100) && Fits(d.gender, 10) && Fits(d.phone, 20)
  }

  /** A bucket of the dictionary, `[]` when the key is absent. */
  function Bucket(m: Social, p: Platform): seq<string> {
    if p in m then m[p] else []
  }

  /** The tag of a link of the `other` bucket: the first of the listed domains it
      mentions, in the order the source tests them, else `Other`. */
  function OtherPlatform(url: string): string {
    if Contains(url, "twitter.com") then "Twitter"
    else if Contains(url, "linkedin.com") then "LinkedIn"
    else if Contains(url, "tiktok.com") then "TikTok"
    else if Contains(url, "snapchat.com") then "Snapchat"
    else if Contains(url, "youtube.com") then "YouTube"
    else if Contains(url, "telegram.me") then "Telegram"
    else "Other"
  }

  /** The tags, in the order of `SocialDomains`. */
  const OtherTags: seq<string> := ["Twitter", "LinkedIn", "TikTok", "Snapchat", "YouTube", "Telegram"]

  /** A link is tagged by the first listed domain it mentions. */
  lemma OtherPlatformFirstDomain(url: string, i: nat)
    requires i < |SocialDomains| && Contains(url, SocialDomains[i])
    requires forall j :: 0 <= j < i ==> !Contains(url, SocialDomains[j])
    ensures OtherPlatform(url) == OtherTags[i]
  {
    if i > 0 { assert !Contains(url, SocialDomains[0]); }
    if i > 1 { assert !Contains(url, SocialDomains[1]); }
    if i > 2 { assert !Contains(url, SocialDomains[2]); }
    if i > 3 { assert !Contains(url, SocialDomains[3]); }
    if i > 4 { assert !Contains(url, SocialDomains[4]); }
  }

  /** A link that mentions none of them is tagged `Other`. */
  lemma OtherPlatformNoDomain(url: string)
    requires !IsSocialUrl(url)
    ensures OtherPlatform(url) == "Other"
  {
    assert !Contains(url, SocialDomains[0]) && !Contains(url, SocialDomains[1]) && !Contains(url, SocialDomains[2]);
    assert !Contains(url, SocialDomains[3]) && !Contains(url, SocialDomains[4]) && !Contains(url, SocialDomains[5]);
  }

  /** The rows of one bucket, all with the same tag, in the bucket's order. */
  function {:induction false} TaggedRows(userId: int, tag: string, urls: seq<string>): (rows: seq<LinkRow>)
    ensures |rows| == |urls|
    ensures forall k :: 0 <= k < |urls| ==> rows[k] == LinkRow(userId, tag, urls[k])
  {
    if |urls| == 0 then []
    else TaggedRows(userId, tag, urls[..|urls| - 1]) + [LinkRow(userId, tag, urls[|urls| - 1])]
  }

  /** The rows of the `other` bucket, each tagged by its own domain. */
  function {:induction false} OtherRows(userId: int, urls: seq<string>): (rows: seq<LinkRow>)
    ensures |rows| == |urls|
    ensures forall k :: 0 <= k < |urls| ==> rows[k] == LinkRow(userId, OtherPlatform(urls[k]), urls[k])
  {
    if |urls| == 0 then []
    else OtherRows(userId, urls[..|urls| - 1]) + [LinkRow(userId, OtherPlatform(urls[|urls| - 1]), urls[|urls| - 1])]
  }

  /** The link rows of one registration: the Facebook, Instagram, YouTube and
      other buckets one after the other. */
  function LinkRows(userId: int, m: Social): seq<LinkRow> {
    TaggedRows(userId, "Facebook", Bucket(m, Facebook)) + TaggedRows(userId, "Instagram", Bucket(m, Instagram)) +
    TaggedRows(userId, "YouTube", Bucket(m, YouTube)) + OtherRows(userId, Bucket(m, OtherLinks))
  }

  /** One row per link, in bucket order and then link order, tagged by its bucket. */
  lemma LinkRowsLayout(userId: int, m: Social)
    ensures var rows := LinkRows(userId, m);
      var f, i, y, o := Bucket(m, Facebook), Bucket(m, Instagram), Bucket(m, YouTube), Bucket(m, OtherLinks);
      |rows| == |f| + |i| + |y| + |o| &&
      (forall k :: 0 <= k < |f| ==> rows[k] == LinkRow(userId, "Facebook", f[k])) &&
      (forall k :: 0 <= k < |i| ==> rows[|f| + k] == LinkRow(userId, "Instagram", i[k])) &&
      (forall k :: 0 <= k < |y| ==> rows[|f| + |i| + k] == LinkRow(userId, "YouTube", y[k])) &&
      (forall k :: 0 <= k < |o| ==> rows[|f| + |i| + |y| + k] == LinkRow(userId, OtherPlatform(o[k]), o[k]))
  {
  }

  /** The loop over one bucket. */
  method EmitTagged(userId: int, tag: string, urls: seq<string>) returns (rows: seq<LinkRow>)
    ensures rows == TaggedRows(userId, tag, urls)
  {
    rows := [];
    for k := 0 to |urls|
      invariant rows == TaggedRows(userId, tag, urls[..k])
    {
      assert urls[..k + 1][..k] == urls[..k];
      rows := rows + [LinkRow(userId, tag, urls[k])];
    }
    assert urls[..|urls|] == urls;
  }

  /** The loop over the `other` bucket. */
  method EmitOther(userId: int, urls: seq<string>) returns (rows: seq<LinkRow>)
    ensures rows == OtherRows(userId, urls)
  {
    rows := [];
    for k := 0 to |urls|
      invariant rows == OtherRows(userId, urls[..k])
    {
      assert urls[..k + 1][..k] == urls[..k];
      var url := urls[k];
      var platform := "Other";
      if Contains(url, "twitter.com") {
        platform := "Twitter";
      } else if Contains(url, "linkedin.com") {
        platform := "LinkedIn";
      } else if Contains(url, "tiktok.com") {
        platform := "TikTok";
      } else if Contains(url, "snapchat.com") {
        platform := "Snapchat";
      } else if Contains(url, "youtube.com") {
        platform := "YouTube";
      } else if Contains(url, "telegram.me") {
        platform := "Telegram";
      }
      rows := rows + [LinkRow(userId, platform, url)];
    }
    assert urls[..|urls|] == urls;
  }

  /** The four loops of `save_all_data` over the buckets. */
  method EmitLinkRows(userId: int, m: Social) returns (rows: seq<LinkRow>)
    ensures rows == LinkRows(userId, m)
  {
    var fb := EmitTagged(userId, "Facebook", Bucket(m, Facebook));
    var ig := EmitTagged(userId, "Instagram", Bucket(m, Instagram));
    var yt := EmitTagged(userId, "YouTube", Bucket(m, YouTube));
    var other := EmitOther(userId, Bucket(m, OtherLinks));
    rows := fb + ig + yt + other;
  }

  predicate LinksFit(m: Social) {
    forall p :: p in m ==> forall k :: 0 <= k < |m[p]| ==> Fits(Some(m[p][k]), 500)
  }

  /** The rows as stored, each link cut to the width of `url`: a stored link
      is a prefix of the link of at most 500 characters, the whole link when
      that is short enough, and the link less trailing spaces only when it
      fits; nothing else in the row changes. */
  function StoredLinks(rows: seq<LinkRow>): (s: seq<LinkRow>)
    ensures |s| == |rows|
    ensures forall k :: 0 <= k < |rows| ==>
      s[k].(url := rows[k].url) == rows[k] && |s[k].url| <= 500 && s[k].url <= rows[k].url &&
      (|rows[k].url| <= 500 ==> s[k].url == rows[k].url) &&
      (Fits(Some(rows[k].url), 500) ==> forall i :: |s[k].url| <= i < |rows[k].url| ==> rows[k].url[i] == ' ')
  {
    seq(|rows|, k requires 0 <= k < |rows| => rows[k].(url := Cut(Some(rows[k].url), 500).value))
  }

  /** The payment row: the wallet columns when the method is the electronic
      wallet, and the transfer columns for anything else. */
  function PaymentRowOf(userId: int, d: Draft): (row: PaymentRow)
    ensures row.userId == userId && row.paymentMethod == Cut(d.paymentMethod, 50)
    ensures d.paymentMethod == Some(ByWallet) ==>
      row.transferName == None && row.transferPhone == None && row.transferLocation == None && row.transferCompany == None
    ensures d.paymentMethod != Some(ByWallet) ==> row.walletType == None && row.walletAddress == None
  {
    if d.paymentMethod == Some(ByWallet) then
      PaymentRow(userId, Cut(d.paymentMethod, 50), Cut(d.walletType, 100), Cut(d.walletAddress, 500),
                 None, None, None, None)
    else
      PaymentRow(userId, Cut(d.paymentMethod, 50), None, None,
                 Cut(d.transferName, 200), Cut(d.transferPhone, 20), Cut(d.transferLocation, 200),
                 Cut(d.transferCompany, 100))
  }

  predicate PaymentFits(d: Draft) {
    Fits(d.paymentMethod, 50) &&
    if d.paymentMethod == Some(ByWallet) then Fits(d.walletType, 100) && Fits(d.walletAddress, 500)
    else Fits(d.transferName, 200) && Fits(d.transferPhone, 20) && Fits(d.transferLocation, 200) &&
         Fits(d.transferCompany, 100)
  }

  // ---------------------------------------------------------------------------
  // The transaction.

  /** Every referral code of the profile table. */
  function Codes(profiles: map<int, Profile>): set<string> {
    set u | u in profiles :: profiles[u].referralCode
  }

  /** No two profiles share a referral code (the column is `UNIQUE`). */
  predicate CodesUnique(profiles: map<int, Profile>) {
    forall u, v :: u in profiles && v in profiles && u != v ==> profiles[u].referralCode != profiles[v].referralCode
  }

  /** The transaction commits only when the user has no profile yet, the code is
      new, and every value fits its column. */
  predicate CanCommit(t: Tables, userId: int, d: Draft, code: string) {
    userId !in t.profiles && code !in Codes(t.profiles) &&
    ProfileFits(d, code) && LinksFit(Buckets(d)) && PaymentFits(d)
  }

  /** The three inserts of `save_all_data`, all or nothing. */
  function Transaction(t: Tables, userId: int, d: Draft, code: string): (r: Option<Tables>)
    ensures r.Some? <==> CanCommit(t, userId, d, code)
  {
    if CanCommit(t, userId, d, code) then
      Some(Insert(t, ProfileRow(userId, d, code), StoredLinks(LinkRows(userId, Buckets(d))), PaymentRowOf(userId, d)))
    else None
  }

  /** The tables with one more profile, its link rows and its payment row. */
  function Insert(t: Tables, p: Profile, rows: seq<LinkRow>, pay: PaymentRow): Tables {
    Tables(t.profiles[p.userId := p], t.links + rows, t.payments + [pay])
  }

  /** A new profile whose key and code are both new keeps the codes unique and
      leaves every earlier profile as it was. */
  lemma AddProfileKeepsCodesUnique(profiles: map<int, Profile>, p: Profile)
    requires CodesUnique(profiles) && p.userId !in profiles && p.referralCode !in Codes(profiles)
    ensures var p2 := profiles[p.userId := p];
      CodesUnique(p2) && Codes(p2) == Codes(profiles) + {p.referralCode} &&
      p2.Keys == profiles.Keys + {p.userId} && forall u :: u in profiles ==> p2[u] == profiles[u]
  {
    var p2 := profiles[p.userId := p];
    AddProfileCodes(profiles, p, p2);
    forall u, v | u in p2 && v in p2 && u != v ensures p2[u].referralCode != p2[v].referralCode {
      if u == p.userId {
        assert p2[v].referralCode in Codes(profiles);
      } else if v == p.userId {
        assert p2[u].referralCode in Codes(profiles);
      }
    }
  }

  /** The codes after the insert are the earlier codes and the new one. */
  lemma AddProfileCodes(profiles: map<int, Profile>, p: Profile, p2: map<int, Profile>)
    requires p.userId !in profiles && p2 == profiles[p.userId := p]
    ensures Codes(p2) == Codes(profiles) + {p.referralCode}
  {
    forall c | c in Codes(p2) ensures c in Codes(profiles) + {p.referralCode} {
      var u :| u in p2 && p2[u].referralCode == c;
      if u != p.userId {
        assert profiles[u].referralCode == c;
      }
    }
    forall c | c in Codes(profiles) + {p.referralCode} ensures c in Codes(p2) {
      if c == p.referralCode {
        assert p2[p.userId].referralCode == c;
      } else {
        var u :| u in profiles && profiles[u].referralCode == c;
        assert p2[u].referralCode == c;
      }
    }
  }

  /** What the committed transaction writes, in terms of the draft. */
  lemma TransactionIsInsert(t: Tables, userId: int, d: Draft, code: string)
    requires CanCommit(t, userId, d, code)
    ensures Transaction(t, userId, d, code) ==
      Some(Insert(t, ProfileRow(userId, d, code), StoredLinks(LinkRows(userId, Buckets(d))), PaymentRowOf(userId, d)))
  {
  }

  /** A committed transaction adds the member's profile with the new code and a
      zero count, appends one row per link and one payment row, and leaves every
      earlier row as it was; the referral codes stay unique. */
  lemma TransactionAppends(t: Tables, userId: int, d: Draft, code: string)
    requires CodesUnique(t.profiles) && CanCommit(t, userId, d, code)
    ensures var t2 := Transaction(t, userId, d, code).value;
      var m := Buckets(d);
      t2.profiles.Keys == t.profiles.Keys + {userId} &&
      (forall u :: u in t.profiles ==> t2.profiles[u] == t.profiles[u]) &&
      t2.profiles[userId].referralCode == code && t2.profiles[userId].totalReferrals == 0 &&
      CodesUnique(t2.profiles) && Codes(t2.profiles) == Codes(t.profiles) + {code} &&
      t2.links[..|t.links|] == t.links &&
      |t2.links| == |t.links| + |Bucket(m, Facebook)| + |Bucket(m, Instagram)| + |Bucket(m, YouTube)| + |Bucket(m, OtherLinks)| &&
      t2.payments == t.payments + [PaymentRowOf(userId, d)]
  {
    var p := ProfileRow(userId, d, code);
    var rows := StoredLinks(LinkRows(userId, Buckets(d)));
    TransactionIsInsert(t, userId, d, code);
    LinkRowsLayout(userId, Buckets(d));
    AddProfileKeepsCodesUnique(t.profiles, p);
    InsertLayout(t, p, rows, PaymentRowOf(userId, d));
  }

  lemma InsertLayout(t: Tables, p: Profile, rows: seq<LinkRow>, pay: PaymentRow)
    ensures var t2 := Insert(t, p, rows, pay);
      t2.profiles == t.profiles[p.userId := p] && t2.links[..|t.links|] == t.links &&
      |t2.links| == |t.links| + |rows| && t2.payments == t.payments + [pay]
  {
    assert (t.links + rows)[..|t.links|] == t.links;
  }

  /** A link that fits its column is stored whole. */
  lemma FittingLinksStoredWhole(rows: seq<LinkRow>)
    requires forall k :: 0 <= k < |rows| ==> |rows[k].url| <= 500
    ensures StoredLinks(rows) == rows
  {
  }

  // ---------------------------------------------------------------------------
  // The referral counter.

  /** `update_referral_count`: every profile whose code is exactly `code` counts
      one more referral. */
  function CountReferral(profiles: map<int, Profile>, code: string): (r: map<int, Profile>)
    ensures r.Keys == profiles.Keys
    ensures forall u :: u in profiles ==>
      r[u].(totalReferrals := profiles[u].totalReferrals) == profiles[u] &&
      r[u].totalReferrals == profiles[u].totalReferrals + if profiles[u].referralCode == code then 1 else 0
  {
    map u | u in profiles :: if profiles[u].referralCode == code
                             then profiles[u].(totalReferrals := profiles[u].totalReferrals + 1)
                             else profiles[u]
  }

  /** With unique codes, the invitation raises exactly the inviter's count by one. */
  lemma InviterCountedOnce(profiles: map<int, Profile>, inviter: int)
    requires CodesUnique(profiles) && inviter in profiles
    ensures var r := CountReferral(profiles, profiles[inviter].referralCode);
      r[inviter].totalReferrals == profiles[inviter].totalReferrals + 1 &&
      forall u :: u in profiles && u != inviter ==> r[u] == profiles[u]
  {
  }

  /** The counter touches no referral code, so the codes stay as they were. */
  lemma CountReferralKeepsCodes(profiles: map<int, Profile>, code: string)
    ensures Codes(CountReferral(profiles, code)) == Codes(profiles)
    ensures CodesUnique(profiles) ==> CodesUnique(CountReferral(profiles, code))
  {
    var r := CountReferral(profiles, code);
    forall c | c in Codes(r) ensures c in Codes(profiles) {
      var u :| u in r && r[u].referralCode == c;
      assert profiles[u].referralCode == c;
    }
    forall c | c in Codes(profiles) ensures c in Codes(r) {
      var u :| u in profiles && profiles[u].referralCode == c;
      assert r[u].referralCode == c;
    }
  }

  /** A code no profile has changes nothing, so an invitation written in another
      letter case than the inviter's code, which validation accepts, is not
      counted. */
  lemma UnknownCodeCountsNothing(profiles: map<int, Profile>, code: string)
    requires code !in Codes(profiles)
    ensures CountReferral(profiles, code) == profiles
  {
    forall u | u in profiles ensures profiles[u].referralCode != code {
      assert profiles[u].referralCode in Codes(profiles);
    }
  }
}

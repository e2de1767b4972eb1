/**
 * The thirty conversation stages of the registration dialogue, in the order of
 * their numbers (0 to 29), and the table that maps a saved stage back to the
 * stage a resumed registration continues at.
 */
module Stages {

  datatype Stage =
    | ReferralStage | FullName | Country | Gender | BirthYear | Phone | Email
    | SocialMediaMenu | FacebookUrl | InstagramUrl | YoutubeUrl | OtherSocialMedia
    | PaymentMethod | WalletType | WalletAddress | NewWalletType
    | TransferDetails | TransferPhone | TransferLocation | TransferCompany
    | Confirmation | EditChoice
    | EditFullName | EditCountry | EditGender | EditBirthYear | EditPhone | EditEmail
    | EditSocialMedia | EditPaymentMethod

  /** The stages whose names appear in the resume table of `handle_invited_user`. */
  predicate InResumeTable(s: Stage) {
    s in {ReferralStage, FullName, Country, Gender, BirthYear, Phone, Email,
          SocialMediaMenu, FacebookUrl, InstagramUrl, YoutubeUrl, OtherSocialMedia,
          PaymentMethod, WalletType, NewWalletType, WalletAddress, TransferDetails}
  }

  /** The four stages that wait for a link typed by the user. */
  predicate IsUrlStage(s: Stage) {
    s == FacebookUrl || s == InstagramUrl || s == YoutubeUrl || s == OtherSocialMedia
  }

  /** `stage_mapping.get(saved, REFERRAL_STAGE)`: the result is always a stage
      of the table, it is the saved stage exactly when that one is in the
      table, and otherwise the invitation question. */
  function ResumeStage(saved: Stage): (r: Stage)
    ensures InResumeTable(r)
    ensures r == saved <==> InResumeTable(saved)
    ensures r != saved ==> r == ReferralStage
  {
    if InResumeTable(saved) then saved else ReferralStage
  }

  /** The checkpoints the bot writes at the confirmation, edit-menu and later
      transfer steps are not in the resume table, so they resume at the start. */
  lemma UnmappedCheckpointsRestart()
    ensures ResumeStage(Confirmation) == ReferralStage
    ensures ResumeStage(EditChoice) == ReferralStage
    ensures ResumeStage(TransferPhone) == ReferralStage
    ensures ResumeStage(TransferLocation) == ReferralStage
    ensures ResumeStage(TransferCompany) == ReferralStage
  {
  }
}

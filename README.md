# Registration bot: a Dafny model

This project models the core of a Telegram bot, `main.py`. The bot registers
promoters for a media-promotion organisation. A user joins with an
invitation code and then answers a chain of questions:

- full name, country, gender, birth year, phone and e-mail;
- links to their Facebook, Instagram, YouTube and other accounts, added from
  a menu ("the hub");
- how they want rewards paid: an electronic wallet, or a money transfer
  with name, phone, location and company.

The bot then shows a summary. The user confirms it, edits a field, or
cancels. Confirming writes one profile row, one row per link and one
payment row. It also credits the inviter with a referral. After each
accepted answer the bot saves the draft and its stage as a checkpoint, so a
later `/start` with an invitation resumes where the user stopped. A second
part of the program, the comment verification system, issues coded
comment tasks, pays a reward when a submitted comment carries the code, and
lists the open tasks of an admin catalogue.

The modules follow the program's structure:

| module | file | what it holds |
|---|---|---|
| `Wrappers` | wrappers.dfy | `Option` |
| `Strings` | strings.dfy | Python's `strip`, `lower`, `upper`, `in`, `split`, `rstrip`, on `seq<char>` |
| `SocialLinks` | links.dfy | the URL validators, `clean_social_media_url`, `extract_username` |
| `Validators` | validators.dfy | full name, birth year, phone pre-normalisation, e-mail pattern |
| `Stages` | stages.dfy | the conversation stages and the resume table |
| `Referral` | referral.dfy | the code format, `validate_referral_code`, the generator's retry loop |
| `Drafts` | drafts.dfy | the draft (`user_data`), its link buckets, the checkpoint, fixed choice lists |
| `Handlers` | handlers.dfy | one function per conversation handler, and the stage wiring |
| `HandlerFacts` | handler_facts.dfy | what each handler does, proved per handler |
| `Columns` | columns.dfy | PostgreSQL `VARCHAR(n)`, `DECIMAL(10,2)` and `INTEGER` limits |
| `Commit` | commit.dfy | `save_all_data`: the rows it writes, the transaction, `update_referral_count` |
| `Bot` | bot.dfy | the whole bot: sessions, checkpoints, tables; the class `RegistrationBot` |
| `BotFacts` | bot_facts.dfy | what one update does to the whole bot |
| `Comments` | comments.dfy | `CommentVerificationSystem`, as the class `CommentSystem` over its three tables |

Design:

- A handler is a pure function. It takes the draft and one event (a text, a
  pressed button or a command) and returns an `Outcome`: the next stage (or
  the end, or the commit), the new draft, and the checkpoint it wrote.
- `Bot.Deliver` gives the effect of one update on the whole bot (a
  `World`). It follows the framework's rules. Outside the conversation only
  `/start` enters it. The global `/newstart` handler runs outside the
  conversation too. Inside the conversation, commands reach only the
  fallbacks `/cancel` and `/newstart`.
- `Bot.RegistrationBot` keeps the same state in fields and updates it in
  place. `Receive` is proved to produce exactly `Deliver`. `SaveAllData`
  emits the link rows with loops and is proved to produce exactly
  `Committed`.
- The database is three tables of values: profiles keyed by user id, and
  the link and payment rows in insertion order. A value longer than its
  `VARCHAR(n)` column makes the insert fail, unless the excess is only
  spaces, which PostgreSQL cuts off. A failed insert rolls the whole
  transaction back.
- The comment system's ledger holds the task, reward and catalogue tables.
  Each method of `Comments.CommentSystem` is proved equal to a function on
  the ledger (`CreateOn`, `VerifyOn`, `AddCatalogOn`, `ActiveRows`). The
  lemmas are stated about those functions. `Comments.LedgerValid`
  is the invariant the class keeps: task ids increasing and drawn from the
  task table's sequence, serial catalogue ids, unique codes, and exactly
  one approved reward per verified task. The sequence is a counter in the
  ledger. Like PostgreSQL's, it is not rolled back with a failed
  transaction, so task ids can have gaps.
- Outside facts are parameters:
  - the clock's year is `currentYear`;
  - the phone library's verdict and E.164 form is `e164`;
  - the generator's random draws are the sequence `candidates`;
  - the MD5 hex digest of the comment code is `digest`.

Behaviour of the code that the model keeps as written:

- A failed save in `handle_confirmation` ends the conversation
  (main.py:2065-2067). It does not stay at the confirmation.
- `/cancel` does not delete the checkpoint (main.py:2428-2435).
- `clean_social_media_url` removes `www.` only right after a scheme (main.py:518). `www.facebook.com/alice` and `facebook.com/alice` therefore stay two different links.
- The resume table has no entry for the confirmation, edit and later
  transfer stages. Such a checkpoint restarts at the invitation question
  (main.py:994-1014).
- `get_payment_method` and `edit_payment_method` store the chosen method
  before they check it (main.py:1761, 2786). `edit_payment_method` deletes
  the payment keys even for an invalid choice (main.py:2788-2795).
- A successful save whose draft lacks one of the four link buckets fails
  in `show_final_summary` (main.py:2222-2225) after the commit. The
  conversation then stays at the confirmation.

## Model

| member | source | states |
|---|---|---|
| SocialLinks.FacebookAccepts | main.py:461-464 | a URL containing `facebook.com` or `fb.com` in any letter case is a Facebook link |
| SocialLinks.InstagramAccepts | main.py:466-469 | a URL containing `instagram.com` or `instagr.am` in any case is an Instagram link |
| SocialLinks.YoutubeRejectsVideos | main.py:471-478 | a URL containing `youtube.com/watch` or `youtu.be/` in any case is refused as a YouTube channel |
| SocialLinks.YoutubeAcceptsChannels | main.py:471-480 | a URL containing `youtube.com` and no video marker after normalising is accepted |
| SocialLinks.YoutubeChannelExample | main.py:471-480 | `https://youtube.com/@alice` is accepted |
| SocialLinks.YoutubeVideoExample | main.py:471-480 | `https://youtube.com/watch?v=abc` is refused |
| SocialLinks.CleanFacebookForms | main.py:515-527 | a Facebook profile link cleans to `facebook.com/` and its handle in lower case. This holds whether it starts with nothing, `http://` or `https://`, the last two with or without `www.`, and whether it ends with the handle, one `/` or a query string |
| SocialLinks.CleanFacebookExample | main.py:515-527 | `https://facebook.com/Alice?ref=1` and `http://www.facebook.com/alice/` clean to the same key, so the duplicate check treats them as one |
| SocialLinks.HandleOfProfileLink | main.py:529-542 | a non-YouTube profile URL `https://host/name` or `https://www.host/name`, with no query string, gives the handle `@name` |
| Validators.BirthYearWindow | main.py:490-499 | a decimal year passes exactly when it lies between 1920 and the current year minus 13 |
| Validators.ValidateBirthYear | main.py:490-499 | for any text, the year is accepted exactly when `int()` reads it and the value lies in the window; the parsed value is returned also on refusal |
| Validators.SeparatorRefused | main.py:493 | a character U+001C to U+001F anywhere in the text makes `int()` fail: unlike `str.strip()`, it does not skip them as white space |
| Validators.SeparatorBeforeYearRefused | main.py:490-499 | `"\x1c1990"` is not a number to `int()`, so that birth year is refused |
| Validators.ParseDecimal | main.py:493 | `int()` reads back the decimal form of any natural number |
| Validators.GroupedDigitsRead | main.py:493 | `int()` reads `1_990` as 1990 |
| Validators.FullWidthDigitsRead | main.py:493 | `int()` reads the full-width digits `１９９０` as 1990 |
| Validators.SignedArabicDigitsRead | main.py:493 | `int()` reads a minus sign and Arabic-Indic digits between white space as -42 |
| Validators.MisplacedUnderscoresRefused | main.py:493 | a leading, trailing or doubled underscore makes `int()` fail |
| Validators.BareSignRefused | main.py:493 | a sign alone, or a sign followed by a space, makes `int()` fail |
| Validators.FullWidthBirthYear | main.py:490-497 | a birth year of 1990 typed in full-width digits is accepted once the current year is 2003 or later |
| Validators.LocalNumberGetsCountryCode | main.py:440-443 | a number not starting with `+` gets the country's dialling code in front, after spaces, dashes and brackets are removed |
| Validators.InternationalNumberKept | main.py:440-443 | a number starting with `+` keeps its own prefix |
| Validators.EmailAccepts | main.py:456-459 | a local part, `@`, a domain, a dot and two or more letters form an accepted address |
| Validators.EmailParts | main.py:456-459 | every accepted address has that shape |
| Validators.EmailExample | main.py:456-459 | `user@example.com` is accepted |
| Stages.ResumeStage | main.py:994-1014 | the resumed stage is always one of the resume table; it is the saved stage exactly when that stage is in the table, and the invitation question otherwise |
| Stages.UnmappedCheckpointsRestart | main.py:994-1014 | confirmation, edit choice and the last three transfer stages restart at the invitation question |
| Referral.FirstFree | main.py:384-408 | the drawn code is a candidate not yet taken; none means every candidate is taken |
| Referral.FirstFreeIsFirst | main.py:384-408 | the generator returns the first draw that is not taken |
| Referral.GenerateReferralCode | main.py:384-408 | the retry loop returns the first untaken candidate |
| Referral.NoneFree | main.py:384-408 | with every candidate taken the loop finds nothing |
| Referral.GeneratedCodeWellFormed | main.py:384-389 | a drawn code is eight upper-case ASCII letters or digits |
| Referral.IssuedCodeAccepted | main.py:1075-1098 | an issued code, typed in any letter case and with surrounding spaces, is a valid invitation |
| Referral.ShortCodeRefused | main.py:1075-1098 | a code shorter than three characters is never valid |
| Drafts.Fresh | main.py:2831-2851 | a fresh draft holds the user, four empty link buckets and no invitation, payment or editing flag |
| Handlers.FindDuplicate | main.py:501-513 | the loop reports a duplicate exactly when the bucket holds a link with the same cleaned key |
| Handlers.DeletePaymentKeys | main.py:2788-2792 | the deletion loop leaves the draft with no payment detail and every other field as it was |
| Handlers.ClearPayment | main.py:2788-2792 | the cleared draft has no wallet or transfer detail; every other field, the payment method among them, is kept |
| Handlers.Step | main.py:3419-3458 | a step keeps the draft's link buckets distinct and complete |
| Handlers.RestoreSocial | main.py:988-992 | a lost link dictionary is restored as four empty buckets; otherwise every saved bucket is kept and only a missing YouTube bucket is added, empty |
| HandlerFacts.FullNameStep | main.py:1188-1219 | the name step moves on and saves exactly when the stripped name is valid, storing it, and otherwise stays with nothing changed |
| HandlerFacts.CountryStep | main.py:1221-1241 | the country step accepts exactly the listed countries and stores the country with its dialling code |
| HandlerFacts.GenderStep | main.py:1243-1271 | the gender step accepts exactly the two listed choices |
| HandlerFacts.BirthYearStep | main.py:1273-1295 | the birth-year step moves on exactly when the year is valid, storing a year within the window |
| HandlerFacts.PhoneStep | main.py:1297-1320 | the phone step moves on exactly when the library accepts the number, storing its E.164 form |
| HandlerFacts.EmailStep | main.py:1322-1353 | the e-mail step moves on exactly when the stripped address matches the pattern |
| HandlerFacts.ReferralStep | main.py:1100-1186 | the invitation step changes at most the invitation, and only to a valid code or the one already held |
| HandlerFacts.ReferralYesNeedsInvitation | main.py:1109-1120 | answering "yes" moves on exactly when an invitation is already held |
| HandlerFacts.PersonalDetailsReachHub | main.py:1188-1353 | six valid answers in a row reach the hub with all six fields stored |
| HandlerFacts.AddLinkCases | main.py:1423-1622 | a skip word returns to the hub, a refused URL is asked for again with nothing changed, an accepted one goes to the duplicate check |
| HandlerFacts.StoreLinkAppends | main.py:1423-1622 | a new link is appended to its bucket and saved at the hub |
| HandlerFacts.StoreLinkRefusesDuplicate | main.py:1423-1622 | a duplicate link is refused and the bucket is unchanged |
| HandlerFacts.SameLinkTwiceRefused | main.py:1423-1622 | the same link sent twice is stored once |
| HandlerFacts.ResumeUnknownStage | main.py:1014 | a checkpoint at an unmapped stage resumes at the invitation question without saving |
| HandlerFacts.ResumeLinkStagesAtHub | main.py:1024-1027 | a checkpoint at the hub or a link stage resumes at the hub |
| HandlerFacts.ResumeRestoresDraft | main.py:984-992 | resuming restores the saved draft with the new invitation and keeps every saved bucket |
| HandlerFacts.CheckpointRoundTrip | main.py:288-318 | a draft saved at a mapped, non-link stage resumes at the same stage with the same draft |
| HandlerFacts.InvalidInvitationRefused | main.py:945-961 | an invalid invitation code ends the conversation with nothing changed |
| HandlerFacts.RegisteredUserTurnedAway | main.py:965-974 | a registered user's `/start` ends at once with nothing changed |
| HandlerFacts.PaymentMethodStoredUnchecked | main.py:1758-1788 | the method is stored before it is checked; an unknown method is asked for again without saving |
| HandlerFacts.WalletSteps | main.py:1790-1872 | a listed wallet is stored and leads to the address; "other" leads to a wallet name of 2 to 20 characters |
| HandlerFacts.WalletAddressRouting | main.py:1874-1898 | an address shorter than five characters is refused; a longer one returns to the edit menu when editing, else to the confirmation |
| HandlerFacts.TransferDetailOrder | main.py:1900-1998 | transfer details are collected in the order name, phone, location, each validated before it is stored |
| HandlerFacts.TransferCompanyRouting | main.py:1979-1998 | only a listed company completes the transfer details, returning to the edit menu or the confirmation |
| HandlerFacts.TransferStagesAgree | main.py:3438-3441 | the four transfer stages run the same handler and differ only in where a stay returns |
| HandlerFacts.EditPaymentClearsDetails | main.py:2782-2829 | editing the payment method deletes every payment detail even for an invalid choice, stores the new method and routes by it |
| HandlerFacts.EditToWalletReturnsToMenu | main.py:2782-2829 | switching to a wallet during editing returns to the edit menu with only the new wallet details |
| HandlerFacts.EditChoiceRoutes | main.py:2516-2603 | each field button of the edit menu opens that field's edit stage with the draft unchanged; any other button returns to the summary once every link bucket is filled |
| HandlerFacts.EditSocialOpensHub | main.py:2578-2581 | editing the links reopens the hub with the editing flag set |
| HandlerFacts.LeavingHubWhileEditing | main.py:1696-1703 | leaving the hub while editing returns to the edit menu and clears the flag |
| HandlerFacts.ConfirmRoutes | main.py:2056-2069 | confirming hands the draft to the commit; editing opens the edit menu |
| HandlerFacts.CancelKeepsCheckpoint | main.py:2428-2435 | `/cancel` ends the conversation and writes or deletes no checkpoint |
| Columns.Cut | main.py:171-185 | a stored value keeps its presence, is a prefix of the draft's value, and is whole when it fits its column |
| Commit.OtherPlatformFirstDomain | main.py:2133-2146 | an "other" link is tagged by the first listed domain it contains |
| Commit.OtherPlatformNoDomain | main.py:2133-2147 | a link with none of the listed domains is tagged "Other" |
| Commit.TaggedRows | main.py:2115-2131 | one row per link of a bucket, in order, with the user and the bucket's tag |
| Commit.OtherRows | main.py:2133-2151 | one row per "other" link, in order, tagged by its domain |
| Commit.LinkRowsLayout | main.py:2115-2151 | the link rows are the Facebook, Instagram, YouTube and other buckets in that order |
| Commit.EmitLinkRows | main.py:2113-2151 | the four insertion loops emit exactly those rows |
| Commit.StoredLinks | main.py:2115-2151 | each stored link is a prefix of its link, at most 500 characters long, the whole link when that is short enough, and short of it only by trailing spaces when it fits; the rest of the row is unchanged |
| Commit.FittingLinksStoredWhole | main.py:2115-2151 | links of at most 500 characters are stored unchanged |
| Commit.PaymentRowOf | main.py:2153-2177 | a wallet draft stores its wallet columns and none of the transfer columns, and any other draft the reverse |
| Commit.Transaction | main.py:2094-2196 | the transaction commits exactly when the user has no profile, the code is unused and every value fits its column |
| Commit.TransactionAppends | main.py:2094-2179 | a commit adds exactly this user's profile with the code and no referrals, keeps every other profile, keeps codes unique, and appends the link and payment rows |
| Commit.InviterCountedOnce | main.py:410-431 | with unique codes only the inviter's count rises, by one |
| Commit.CountReferralKeepsCodes | main.py:410-431 | counting a referral changes no code |
| Commit.UnknownCodeCountsNothing | main.py:410-431 | an unknown code changes no profile |
| Bot.AllowedAs | main.py:87-89 | a user is allowed only when both owner ids are set and the user is one of them, and is the owner exactly when equal to the first |
| Bot.ApplyKeepsValid | main.py:3419-3458 | applying a handler's outcome keeps every draft and checkpoint well formed |
| Bot.CommittedKeepsValid | main.py:2078-2200 | a commit, failed or not, keeps the bot well formed and referral codes unique |
| Bot.DeliverKeepsValid | main.py:3419-3458 | every update keeps the bot well formed |
| Bot.RegistrationBot.ApplyOutcome | main.py:288-318 | storing an outcome upserts the checkpoint, moves or ends the conversation and stores the draft |
| Bot.RegistrationBot.SaveAllData | main.py:2078-2200 | the save writes exactly the commit's effect and reports success exactly when a code was drawn and the transaction could commit |
| Bot.RegistrationBot.Receive | main.py:3419-3458 | one update changes the bot exactly as the conversation's rules say, and keeps it well formed |
| BotFacts.OtherUsersUntouched | main.py:3419-3458 | an update changes the stage, draft and checkpoint of its sender only |
| BotFacts.ConfirmReachesCommit | main.py:2061-2062 | the confirmation button commits the draft with the first free drawn code |
| BotFacts.CommitEffects | main.py:2078-2200 | a commit adds the profile with the code, appends the payment row, deletes the checkpoint, records the code, and leaves other non-inviter profiles unchanged |
| BotFacts.CommittedRows | main.py:2094-2177 | the committed profile table gains this user's row and the payment table one row |
| BotFacts.CommitCreditsInviter | main.py:2183-2184 | the inviter's referral count rises by one |
| BotFacts.CommitFailureEnds | main.py:2065-2067 | a failed commit ends the conversation and changes nothing else |
| BotFacts.CodesExhaustedChangeNothing | main.py:384-389 | when every drawn code is taken nothing changes |
| BotFacts.OutsideIgnored | main.py:3419-3458 | outside the conversation only `/start` and `/newstart` have any effect |
| BotFacts.NewStartOutside | main.py:2831-2851 | `/newstart` outside the conversation saves a fresh checkpoint at the first stage but does not enter it |
| BotFacts.CancelLeaves | main.py:2428-2435 | `/cancel` leaves the conversation and keeps the checkpoint and the tables |
| BotFacts.RegisteredStartKeepsTables | main.py:965-974 | a registered user's `/start` changes no table and no checkpoint |
| Comments.TaskCodeWellFormed | main.py:655-659 | a task code is `CMT` and eight upper-case hex digits |
| Comments.AddCatalogOn | main.py:3272-3279 | an admin task is appended after the others, with no participants and the next id, exactly when its values fit their columns; it is open exactly when its limit is not negative |
| Comments.ActiveRowsAreOpen | main.py:774-815 | every listed task is in the catalogue and open |
| Comments.OpenRowsListed | main.py:774-815 | every open task is listed |
| Comments.ListedIffOpen | main.py:785-790 | a task is listed exactly when it is active and has room or no limit |
| Comments.ActiveRowsNewestFirst | main.py:785-790 | the list runs from the newest task to the oldest |
| Comments.CreateOn | main.py:661-706 | a task is created exactly when its URL, platform and reward are given, its values fit, its code is new and the catalogue counter stays in range; it is pending and owned by the user, and its id is the sequence's next number; the sequence advances exactly when the INSERT runs, even if the transaction then fails; a failure changes no table; the chosen catalogue task gains one participant |
| Comments.CollisionLeavesGap | main.py:671-706 | a code that collides spends a sequence number, so the next task created skips that id |
| Comments.FindTask | main.py:725-732 | the lookup finds the user's task with the code, or reports none |
| Comments.VerifyOn | main.py:712-768 | only a rewarded verification changes the ledger; it marks the task verified and appends one approved reward of its amount |
| Comments.VerifyCases | main.py:725-756 | a task is refused when already verified or when the comment lacks its code, and rewarded otherwise |
| Comments.SecondSubmissionRefused | main.py:734-737 | a second submission for a verified task is refused |
| Comments.ProgressAfterReward | main.py:817-858 | a reward moves one task from pending to completed and adds its amount to the total |
| Comments.CreateKeepsValid | main.py:661-706 | creating a task keeps the ledger invariant |
| Comments.VerifyKeepsValid | main.py:712-768 | verifying keeps the ledger invariant |
| Comments.AddCatalogKeepsValid | main.py:3272-3279 | adding a catalogue task keeps the ledger invariant |
| Comments.CommentSystem.CreateVerificationTask | main.py:661-706 | the method changes the tables exactly as `CreateOn` says |
| Comments.CommentSystem.VerifyCommentSubmission | main.py:712-768 | the method changes the tables exactly as `VerifyOn` says |
| Comments.CommentSystem.AddCatalogTask | main.py:3272-3279 | the method adds the task exactly as `AddCatalogOn` says |
| Comments.CommentSystem.GetActiveTasks | main.py:774-815 | the loop lists exactly the open tasks, newest first, each with its free places (999 for no limit) |

## Left out

- Telegram I/O: messages, keyboards, message texts and the summaries are not modelled. Only the stage, the draft and the tables are.
- The database driver, `setup_database`, the connection retries and `test_database_connection` are left out. A failed connection is not modelled. A failed insert is modelled as a rollback.
- The `phonenumbers` library is the parameter `e164`: a number's E.164 form when it is valid.
- `random`, `md5` and the clock are parameters: `candidates`, `digest` and `currentYear`.
- Referral.GenerateReferralCode: when every candidate is taken, the source's loop never returns. The model returns `None`, and the bot then changes nothing.
- Comments: reward amounts are integers. `DECIMAL(10,2)` fractions and float conversion are not modelled. An amount must have at most eight integer digits.
- Comments: `ORDER BY created_at DESC` is taken as reverse insertion order, since timestamps are not modelled.
- Comments: `get_user_progress` uses SQL aggregates. It is the function `ProgressOf`, with no method.
- Comments: `admin_add_comment_task` is modelled by its INSERT only. Its argument parsing and text are left out.
- Comments: catalogue ids are modelled without gaps. The only failure of the catalogue INSERT in the model is a value that does not fit its column. PostgreSQL refuses such a literal while it plans the statement, before the sequence is drawn. The same holds for the task INSERT, whose sequence does not advance on that failure.
- The admin commands `bot_stats` and `admin_comment_stats`, the global commands `/profile`, `/invite`, `/support`, `/stats`, and the comment-menu handlers (main.py:2916-3235) are left out. They only read tables or drive the comment system's methods.
- `get_inviter_name`, the instruction texts and `main()` are left out.
- Checkpoint blob: the saved JSON is modelled as the draft itself. `telegram_username` in the checkpoint row is not modelled.
- Drafts: a key absent from `user_data` and a key holding `None` read the same through `dict.get`. The model does not tell them apart.
- Bot.Blank: a user with no stored draft gets the user id and no buckets. The source's `user_data` is empty there.
- Handlers: the individual handler functions carry only frame facts in their own contracts. The HandlerFacts lemmas state what each one does.
- Validators.ParseInt: the decimal digits are those of Unicode 15.0. Python's limit of 4300 digits on the conversion is not modelled. For a longer numeral the model returns the value where Python raises, so a year written after 4297 or more leading zeros is accepted by the model and refused by Python. Such text cannot reach the bot, because a Telegram message holds at most 4096 characters.
- Validators: `strip`, `split` and `\s` use CPython's whitespace set. `lower` and `upper` are ASCII only; there is no Unicode case mapping.
- Concurrency is left out: updates are handled one at a time.

/**
 * What one update does to the bot as a whole: it touches only its sender,
 * a confirmed registration is committed with its effects, and updates the
 * conversation does not take leave everything as it was.
 */
module BotFacts {
  import opened Wrappers
  import opened Stages
  import opened Drafts
  import opened Handlers
  import opened Referral
  import opened Commit
  import opened Bot

  /** An update changes the stage, draft and checkpoint of its sender only. */
  lemma OtherUsersUntouched(w: World, owner: int, telegramOwner: int, uid: int, username: Option<string>, ev: Event,
                            currentYear: int, e164: string -> Option<string>, candidates: seq<string>, u: int)
    requires u != uid
    ensures var w2 := Deliver(w, owner, telegramOwner, uid, username, ev, currentYear, e164, candidates);
      (u in w2.stages <==> u in w.stages) && (u in w.stages ==> w2.stages[u] == w.stages[u]) &&
      (u in w2.drafts <==> u in w.drafts) && (u in w.drafts ==> w2.drafts[u] == w.drafts[u]) &&
      (u in w2.checkpoints <==> u in w.checkpoints) && (u in w.checkpoints ==> w2.checkpoints[u] == w.checkpoints[u])
  {
    var d := DraftOf(w, uid);
    var env := EnvOf(w, uid, username, currentYear, e164);
    if uid in w.stages {
      var r := Step(w.stages[uid], d, ev, env);
      if r.next.Commit? {
        CommittedTouchesSender(w, uid, r.draft, FirstFree(candidates, Codes(w.tables.profiles)), u);
      } else {
        ApplyTouchesSender(w, uid, r, true, u);
      }
    } else if ev.Command? && ev.name == "start" {
      ApplyTouchesSender(w, uid, Start(d, ev.args, env, AllowedAs(uid, owner, telegramOwner), uid in w.tables.profiles, CheckpointOf(w, uid)), true, u);
    } else if ev.Command? && ev.name == "newstart" {
      ApplyTouchesSender(w, uid, NewStart(env), false, u);
    }
  }

  predicate SameUser(w: World, w2: World, u: int) {
    (u in w2.stages <==> u in w.stages) && (u in w.stages ==> w2.stages[u] == w.stages[u]) &&
    (u in w2.drafts <==> u in w.drafts) && (u in w.drafts ==> w2.drafts[u] == w.drafts[u]) &&
    (u in w2.checkpoints <==> u in w.checkpoints) && (u in w.checkpoints ==> w2.checkpoints[u] == w.checkpoints[u])
  }

  lemma ApplyTouchesSender(w: World, uid: int, r: Outcome, tracked: bool, u: int)
    requires u != uid
    ensures SameUser(w, Apply(w, uid, r, tracked), u)
  {
  }

  lemma CommittedTouchesSender(w: World, uid: int, d: Draft, code: Option<string>, u: int)
    requires u != uid
    ensures SameUser(w, Committed(w, uid, d, code), u)
  {
  }

  /** The confirmation button hands the draft to the commit, with the code the
      generator draws against the codes of the profile table. */
  lemma ConfirmReachesCommit(w: World, owner: int, telegramOwner: int, uid: int, username: Option<string>,
                             currentYear: int, e164: string -> Option<string>, candidates: seq<string>)
    requires uid in w.stages && w.stages[uid] == Confirmation
    ensures Deliver(w, owner, telegramOwner, uid, username, Button("confirm_yes"), currentYear, e164, candidates) ==
      Committed(w, uid, DraftOf(w, uid), FirstFree(candidates, Codes(w.tables.profiles)))
  {
    ConfirmStep(DraftOf(w, uid), EnvOf(w, uid, username, currentYear, e164));
  }

  /** At the confirmation the button `confirm_yes` asks for the commit of the draft as it is. */
  lemma ConfirmStep(d: Draft, env: Env)
    ensures Step(Confirmation, d, Button("confirm_yes"), env) == Outcome(Commit, d, None)
  {
    assert Confirm(d, "confirm_yes") == Outcome(Commit, d, None);
  }

  /** A transaction that can commit adds the profile with the drawn code,
      leaves every earlier profile other than the inviter's unchanged, appends
      the payment row, deletes the checkpoint, records the code in the draft,
      and ends the conversation when the summary can be shown. */
  lemma CommitEffects(w: World, uid: int, d: Draft, c: string)
    requires CanCommit(w.tables, uid, d, c)
    ensures var w2 := Committed(w, uid, d, Some(c));
      uid in w2.tables.profiles && w2.tables.profiles[uid].referralCode == c &&
      w2.tables.profiles.Keys == w.tables.profiles.Keys + {uid} &&
      uid !in w2.checkpoints && w2.drafts[uid] == d.(referralCode := Some(c)) &&
      (uid in w2.stages <==> uid in w.stages && !HasAllBuckets(Buckets(d))) &&
      w2.tables.payments == w.tables.payments + [PaymentRowOf(uid, d)] &&
      (forall v :: v in w.tables.profiles && !(Truthy(d.invitedBy) && w.tables.profiles[v].referralCode == d.invitedBy.value) ==>
         w2.tables.profiles[v] == w.tables.profiles[v])
  {
    CommittedRows(w.tables, uid, d, c);
  }

  /** The profile and payment tables a committed transaction leaves. */
  lemma CommittedRows(t: Tables, userId: int, d: Draft, code: string)
    requires CanCommit(t, userId, d, code)
    ensures var t2 := Transaction(t, userId, d, code).value;
      t2.profiles == t.profiles[userId := ProfileRow(userId, d, code)] &&
      t2.payments == t.payments + [PaymentRowOf(userId, d)]
  {
    TransactionIsInsert(t, userId, d, code);
  }

  /** The inviter of a committed registration counts one more referral, when
      the invitation is exactly its code. */
  lemma CommitCreditsInviter(w: World, uid: int, d: Draft, c: string, inviter: int)
    requires CanCommit(w.tables, uid, d, c)
    requires inviter in w.tables.profiles && d.invitedBy == Some(w.tables.profiles[inviter].referralCode)
    requires |w.tables.profiles[inviter].referralCode| > 0
    ensures var w2 := Committed(w, uid, d, Some(c));
      w2.tables.profiles[inviter].totalReferrals == w.tables.profiles[inviter].totalReferrals + 1
  {
    CommittedRows(w.tables, uid, d, c);
  }

  /** A transaction that cannot commit ends the conversation and changes nothing else. */
  lemma CommitFailureEnds(w: World, uid: int, d: Draft, c: string)
    requires !CanCommit(w.tables, uid, d, c)
    ensures Committed(w, uid, d, Some(c)) == w.(stages := w.stages - {uid})
  {
  }

  /** When every candidate code is taken the generator never returns, and the
      update changes nothing. */
  lemma CodesExhaustedChangeNothing(w: World, uid: int, d: Draft, candidates: seq<string>)
    requires forall i :: 0 <= i < |candidates| ==> candidates[i] in Codes(w.tables.profiles)
    ensures Committed(w, uid, d, FirstFree(candidates, Codes(w.tables.profiles))) == w
  {
    NoneFree(candidates, Codes(w.tables.profiles));
  }

  /** Outside the conversation, text, buttons and commands other than `/start`
      and `/newstart` change nothing. */
  lemma OutsideIgnored(w: World, owner: int, telegramOwner: int, uid: int, username: Option<string>, ev: Event,
                       currentYear: int, e164: string -> Option<string>, candidates: seq<string>)
    requires uid !in w.stages
    requires !(ev.Command? && (ev.name == "start" || ev.name == "newstart"))
    ensures Deliver(w, owner, telegramOwner, uid, username, ev, currentYear, e164, candidates) == w
  {
  }

  /** `/newstart` outside the conversation replaces the checkpoint by a fresh one
      at the first stage, yet leaves the user outside the conversation. */
  lemma NewStartOutside(w: World, owner: int, telegramOwner: int, uid: int, username: Option<string>,
                        currentYear: int, e164: string -> Option<string>, candidates: seq<string>)
    requires uid !in w.stages
    ensures var w2 := Deliver(w, owner, telegramOwner, uid, username, Command("newstart", []), currentYear, e164, candidates);
      uid !in w2.stages && w2.checkpoints[uid] == Checkpoint(ReferralStage, Fresh(uid, username)) &&
      w2.drafts[uid] == Fresh(uid, username) && w2.tables == w.tables
  {
  }

  /** `/cancel` ends the conversation and keeps the checkpoint and the tables. */
  lemma CancelLeaves(w: World, owner: int, telegramOwner: int, uid: int, username: Option<string>, args: seq<string>,
                     currentYear: int, e164: string -> Option<string>, candidates: seq<string>)
    requires uid in w.stages
    ensures var w2 := Deliver(w, owner, telegramOwner, uid, username, Command("cancel", args), currentYear, e164, candidates);
      uid !in w2.stages && w2.checkpoints == w.checkpoints && w2.tables == w.tables &&
      w2.drafts == w.drafts[uid := DraftOf(w, uid)]
  {
  }

  /** A registered user's `/start` changes no table and no checkpoint. */
  lemma RegisteredStartKeepsTables(w: World, owner: int, telegramOwner: int, uid: int, username: Option<string>, args: seq<string>,
                                   currentYear: int, e164: string -> Option<string>, candidates: seq<string>)
    requires uid !in w.stages && uid in w.tables.profiles
    ensures var w2 := Deliver(w, owner, telegramOwner, uid, username, Command("start", args), currentYear, e164, candidates);
      uid !in w2.stages && w2.checkpoints == w.checkpoints && w2.tables == w.tables
  {
  }
}

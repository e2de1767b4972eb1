/**
 * The running bot: which users are inside the registration conversation and
 * at which stage, each user's draft, the saved checkpoints and the profile
 * tables. One update at a time is routed as the conversation handler routes
 * it, and a confirmed draft is committed by `save_all_data`.
 */
module Bot {
  import opened Wrappers
  import opened Stages
  import opened Drafts
  import opened Handlers
  import opened Referral
  import opened Commit

  /** `ALLOWED_USER_IDS`: the owner and the Telegram owner when both ids are
      configured, nobody otherwise; a member of the list is `Some(isOwner)`. */
  function AllowedAs(uid: int, owner: int, telegramOwner: int): (r: Option<bool>)
    ensures r.Some? <==> owner != 0 && telegramOwner != 0 && (uid == owner || uid == telegramOwner)
    ensures r.Some? ==> (r.value <==> uid == owner)
  {
    var allowed := if owner != 0 && telegramOwner != 0 then [owner, telegramOwner] else [];
    if uid in allowed then Some(uid == owner) else None
  }

  /** Everything the bot keeps: the conversation stage of each user inside it,
      the per-user drafts, the checkpoint table and the profile tables. */
  datatype World = World(
    stages: map<int, Stage>,
    drafts: map<int, Draft>,
    checkpoints: map<int, Checkpoint>,
    tables: Tables)

  /** The draft of a user the bot has not talked to: an empty dictionary. */
  function Blank(uid: int): (d: Draft)
    ensures Valid(d) && d.social == None && d.invitedBy == None
  {
    Fresh(uid, None).(social := None)
  }

  function DraftOf(w: World, uid: int): Draft {
    if uid in w.drafts then w.drafts[uid] else Blank(uid)
  }

  function CheckpointOf(w: World, uid: int): Option<Checkpoint> {
    if uid in w.checkpoints then Some(w.checkpoints[uid]) else None
  }

  function EnvOf(w: World, uid: int, username: Option<string>, currentYear: int, e164: string -> Option<string>): Env {
    Env(uid, username, currentYear, e164, Codes(w.tables.profiles))
  }

  /** The invariant of the bot: every draft and checkpoint keeps the draft
      invariant, and no two profiles share a referral code. */
  predicate WorldValid(w: World) {
    (forall u :: u in w.drafts ==> Valid(w.drafts[u])) &&
    (forall u :: u in w.checkpoints ==> Valid(w.checkpoints[u].draft)) &&
    CodesUnique(w.tables.profiles)
  }

  /** The result of a handler applied to the world: the draft is stored, the
      checkpoint it wrote replaces the user's, and when the handler runs inside
      the conversation (`tracked`) the user moves to the returned stage or leaves
      on `END`. */
  function Apply(w: World, uid: int, r: Outcome, tracked: bool): World {
    var cps := if r.saved.Some? then w.checkpoints[uid := r.saved.value] else w.checkpoints;
    var st := if !tracked then w.stages
              else match r.next
                   case At(s) => w.stages[uid := s]
                   case End => w.stages - {uid}
                   case Commit => w.stages;
    World(st, w.drafts[uid := r.draft], cps, w.tables)
  }

  /** The `confirm_yes` branch. `code` is what the code generator settles on;
      when it finds none it never returns and nothing changes. A failed
      transaction ends the conversation; a committed one credits the inviter,
      deletes the checkpoint, records the code in the draft, and ends the
      conversation unless the summary fails on a missing bucket. */
  function Committed(w: World, uid: int, d: Draft, code: Option<string>): World {
    match code
    case None => w
    case Some(c) =>
      match Transaction(w.tables, uid, d, c)
      case None => w.(stages := w.stages - {uid})
      case Some(t) =>
        var profiles := if Truthy(d.invitedBy) then CountReferral(t.profiles, d.invitedBy.value) else t.profiles;
        var d2 := d.(referralCode := Some(c));
        World(if HasAllBuckets(Buckets(d)) then w.stages - {uid} else w.stages,
              w.drafts[uid := d2], w.checkpoints - {uid}, t.(profiles := profiles))
  }

  /** One update from user `uid`. Inside the conversation it goes to the stage's
      handler or a fallback; outside, only `/start` enters the conversation, and
      `/newstart` runs as a plain command that writes a checkpoint but does not
      enter it. */
  function Deliver(w: World, owner: int, telegramOwner: int, uid: int, username: Option<string>, ev: Event,
                   currentYear: int, e164: string -> Option<string>, candidates: seq<string>): World
  {
    var d := DraftOf(w, uid);
    var env := EnvOf(w, uid, username, currentYear, e164);
    if uid in w.stages then
      var r := Step(w.stages[uid], d, ev, env);
      if r.next.Commit? then Committed(w, uid, r.draft, FirstFree(candidates, Codes(w.tables.profiles)))
      else Apply(w, uid, r, true)
    else if ev.Command? && ev.name == "start" then
      Apply(w, uid, Start(d, ev.args, env, AllowedAs(uid, owner, telegramOwner), uid in w.tables.profiles, CheckpointOf(w, uid)), true)
    else if ev.Command? && ev.name == "newstart" then
      Apply(w, uid, NewStart(env), false)
    else w
  }

  // ---------------------------------------------------------------------------
  // The invariant.

  lemma ApplyKeepsValid(w: World, uid: int, r: Outcome, tracked: bool)
    requires WorldValid(w) && ValidOutcome(r)
    ensures WorldValid(Apply(w, uid, r, tracked))
  {
  }

  lemma CommittedKeepsValid(w: World, uid: int, d: Draft, code: Option<string>)
    requires WorldValid(w) && Valid(d)
    ensures WorldValid(Committed(w, uid, d, code))
  {
    if code.Some? && Transaction(w.tables, uid, d, code.value).Some? {
      var c := code.value;
      var t := Transaction(w.tables, uid, d, c).value;
      TransactionKeepsUnique(w.tables, uid, d, c, t);
      var profiles := if Truthy(d.invitedBy) then CountReferral(t.profiles, d.invitedBy.value) else t.profiles;
      if Truthy(d.invitedBy) {
        CountReferralKeepsCodes(t.profiles, d.invitedBy.value);
      }
      CommitWorldValid(w, uid, d.(referralCode := Some(c)), t.(profiles := profiles), HasAllBuckets(Buckets(d)));
    }
  }

  lemma TransactionKeepsUnique(t0: Tables, uid: int, d: Draft, c: string, t: Tables)
    requires CodesUnique(t0.profiles) && Transaction(t0, uid, d, c) == Some(t)
    ensures CodesUnique(t.profiles)
  {
    TransactionAppends(t0, uid, d, c);
  }

  lemma CommitWorldValid(w: World, uid: int, d2: Draft, t: Tables, ends: bool)
    requires WorldValid(w) && Valid(d2) && CodesUnique(t.profiles)
    ensures WorldValid(World(if ends then w.stages - {uid} else w.stages, w.drafts[uid := d2], w.checkpoints - {uid}, t))
  {
  }

  /** Every update keeps the invariant of the bot. */
  lemma DeliverKeepsValid(w: World, owner: int, telegramOwner: int, uid: int, username: Option<string>, ev: Event,
                          currentYear: int, e164: string -> Option<string>, candidates: seq<string>)
    requires WorldValid(w)
    ensures WorldValid(Deliver(w, owner, telegramOwner, uid, username, ev, currentYear, e164, candidates))
  {
    var d := DraftOf(w, uid);
    var env := EnvOf(w, uid, username, currentYear, e164);
    assert Valid(d);
    var cp := CheckpointOf(w, uid);
    assert cp.Some? ==> Valid(cp.value.draft);
    if uid in w.stages {
      var r := Step(w.stages[uid], d, ev, env);
      if r.next.Commit? {
        CommittedKeepsValid(w, uid, r.draft, FirstFree(candidates, Codes(w.tables.profiles)));
      } else {
        ApplyKeepsValid(w, uid, r, true);
      }
    } else if ev.Command? && ev.name == "start" {
      ApplyKeepsValid(w, uid, Start(d, ev.args, env, AllowedAs(uid, owner, telegramOwner), uid in w.tables.profiles, cp), true);
    } else if ev.Command? && ev.name == "newstart" {
      ApplyKeepsValid(w, uid, NewStart(env), false);
    }
  }

  // ---------------------------------------------------------------------------
  // The bot object.

  class RegistrationBot {
    const owner: int
    const telegramOwner: int
    var stages: map<int, Stage>
    var drafts: map<int, Draft>
    var checkpoints: map<int, Checkpoint>
    var tables: Tables

    function Snapshot(): World
      reads this
    {
      World(stages, drafts, checkpoints, tables)
    }

    ghost predicate Valid()
      reads this
    {
      WorldValid(Snapshot())
    }

    /** A bot with empty tables and nobody in the conversation. */
    constructor (owner: int, telegramOwner: int)
      ensures Valid()
      ensures this.owner == owner && this.telegramOwner == telegramOwner
      ensures stages == map[] && drafts == map[] && checkpoints == map[]
      ensures tables == Tables(map[], [], [])
    {
      this.owner := owner;
      this.telegramOwner := telegramOwner;
      stages := map[];
      drafts := map[];
      checkpoints := map[];
      tables := Tables(map[], [], []);
    }

    /** Stores a handler's result. */
    method ApplyOutcome(uid: int, r: Outcome, tracked: bool)
      modifies this
      ensures Snapshot() == Apply(old(Snapshot()), uid, r, tracked)
    {
      drafts := drafts[uid := r.draft];
      if r.saved.Some? {
        checkpoints := checkpoints[uid := r.saved.value];
      }
      if tracked {
        match r.next
        case At(s) => stages := stages[uid := s];
        case End => stages := stages - {uid};
        case Commit =>
      }
    }

    /** `save_all_data` followed by the end of `handle_confirmation`: draws the
        referral code, builds the link rows, runs the transaction, and then
        credits the inviter and deletes the checkpoint. `ok` is its return value. */
    method SaveAllData(uid: int, d: Draft, candidates: seq<string>) returns (ok: bool)
      modifies this
      ensures Snapshot() == Committed(old(Snapshot()), uid, d, FirstFree(candidates, Codes(old(tables.profiles))))
      ensures ok <==> FirstFree(candidates, Codes(old(tables.profiles))).Some? &&
                      CanCommit(old(tables), uid, d, FirstFree(candidates, Codes(old(tables.profiles))).value)
    {
      var code := GenerateReferralCode(candidates, Codes(tables.profiles));
      if code.None? {
        return false;
      }
      var c := code.value;
      if !CanCommit(tables, uid, d, c) {
        stages := stages - {uid};
        return false;
      }
      var rows := EmitLinkRows(uid, Buckets(d));
      tables := Insert(tables, ProfileRow(uid, d, c), StoredLinks(rows), PaymentRowOf(uid, d));
      if Truthy(d.invitedBy) {
        tables := tables.(profiles := CountReferral(tables.profiles, d.invitedBy.value));
      }
      checkpoints := checkpoints - {uid};
      drafts := drafts[uid := d.(referralCode := Some(c))];
      if HasAllBuckets(Buckets(d)) {
        stages := stages - {uid};
      }
      ok := true;
    }

    /** One update from user `uid`, with the clock's year, the phone-number
        library and the stream of random referral-code candidates. */
    method Receive(uid: int, username: Option<string>, ev: Event, currentYear: int,
                   e164: string -> Option<string>, candidates: seq<string>)
      requires Valid()
      modifies this
      ensures Valid()
      ensures Snapshot() == Deliver(old(Snapshot()), owner, telegramOwner, uid, username, ev, currentYear, e164, candidates)
    {
      ghost var w := Snapshot();
      var d := if uid in drafts then drafts[uid] else Blank(uid);
      var env := Env(uid, username, currentYear, e164, Codes(tables.profiles));
      if uid in stages {
        var r := Step(stages[uid], d, ev, env);
        if r.next.Commit? {
          var _ := SaveAllData(uid, r.draft, candidates);
        } else {
          ApplyOutcome(uid, r, true);
        }
      } else if ev.Command? && ev.name == "start" {
        var cp := if uid in checkpoints then Some(checkpoints[uid]) else None;
        var r := Start(d, ev.args, env, AllowedAs(uid, owner, telegramOwner), uid in tables.profiles, cp);
        ApplyOutcome(uid, r, true);
      } else if ev.Command? && ev.name == "newstart" {
        ApplyOutcome(uid, NewStart(env), false);
      }
      DeliverKeepsValid(w, owner, telegramOwner, uid, username, ev, currentYear, e164, candidates);
    }
  }
}
